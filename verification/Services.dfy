/** Service records as the dependency algorithms see them: a name and a list of typed links. */
module Services {
  import opened Graph

  datatype DepType = Regular | Soft | WaitsFor | Milestone | Before | After | PreparedBy

  datatype Dep = Dep(to: Name, kind: DepType)

  datatype Svc = Svc(name: Name, deps: seq<Dep>)

  /** The deepest dependency chain the loader and the linter accept. */
  const MAX_DEP_DEPTH: nat := 32

  /** An ordering-only link takes no part in depth accounting. */
  predicate IsOnlyOrdering(k: DepType) {
    k == Before || k == After
  }

  /** A service set hands out each name once. */
  predicate DistinctNames(services: seq<Svc>) {
    forall i, j :: 0 <= i < j < |services| ==> services[i].name != services[j].name
  }

  /** The link list of each listed service, by name. */
  ghost function ByName(services: seq<Svc>): (m: map<Name, seq<Dep>>)
    requires DistinctNames(services)
    ensures forall i :: 0 <= i < |services| ==> services[i].name in m && m[services[i].name] == services[i].deps
    ensures forall n :: n in m ==> exists i :: 0 <= i < |services| && services[i].name == n
  {
    map i | 0 <= i < |services| :: services[i].name := services[i].deps
  }

  function TargetNames(deps: seq<Dep>): (r: seq<Name>)
    ensures |r| == |deps| && forall i :: 0 <= i < |deps| ==> r[i] == deps[i].to
  {
    seq(|deps|, i requires 0 <= i < |deps| => deps[i].to)
  }

  /** The graph of all links, ordering links included. */
  ghost function LinkGraph(links: map<Name, seq<Dep>>): (g: Graph) {
    map n | n in links :: TargetNames(links[n])
  }
}
