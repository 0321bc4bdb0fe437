/** Loading a service: a memoised recursive descent over the service descriptions, with a
    depth limit and a set of services being loaded. */
module Loader {
  import opened Graph
  import opened Services

  /** One dependency line of a description, or a dependency directory that cannot be read.
      The target of an optional line may be missing. */
  datatype Item = Link(target: Name, kind: DepType, optional: bool) | UnreadableDir

  /** What the service directories hold for a name.  `Rejected` covers an invalid name, a file
      that does not parse and a description that fails validation. */
  datatype Desc = Missing | Rejected | Found(items: seq<Item>)

  /** No service has a hidden name: it is not a valid one. */
  predicate Hidden(n: Name) {
    n != "" && n[0] == '\0'
  }

  type Files = f: Name -> Desc | forall n :: Hidden(n) ==> f(n).Rejected? witness (_ => Rejected)

  datatype Rec = Rec(deps: seq<Dep>, depth: nat)

  type ServiceMap = map<Name, Rec>

  /** One entry in the list of a record's dependents: a link of `from` to the record. */
  datatype Dept = Dept(from: Name, kind: DepType)

  type Dependents = map<Name, seq<Dept>>

  /** The loader's fields: the service set, the names being loaded and the current depth; and what
      the records hold beyond the set.  A record that was taken out of the set when its load failed
      is an orphan: other records may still list it as a dependent, or link to it.  Records are
      told apart by keys, the name for a service of the set and a hidden name for an orphan. */
  datatype State = State(
    services: ServiceMap, orphans: seq<Rec>, dependents: Dependents, loading: set<Name>, curDepth: int)

  /** `NotFound` is the error that an optional dependency tolerates, at whatever level of the
      recursion it arose. */
  datatype Outcome = Loaded | NotFound | Failed

  function Budget(st: State): nat {
    if st.curDepth < MAX_DEP_DEPTH then MAX_DEP_DEPTH - st.curDepth else 0
  }

  function DepthOf(services: ServiceMap, n: Name): nat {
    if n in services then services[n].depth else 0
  }

  /** One more than the deepest dependency, or zero without dependencies. */
  function CalcDepth(services: ServiceMap, deps: seq<Dep>): (d: nat)
    ensures forall i :: 0 <= i < |deps| ==> DepthOf(services, deps[i].to) < d
    ensures d > 0 ==> exists i :: 0 <= i < |deps| && d == DepthOf(services, deps[i].to) + 1
  {
    if deps == [] then 0
    else
      var n := |deps| - 1;
      var rest := CalcDepth(services, deps[..n]);
      var d := DepthOf(services, deps[n].to) + 1;
      if d > rest then d else rest
  }

  /** Nothing already in the set is touched. */
  ghost predicate Extends(before: ServiceMap, after: ServiceMap) {
    forall n :: n in before ==> n in after && after[n] == before[n]
  }

  // ----- entering and leaving the set -----

  /** The key of the orphan number `i`. */
  function OrphanKey(i: nat): (k: Name)
    ensures Hidden(k) && |k| == i + 1
  {
    seq(i + 1, _ => '\0')
  }

  function DeptsOf(dependents: Dependents, n: Name): seq<Dept> {
    if n in dependents then dependents[n] else []
  }

  /** The record `n` is known by the key `key` from now on. */
  function Rekey(m: Name, n: Name, key: Name): Name {
    if m == n then key else m
  }

  function RekeyDeps(deps: seq<Dep>, n: Name, key: Name): (r: seq<Dep>)
    ensures |r| == |deps| && forall i :: 0 <= i < |r| ==> r[i] == Dep(Rekey(deps[i].to, n, key), deps[i].kind)
  {
    seq(|deps|, i requires 0 <= i < |deps| => Dep(Rekey(deps[i].to, n, key), deps[i].kind))
  }

  function RekeyDepts(ds: seq<Dept>, n: Name, key: Name): (r: seq<Dept>)
    ensures |r| == |ds| && forall i :: 0 <= i < |r| ==> r[i] == Dept(Rekey(ds[i].from, n, key), ds[i].kind)
  {
    seq(|ds|, i requires 0 <= i < |ds| => Dept(Rekey(ds[i].from, n, key), ds[i].kind))
  }

  function RekeyRec(r: Rec, n: Name, key: Name): Rec {
    Rec(RekeyDeps(r.deps, n, key), r.depth)
  }

  function RekeyRecs(rs: seq<Rec>, n: Name, key: Name): (r: seq<Rec>)
    ensures |r| == |rs| && forall i :: 0 <= i < |r| ==> r[i] == RekeyRec(rs[i], n, key)
  {
    seq(|rs|, i requires 0 <= i < |rs| => RekeyRec(rs[i], n, key))
  }

  /** A new record joins the set before its dependencies are loaded. */
  function Enter(st: State, name: Name): State {
    State(st.services[name := Rec([], 0)], st.orphans, st.dependents[name := []], st.loading + {name}, st.curDepth + 1)
  }

  /** All dependencies are linked: the record gets its depth. */
  function Settle(was: State, left: State, name: Name): State
    requires name in left.services
  {
    var rec := left.services[name];
    left.(services := left.services[name := rec.(depth := CalcDepth(left.services, rec.deps))],
          loading := was.loading, curDepth := was.curDepth)
  }

  /** The load has failed: the name leaves the set.  The record is an orphan now, and whatever
      refers to it, all of it newer than the record itself, goes on doing so. */
  function Forget(was: State, left: State, name: Name): State
    requires name in left.services
  {
    var key := OrphanKey(|left.orphans|);
    State(
      map n | n in left.services && n != name ::
        if n in was.services then left.services[n] else RekeyRec(left.services[n], name, key),
      RekeyRecs(left.orphans + [left.services[name]], name, key),
      map n | n in left.dependents.Keys - {name} + {key} ::
        RekeyDepts(DeptsOf(left.dependents, if n == key then name else n), name, key),
      was.loading, was.curDepth)
  }

  /** Loads a service and, recursively, its dependencies.  Every exit restores the set of names
      being loaded and the current depth; the measure is the depth budget that is left. */
  function LoadService(fs: Files, st: State, name: Name): (r: (State, Outcome))
    ensures r.0.loading == st.loading && r.0.curDepth == st.curDepth
    ensures Extends(st.services, r.0.services)
    ensures r.1.Loaded? ==> name in r.0.services
    ensures !r.1.Loaded? ==> name !in r.0.services
    decreases Budget(st), 0, 0
  {
    if name in st.services then (st, Loaded)
    else if st.curDepth >= MAX_DEP_DEPTH then (st, Failed)
    else if name in st.loading then (st, Failed)
    else
      match fs(name)
      case Missing => (st, NotFound)
      case Rejected => (st, Failed)
      case Found(items) =>
        var (left, outcome) := LoadDependencies(fs, Enter(st, name), name, items);
        (if outcome.Loaded? then Settle(st, left, name) else Forget(st, left, name), outcome)
  }

  /** Loads the dependencies of `name` in order, linking each one as it becomes available. */
  function LoadDependencies(fs: Files, st: State, name: Name, items: seq<Item>): (r: (State, Outcome))
    requires name in st.services
    ensures r.0.loading == st.loading && r.0.curDepth == st.curDepth
    ensures name in r.0.services
    ensures Extends(st.services - {name}, r.0.services)
    decreases Budget(st), 1, |items|
  {
    if items == [] then (st, Loaded)
    else if items[0].UnreadableDir? then (st, Failed)
    else
      var (st', outcome) := LoadService(fs, st, items[0].target);
      if outcome.Loaded? then
        LoadDependencies(fs, AddDep(st', name, Dep(items[0].target, items[0].kind)), name, items[1..])
      else if items[0].optional && outcome.NotFound? then
        LoadDependencies(fs, st', name, items[1..])
      else
        (st', outcome)
  }

  /** Links `name` to a dependency, which lists it as a dependent. */
  function AddDep(st: State, name: Name, d: Dep): (r: State)
    requires name in st.services
  {
    st.(services := st.services[name := st.services[name].(deps := st.services[name].deps + [d])],
        dependents := st.dependents[d.to := DeptsOf(st.dependents, d.to) + [Dept(name, d.kind)]])
  }

  ghost function SetGraph(services: ServiceMap): Graph {
    map n | n in services :: TargetNames(services[n].deps)
  }

  /** The loader itself: its methods update the set, the names being loaded and the depth in
      place, and undo the last two on the way out. */
  class DirLoader {
    const files: Files
    var services: ServiceMap
    var orphans: seq<Rec>
    var dependents: Dependents
    var loading: set<Name>
    var curDepth: int

    constructor (files: Files)
      ensures this.files == files && Current() == State(map[], [], map[], {}, 0)
    {
      this.files := files;
      services, orphans, dependents, loading, curDepth := map[], [], map[], {}, 0;
    }

    function Current(): State
      reads this
    {
      State(services, orphans, dependents, loading, curDepth)
    }

    method Load(name: Name) returns (outcome: Outcome)
      modifies this
      ensures (Current(), outcome) == LoadService(files, old(Current()), name)
      ensures loading == old(loading) && curDepth == old(curDepth)
      decreases Budget(Current()), 1
    {
      if name in services {
        return Loaded;
      }
      outcome := LoadImpl(name, curDepth);
    }

    method LoadImpl(name: Name, depth: int) returns (outcome: Outcome)
      requires name !in services && depth == curDepth
      modifies this
      ensures (Current(), outcome) == LoadService(files, old(Current()), name)
      decreases Budget(Current()), 0
    {
      if depth >= MAX_DEP_DEPTH || name in loading {
        return Failed;
      }
      var found := files(name);
      if found.Missing? {
        return NotFound;
      }
      if found.Rejected? {
        return Failed;
      }
      var was := Current();
      loading := loading + {name};
      curDepth := depth + 1;
      services := services[name := Rec([], 0)];
      dependents := dependents[name := []];
      assert Current() == Enter(was, name);
      outcome := LoadDeps(name, found.items);
      if outcome.Loaded? {
        services := services[name := services[name].(depth := CalcDepth(services, services[name].deps))];
      } else {
        Remove(was, name);
      }
      loading := loading - {name};
      curDepth := was.curDepth;
      assert loading == was.loading;
    }

    /** Takes a service whose load has failed out of the set. */
    method Remove(was: State, name: Name)
      requires name in services
      modifies this`services, this`orphans, this`dependents
      ensures
        var after := Forget(was, old(Current()), name);
        services == after.services && orphans == after.orphans && dependents == after.dependents
    {
      var after := Forget(was, Current(), name);
      services, orphans, dependents := after.services, after.orphans, after.dependents;
    }

    /** Links `name` to a dependency that is available. */
    method Link(name: Name, d: Dep)
      requires name in services
      modifies this`services, this`dependents
      ensures Current() == AddDep(old(Current()), name, d)
    {
      services := services[name := services[name].(deps := services[name].deps + [d])];
      dependents := dependents[d.to := DeptsOf(dependents, d.to) + [Dept(name, d.kind)]];
    }

    method LoadDeps(name: Name, items: seq<Item>) returns (outcome: Outcome)
      requires name in services
      modifies this
      ensures (Current(), outcome) == LoadDependencies(files, old(Current()), name, items)
      decreases Budget(Current()), 2
    {
      ghost var start := Current();
      for i := 0 to |items|
        invariant name in services && curDepth == old(curDepth)
        invariant LoadDependencies(files, start, name, items) == LoadDependencies(files, Current(), name, items[i..])
      {
        assert items[i..][1..] == items[i + 1..];
        if items[i].UnreadableDir? {
          return Failed;
        }
        var o := Load(items[i].target);
        if o.Loaded? {
          Link(name, Dep(items[i].target, items[i].kind));
        } else if !(items[i].optional && o.NotFound?) {
          return o;
        }
      }
      outcome := Loaded;
    }
  }
}
