/** Reloading a service description: the cycle check that guards it, the test for unchanged
    dependencies, and the replacement of the dependency list with its rollbacks. */
module Reload {
  import opened Graph
  import opened Services
  import opened Loader
  import opened LinkLists

  /** A dependency directory: its entries, or a read error.  A directory that does not exist
      has no entries. */
  datatype Dir = Entries(names: seq<Name>) | Unreadable

  datatype Description = Description(
    dependsOn: seq<Name>, dependsMS: seq<Name>, waitsFor: seq<Name>, preparedBy: seq<Name>,
    before: seq<Name>, after: seq<Name>, beforeOptional: seq<Name>, afterOptional: seq<Name>,
    dependsOnD: seq<Dir>, dependsMSD: seq<Dir>, waitsForD: seq<Dir>, preparedByD: seq<Dir>)

  // ----- the cycle check -----

  /** The names the cycle check looks at: five of the lists, no optional and no directory ones. */
  function Collected(d: Description): (r: seq<Name>) {
    d.dependsOn + d.dependsMS + d.waitsFor + d.preparedBy + d.after
  }

  ghost predicate SomeReaches(g: Graph, from: seq<Name>, svc: Name) {
    exists t :: t in from && Reaches(g, t, svc)
  }

  /** Every name the search may meet. */
  ghost function Universe(services: ServiceMap, from: seq<Name>): set<Name> {
    (set n | n in from) + (set n, t | n in services && t in TargetNames(services[n].deps) :: t)
  }

  /** Whatever reaches `svc` from the start is still to be met: either from the queue, through
      unvisited services only, or not at all. */
  ghost predicate SearchOk(g: Graph, from: seq<Name>, svc: Name, visited: set<Name>, queue: seq<Name>) {
    && svc !in visited
    && (forall t :: t in from ==> t in visited || t in queue)
    && (forall u, v :: u in visited && Edge(g, u, v) ==> v in visited || v in queue)
    && (forall q :: q in queue ==> SomeReaches(g, from, q))
  }

  lemma {:induction false} ClosedAvoids(g: Graph, closed: set<Name>, p: seq<Name>)
    requires IsWalk(g, p) && p[0] in closed
    requires forall u, v :: u in closed && Edge(g, u, v) ==> v in closed
    ensures p[|p| - 1] in closed
    decreases |p|
  {
    if |p| > 1 {
      assert Hop(g, p, 1);
      WalkSlice(g, p, 1, |p|);
      assert p[1..] == p[1..|p|];
      ClosedAvoids(g, closed, p[1..]);
    }
  }

  lemma SearchExhausted(g: Graph, from: seq<Name>, svc: Name, visited: set<Name>)
    requires SearchOk(g, from, svc, visited, [])
    ensures !SomeReaches(g, from, svc)
  {
    forall t, p | t in from && WalkFromTo(g, p, t, svc) ensures false {
      ClosedAvoids(g, visited, p);
    }
  }

  /** Visiting a service queues everything it depends on. */
  lemma SearchVisits(g: Graph, from: seq<Name>, svc: Name, visited: set<Name>, queue: seq<Name>, n: Name)
    requires queue != [] && n == queue[0] && n != svc && SearchOk(g, from, svc, visited, queue)
    ensures SearchOk(g, from, svc, visited + {n}, queue[1..] + if n in g then g[n] else [])
  {
    hide Reaches;
    var next := if n in g then g[n] else [];
    assert forall q :: q in queue ==> q == n || q in queue[1..];
    forall q | q in queue[1..] + next ensures SomeReaches(g, from, q) {
      if q !in queue[1..] {
        assert SomeReaches(g, from, n);
        var t :| t in from && Reaches(g, t, n);
        EdgeReaches(g, n, q);
        ReachesTransitive(g, t, n, q);
      }
    }
  }

  lemma SearchSkips(g: Graph, from: seq<Name>, svc: Name, visited: set<Name>, queue: seq<Name>)
    requires queue != [] && queue[0] in visited && SearchOk(g, from, svc, visited, queue)
    ensures SearchOk(g, from, svc, visited, queue[1..])
  {
    hide Reaches, SomeReaches;
    assert forall q :: q in queue ==> q == queue[0] || q in queue[1..];
  }

  /** Breadth-first search from the collected names: an error exactly when one of them leads
      back to the service being reloaded. */
  method CheckCycle(services: ServiceMap, svc: Name, desc: Description) returns (cyclic: bool)
    ensures cyclic <==> SomeReaches(SetGraph(services), Collected(desc), svc)
    ensures cyclic <==> exists t ::
      && (t in desc.dependsOn || t in desc.dependsMS || t in desc.waitsFor || t in desc.preparedBy || t in desc.after)
      && Reaches(SetGraph(services), t, svc)
  {
    CollectedReaches(SetGraph(services), desc, svc);
    hide SomeReaches, Reaches, SearchOk, Collected;
    ghost var g := SetGraph(services);
    var from := Collected(desc);
    ghost var all := Universe(services, from);
    var visited: set<Name> := {};
    var queue := from;
    SearchStarts(g, from, svc);
    while queue != []
      invariant SearchOk(g, from, svc, visited, queue)
      invariant visited <= all && forall q :: q in queue ==> q in all
      decreases |all - visited|, |queue|
    {
      var n := queue[0];
      if n == svc {
        SearchFound(g, from, svc, visited, queue);
        return true;
      }
      if n in visited {
        SearchSkips(g, from, svc, visited, queue);
        queue := queue[1..];
      } else {
        SearchVisits(g, from, svc, visited, queue, n);
        assert all - (visited + {n}) < all - visited;
        Smaller(all - (visited + {n}), all - visited);
        visited := visited + {n};
        queue := queue[1..] + if n in services then TargetNames(services[n].deps) else [];
      }
    }
    SearchExhausted(g, from, svc, visited);
    return false;
  }

  lemma CollectedReaches(g: Graph, d: Description, svc: Name)
    ensures SomeReaches(g, Collected(d), svc) <==> exists t ::
      && (t in d.dependsOn || t in d.dependsMS || t in d.waitsFor || t in d.preparedBy || t in d.after)
      && Reaches(g, t, svc)
  {
    hide Reaches;
  }

  lemma SearchStarts(g: Graph, from: seq<Name>, svc: Name)
    ensures SearchOk(g, from, svc, {}, from)
  {
    forall q | q in from ensures SomeReaches(g, from, q) { ReachesSelf(g, q); }
  }

  lemma SearchFound(g: Graph, from: seq<Name>, svc: Name, visited: set<Name>, queue: seq<Name>)
    requires SearchOk(g, from, svc, visited, queue) && svc in queue
    ensures SomeReaches(g, from, svc)
  {
  }

  // ----- replacing the edges of one service -----

  /** Up to its first meeting with `svc`, a walk uses no edge of `svc`. */
  lemma FirstMeeting(g: Graph, h: Graph, svc: Name, p: seq<Name>) returns (i: nat)
    requires IsWalk(g, p) && svc in p
    requires forall n :: n != svc ==> (n in g <==> n in h) && (n in g ==> g[n] == h[n])
    ensures i < |p| && p[i] == svc && IsWalk(h, p[..i + 1])
  {
    i := 0;
    while p[i] != svc
      invariant i < |p| && svc !in p[..i]
      decreases |p| - i
    {
      i := i + 1;
    }
    var q := p[..i + 1];
    forall k: nat | 0 < k < |q| ensures Hop(h, q, k) {
      assert Hop(g, p, k) && p[k - 1] in p[..i];
    }
  }

  /** Giving `svc` new targets keeps an acyclic graph acyclic exactly when none of them leads
      back to `svc`. */
  lemma ReplaceAcyclicIff(g: Graph, svc: Name, targets: seq<Name>)
    requires Acyclic(g)
    ensures Acyclic(g[svc := targets]) <==> !SomeReaches(g, targets, svc)
  {
    var h := g[svc := targets];
    if SomeReaches(g, targets, svc) {
      var t :| t in targets && Reaches(g, t, svc);
      var p :| WalkFromTo(g, p, t, svc);
      var i := FirstMeeting(g, h, svc, p);
      assert Edge(h, svc, t);
      assert Hop(h, [svc, t], 1);
      var q := p[..i + 1];
      assert q[0] == t && q[|q| - 1] == svc;
      WalkJoin(h, [svc, t], q);
      var c := [svc, t] + q[1..];
      assert c[|c| - 1] == svc by { if |q| > 1 { assert c[|c| - 1] == q[|q| - 1]; } }
      assert IsCycle(h, c);
    } else if HasCycle(h) {
      var c :| IsCycle(h, c);
      var t := ReturnsToSvc(g, svc, targets, c);
    }
  }

  lemma AvoidingCycle(g: Graph, h: Graph, svc: Name, c: seq<Name>)
    requires IsCycle(h, c) && svc !in c
    requires forall n :: n != svc ==> (n in g <==> n in h) && (n in g ==> g[n] == h[n])
    ensures IsCycle(g, c)
  {
    forall k: nat | 0 < k < |c| ensures Hop(g, c, k) { assert Hop(h, c, k); }
  }

  /** A cycle can be walked from any service on it. */
  lemma Turn(g: Graph, c: seq<Name>, s: Name) returns (r: seq<Name>)
    requires IsCycle(g, c) && s in c
    ensures IsCycle(g, r) && r[0] == s && forall x :: x in r ==> x in c
  {
    var j :| 0 <= j < |c| && c[j] == s;
    if j == 0 || j == |c| - 1 {
      r := c;
    } else {
      WalkSlice(g, c, j, |c|);
      WalkSlice(g, c, 0, j + 1);
      WalkJoin(g, c[j..|c|], c[0..j + 1]);
      r := c[j..|c|] + c[0..j + 1][1..];
    }
  }

  /** A cycle of the changed graph passes through `svc` and comes back to it from one of the
      new targets, using old edges only. */
  lemma ReturnsToSvc(g: Graph, svc: Name, targets: seq<Name>, c: seq<Name>) returns (t: Name)
    requires Acyclic(g) && IsCycle(g[svc := targets], c)
    ensures t in targets && Reaches(g, t, svc)
  {
    var h := g[svc := targets];
    if svc !in c {
      AvoidingCycle(g, h, svc, c);
      assert false;
    }
    var r := Turn(h, c, svc);
    t := r[1];
    assert Hop(h, r, 1);
    WalkSlice(h, r, 1, |r|);
    var rest := r[1..|r|];
    assert rest[|rest| - 1] == svc;
    var i := FirstMeeting(h, g, svc, rest);
    var back := rest[..i + 1];
    assert back[0] == t && back[|back| - 1] == svc;
    assert WalkFromTo(g, back, t, svc);
  }

  // ----- the dependency list -----

  function Links(names: seq<Name>, k: DepType, optional: bool): (r: seq<Item>)
    ensures |r| == |names| && forall i :: 0 <= i < |r| ==> r[i] == Link(names[i], k, optional)
  {
    seq(|names|, i requires 0 <= i < |names| => Link(names[i], k, optional))
  }

  function DirLinks(dirs: seq<Dir>, k: DepType): seq<Item> {
    if dirs == [] then []
    else (match dirs[0] case Entries(names) => Links(names, k, false) case Unreadable => [UnreadableDir])
         + DirLinks(dirs[1..], k)
  }

  /** The dependency lines of the lists of a description. */
  function PlainItems(d: Description): seq<Item> {
    Links(d.dependsOn, Regular, false) + Links(d.dependsMS, Milestone, false)
    + Links(d.waitsFor, WaitsFor, false) + Links(d.preparedBy, PreparedBy, false)
    + Links(d.before, Before, false) + Links(d.after, After, false)
    + Links(d.beforeOptional, Before, true) + Links(d.afterOptional, After, true)
  }

  /** All dependency lines of a description, in the order they are loaded. */
  function Items(d: Description): seq<Item> {
    PlainItems(d)
    + DirLinks(d.dependsOnD, Regular) + DirLinks(d.dependsMSD, Milestone)
    + DirLinks(d.waitsForD, WaitsFor) + DirLinks(d.preparedByD, PreparedBy)
  }

  /** The links of one kind of ordering, or all the others. */
  function Befores(deps: seq<Dep>): seq<Dep> {
    if deps == [] then []
    else (if deps[0].kind == Before then [deps[0]] else []) + Befores(deps[1..])
  }

  function NonBefores(deps: seq<Dep>): seq<Dep> {
    if deps == [] then []
    else (if deps[0].kind == Before then [] else [deps[0]]) + NonBefores(deps[1..])
  }

  function HasDirs(d: Description): bool {
    |d.dependsOnD| + |d.dependsMSD| + |d.waitsForD| + |d.preparedByD| > 0
  }

  function Keys(names: seq<Name>, k: DepType): set<Dep> {
    set n | n in names :: Dep(n, k)
  }

  /** The links the description asks for, leaving out what it wants to start before. */
  function Wanted(d: Description): set<Dep> {
    Keys(d.dependsOn, Regular) + Keys(d.dependsMS, Milestone) + Keys(d.waitsFor, WaitsFor)
    + Keys(d.preparedBy, PreparedBy) + Keys(d.after, After) + Keys(d.afterOptional, After)
  }

  function Elements(deps: seq<Dep>): set<Dep> {
    set d | d in deps
  }

  /** The fast path: nothing to do. */
  predicate Matches(deps: seq<Dep>, d: Description) {
    !HasDirs(d) && Elements(NonBefores(deps)) == Wanted(d)
  }

  // ----- taking links out and putting them in -----

  /** Removes the first link equal to `d`. */
  function RemoveFirst<T(==)>(s: seq<T>, d: T): (r: seq<T>)
    requires d in s
    ensures |r| == |s| - 1 && multiset(r) == multiset(s) - multiset{d}
  {
    if s[0] == d then
      assert s == [s[0]] + s[1..];
      s[1..]
    else
      assert s == [s[0]] + s[1..];
      [s[0]] + RemoveFirst(s[1..], d)
  }

  function RemoveDept(ds: seq<Dept>, e: Dept): seq<Dept> {
    if e in ds then RemoveFirst(ds, e) else ds
  }

  /** Takes one link out, at both ends. */
  function RmDep(st: State, name: Name, d: Dep): State
    requires name in st.services && d in st.services[name].deps
  {
    st.(services := st.services[name := st.services[name].(deps := RemoveFirst(st.services[name].deps, d))],
        dependents := st.dependents[d.to := RemoveDept(DeptsOf(st.dependents, d.to), Dept(name, d.kind))])
  }

  /** Takes the links before position `i` out, but for the ordering ones, from the last to the first. */
  function TakeOutFrom(st: State, name: Name, i: nat): (r: State)
    requires name in st.services && i <= |st.services[name].deps|
    ensures name in r.services
    decreases i
  {
    if i == 0 then st
    else
      var d := st.services[name].deps[i - 1];
      TakeOutFrom(if d.kind == Before then st else RmDep(st, name, d), name, i - 1)
  }

  function TakeOut(st: State, name: Name): (r: State)
    requires name in st.services
    ensures name in r.services
  {
    TakeOutFrom(st, name, |st.services[name].deps|)
  }

  /** Puts links in, in order. */
  function PutIn(st: State, name: Name, ds: seq<Dep>): (r: State)
    requires name in st.services
    ensures name in r.services
    decreases |ds|
  {
    if ds == [] then st else PutIn(AddDep(st, name, ds[0]), name, ds[1..])
  }

  /** Replaces the dependency list of `name`.  `overflow` says whether the recalculation of the
      dependency depths reports an overflow. */
  function UpdateDependencies(fs: Files, st: State, name: Name, d: Description, overflow: bool): (r: (State, bool))
    requires name in st.services
    ensures name in r.0.services
  {
    var was := st.services[name].deps;
    if Matches(was, d) then (st, true)
    else
      var (st', outcome) := LoadDependencies(fs, TakeOut(st, name), name, Items(d));
      if !outcome.Loaded? then (PutIn(st', name, NonBefores(was)), false)
      else if overflow then (PutIn(TakeOut(st', name), name, NonBefores(was)), false)
      else (st', true)
  }

  lemma Associate(x: seq<Dep>, y: seq<Dep>, z: seq<Dep>)
    ensures x + (y + z) == x + y + z
  {
  }

  lemma {:induction false} SplitConcat(a: seq<Dep>, b: seq<Dep>)
    ensures Befores(a + b) == Befores(a) + Befores(b)
    ensures NonBefores(a + b) == NonBefores(a) + NonBefores(b)
  {
    if a == [] {
      assert a + b == b;
      assert [] + Befores(b) == Befores(b) && [] + NonBefores(b) == NonBefores(b);
    } else {
      assert (a + b)[0] == a[0] && (a + b)[1..] == a[1..] + b;
      SplitConcat(a[1..], b);
      var x := if a[0].kind == Before then [a[0]] else [];
      var y := if a[0].kind == Before then [] else [a[0]];
      Associate(x, Befores(a[1..]), Befores(b));
      Associate(y, NonBefores(a[1..]), NonBefores(b));
    }
  }

  lemma SplitSnoc(deps: seq<Dep>, d: Dep)
    ensures Befores(deps + [d]) == Befores(deps) + if d.kind == Before then [d] else []
    ensures NonBefores(deps + [d]) == NonBefores(deps) + if d.kind == Before then [] else [d]
  {
    SplitConcat(deps, [d]);
  }

  lemma {:induction false} SplitMember(deps: seq<Dep>, d: Dep)
    ensures d in Befores(deps) <==> d in deps && d.kind == Before
    ensures d in NonBefores(deps) <==> d in deps && d.kind != Before
  {
    if deps != [] {
      SplitMember(deps[1..], d);
    }
  }

  lemma {:induction false} SplitTwice(deps: seq<Dep>)
    ensures Befores(Befores(deps)) == Befores(deps) && NonBefores(Befores(deps)) == []
    ensures NonBefores(NonBefores(deps)) == NonBefores(deps) && Befores(NonBefores(deps)) == []
  {
    if deps != [] {
      SplitTwice(deps[1..]);
      assert [] + Befores(deps[1..]) == Befores(deps[1..]);
      assert [] + NonBefores(deps[1..]) == NonBefores(deps[1..]);
      SplitConcat([deps[0]], Befores(deps[1..]));
      SplitConcat([deps[0]], NonBefores(deps[1..]));
    }
  }

  lemma {:induction false} RemoveFirstKeeps(deps: seq<Dep>, d: Dep, i: nat)
    requires i < |deps| && deps[i] == d && d.kind != Before
    ensures Befores(RemoveFirst(deps, d)) == Befores(deps)
    ensures RemoveFirst(deps, d)[i..] == deps[i + 1..]
  {
    if deps[0] != d {
      RemoveFirstKeeps(deps[1..], d, i - 1);
      var r := RemoveFirst(deps[1..], d);
      assert ([deps[0]] + r)[1..] == r;
      assert ([deps[0]] + r)[i..] == r[i - 1..];
    }
  }

  ghost predicate OnlyDepsChanged(st: State, name: Name, after: State, deps: seq<Dep>)
    requires name in st.services
  {
    && after.services == st.services[name := st.services[name].(deps := deps)]
    && after.orphans == st.orphans && after.loading == st.loading && after.curDepth == st.curDepth
  }

  lemma {:induction false} TakeOutFromDeps(st: State, name: Name, i: nat)
    requires name in st.services && i <= |st.services[name].deps|
    requires forall d :: d in st.services[name].deps[i..] ==> d.kind == Before
    ensures OnlyDepsChanged(st, name, TakeOutFrom(st, name, i), Befores(st.services[name].deps))
    decreases i
  {
    var deps := st.services[name].deps;
    if i == 0 {
      AllBefores(deps);
    } else {
      var d := deps[i - 1];
      assert deps[i - 1..] == [d] + deps[i..];
      if d.kind == Before {
        TakeOutFromDeps(st, name, i - 1);
      } else {
        RemoveFirstKeeps(deps, d, i - 1);
        TakeOutFromDeps(RmDep(st, name, d), name, i - 1);
      }
    }
  }

  /** Taking links out leaves exactly the ordering ones, in order. */
  lemma TakeOutDeps(st: State, name: Name)
    requires name in st.services
    ensures OnlyDepsChanged(st, name, TakeOut(st, name), Befores(st.services[name].deps))
  {
    TakeOutFromDeps(st, name, |st.services[name].deps|);
  }

  /** Putting links in appends them, in order. */
  lemma {:induction false} PutInDeps(st: State, name: Name, ds: seq<Dep>)
    requires name in st.services
    ensures OnlyDepsChanged(st, name, PutIn(st, name, ds), st.services[name].deps + ds)
    decreases |ds|
  {
    var deps := st.services[name].deps;
    if ds == [] {
      assert deps + [] == deps;
    } else {
      PutInDeps(AddDep(st, name, ds[0]), name, ds[1..]);
      assert deps + [ds[0]] + ds[1..] == deps + ds;
    }
  }

  /** Removes every link but the ordering ones, walking the list backwards while it shrinks. */
  method TearDown(dl: DirLoader, name: Name)
    requires name in dl.services
    modifies dl`services, dl`dependents
    ensures dl.Current() == TakeOut(old(dl.Current()), name)
  {
    hide RmDep, RemoveFirst;
    var i := |dl.services[name].deps|;
    while i > 0
      invariant name in dl.services && 0 <= i <= |dl.services[name].deps|
      invariant TakeOut(old(dl.Current()), name) == TakeOutFrom(dl.Current(), name, i)
    {
      i := i - 1;
      var d := dl.services[name].deps[i];
      if d.kind != Before {
        RmDepShrinks(dl.Current(), name, d);
        Unlink(dl, name, d);
      }
    }
  }

  lemma RmDepShrinks(st: State, name: Name, d: Dep)
    requires name in st.services && d in st.services[name].deps
    ensures name in RmDep(st, name, d).services
    ensures |RmDep(st, name, d).services[name].deps| == |st.services[name].deps| - 1
  {
  }

  method Unlink(dl: DirLoader, name: Name, d: Dep)
    requires name in dl.services && d in dl.services[name].deps
    modifies dl`services, dl`dependents
    ensures dl.Current() == RmDep(old(dl.Current()), name, d)
  {
    dl.dependents := dl.dependents[d.to := RemoveDept(DeptsOf(dl.dependents, d.to), Dept(name, d.kind))];
    dl.services := dl.services[name := dl.services[name].(deps := RemoveFirst(dl.services[name].deps, d))];
  }

  lemma {:induction false} AllBefores(deps: seq<Dep>)
    requires forall d :: d in deps ==> d.kind == Before
    ensures Befores(deps) == deps
  {
    if deps != [] {
      assert deps[0] in deps;
      AllBefores(deps[1..]);
    }
  }

  /** Re-adds the old links other than the ordering ones. */
  method ReAdd(dl: DirLoader, name: Name, was: seq<Dep>)
    requires name in dl.services
    modifies dl`services, dl`dependents
    ensures dl.Current() == PutIn(old(dl.Current()), name, NonBefores(was))
  {
    for i := 0 to |was|
      invariant name in dl.services
      invariant PutIn(old(dl.Current()), name, NonBefores(was)) == PutIn(dl.Current(), name, NonBefores(was[i..]))
    {
      assert was[i..][1..] == was[i + 1..];
      var rest := NonBefores(was[i + 1..]);
      if was[i].kind != Before {
        assert ([was[i]] + rest)[1..] == rest;
        dl.Link(name, was[i]);
      } else {
        assert [] + rest == rest;
      }
    }
  }

  /** Compares two sets the way the code does: by size and by inclusion. */
  method DescDepsMatchCurrent(deps: seq<Dep>, d: Description) returns (same: bool)
    ensures same == Matches(deps, d)
  {
    if HasDirs(d) {
      return false;
    }
    var current: set<Dep> := {};
    for i := 0 to |deps|
      invariant current == Elements(NonBefores(deps[..i]))
    {
      assert deps[..i + 1] == deps[..i] + [deps[i]];
      SplitSnoc(deps[..i], deps[i]);
      if deps[i].kind != Before {
        current := current + {deps[i]};
      }
    }
    assert deps[..|deps|] == deps;
    var wanted := Wanted(d);
    if |current| != |wanted| {
      return false;
    }
    same := current <= wanted;
    if same {
      SameSizeSubset(current, wanted);
    }
  }

  lemma SameSizeSubset(a: set<Dep>, b: set<Dep>)
    requires a <= b && |a| == |b|
    ensures a == b
  {
    assert b == a + (b - a);
    assert |b| == |a| + |b - a|;
  }

  // ----- the lists stay mirror images -----

  lemma RemoveFirstMember<T>(s: seq<T>, d: T, x: T)
    requires d in s && x in RemoveFirst(s, d)
    ensures x in s
  {
    assert x in multiset(RemoveFirst(s, d));
  }

  lemma UnlinkMirrors(r: ServiceMap, ds: Dependents, name: Name, d: Dep)
    requires Mirror(r, ds) && name in r && d in r[name].deps
    ensures
      Mirror(r[name := r[name].(deps := RemoveFirst(r[name].deps, d))],
             ds[d.to := RemoveDept(DeptsOf(ds, d.to), Dept(name, d.kind))])
  {
    hide RemoveFirst;
    var r' := r[name := r[name].(deps := RemoveFirst(r[name].deps, d))];
    ListedThere(r, ds, name, d);
    var ds' := ds[d.to := RemoveFirst(ds[d.to], Dept(name, d.kind))];
    forall x, e | x in r' && e in r'[x].deps ensures e.to in r' {
      if x == name { RemoveFirstMember(r[name].deps, d, e); }
    }
    forall n, e: Dept | n in r' && e in ds'[n] ensures e.from in r' {
      if n == d.to { RemoveFirstMember(ds[n], Dept(name, d.kind), e); }
    }
    forall x, n, k | x in r' && n in r' ensures SameCount(r', ds', x, n, k) {
      assert SameCount(r, ds, x, n, k);
      UnlinkCounts(r, ds, name, d, x, n, k);
    }
  }

  lemma ListedThere(r: ServiceMap, ds: Dependents, name: Name, d: Dep)
    requires Mirror(r, ds) && name in r && d in r[name].deps
    ensures d.to in ds && Dept(name, d.kind) in ds[d.to]
  {
    assert SameCount(r, ds, name, d.to, d.kind);
    assert d in multiset(r[name].deps);
    assert Dept(name, d.kind) in multiset(ds[d.to]);
  }

  lemma UnlinkCounts(r: ServiceMap, ds: Dependents, name: Name, d: Dep, x: Name, n: Name, k: DepType)
    requires name in r && d in r[name].deps && x in r && n in ds && SameCount(r, ds, x, n, k)
    requires d.to in ds && Dept(name, d.kind) in ds[d.to]
    ensures
      var r' := r[name := r[name].(deps := RemoveFirst(r[name].deps, d))];
      var ds' := ds[d.to := RemoveFirst(ds[d.to], Dept(name, d.kind))];
      SameCount(r', ds', x, n, k)
  {
    hide RemoveFirst;
    CountAfterRemove(r[name].deps, d, Dep(n, k));
    CountAfterRemove(ds[d.to], Dept(name, d.kind), Dept(x, k));
  }

  lemma CountAfterRemove<T>(s: seq<T>, d: T, x: T)
    requires d in s
    ensures multiset(RemoveFirst(s, d))[x] == multiset(s)[x] - if x == d then 1 else 0
  {
    assert d in multiset(s);
  }

  lemma RmDepMirrors(st: State, name: Name, d: Dep)
    requires Mirrored(st) && name in st.services && d in st.services[name].deps
    ensures Mirrored(RmDep(st, name, d))
  {
    hide Mirror, RemoveFirst, RemoveDept;
    var a := RmDep(st, name, d);
    RecordsUpdated(st, a.services, name, a.services[name]);
    SameRecords(a, st.(services := a.services));
    UnlinkMirrors(Records(st), st.dependents, name, d);
  }

  lemma {:induction false} TakeOutMirrors(st: State, name: Name, i: nat)
    requires Mirrored(st) && name in st.services && i <= |st.services[name].deps|
    ensures Mirrored(TakeOutFrom(st, name, i))
    decreases i
  {
    hide Mirrored, RemoveFirst;
    if i > 0 {
      var d := st.services[name].deps[i - 1];
      if d.kind == Before {
        TakeOutMirrors(st, name, i - 1);
      } else {
        RmDepMirrors(st, name, d);
        RmDepShrinks(st, name, d);
        TakeOutMirrors(RmDep(st, name, d), name, i - 1);
      }
    }
  }

  lemma {:induction false} PutInMirrors(st: State, name: Name, ds: seq<Dep>)
    requires Mirrored(st) && name in st.services && forall d :: d in ds ==> d.to in Records(st)
    ensures Mirrored(PutIn(st, name, ds))
    decreases |ds|
  {
    hide Mirrored, Records;
    if ds != [] {
      assert ds[0] in ds;
      AddDepMirrors(st, name, ds[0]);
      AddDepRecords(st, name, ds[0]);
      PutInMirrors(AddDep(st, name, ds[0]), name, ds[1..]);
    }
  }

  lemma AddDepRecords(st: State, name: Name, d: Dep)
    requires name in st.services
    ensures Records(AddDep(st, name, d)).Keys == Records(st).Keys
  {
  }

  /** Records only ever join. */
  lemma MoreRecords(a: State, b: State)
    requires a.services.Keys <= b.services.Keys && |a.orphans| <= |b.orphans|
    ensures Records(a).Keys <= Records(b).Keys
  {
    forall k | k in OrphanKeys(|a.orphans|) ensures k in OrphanKeys(|b.orphans|) {
      assert k == OrphanKey(|k| - 1);
    }
  }

  /** Reloading keeps the two lists of every link mirror images, on each way out. */
  lemma ReloadMirrors(fs: Files, st: State, name: Name, d: Description, overflow: bool)
    requires Mirrored(st) && name in st.services
    ensures Mirrored(UpdateDependencies(fs, st, name, d, overflow).0)
  {
    hide Mirrored, Mirror, Records, LoadDependencies, Items, Matches, Befores, NonBefores, TakeOutFrom, PutIn, Extends;
    var was := st.services[name].deps;
    var torn := TakeOut(st, name);
    TakeOutMirrors(st, name, |was|);
    TakeOutDeps(st, name);
    DepsMirror(fs, torn, name, Items(d));
    DepsKeepOrphans(fs, torn, name, Items(d));
    var st' := LoadDependencies(fs, torn, name, Items(d)).0;
    ExtendsKeys(torn.services, name, st'.services);
    MoreRecords(st, st');
    OldTargetsAreRecords(st, name);
    PutInMirrors(st', name, NonBefores(was));
    TakeOutMirrors(st', name, |st'.services[name].deps|);
    TakeOutDeps(st', name);
    MoreRecords(st', TakeOut(st', name));
    PutInMirrors(TakeOut(st', name), name, NonBefores(was));
  }

  lemma ExtendsKeys(a: ServiceMap, name: Name, b: ServiceMap)
    requires Extends(a - {name}, b) && name in b
    ensures a.Keys <= b.Keys
  {
    forall n | n in a ensures n in b { if n != name { assert n in a - {name}; } }
  }

  lemma OldTargetsAreRecords(st: State, name: Name)
    requires Mirrored(st) && name in st.services
    ensures forall d :: d in NonBefores(st.services[name].deps) ==> d.to in Records(st)
  {
    hide NonBefores;
    forall d | d in NonBefores(st.services[name].deps) ensures d.to in Records(st) {
      SplitMember(st.services[name].deps, d);
      assert d in Records(st)[name].deps;
    }
  }
}
