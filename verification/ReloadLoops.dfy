/** When a reload closes a cycle, for descriptions whose targets have yet to be loaded. */
module ReloadLoops {
  import opened Graph
  import opened Services
  import opened Loader
  import opened LinkLists
  import opened LoadSafety
  import opened LoadLoops
  import opened Reload
  import opened ReloadSafety

  /** Loading the lines gets to the description of `a`. */
  ghost predicate Summons(fs: Files, base: set<Name>, items: seq<Item>, a: Name) {
    fs(a).Found? && exists it :: it in items && it.Link? && Leads(fs, base, it.target, a)
  }

  /** The link from `a` to `b` is installed, or described by a service that is to be loaded.  The
      service that is being reloaded has no links here. */
  ghost predicate Next(fs: Files, services: ServiceMap, name: Name, items: seq<Item>, a: Name, b: Name) {
    if a in services then
      a != name && b in TargetNames(services[a].deps)
    else
      Summons(fs, services.Keys, items, a) && Describes(fs, a, b) && !Absent(fs, services.Keys, b)
  }

  ghost predicate NextAt(fs: Files, services: ServiceMap, name: Name, items: seq<Item>, p: seq<Name>, i: nat)
    requires 0 < i < |p|
  {
    Next(fs, services, name, items, p[i - 1], p[i])
  }

  ghost predicate Path(fs: Files, services: ServiceMap, name: Name, items: seq<Item>, p: seq<Name>) {
    |p| > 0 && forall i: nat :: 0 < i < |p| ==> NextAt(fs, services, name, items, p, i)
  }

  /** The path comes to `name`, or back to itself. */
  ghost predicate Wraps(p: seq<Name>, name: Name)
    requires |p| > 0
  {
    p[|p| - 1] == name || p[|p| - 1] in p[..|p| - 1]
  }

  ghost predicate StartsAt(fs: Files, base: set<Name>, items: seq<Item>, t: Name) {
    !Absent(fs, base, t) && exists it :: it in items && it.Link? && it.target == t
  }

  /** From a described target, over described links of what has to be loaded and installed links of
      what is, there is a way back to `name` or round in a circle. */
  ghost predicate WayBack(fs: Files, services: ServiceMap, name: Name, items: seq<Item>) {
    exists p :: Path(fs, services, name, items, p) && StartsAt(fs, services.Keys, items, p[0]) && Wraps(p, name)
  }

  /** What the set is like after all lines were loaded. */
  ghost predicate Reloaded(fs: Files, services: ServiceMap, name: Name, items: seq<Item>, stays: seq<Dep>, after: ServiceMap) {
    && name in services && name in after
    && (forall n :: n in services && n != name ==> n in after && after[n] == services[n])
    && after[name].deps == stays + Kept(fs, services.Keys, items)
    && (forall d :: d in Kept(fs, services.Keys, items) ==> d.to in after)
    && AddedAsDescribed(fs, services.Keys, services, after) && AddedClosed(services, after)
    && (forall n :: n in after && n !in services ==> Summons(fs, services.Keys, items, n))
  }

  // ----- links and paths -----

  lemma {:induction false} KeptDescribed(fs: Files, base: set<Name>, items: seq<Item>, d: Dep)
    requires d in Kept(fs, base, items)
    ensures exists it :: it in items && it.Link? && it.target == d.to && it.kind == d.kind
    ensures !Absent(fs, base, d.to)
  {
    if items[0].Link? && !Absent(fs, base, items[0].target) && d == Dep(items[0].target, items[0].kind) {
      assert items[0] in items;
    } else {
      KeptDescribed(fs, base, items[1..], d);
    }
  }

  lemma KeptTargets(fs: Files, base: set<Name>, items: seq<Item>, t: Name)
    ensures (exists d :: d in Kept(fs, base, items) && d.to == t) <==> StartsAt(fs, base, items, t)
  {
    hide Kept;
    if d :| d in Kept(fs, base, items) && d.to == t {
      KeptDescribed(fs, base, items, d);
    }
    if StartsAt(fs, base, items, t) {
      var it :| it in items && it.Link? && it.target == t;
      KeptMember(fs, base, items, it);
      assert Dep(t, it.kind).to == t;
    }
  }

  /** The links out of every service but `name` are the ones foreseen. */
  lemma EdgeIsNext(fs: Files, services: ServiceMap, name: Name, items: seq<Item>, stays: seq<Dep>, after: ServiceMap, a: Name, b: Name)
    requires Reloaded(fs, services, name, items, stays, after) && a in after && a != name
    ensures Edge(SetGraph(after), a, b) <==> Next(fs, services, name, items, a, b)
  {
    hide Kept, Absent, AddedClosed;
    EdgeMember(after, a, b);
    if a in services {
      EdgeMember(services, a, b);
    } else {
      KeptTargets(fs, services.Keys, fs(a).items, b);
    }
  }

  lemma NameEdge(fs: Files, services: ServiceMap, name: Name, items: seq<Item>, stays: seq<Dep>, after: ServiceMap, t: Name)
    requires Reloaded(fs, services, name, items, stays, after)
    ensures Edge(SetGraph(after), name, t) <==> (exists d :: d in stays && d.to == t) || StartsAt(fs, services.Keys, items, t)
  {
    hide Kept, AddedClosed, AddedAsDescribed, StartsAt;
    EdgeMember(after, name, t);
    KeptTargets(fs, services.Keys, items, t);
  }

  lemma NextStays(fs: Files, services: ServiceMap, name: Name, items: seq<Item>, stays: seq<Dep>, after: ServiceMap, a: Name, b: Name)
    requires Reloaded(fs, services, name, items, stays, after) && a in after && a !in services
    requires Describes(fs, a, b) && !Absent(fs, services.Keys, b)
    ensures b in after
  {
    hide Kept, Absent;
    var it :| it in fs(a).items && it.Link? && it.target == b;
    KeptMember(fs, services.Keys, fs(a).items, it);
    assert Dep(b, it.kind) in after[a].deps;
  }

  /** A chain of descriptions to something that gets loaded is a path through what gets loaded. */
  lemma {:induction false} ChainIsPath(fs: Files, services: ServiceMap, name: Name, items: seq<Item>, stays: seq<Dep>, after: ServiceMap, p: seq<Name>, t: Name)
    requires Reloaded(fs, services, name, items, stays, after) && Chain(fs, services.Keys, p, t)
    requires StartsAt(fs, services.Keys, items, t) && fs(p[|p| - 1]).Found? && p[|p| - 1] !in services
    ensures Path(fs, services, name, items, p) && forall i :: 0 <= i < |p| ==> p[i] in after
    decreases |p|
  {
    hide Kept, AddedClosed, AddedAsDescribed, OnlyNeededAdded;
    var last := |p| - 1;
    if last == 0 {
      hide Reloaded;
      StartIsLoaded(fs, services, name, items, stays, after, t);
    } else {
      var q := p[..last];
      assert Descends(fs, p, last);
      forall i: nat | 0 < i < |q| ensures Descends(fs, q, i) { assert Descends(fs, p, i); }
      ChainIsPath(fs, services, name, items, stays, after, q, t);
      var a := p[last - 1];
      assert a == q[|q| - 1];
      NextStays(fs, services, name, items, stays, after, a, p[last]);
      assert Summons(fs, services.Keys, items, a);
      forall i: nat | 0 < i < |p| ensures NextAt(fs, services, name, items, p, i) {
        if i < last { assert NextAt(fs, services, name, items, q, i); }
      }
      forall i | 0 <= i < |p| ensures p[i] in after { if i < last { assert q[i] in after; } }
    }
  }

  lemma StartIsLoaded(fs: Files, services: ServiceMap, name: Name, items: seq<Item>, stays: seq<Dep>, after: ServiceMap, t: Name)
    requires Reloaded(fs, services, name, items, stays, after) && StartsAt(fs, services.Keys, items, t)
    ensures t in after
  {
    hide Kept, Absent, AddedClosed, AddedAsDescribed;
    KeptTargets(fs, services.Keys, items, t);
  }

  lemma SummonedPath(fs: Files, services: ServiceMap, name: Name, items: seq<Item>, stays: seq<Dep>, after: ServiceMap, a: Name)
    returns (p: seq<Name>)
    requires Reloaded(fs, services, name, items, stays, after) && Summons(fs, services.Keys, items, a) && a !in services
    ensures Path(fs, services, name, items, p) && StartsAt(fs, services.Keys, items, p[0])
    ensures |p| > 0 && p[|p| - 1] == a && a in after
  {
    hide Reloaded;
    var it :| it in items && it.Link? && Leads(fs, services.Keys, it.target, a);
    p :| Chain(fs, services.Keys, p, it.target) && p[|p| - 1] == a;
    if |p| > 1 { assert Descends(fs, p, 1); }
    ChainIsPath(fs, services, name, items, stays, after, p, it.target);
  }

  lemma NextIsEdge(fs: Files, services: ServiceMap, name: Name, items: seq<Item>, stays: seq<Dep>, after: ServiceMap, a: Name, b: Name)
    requires Reloaded(fs, services, name, items, stays, after) && Next(fs, services, name, items, a, b)
    ensures Edge(SetGraph(after), a, b)
  {
    hide AddedAsDescribed, AddedClosed, Kept;
    if a !in services {
      var _ := SummonedPath(fs, services, name, items, stays, after, a);
    }
    EdgeIsNext(fs, services, name, items, stays, after, a, b);
  }

  lemma PathIsWalk(fs: Files, services: ServiceMap, name: Name, items: seq<Item>, stays: seq<Dep>, after: ServiceMap, p: seq<Name>)
    requires Reloaded(fs, services, name, items, stays, after) && Path(fs, services, name, items, p)
    ensures IsWalk(SetGraph(after), p)
  {
    hide Reloaded, Next, Edge;
    forall i: nat | 0 < i < |p| ensures Hop(SetGraph(after), p, i) {
      assert NextAt(fs, services, name, items, p, i);
      NextIsEdge(fs, services, name, items, stays, after, p[i - 1], p[i]);
    }
  }

  /** Away from `name`, every walk is a path. */
  lemma WalkIsPath(fs: Files, services: ServiceMap, name: Name, items: seq<Item>, stays: seq<Dep>, after: ServiceMap, p: seq<Name>)
    requires Reloaded(fs, services, name, items, stays, after) && IsWalk(SetGraph(after), p) && name !in p[..|p| - 1]
    ensures Path(fs, services, name, items, p)
  {
    hide Reloaded, Next;
    forall i: nat | 0 < i < |p| ensures NextAt(fs, services, name, items, p, i) {
      assert Hop(SetGraph(after), p, i);
      assert p[..|p| - 1][i - 1] == p[i - 1];
      EdgeIsNext(fs, services, name, items, stays, after, p[i - 1], p[i]);
    }
  }

  lemma PathJoin(fs: Files, services: ServiceMap, name: Name, items: seq<Item>, p: seq<Name>, q: seq<Name>)
    requires Path(fs, services, name, items, p) && Path(fs, services, name, items, q) && p[|p| - 1] == q[0]
    ensures Path(fs, services, name, items, p + q[1..])
  {
    hide Next;
    var r := p + q[1..];
    forall k: nat | 0 < k < |r| ensures NextAt(fs, services, name, items, r, k) {
      if k < |p| {
        assert NextAt(fs, services, name, items, p, k);
      } else {
        assert NextAt(fs, services, name, items, q, k - |p| + 1);
      }
    }
  }

  /** A way back is a cycle of the reloaded set. */
  lemma WayBackIsCycle(fs: Files, services: ServiceMap, name: Name, items: seq<Item>, stays: seq<Dep>, after: ServiceMap)
    requires Reloaded(fs, services, name, items, stays, after) && WayBack(fs, services, name, items)
    ensures HasCycle(SetGraph(after))
  {
    hide Reloaded, StartsAt;
    var h := SetGraph(after);
    var p :| Path(fs, services, name, items, p) && StartsAt(fs, services.Keys, items, p[0]) && Wraps(p, name);
    PathIsWalk(fs, services, name, items, stays, after, p);
    hide Path;
    var last := |p| - 1;
    if p[last] == name {
      NameEdge(fs, services, name, items, stays, after, p[0]);
      ClosedWalk(h, name, p);
    } else {
      var j :| 0 <= j < last && p[..last][j] == p[last];
      LassoCycle(h, p, j);
    }
  }

  lemma ClosedWalk(h: Graph, name: Name, p: seq<Name>)
    requires IsWalk(h, p) && p[|p| - 1] == name && Edge(h, name, p[0])
    ensures HasCycle(h)
  {
    assert Hop(h, [name, p[0]], 1);
    WalkJoin(h, [name, p[0]], p);
    var c := [name, p[0]] + p[1..];
    assert c[|c| - 1] == name;
    assert IsCycle(h, c);
  }

  lemma LassoCycle(h: Graph, p: seq<Name>, j: nat)
    requires IsWalk(h, p) && j < |p| - 1 && p[j] == p[|p| - 1]
    ensures HasCycle(h)
  {
    WalkSlice(h, p, j, |p|);
    assert IsCycle(h, p[j..|p|]);
  }

  /** The first place of `name` on the way. */
  lemma FirstPlace(p: seq<Name>, name: Name, from: nat) returns (k: nat)
    requires from < |p| && name in p[from..]
    ensures from <= k < |p| && p[k] == name && name !in p[from..k]
  {
    k := from;
    while p[k] != name
      invariant from <= k < |p| && name !in p[from..k] && name in p[k..]
      decreases |p| - k
    {
      assert p[k..] == [p[k]] + p[k + 1..];
      assert p[from..k + 1] == p[from..k] + [p[k]];
      k := k + 1;
    }
  }

  /** A cycle through a service that was loaded by the reload is a way back. */
  lemma NewCycleIsWayBack(fs: Files, services: ServiceMap, name: Name, items: seq<Item>, stays: seq<Dep>, after: ServiceMap, c: seq<Name>, a: Name)
    requires Reloaded(fs, services, name, items, stays, after) && IsCycle(SetGraph(after), c)
    requires a in c && a in after && a !in services
    ensures WayBack(fs, services, name, items)
  {
    hide Path, StartsAt, Summons, AddedAsDescribed, AddedClosed, Kept;
    var h := SetGraph(after);
    var r := Turn(h, c, a);
    var q := SummonedPath(fs, services, name, items, stays, after, a);
    var k := |r| - 1;
    if name in r[0..] {
      k := FirstPlace(r, name, 0);
    } else {
      assert r[0..] == r;
    }
    var w := r[..k + 1];
    WalkSlice(h, r, 0, k + 1);
    assert r[0..k + 1] == w && w[..|w| - 1] == r[0..k];
    WalkIsPath(fs, services, name, items, stays, after, w);
    PathJoin(fs, services, name, items, q, w);
    JoinWraps(q, w, name);
  }

  lemma JoinWraps(q: seq<Name>, w: seq<Name>, name: Name)
    requires |q| > 0 && |w| > 1 && q[|q| - 1] == w[0] && (w[|w| - 1] == name || w[|w| - 1] == w[0])
    ensures Wraps(q + w[1..], name) && (q + w[1..])[0] == q[0]
  {
    var r := q + w[1..];
    assert r[|r| - 1] == w[|w| - 1];
    assert r[..|r| - 1][|q| - 1] == q[|q| - 1];
  }

  /** An installed link is a link of the old set, but for those of `name`. */
  lemma OldEdge(fs: Files, services: ServiceMap, name: Name, items: seq<Item>, stays: seq<Dep>, after: ServiceMap, a: Name, b: Name)
    requires Reloaded(fs, services, name, items, stays, after) && a in services && Edge(SetGraph(after), a, b)
    requires forall d :: d in stays ==> d in services[name].deps
    requires a != name || !StartsAt(fs, services.Keys, items, b)
    ensures Edge(SetGraph(services), a, b)
  {
    hide AddedAsDescribed, AddedClosed, Kept, StartsAt;
    EdgeMember(after, a, b);
    EdgeMember(services, a, b);
    if a == name {
      NameEdge(fs, services, name, items, stays, after, b);
    }
  }

  lemma OldCycle(fs: Files, services: ServiceMap, name: Name, items: seq<Item>, stays: seq<Dep>, after: ServiceMap, c: seq<Name>)
    requires Reloaded(fs, services, name, items, stays, after) && IsCycle(SetGraph(after), c)
    requires forall d :: d in stays ==> d in services[name].deps
    requires forall n :: n in c ==> n in services
    requires name !in c || (c[0] == name && name !in c[1..|c| - 1] && !StartsAt(fs, services.Keys, items, c[1]))
    ensures HasCycle(SetGraph(services))
  {
    hide Reloaded, StartsAt;
    forall i: nat | 0 < i < |c| ensures Hop(SetGraph(services), c, i) {
      assert Hop(SetGraph(after), c, i);
      if i > 1 && name in c { assert c[1..|c| - 1][i - 2] == c[i - 1]; }
      OldEdge(fs, services, name, items, stays, after, c[i - 1], c[i]);
    }
    assert IsCycle(SetGraph(services), c);
  }

  /** A cycle of the reloaded set that was not there before is a way back. */
  lemma CycleIsWayBack(fs: Files, services: ServiceMap, name: Name, items: seq<Item>, stays: seq<Dep>, after: ServiceMap)
    requires Reloaded(fs, services, name, items, stays, after) && HasCycle(SetGraph(after)) && Acyclic(SetGraph(services))
    requires forall d :: d in stays ==> d in services[name].deps
    ensures WayBack(fs, services, name, items)
  {
    hide Reloaded, WayBack, StartsAt;
    var h := SetGraph(after);
    var c :| IsCycle(h, c);
    CycleInGraph(h, c);
    if a :| a in c && a !in services {
      NewCycleIsWayBack(fs, services, name, items, stays, after, c, a);
    } else if name !in c {
      OldCycle(fs, services, name, items, stays, after, c);
    } else {
      NameCycleIsWayBack(fs, services, name, items, stays, after, c);
    }
  }

  lemma CycleInGraph(h: Graph, c: seq<Name>)
    requires IsCycle(h, c)
    ensures forall x :: x in c ==> x in h
  {
    WalkInGraph(h, c);
    forall x | x in c ensures x in h {
      var i :| 0 <= i < |c| && c[i] == x;
      assert c[..|c| - 1][if i < |c| - 1 then i else 0] == x;
    }
  }

  lemma NameCycleIsWayBack(fs: Files, services: ServiceMap, name: Name, items: seq<Item>, stays: seq<Dep>, after: ServiceMap, c: seq<Name>)
    requires Reloaded(fs, services, name, items, stays, after) && IsCycle(SetGraph(after), c) && Acyclic(SetGraph(services))
    requires forall d :: d in stays ==> d in services[name].deps
    requires name in c && forall n :: n in c ==> n in services
    ensures WayBack(fs, services, name, items)
  {
    hide Reloaded, StartsAt, Path;
    var h := SetGraph(after);
    var r := Turn(h, c, name);
    assert r[1..][|r| - 2] == name;
    var k := FirstPlace(r, name, 1);
    if StartsAt(fs, services.Keys, items, r[1]) {
      var w := r[1..k + 1];
      WalkSlice(h, r, 1, k + 1);
      assert w[..|w| - 1] == r[1..k];
      WalkIsPath(fs, services, name, items, stays, after, w);
      assert w[|w| - 1] == name && w[0] == r[1];
    } else {
      var c' := r[0..k + 1];
      WalkSlice(h, r, 0, k + 1);
      assert IsCycle(h, c') && c'[1..|c'| - 1] == r[1..k];
      OldCycle(fs, services, name, items, stays, after, c');
    }
  }

  // ----- the theorem -----

  lemma {:induction false} DepsSummon(fs: Files, base: set<Name>, st: State, name: Name, items: seq<Item>)
    requires base <= st.services.Keys && name in st.services
    ensures
      var after := LoadDependencies(fs, st, name, items).0.services;
      forall n :: n in after && n !in st.services ==> Summons(fs, base, items, n)
    decreases |items|
  {
    hide LoadService, Leads;
    if items != [] && items[0].Link? {
      var it := items[0];
      LoadAddsNeeded(fs, st, base, it.target);
      var (st', outcome) := LoadService(fs, st, it.target);
      var next := if outcome.Loaded? then AddDep(st', name, Dep(it.target, it.kind)) else st';
      if outcome.Loaded? || (it.optional && outcome.NotFound?) {
        DepsSummon(fs, base, next, name, items[1..]);
      }
      var after := LoadDependencies(fs, st, name, items).0.services;
      forall n | n in after && n !in st.services ensures Summons(fs, base, items, n) {
        if n in st'.services {
          NeededIsSummoned(fs, base, items, it, n);
        } else {
          SummonsMore(fs, base, items, n);
        }
      }
    }
  }

  lemma NeededIsSummoned(fs: Files, base: set<Name>, items: seq<Item>, it: Item, n: Name)
    requires it in items && it.Link? && Needed(fs, base, it.target, n)
    ensures Summons(fs, base, items, n)
  {
    assert Leads(fs, base, it.target, n);
  }

  lemma SummonsMore(fs: Files, base: set<Name>, items: seq<Item>, n: Name)
    requires items != [] && Summons(fs, base, items[1..], n)
    ensures Summons(fs, base, items, n)
  {
    var it :| it in items[1..] && it.Link? && Leads(fs, base, it.target, n);
    assert it in items;
  }

  /** The optional lines of the description resolve, and so do all that loading comes across. */
  ghost predicate DescriptionResolves(fs: Files, base: set<Name>, d: Description) {
    LinesResolve(fs, base, Items(d)) && forall it :: it in Items(d) && it.Link? ==> OptionalsResolve(fs, base, it.target)
  }

  lemma ReloadedSet(fs: Files, st: State, name: Name, d: Description)
    requires name in st.services && !Matches(st.services[name].deps, d) && AllLoad(fs, st, name, d)
    requires DescriptionResolves(fs, st.services.Keys, d)
    ensures
      var after := UpdateDependencies(fs, st, name, d, false).0.services;
      Reloaded(fs, st.services, name, Items(d), Befores(st.services[name].deps), after)
  {
    hide Items, Matches, Befores, TakeOutFrom, Kept, LoadDependencies, Summons, OptionalsResolve, LinesResolve;
    var base, torn, items := st.services.Keys, TakeOut(st, name), Items(d);
    TakeOutDeps(st, name);
    DepsLoaded(fs, base, torn, name, items);
    DepsSummon(fs, base, torn, name, items);
    var after := LoadDependencies(fs, torn, name, items).0.services;
    forall n | n in st.services && n != name ensures n in after && after[n] == st.services[n] {
      assert n in torn.services - {name};
    }
  }

  /** A reload that loads whatever its description asks for keeps the graph free of cycles exactly
      when there is no way back: none of the described targets leads to the service, or round in a
      circle, over described links of what is not loaded yet and installed links of what is. */
  lemma ReloadAcyclicExactly(fs: Files, st: State, name: Name, d: Description)
    requires name in st.services && !Matches(st.services[name].deps, d) && AllLoad(fs, st, name, d)
    requires DescriptionResolves(fs, st.services.Keys, d) && Acyclic(SetGraph(st.services))
    ensures
      var (st', ok) := UpdateDependencies(fs, st, name, d, false);
      ok && (Acyclic(SetGraph(st'.services)) <==> !WayBack(fs, st.services, name, Items(d)))
  {
    hide UpdateDependencies, Reloaded, WayBack, HasCycle, AllLoad, Items, Matches, Befores, NonBefores;
    var was := st.services[name].deps;
    var after := UpdateDependencies(fs, st, name, d, false).0.services;
    ReloadOutcome(fs, st, name, d, false);
    ReloadedSet(fs, st, name, d);
    if WayBack(fs, st.services, name, Items(d)) {
      WayBackIsCycle(fs, st.services, name, Items(d), Befores(was), after);
    } else if HasCycle(SetGraph(after)) {
      forall x | x in Befores(was) ensures x in was { SplitMember(was, x); }
      CycleIsWayBack(fs, st.services, name, Items(d), Befores(was), after);
    }
  }

  /** After the cycle check has passed, a way back starts at a line that the check does not look
      at, or passes through a service that the reload itself loads. */
  lemma CheckMisses(fs: Files, services: ServiceMap, name: Name, d: Description, p: seq<Name>)
    requires Acyclic(SetGraph(services)) && !SomeReaches(SetGraph(services), Collected(d), name)
    requires Path(fs, services, name, Items(d), p) && Wraps(p, name)
    ensures p[0] !in Collected(d) || exists x :: x in p && x !in services
  {
    hide Items, Collected;
    var g := SetGraph(services);
    if forall x :: x in p ==> x in services {
      forall i: nat | 0 < i < |p| ensures Hop(g, p, i) {
        assert NextAt(fs, services, name, Items(d), p, i);
      }
      if p[|p| - 1] == name {
        assert WalkFromTo(g, p, p[0], name);
      } else {
        var j :| 0 <= j < |p| - 1 && p[..|p| - 1][j] == p[|p| - 1];
        WalkSlice(g, p, j, |p|);
        NoCycleAt(g, p[j..|p|]);
      }
    }
  }

  lemma NoCycleAt(g: Graph, c: seq<Name>)
    requires Acyclic(g)
    ensures !IsCycle(g, c)
  {
  }
}
