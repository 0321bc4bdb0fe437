/** What loading keeps, and what it achieves: a closed, depth-correct service set stays so on
    every path, and descriptions that resolve within the limit load completely. */
module LoadSafety {
  import opened Graph
  import opened Services
  import opened Loader
  import opened LinkLists

  /** Every service outside `busy` depends only on loaded services outside `busy`, and its
      depth is one more than its deepest dependency's. */
  ghost predicate Sound(services: ServiceMap, busy: set<Name>) {
    forall n :: n in services && n !in busy ==> SoundAt(services, busy, n)
  }

  ghost predicate SoundAt(services: ServiceMap, busy: set<Name>, n: Name)
    requires n in services
  {
    && DepsSettled(services, busy, services[n].deps)
    && services[n].depth == CalcDepth(services, services[n].deps)
  }

  ghost predicate DepsSettled(services: ServiceMap, busy: set<Name>, deps: seq<Dep>) {
    forall d :: d in deps ==> d.to in services && d.to !in busy
  }

  /** The description of `a` names `b` as a dependency. */
  ghost predicate Describes(fs: Files, a: Name, b: Name) {
    fs(a).Found? && exists it :: it in fs(a).items && it.Link? && it.target == b
  }

  ghost predicate Descends(fs: Files, p: seq<Name>, i: nat)
    requires 0 < i < |p|
  {
    Describes(fs, p[i - 1], p[i])
  }

  /** A chain of descriptions from `a`; all of it but the last name lies outside `settled`. */
  ghost predicate Chain(fs: Files, settled: set<Name>, p: seq<Name>, a: Name) {
    && |p| > 0 && p[0] == a
    && (forall i: nat :: 0 < i < |p| ==> Descends(fs, p, i))
    && (forall i :: 0 <= i < |p| - 1 ==> p[i] !in settled)
  }

  ghost predicate RunsInto(p: seq<Name>, busy: set<Name>)
    requires |p| > 0
  {
    p[|p| - 1] in busy || p[|p| - 1] in p[..|p| - 1]
  }

  /** No chain from `a` comes back to itself or to a service being loaded. */
  ghost predicate NoLoop(fs: Files, settled: set<Name>, busy: set<Name>, a: Name) {
    forall p :: Chain(fs, settled, p, a) ==> !RunsInto(p, busy)
  }

  ghost function Settled(services: ServiceMap, busy: set<Name>): set<Name> {
    services.Keys - busy
  }

  lemma ChainCons(fs: Files, settled: set<Name>, a: Name, p: seq<Name>, b: Name)
    requires Chain(fs, settled, p, b) && Describes(fs, a, b) && a !in settled
    ensures Chain(fs, settled, [a] + p, a)
  {
    var q := [a] + p;
    forall i: nat | 0 < i < |q| ensures Descends(fs, q, i) {
      if i > 1 { assert Descends(fs, p, i - 1); }
    }
  }

  /** The chains from a described dependency avoid the describing service too. */
  lemma NoLoopBelow(fs: Files, settled: set<Name>, busy: set<Name>, a: Name, b: Name)
    requires NoLoop(fs, settled, busy, a) && Describes(fs, a, b) && a !in settled
    ensures NoLoop(fs, settled, busy + {a}, b)
  {
    forall p | Chain(fs, settled, p, b) ensures !RunsInto(p, busy + {a}) {
      ChainCons(fs, settled, a, p, b);
      var q := [a] + p;
      assert !RunsInto(q, busy);
      assert q[..|q| - 1] == [a] + p[..|p| - 1];
      assert q[0] == a && a in q[..|q| - 1];
    }
  }

  lemma NoLoopGrows(fs: Files, settled: set<Name>, settled': set<Name>, busy: set<Name>, a: Name)
    requires NoLoop(fs, settled, busy, a) && settled <= settled'
    ensures NoLoop(fs, settled', busy, a)
  {
    forall p | Chain(fs, settled', p, a) ensures !RunsInto(p, busy) {
      assert Chain(fs, settled, p, a);
    }
  }

  lemma {:induction false} CalcDepthSame(a: ServiceMap, b: ServiceMap, deps: seq<Dep>)
    requires forall d :: d in deps ==> DepthOf(a, d.to) == DepthOf(b, d.to)
    ensures CalcDepth(a, deps) == CalcDepth(b, deps)
  {
    if deps != [] {
      var n := |deps| - 1;
      assert deps[n] in deps;
      CalcDepthSame(a, b, deps[..n]);
    }
  }

  /** Soundness outside `busy` does not depend on the busy services, nor on whether they are
      loaded at all. */
  lemma SoundIgnoresBusy(a: ServiceMap, b: ServiceMap, busy: set<Name>)
    requires Sound(a, busy)
    requires forall n :: n !in busy ==> (n in a <==> n in b) && (n in a ==> a[n] == b[n])
    ensures Sound(b, busy)
  {
    forall n | n in b && n !in busy ensures SoundAt(b, busy, n) {
      assert SoundAt(a, busy, n);
      forall d | d in b[n].deps ensures DepthOf(a, d.to) == DepthOf(b, d.to) {}
      CalcDepthSame(a, b, b[n].deps);
    }
  }

  /** A service whose dependencies are settled and whose depth is calculated is settled. */
  lemma SoundSettles(services: ServiceMap, busy: set<Name>, name: Name)
    requires Sound(services, busy + {name}) && name in services
    requires DepsSettled(services, busy + {name}, services[name].deps)
    ensures
      var depth := CalcDepth(services, services[name].deps);
      Sound(services[name := services[name].(depth := depth)], busy)
  {
    var after := services[name := services[name].(depth := CalcDepth(services, services[name].deps))];
    SoundIgnoresBusy(services, after, busy + {name});
    forall n | n in after && n !in busy ensures SoundAt(after, busy, n) {
      if n == name {
        CalcDepthSame(services, after, services[name].deps);
      } else {
        assert SoundAt(after, busy + {name}, n);
      }
    }
  }

  lemma SoundForgets(services: ServiceMap, busy: set<Name>, name: Name)
    requires Sound(services, busy + {name})
    ensures Sound(services - {name}, busy)
  {
    SoundIgnoresBusy(services, services - {name}, busy + {name});
    forall n | n in services - {name} && n !in busy ensures SoundAt(services - {name}, busy, n) {
      assert SoundAt(services - {name}, busy + {name}, n);
    }
  }

  /** No settled service links to the one that leaves the set, so none is touched. */
  lemma ForgetsOnlyName(was: State, left: State, busy: set<Name>, name: Name)
    requires Sound(left.services, busy + {name}) && name in left.services && busy <= was.services.Keys
    ensures Forget(was, left, name).services == left.services - {name}
  {
    var after, key := Forget(was, left, name), OrphanKey(|left.orphans|);
    forall n | n in after.services ensures after.services[n] == left.services[n] {
      if n !in was.services {
        assert SoundAt(left.services, busy + {name}, n);
        RekeyNothing(left.services[n], name, key);
      }
    }
  }

  /** A service enters the set with its dependencies still to come. */
  lemma SoundEnters(services: ServiceMap, busy: set<Name>, name: Name)
    requires Sound(services, busy) && name !in services
    ensures Sound(services[name := Rec([], 0)], busy + {name})
    ensures Settled(services[name := Rec([], 0)], busy + {name}) == Settled(services, busy)
  {
    forall n | n in services && n !in busy + {name} ensures SoundAt(services, busy + {name}, n) {
      assert SoundAt(services, busy, n);
    }
    SoundIgnoresBusy(services, services[name := Rec([], 0)], busy + {name});
  }

  lemma NoLoopStart(fs: Files, settled: set<Name>, busy: set<Name>, a: Name)
    requires NoLoop(fs, settled, busy, a)
    ensures a !in busy
  {
    assert Chain(fs, settled, [a], a) && !RunsInto([a], busy);
  }

  /** Whatever the outcome, loading keeps the settled part of the set closed and depth-correct,
      as long as no chain of descriptions loops. */
  lemma {:induction false} LoadKeepsSound(fs: Files, st: State, busy: set<Name>, name: Name)
    requires busy <= st.services.Keys && Sound(st.services, busy)
    requires NoLoop(fs, Settled(st.services, busy), busy, name)
    ensures Sound(LoadService(fs, st, name).0.services, busy)
    ensures name !in busy
    decreases Budget(st), 0, 0
  {
    hide Sound, NoLoop, CalcDepth;
    NoLoopStart(fs, Settled(st.services, busy), busy, name);
    if name !in st.services && st.curDepth < MAX_DEP_DEPTH && name !in st.loading && fs(name).Found? {
      var items := fs(name).items;
      var entered := Enter(st, name);
      var busy' := busy + {name};
      SoundEnters(st.services, busy, name);
      forall it | it in items && it.Link? ensures NoLoop(fs, Settled(entered.services, busy'), busy', it.target) {
        NoLoopBelow(fs, Settled(st.services, busy), busy, name, it.target);
      }
      DepsKeepSound(fs, entered, busy', name, items);
      var (left, outcome) := LoadDependencies(fs, entered, name, items);
      if outcome.Loaded? {
        SoundSettles(left.services, busy, name);
      } else {
        SoundForgets(left.services, busy, name);
        ForgetsOnlyName(st, left, busy, name);
      }
    }
  }

  lemma {:induction false} DepsKeepSound(fs: Files, st: State, busy: set<Name>, name: Name, items: seq<Item>)
    requires busy <= st.services.Keys && Sound(st.services, busy) && name in busy
    requires DepsSettled(st.services, busy, st.services[name].deps)
    requires forall it :: it in items && it.Link? ==> NoLoop(fs, Settled(st.services, busy), busy, it.target)
    ensures
      var r := LoadDependencies(fs, st, name, items).0.services;
      Sound(r, busy) && DepsSettled(r, busy, r[name].deps)
    decreases Budget(st), 1, |items|
  {
    if items != [] && items[0].Link? {
      var target := items[0].target;
      assert items[0] in items;
      LoadKeepsSound(fs, st, busy, target);
      var (st', outcome) := LoadService(fs, st, target);
      assert Settled(st.services, busy) <= Settled(st'.services, busy);
      forall it | it in items[1..] && it.Link? ensures NoLoop(fs, Settled(st'.services, busy), busy, it.target) {
        NoLoopGrows(fs, Settled(st.services, busy), Settled(st'.services, busy), busy, it.target);
      }
      if outcome.Loaded? {
        var linked := AddDep(st', name, Dep(target, items[0].kind));
        SoundIgnoresBusy(st'.services, linked.services, busy);
        assert Settled(linked.services, busy) == Settled(st'.services, busy);
        DepsKeepSound(fs, linked, busy, name, items[1..]);
      } else if items[0].optional && outcome.NotFound? {
        DepsKeepSound(fs, st', busy, name, items[1..]);
      }
    }
  }

  // ----- descriptions that resolve within the limit load completely -----

  /** `n` has a description, and every dependency it names is settled, described or optional. */
  ghost predicate Resolves(fs: Files, settled: set<Name>, n: Name) {
    && fs(n).Found?
    && forall it :: it in fs(n).items ==> it.Link? && (Absent(fs, settled, it.target) ==> it.optional)
  }

  ghost predicate Absent(fs: Files, settled: set<Name>, n: Name) {
    n !in settled && fs(n).Missing?
  }

  ghost predicate ChainFits(fs: Files, settled: set<Name>, p: seq<Name>, limit: nat)
    requires |p| > 0
  {
    var last := p[|p| - 1];
    last !in settled ==> |p| <= limit && (Resolves(fs, settled, last) || (|p| > 1 && fs(last).Missing?))
  }

  /** Every chain of descriptions from `a` resolves and has at most `limit` unsettled names. */
  ghost predicate Fits(fs: Files, settled: set<Name>, a: Name, limit: nat) {
    forall p :: Chain(fs, settled, p, a) ==> ChainFits(fs, settled, p, limit)
  }

  lemma FitsStart(fs: Files, settled: set<Name>, a: Name, limit: nat)
    requires Fits(fs, settled, a, limit) && a !in settled
    ensures limit > 0 && Resolves(fs, settled, a)
  {
    assert Chain(fs, settled, [a], a) && ChainFits(fs, settled, [a], limit);
  }

  lemma FitsBelow(fs: Files, settled: set<Name>, a: Name, b: Name, limit: nat)
    requires Fits(fs, settled, a, limit) && a !in settled && Describes(fs, a, b) && limit > 0
    ensures Absent(fs, settled, b) ==> limit > 1
    ensures !Absent(fs, settled, b) ==> Fits(fs, settled, b, limit - 1)
  {
    assert Chain(fs, settled, [b], b);
    ChainCons(fs, settled, a, [b], b);
    assert ChainFits(fs, settled, [a] + [b], limit);
    forall p | Chain(fs, settled, p, b) && !Absent(fs, settled, b) ensures ChainFits(fs, settled, p, limit - 1) {
      ChainCons(fs, settled, a, p, b);
      assert ChainFits(fs, settled, [a] + p, limit);
      assert ([a] + p)[|p|] == p[|p| - 1];
    }
  }

  lemma FitsGrows(fs: Files, settled: set<Name>, settled': set<Name>, a: Name, limit: nat)
    requires Fits(fs, settled, a, limit) && settled <= settled'
    ensures Fits(fs, settled', a, limit)
  {
    forall p | Chain(fs, settled', p, a) ensures ChainFits(fs, settled', p, limit) {
      assert Chain(fs, settled, p, a) && ChainFits(fs, settled, p, limit);
    }
  }

  /** The links a description installs: all of them but the absent optional ones. */
  ghost function Kept(fs: Files, base: set<Name>, items: seq<Item>): seq<Dep> {
    if items == [] then []
    else
      (if items[0].Link? && !Absent(fs, base, items[0].target) then [Dep(items[0].target, items[0].kind)] else [])
      + Kept(fs, base, items[1..])
  }

  /** Every service that was added has the links its description asks for. */
  ghost predicate AddedAsDescribed(fs: Files, base: set<Name>, before: ServiceMap, after: ServiceMap) {
    forall n :: n in after && n !in before ==> fs(n).Found? && after[n].deps == Kept(fs, base, fs(n).items)
  }

  /** What is absent is the same for `base` and for the services loaded so far. */
  ghost predicate SameAbsent(fs: Files, base: set<Name>, services: ServiceMap) {
    forall n :: fs(n).Missing? ==> (n in services <==> n in base)
  }

  /** The item can be loaded, or is optional and may be skipped. */
  ghost predicate ItemFits(fs: Files, settled: set<Name>, busy: set<Name>, it: Item, limit: nat) {
    && it.Link?
    && NoLoop(fs, settled, busy, it.target)
    && if Absent(fs, settled, it.target) then it.optional && limit > 0 else Fits(fs, settled, it.target, limit)
  }

  lemma {:induction false} LoadSucceeds(fs: Files, st: State, busy: set<Name>, name: Name, base: set<Name>)
    requires st.loading <= busy <= st.services.Keys && SameAbsent(fs, base, st.services)
    requires NoLoop(fs, Settled(st.services, busy), busy, name)
    requires Fits(fs, Settled(st.services, busy), name, Budget(st))
    ensures
      var (st', outcome) := LoadService(fs, st, name);
      && outcome.Loaded? && name !in busy
      && AddedAsDescribed(fs, base, st.services, st'.services)
      && SameAbsent(fs, base, st'.services)
    decreases Budget(st), 0, 0
  {
    hide NoLoop, Fits, CalcDepth, LoadDependencies, Kept;
    var settled := Settled(st.services, busy);
    NoLoopStart(fs, settled, busy, name);
    if name !in st.services {
      FitsStart(fs, settled, name, Budget(st));
      var items := fs(name).items;
      var entered := Enter(st, name);
      var busy' := busy + {name};
      assert Settled(entered.services, busy') == settled;
      forall it | it in items ensures ItemFits(fs, settled, busy', it, Budget(entered)) {
        assert Describes(fs, name, it.target);
        NoLoopBelow(fs, settled, busy, name, it.target);
        FitsBelow(fs, settled, name, it.target, Budget(st));
      }
      DepsSucceed(fs, entered, busy', name, items, base);
    }
  }

  lemma {:induction false} DepsSucceed(fs: Files, st: State, busy: set<Name>, name: Name, items: seq<Item>, base: set<Name>)
    requires st.loading <= busy <= st.services.Keys && SameAbsent(fs, base, st.services) && name in busy
    requires forall it :: it in items ==> ItemFits(fs, Settled(st.services, busy), busy, it, Budget(st))
    ensures
      var (st', outcome) := LoadDependencies(fs, st, name, items);
      && outcome.Loaded?
      && st'.services[name].deps == st.services[name].deps + Kept(fs, base, items)
      && AddedAsDescribed(fs, base, st.services, st'.services)
      && SameAbsent(fs, base, st'.services)
    decreases Budget(st), 1, |items|
  {
    hide NoLoop, Fits, LoadService, LoadDependencies, Kept, AddedAsDescribed, SameAbsent, Absent;
    if items == [] {
      AddedRefl(fs, base, st.services);
      NothingToLoad(fs, base, st, name);
    } else {
      var it := items[0];
      var settled := Settled(st.services, busy);
      assert it in items && ItemFits(fs, settled, busy, it, Budget(st));
      NoLoopStart(fs, settled, busy, it.target);
      if Absent(fs, settled, it.target) {
        AbsentNotFound(fs, st, base, busy, it.target);
        SkipItem(fs, base, st, name, items);
        DepsSucceed(fs, st, busy, name, items[1..], base);
      } else {
        LoadSucceeds(fs, st, busy, it.target, base);
        var st' := LoadService(fs, st, it.target).0;
        var linked := AddDep(st', name, Dep(it.target, it.kind));
        LinkItem(fs, st, name, items);
        ItemsStillFit(fs, settled, Settled(linked.services, busy), busy, items[1..], Budget(st));
        AddedLinked(fs, base, st.services, st'.services, linked.services, name);
        DepsSucceed(fs, linked, busy, name, items[1..], base);
        AddedTrans(fs, base, st.services, linked.services, LoadDependencies(fs, linked, name, items[1..]).0.services, name);
        KeptPresent(fs, base, st, busy, items, st.services[name].deps);
      }
    }
  }

  lemma NothingToLoad(fs: Files, base: set<Name>, st: State, name: Name)
    requires name in st.services
    ensures LoadDependencies(fs, st, name, []) == (st, Loaded) && Kept(fs, base, []) == []
    ensures st.services[name].deps + [] == st.services[name].deps
  {
  }

  lemma SkipItem(fs: Files, base: set<Name>, st: State, name: Name, items: seq<Item>)
    requires name in st.services && items != [] && items[0].Link? && items[0].optional
    requires LoadService(fs, st, items[0].target) == (st, NotFound) && Absent(fs, base, items[0].target)
    ensures LoadDependencies(fs, st, name, items) == LoadDependencies(fs, st, name, items[1..])
    ensures Kept(fs, base, items) == Kept(fs, base, items[1..])
  {
    hide LoadService;
  }

  lemma LinkItem(fs: Files, st: State, name: Name, items: seq<Item>)
    requires name in st.services && items != [] && items[0].Link?
    requires LoadService(fs, st, items[0].target).1.Loaded?
    ensures
      var st' := LoadService(fs, st, items[0].target).0;
      && name in st'.services && st'.services[name] == st.services[name]
      && LoadDependencies(fs, st, name, items) ==
         LoadDependencies(fs, AddDep(st', name, Dep(items[0].target, items[0].kind)), name, items[1..])
  {
    hide LoadService;
  }

  lemma AddedRefl(fs: Files, base: set<Name>, a: ServiceMap)
    ensures AddedAsDescribed(fs, base, a, a)
  {
  }

  lemma AddedLinked(fs: Files, base: set<Name>, a: ServiceMap, b: ServiceMap, c: ServiceMap, name: Name)
    requires AddedAsDescribed(fs, base, a, b) && SameAbsent(fs, base, b) && name in a
    requires c.Keys == b.Keys && forall n :: n in b && n != name ==> c[n] == b[n]
    ensures AddedAsDescribed(fs, base, a, c) && SameAbsent(fs, base, c)
  {
  }

  lemma AddedTrans(fs: Files, base: set<Name>, a: ServiceMap, b: ServiceMap, c: ServiceMap, name: Name)
    requires AddedAsDescribed(fs, base, a, b) && AddedAsDescribed(fs, base, b, c)
    requires name in a && Extends(b - {name}, c)
    ensures AddedAsDescribed(fs, base, a, c)
  {
    forall n | n in c && n !in a ensures fs(n).Found? && c[n].deps == Kept(fs, base, fs(n).items) {
      if n in b { assert n in b - {name}; }
    }
  }

  lemma KeptPresent(fs: Files, base: set<Name>, st: State, busy: set<Name>, items: seq<Item>, deps: seq<Dep>)
    requires SameAbsent(fs, base, st.services) && items != [] && items[0].Link?
    requires !Absent(fs, Settled(st.services, busy), items[0].target) && items[0].target !in busy
    ensures deps + [Dep(items[0].target, items[0].kind)] + Kept(fs, base, items[1..]) == deps + Kept(fs, base, items)
  {
  }

  lemma AbsentNotFound(fs: Files, st: State, base: set<Name>, busy: set<Name>, n: Name)
    requires Absent(fs, Settled(st.services, busy), n) && n !in busy && st.loading <= busy && Budget(st) > 0
    requires SameAbsent(fs, base, st.services)
    ensures LoadService(fs, st, n) == (st, NotFound) && Absent(fs, base, n)
  {
  }

  lemma ItemsStillFit(fs: Files, settled: set<Name>, settled': set<Name>, busy: set<Name>, items: seq<Item>, limit: nat)
    requires settled <= settled'
    requires forall it :: it in items ==> ItemFits(fs, settled, busy, it, limit)
    ensures forall it :: it in items ==> ItemFits(fs, settled', busy, it, limit)
  {
    forall it | it in items ensures ItemFits(fs, settled', busy, it, limit) {
      assert ItemFits(fs, settled, busy, it, limit);
      NoLoopGrows(fs, settled, settled', busy, it.target);
      if !Absent(fs, settled, it.target) {
        FitsGrows(fs, settled, settled', it.target, limit);
      } else if it.target in settled' {
        forall p | Chain(fs, settled', p, it.target) ensures ChainFits(fs, settled', p, limit) {}
      }
    }
  }

  // ----- what a sound set means -----

  lemma EdgeIsDep(services: ServiceMap, u: Name, v: Name)
    requires Edge(SetGraph(services), u, v)
    ensures u in services && exists i :: 0 <= i < |services[u].deps| && services[u].deps[i].to == v
  {
    var i :| 0 <= i < |TargetNames(services[u].deps)| && TargetNames(services[u].deps)[i] == v;
    assert services[u].deps[i].to == v;
  }

  lemma EdgeLowersDepth(services: ServiceMap, u: Name, v: Name)
    requires Sound(services, {}) && Edge(SetGraph(services), u, v)
    ensures u in services && v in services && services[v].depth < services[u].depth
  {
    EdgeIsDep(services, u, v);
    var i :| 0 <= i < |services[u].deps| && services[u].deps[i].to == v;
    assert SoundAt(services, {}, u) && services[u].deps[i] in services[u].deps;
  }

  /** In a sound set the recorded depth of every service is the length of its longest
      dependency chain; in particular there is no cycle. */
  lemma SoundMeansLongest(services: ServiceMap)
    requires Sound(services, {})
    ensures Acyclic(SetGraph(services))
    ensures forall n :: n in services ==> LongestFrom(SetGraph(services), n, services[n].depth)
  {
    hide LongestFrom;
    var g := SetGraph(services);
    var rank := map n | n in services :: services[n].depth;
    forall u, v | Edge(g, u, v) && u in rank && v in rank ensures rank[v] < rank[u] {
      EdgeLowersDepth(services, u, v);
    }
    RankedIsAcyclic(g, rank);
    forall n | n in services ensures LongestFrom(g, n, services[n].depth) {
      DepthIsLongest(services, n);
    }
  }

  lemma DepthIsLongest(services: ServiceMap, n: Name)
    requires Sound(services, {}) && n in services
    ensures LongestFrom(SetGraph(services), n, services[n].depth)
  {
    var g := SetGraph(services);
    var w := DeepestWalk(services, n);
    assert WalkOutOf(g, w, n);
    forall p | WalkOutOf(g, p, n) ensures |p| <= services[n].depth + 1 {
      WalkWithinDepth(services, p);
    }
  }

  lemma {:induction false} WalkWithinDepth(services: ServiceMap, p: seq<Name>)
    requires Sound(services, {}) && IsWalk(SetGraph(services), p) && p[0] in services
    ensures |p| <= services[p[0]].depth + 1
    decreases |p|
  {
    if |p| > 1 {
      var g := SetGraph(services);
      assert Hop(g, p, 1);
      EdgeLowersDepth(services, p[0], p[1]);
      WalkSlice(g, p, 1, |p|);
      assert p[1..] == p[1..|p|];
      WalkWithinDepth(services, p[1..]);
    }
  }

  lemma {:induction false} DeepestWalk(services: ServiceMap, n: Name) returns (p: seq<Name>)
    requires Sound(services, {}) && n in services
    ensures WalkOutOf(SetGraph(services), p, n) && |p| == services[n].depth + 1
    decreases services[n].depth
  {
    assert SoundAt(services, {}, n);
    if services[n].depth == 0 {
      p := [n];
    } else {
      var deps := services[n].deps;
      var i :| 0 <= i < |deps| && services[n].depth == DepthOf(services, deps[i].to) + 1;
      assert deps[i] in deps;
      var q := DeepestWalk(services, deps[i].to);
      assert TargetNames(deps)[i] == deps[i].to;
      assert Edge(SetGraph(services), n, deps[i].to);
      assert Hop(SetGraph(services), [n, deps[i].to], 1);
      WalkJoin(SetGraph(services), [n, deps[i].to], q);
      p := [n, deps[i].to] + q[1..];
    }
  }

  // ----- what gets added -----

  /** `n` is at the end of a chain of descriptions from `a`. */
  ghost predicate Needed(fs: Files, settled: set<Name>, a: Name, n: Name) {
    fs(n).Found? && exists p :: Chain(fs, settled, p, a) && p[|p| - 1] == n
  }

  ghost predicate OnlyNeededAdded(fs: Files, settled: set<Name>, a: Name, before: ServiceMap, after: ServiceMap) {
    forall n :: n in after && n !in before ==> Needed(fs, settled, a, n)
  }

  lemma NeededBelow(fs: Files, settled: set<Name>, settled': set<Name>, a: Name, b: Name, n: Name)
    requires Describes(fs, a, b) && a !in settled && settled <= settled' && Needed(fs, settled', b, n)
    ensures Needed(fs, settled, a, n)
  {
    var p :| Chain(fs, settled', p, b) && p[|p| - 1] == n;
    assert Chain(fs, settled, p, b);
    ChainCons(fs, settled, a, p, b);
    assert ([a] + p)[|p|] == n;
  }

  /** Whatever the outcome, only services the descriptions ask for are added. */
  lemma {:induction false} LoadAddsNeeded(fs: Files, st: State, settled: set<Name>, name: Name)
    requires settled <= st.services.Keys
    ensures OnlyNeededAdded(fs, settled, name, st.services, LoadService(fs, st, name).0.services)
    decreases Budget(st), 0, 0
  {
    hide CalcDepth, Describes, LoadDependencies;
    if name !in st.services && st.curDepth < MAX_DEP_DEPTH && name !in st.loading && fs(name).Found? {
      var entered := Enter(st, name);
      DepsAddNeeded(fs, entered, settled, name, fs(name).items);
      assert Chain(fs, settled, [name], name);
    }
  }

  lemma {:induction false} DepsAddNeeded(fs: Files, st: State, settled: set<Name>, name: Name, items: seq<Item>)
    requires settled <= st.services.Keys && name in st.services && name !in settled
    requires fs(name).Found? && forall it :: it in items ==> it in fs(name).items
    ensures OnlyNeededAdded(fs, settled, name, st.services, LoadDependencies(fs, st, name, items).0.services)
    decreases Budget(st), 1, |items|
  {
    hide LoadService, Needed;
    if items != [] && items[0].Link? {
      var it := items[0];
      assert it in items && Describes(fs, name, it.target);
      LoadAddsNeeded(fs, st, settled, it.target);
      var (st', outcome) := LoadService(fs, st, it.target);
      forall n | n in st'.services && n !in st.services ensures Needed(fs, settled, name, n) {
        NeededBelow(fs, settled, settled, name, it.target, n);
      }
      if outcome.Loaded? {
        DepsAddNeeded(fs, AddDep(st', name, Dep(it.target, it.kind)), settled, name, items[1..]);
      } else if it.optional && outcome.NotFound? {
        DepsAddNeeded(fs, st', settled, name, items[1..]);
      }
    }
  }

  /** If `name` was loaded as described, so was everything its descriptions ask for. */
  lemma {:induction false} NeededIsLoaded(fs: Files, before: ServiceMap, after: ServiceMap, p: seq<Name>)
    requires Sound(after, {}) && AddedAsDescribed(fs, before.Keys, before, after)
    requires |p| > 0 && Chain(fs, before.Keys, p, p[0]) && p[0] in after && fs(p[|p| - 1]).Found?
    ensures p[|p| - 1] in after
    decreases |p|
  {
    if |p| > 1 {
      NextIsLoaded(fs, before, after, p);
      var q := p[1..];
      forall i: nat | 0 < i < |q| ensures Descends(fs, q, i) { assert Descends(fs, p, i + 1); }
      hide Sound, AddedAsDescribed, Descends;
      NeededIsLoaded(fs, before, after, q);
    }
  }

  lemma NextIsLoaded(fs: Files, before: ServiceMap, after: ServiceMap, p: seq<Name>)
    requires Sound(after, {}) && AddedAsDescribed(fs, before.Keys, before, after)
    requires |p| > 1 && Chain(fs, before.Keys, p, p[0]) && p[0] in after && fs(p[|p| - 1]).Found?
    ensures p[1] in after
  {
    hide Kept;
    assert Descends(fs, p, 1);
    var it :| it in fs(p[0]).items && it.Link? && it.target == p[1];
    if |p| > 2 { assert Descends(fs, p, 2); }
    assert !fs(p[1]).Missing?;
    KeptMember(fs, before.Keys, fs(p[0]).items, it);
    assert SoundAt(after, {}, p[0]);
  }

  lemma {:induction false} KeptMember(fs: Files, base: set<Name>, items: seq<Item>, it: Item)
    requires it in items && it.Link? && !Absent(fs, base, it.target)
    ensures Dep(it.target, it.kind) in Kept(fs, base, items)
  {
    if it != items[0] {
      KeptMember(fs, base, items[1..], it);
    }
  }

  // ----- the two theorems -----

  /** From a sound set, descriptions without loops leave a sound set, whatever the outcome:
      it is closed, every depth is that of the longest chain, nothing loaded before is touched
      and nothing is added that the descriptions do not ask for. */
  lemma LoadIsSafe(fs: Files, st: State, name: Name)
    requires Sound(st.services, {}) && NoLoop(fs, st.services.Keys, {}, name)
    ensures
      var after := LoadService(fs, st, name).0.services;
      && Sound(after, {}) && Extends(st.services, after)
      && OnlyNeededAdded(fs, st.services.Keys, name, st.services, after)
      && forall n :: n in after ==> LongestFrom(SetGraph(after), n, after[n].depth)
  {
    hide Sound, NoLoop, LongestFrom, LoadService;
    assert Settled(st.services, {}) == st.services.Keys;
    LoadKeepsSound(fs, st, {}, name);
    LoadAddsNeeded(fs, st, st.services.Keys, name);
    SoundMeansLongest(LoadService(fs, st, name).0.services);
  }

  /** Descriptions without loops whose chains resolve within the limit load: exactly what they
      ask for is added, with exactly the links they describe. */
  lemma LoadIsComplete(fs: Files, st: State, name: Name)
    requires st.loading == {} && Sound(st.services, {}) && NoLoop(fs, st.services.Keys, {}, name)
    requires Fits(fs, st.services.Keys, name, Budget(st))
    ensures
      var (st', outcome) := LoadService(fs, st, name);
      && outcome.Loaded? && Sound(st'.services, {})
      && AddedAsDescribed(fs, st.services.Keys, st.services, st'.services)
      && (forall n :: n in st'.services <==> n in st.services || Needed(fs, st.services.Keys, name, n))
      && forall n :: n in st'.services ==> LongestFrom(SetGraph(st'.services), n, st'.services[n].depth)
  {
    hide Sound, NoLoop, Fits, LongestFrom, LoadService, AddedAsDescribed;
    assert Settled(st.services, {}) == st.services.Keys;
    LoadIsSafe(fs, st, name);
    LoadSucceeds(fs, st, {}, name, st.services.Keys);
    var after := LoadService(fs, st, name).0.services;
    forall n | Needed(fs, st.services.Keys, name, n) ensures n in after {
      var p :| Chain(fs, st.services.Keys, p, name) && p[|p| - 1] == n;
      NeededIsLoaded(fs, st.services, after, p);
    }
  }

  // ----- what loops do -----

  /** `a` depends on `b` and then on `c`, which nobody describes; `b` depends on `a`. */
  ghost predicate LoopThenMissing(fs: Files, a: Name, b: Name, c: Name) {
    && a != b && b != c && a != c
    && fs(a) == Found([Link(b, Regular, false), Link(c, Regular, false)])
    && fs(b) == Found([Link(a, Regular, false)])
    && fs(c).Missing?
  }

  lemma DepthOfLink(services: ServiceMap, a: Name)
    ensures CalcDepth(services, [Dep(a, Regular)]) == DepthOf(services, a) + 1
  {
    assert [Dep(a, Regular)][..0] == [];
  }

  /** A dependency that is half loaded counts as loaded. */
  lemma LoopIsLookedUp(fs: Files, st: State, a: Name, b: Name)
    requires fs(b) == Found([Link(a, Regular, false)]) && a != b
    requires a in st.services && b !in st.services && b !in st.loading && st.curDepth < MAX_DEP_DEPTH
    ensures LoadService(fs, st, b) == (Settle(st, AddDep(Enter(st, b), b, Dep(a, Regular)), b), Loaded)
  {
    hide CalcDepth, Extends;
    var entered := Enter(st, b);
    var items := [Link(a, Regular, false)];
    var linked := AddDep(entered, b, Dep(a, Regular));
    assert items[1..] == [];
    assert LoadDependencies(fs, linked, b, []) == (linked, Loaded);
    assert LoadDependencies(fs, entered, b, items) == (linked, Loaded);
  }

  /** The looked-up service counts with the depth it has so far. */
  lemma LookedUpSet(st: State, a: Name, b: Name)
    requires a != b && a in st.services && b !in st.services
    ensures
      var after := Settle(st, AddDep(Enter(st, b), b, Dep(a, Regular)), b);
      && after.services == st.services[b := Rec([Dep(a, Regular)], st.services[a].depth + 1)]
      && after.orphans == st.orphans
  {
    var linked := AddDep(Enter(st, b), b, Dep(a, Regular));
    assert [] + [Dep(a, Regular)] == [Dep(a, Regular)];
    DepthOfLink(linked.services, a);
    hide CalcDepth;
  }

  /** The state when `c` turns out to be missing. */
  function LoopLinked(st: State, a: Name, b: Name): State {
    var e := Enter(st, a);
    AddDep(Settle(e, AddDep(Enter(e, b), b, Dep(a, Regular)), b), a, Dep(b, Regular))
  }

  lemma LoopLinkedSet(st: State, a: Name, b: Name)
    requires a != b && {a, b} !! st.services.Keys
    ensures
      var linked := LoopLinked(st, a, b);
      && linked.services == st.services[a := Rec([Dep(b, Regular)], 0)][b := Rec([Dep(a, Regular)], 1)]
      && linked.orphans == st.orphans
  {
    hide Settle;
    LookedUpSet(Enter(st, a), a, b);
    assert [] + [Dep(b, Regular)] == [Dep(b, Regular)];
  }

  lemma LoopThenMissingFails(fs: Files, st: State, a: Name, b: Name, c: Name)
    requires LoopThenMissing(fs, a, b, c) && {a, b, c} !! st.services.Keys + st.loading
    requires st.curDepth + 1 < MAX_DEP_DEPTH
    ensures LoadService(fs, st, a) == (Forget(st, LoopLinked(st, a, b), a), NotFound)
  {
    hide CalcDepth, Forget, Extends;
    var entered := Enter(st, a);
    LoopIsLookedUp(fs, entered, a, b);
    LoopLinkedSet(st, a, b);
    var linked, items := LoopLinked(st, a, b), fs(a).items;
    assert items[1..] == [Link(c, Regular, false)];
    assert LoadService(fs, linked, c) == (linked, NotFound);
    assert LoadDependencies(fs, linked, a, items[1..]) == (linked, NotFound);
    assert LoadDependencies(fs, entered, a, items) == (linked, NotFound);
  }

  /** A loop is resolved by looking up the half-loaded service, not rejected; when that service
      then fails to load it is removed again, and the set is left with a link to a record that
      is not in it. */
  lemma LoopLeavesDanglingLink(fs: Files, st: State, a: Name, b: Name, c: Name)
    requires LoopThenMissing(fs, a, b, c) && {a, b, c} !! st.services.Keys + st.loading
    requires Mirrored(st) && st.curDepth + 1 < MAX_DEP_DEPTH
    ensures
      var (st', outcome) := LoadService(fs, st, a);
      && outcome.NotFound? && a !in st'.services
      && b in st'.services && st'.services[b].deps == [Dep(OrphanKey(|st.orphans|), Regular)]
      && !Sound(st'.services, {})
  {
    hide CalcDepth, Sound, LoadService, Forget, Mirror, Records;
    LoopThenMissingFails(fs, st, a, b, c);
    LoopLinkedSet(st, a, b);
    assert !Hidden(a) && !Hidden(b);
    ForgetDangles(st, LoopLinked(st, a, b), a, b);
  }

  lemma ForgetDangles(was: State, left: State, a: Name, b: Name)
    requires a in left.services && b in left.services && a != b && b !in was.services
    requires left.services[b].deps == [Dep(a, Regular)] && forall n :: n in left.services ==> !Hidden(n)
    ensures
      var after := Forget(was, left, a).services;
      && a !in after && b in after && after[b].deps == [Dep(OrphanKey(|left.orphans|), Regular)] && !Sound(after, {})
  {
    hide Sound;
    var after, key := Forget(was, left, a).services, OrphanKey(|left.orphans|);
    assert after[b] == RekeyRec(left.services[b], a, key);
    assert after[b].deps[0] == Dep(key, Regular);
    DanglingIsUnsound(after, b, Dep(key, Regular));
  }

  lemma DanglingIsUnsound(services: ServiceMap, n: Name, d: Dep)
    requires n in services && d in services[n].deps && d.to !in services
    ensures !Sound(services, {})
  {
    assert !SoundAt(services, {}, n);
  }
}
