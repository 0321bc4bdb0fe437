/** The reload of a dependency list with its depths: the whole replacement on the loader's own
    state, and when it leaves every depth right. */
module DepthReload {
  import opened Graph
  import opened Services
  import opened Loader
  import opened LinkLists
  import opened LoadSafety
  import opened LoadLoops
  import opened Reload
  import opened ReloadSafety
  import opened ReloadLoops
  import opened DepthUpdate
  import opened DepthSafety
  import opened DepthShapes

  // ----- links do not depend on depths -----

  /** The link lists of `name` and all lists of dependents are the same. */
  ghost predicate SameListsFor(a: State, b: State, name: Name) {
    name in a.services && name in b.services
    && a.services[name].deps == b.services[name].deps && a.dependents == b.dependents
  }

  lemma {:induction false} TakeOutSame(a: State, b: State, name: Name, i: nat)
    requires SameListsFor(a, b, name) && i <= |a.services[name].deps|
    ensures SameListsFor(TakeOutFrom(a, name, i), TakeOutFrom(b, name, i), name)
    decreases i
  {
    hide RemoveFirst, RemoveDept;
    if i > 0 {
      var d := a.services[name].deps[i - 1];
      if d.kind == Before {
        TakeOutSame(a, b, name, i - 1);
      } else {
        RmDepShrinks(a, name, d);
        TakeOutSame(RmDep(a, name, d), RmDep(b, name, d), name, i - 1);
      }
    }
  }

  lemma {:induction false} PutInSame(a: State, b: State, name: Name, ds: seq<Dep>)
    requires SameListsFor(a, b, name)
    ensures SameListsFor(PutIn(a, name, ds), PutIn(b, name, ds), name)
    decreases |ds|
  {
    if ds != [] {
      PutInSame(AddDep(a, name, ds[0]), AddDep(b, name, ds[0]), name, ds[1..]);
    }
  }

  /** The links of `name` put back as they were, but for new ordering ones. */
  function PutBack(st: State, name: Name, was: seq<Dep>): (r: State)
    requires name in st.services
    ensures name in r.services
  {
    PutIn(TakeOut(st, name), name, NonBefores(was))
  }

  lemma PutBackDeps(st: State, name: Name, was: seq<Dep>)
    requires name in st.services
    ensures OnlyDepsChanged(st, name, PutBack(st, name, was), Befores(st.services[name].deps) + NonBefores(was))
  {
    hide Befores, NonBefores, TakeOutFrom, PutIn;
    TakeOutDeps(st, name);
    PutInDeps(TakeOut(st, name), name, NonBefores(was));
  }

  lemma PutBackSame(a: State, b: State, name: Name, was: seq<Dep>)
    requires SameListsFor(a, b, name)
    ensures SameListsFor(PutBack(a, name, was), PutBack(b, name, was), name)
  {
    TakeOutSame(a, b, name, |a.services[name].deps|);
    PutInSame(TakeOut(a, name), TakeOut(b, name), name, NonBefores(was));
  }

  lemma RecordsRelinked(st: State, name: Name, after: State, deps: seq<Dep>)
    requires name in st.services && !Hidden(name) && OnlyDepsChanged(st, name, after, deps)
    ensures Records(after) == Records(st)[name := Records(st)[name].(deps := deps)]
  {
    RecordsUpdated(st, after.services, name, after.services[name]);
    SameRecords(after, st.(services := after.services));
  }

  /** Two states with the same records and lists are the same. */
  lemma SameState(a: State, b: State)
    requires SameButDepths(a, b) && Records(a) == Records(b) && forall n :: n in a.services ==> !Hidden(n)
    ensures a == b
  {
    forall n | n in a.services ensures a.services[n] == b.services[n] {
      assert Records(a)[n] == a.services[n] && Records(b)[n] == b.services[n];
    }
    forall i: nat | i < |a.orphans| ensures a.orphans[i] == b.orphans[i] {
      var k := OrphanKey(i);
      assert k in Records(a) && Records(a)[k] == a.orphans[i] && Records(b)[k] == b.orphans[i];
    }
  }

  /** Putting the depths back leaves links that were changed in between alone. */
  lemma RollbackAfterRelink(start: ServiceMap, w: Work, name: Name, deps: seq<Dep>)
    requires name in start && Remembers(start, w)
    ensures
      var relinked := w.services[name := w.services[name].(deps := deps)];
      Restore(relinked, w.changed) == start[name := start[name].(deps := deps)]
  {
    var relinked := w.services[name := w.services[name].(deps := deps)];
    var start' := start[name := start[name].(deps := deps)];
    forall n | n in start' ensures Restore(relinked, w.changed)[n] == start'[n] {
      RestoreAt(relinked, w.changed, start', n);
    }
  }

  // ----- the reload -----

  /** What recalculating from `name` gives. */
  ghost function Recalculation(st: State, name: Name): (Work, bool)
    requires Mirrored(st) && name in st.services
  {
    RecalculableIsReady(st, FirstWork(Records(st), name).changed);
    Process(FromLists(st.dependents), FirstWork(Records(st), name))
  }

  /** The recalculation at the end of a reload whose dependencies all loaded. */
  ghost function Recalculated(fs: Files, st: State, name: Name, d: Description): (Work, bool)
    requires Mirrored(st) && name in st.services
  {
    ReloadMirrors(fs, st, name, d, false);
    Recalculation(UpdateDependencies(fs, st, name, d, false).0, name)
  }

  /** The last part of a reload: recalculates the depths, or puts links and depths back. */
  method Recalculate(dl: DirLoader, name: Name, oldDeps: seq<Dep>) returns (ok: bool)
    requires Mirrored(dl.Current()) && name in dl.services
    modifies dl`services, dl`orphans, dl`dependents
    ensures ok == Recalculation(old(dl.Current()), name).1
    ensures ok ==> SameButDepths(old(dl.Current()), dl.Current())
    ensures ok ==> Records(dl.Current()) == Recalculation(old(dl.Current()), name).0.services
    ensures !ok ==> dl.Current() == PutBack(old(dl.Current()), name, oldDeps)
  {
    hide Mirrored, Process, Remembers, Records, PutBack, Ready;
    ghost var st := dl.Current();
    ghost var lists, start := FromLists(st.dependents), Records(st);
    IsRecord(st, name);
    var updater := new DepDepthUpdater();
    updater.AddPotentialUpdate(dl, name);
    assert Work(Records(dl.Current()), updater.changed, 0) == FirstWork(start, name);
    RecalculableIsReady(st, updater.changed);
    ok := updater.ProcessUpdates(dl);
    FirstRemembers(start, name);
    ProcessRemembers(lists, start, FirstWork(start, name));
    ghost var w := Process(lists, FirstWork(start, name)).0;
    if ok {
      updater.Commit();
    } else {
      Revert(dl, updater, name, oldDeps, st, w);
    }
  }

  /** Puts the old links back, and then the old depths. */
  method Revert(dl: DirLoader, updater: DepDepthUpdater, name: Name, oldDeps: seq<Dep>, ghost st: State, ghost w: Work)
    requires Mirrored(st) && name in st.services && SameButDepths(st, dl.Current())
    requires Remembers(Records(st), w) && Records(dl.Current()) == w.services
    requires updater.changed == w.changed && !updater.committed
    modifies dl`services, dl`orphans, dl`dependents, updater`changed
    ensures dl.Current() == PutBack(st, name, oldDeps)
  {
    hide Mirrored, Befores, NonBefores, Remembers, Restore, Records, TakeOut, PutIn;
    ghost var mid := dl.Current();
    RememberedLinks(st, mid, w, name);
    TearDown(dl, name);
    ReAdd(dl, name, oldDeps);
    assert dl.Current() == PutBack(mid, name, oldDeps);
    PutBackRecords(st, mid, w, name, oldDeps);
    updater.Rollback(dl);
    RolledBack(st, mid, w, name, oldDeps, dl.Current());
  }

  lemma IsRecord(st: State, name: Name)
    requires name in st.services
    ensures name in Records(st)
  {
  }

  lemma FirstRemembers(start: ServiceMap, name: Name)
    requires name in start
    ensures Remembers(start, FirstWork(start, name))
  {
  }

  lemma RememberedLinks(st: State, mid: State, w: Work, name: Name)
    requires Mirrored(st) && name in st.services && SameButDepths(st, mid)
    requires Remembers(Records(st), w) && Records(mid) == w.services
    ensures SameListsFor(mid, st, name) && (forall n :: n in mid.services ==> !Hidden(n)) && name in Records(st)
    ensures forall i :: 0 <= i < |w.changed| ==> w.changed[i].name in Records(mid)
  {
    assert Records(mid)[name] == mid.services[name] && Records(st)[name] == st.services[name];
  }

  lemma PutBackRecords(st: State, mid: State, w: Work, name: Name, was: seq<Dep>)
    requires Mirrored(st) && name in st.services && SameButDepths(st, mid)
    requires Remembers(Records(st), w) && Records(mid) == w.services
    ensures
      var back := PutBack(mid, name, was);
      && (forall n :: n in back.services ==> !Hidden(n)) && back.services.Keys == st.services.Keys
      && forall i :: 0 <= i < |w.changed| ==> w.changed[i].name in Records(back)
  {
    hide Befores, NonBefores, PutBack;
    PutBackDeps(mid, name, was);
    RecordsRelinked(mid, name, PutBack(mid, name, was), Befores(mid.services[name].deps) + NonBefores(was));
  }

  /** Links and depths are then what they would be without the recalculation. */
  lemma RolledBack(st: State, mid: State, w: Work, name: Name, was: seq<Dep>, after: State)
    requires Mirrored(st) && name in st.services && SameButDepths(st, mid)
    requires Remembers(Records(st), w) && Records(mid) == w.services
    requires SameButDepths(PutBack(mid, name, was), after)
    requires forall i :: 0 <= i < |w.changed| ==> w.changed[i].name in Records(PutBack(mid, name, was))
    requires Records(after) == Restore(Records(PutBack(mid, name, was)), w.changed)
    ensures after == PutBack(st, name, was)
  {
    hide Befores, NonBefores, PutBack, Mirror, Remembers, Restore;
    RememberedLinks(st, mid, w, name);
    var deps := Befores(st.services[name].deps) + NonBefores(was);
    PutBackDeps(mid, name, was);
    PutBackDeps(st, name, was);
    PutBackSame(mid, st, name, was);
    RecordsRelinked(mid, name, PutBack(mid, name, was), deps);
    RecordsRelinked(st, name, PutBack(st, name, was), deps);
    RollbackAfterRelink(Records(st), w, name, deps);
    SameState(PutBack(st, name, was), after);
  }

  /** Replaces the dependencies of a service on the loader's own state and recalculates the
      depths.  When the depths overflow, the links are put back as `UpdateDependencies` says and
      every depth is what it was, orphans included. */
  method Update(dl: DirLoader, name: Name, d: Description) returns (ok: bool)
    requires Mirrored(dl.Current()) && name in dl.services
    modifies dl
    ensures
      var st := old(dl.Current());
      var (w, fits) := Recalculated(dl.files, st, name, d);
      var (st', fine) := UpdateDependencies(dl.files, st, name, d, !fits);
      ok == fine &&
      if ok && !Matches(st.services[name].deps, d) then SameButDepths(st', dl.Current()) && Records(dl.Current()) == w.services
      else dl.Current() == st'
  {
    hide Process, LoadDependencies, Mirrored, Matches, Items, Befores, NonBefores, TakeOutFrom, PutIn, Records;
    ghost var st := dl.Current();
    var oldDeps := dl.services[name].deps;
    var same := DescDepsMatchCurrent(oldDeps, d);
    if same {
      return true;
    }
    TearDown(dl, name);
    var outcome := dl.LoadDeps(name, Items(d));
    if !outcome.Loaded? {
      ReAdd(dl, name, oldDeps);
      return false;
    }
    ReloadMirrors(dl.files, st, name, d, false);
    ok := Recalculate(dl, name, oldDeps);
  }

  // ----- a reload in a sound set -----

  /** Neither a service nor an orphan has a link to an orphan. */
  ghost predicate NoStray(st: State) {
    LinksInto(Records(st), st.services.Keys)
  }

  lemma RecordsAcyclic(st: State)
    requires NoStray(st) && Acyclic(SetGraph(st.services))
    ensures Acyclic(SetGraph(Records(st)))
  {
    var g, h := SetGraph(st.services), SetGraph(Records(st));
    forall c | IsCycle(h, c) ensures false {
      forall i: nat | 0 < i < |c| ensures c[i] in st.services {
        assert Hop(h, c, i);
        EdgeMember(Records(st), c[i - 1], c[i]);
      }
      forall i: nat | 0 < i < |c| ensures Hop(g, c, i) {
        assert Hop(h, c, i);
        EdgeMember(Records(st), c[i - 1], c[i]);
        EdgeMember(st.services, c[i - 1], c[i]);
        assert c[i - 1] in st.services;
      }
      assert IsCycle(g, c);
    }
  }

  ghost predicate RightElsewhere(services: ServiceMap, name: Name) {
    forall n :: n in services && n != name ==> services[n].depth == CalcDepth(services, services[n].deps)
  }

  lemma RecordsReady(st: State, name: Name)
    requires Mirrored(st) && NoStray(st) && name in st.services && Acyclic(SetGraph(st.services)) && RightElsewhere(st.services, name)
    ensures ReadyToUpdate(Records(st), FromLists(st.dependents), name, st.services.Keys)
  {
    hide Acyclic, CalcDepth, Mirror, Inverse;
    var r := Records(st);
    RecordsAcyclic(st);
    MirrorIsInverse(r, st.dependents);
    forall n | n in st.services && n != name ensures r[n].depth == CalcDepth(r, r[n].deps) {
      forall d | d in r[n].deps ensures DepthOf(st.services, d.to) == DepthOf(r, d.to) {}
      CalcDepthSame(st.services, r, r[n].deps);
    }
  }

  lemma {:induction false} DepsKeepDepth(fs: Files, st: State, name: Name, items: seq<Item>)
    requires name in st.services
    ensures LoadDependencies(fs, st, name, items).0.services[name].depth == st.services[name].depth
    decreases |items|
  {
    hide LoadService;
    if items != [] && items[0].Link? {
      var (st', outcome) := LoadService(fs, st, items[0].target);
      if outcome.Loaded? {
        DepsKeepDepth(fs, AddDep(st', name, Dep(items[0].target, items[0].kind)), name, items[1..]);
      } else if items[0].optional && outcome.NotFound? {
        DepsKeepDepth(fs, st', name, items[1..]);
      }
    }
  }

  /** A chain of descriptions from an added service is a walk in the reloaded set. */
  lemma {:induction false} ChainWalks(fs: Files, services: ServiceMap, name: Name, items: seq<Item>, stays: seq<Dep>, after: ServiceMap, p: seq<Name>)
    requires Reloaded(fs, services, name, items, stays, after)
    requires |p| > 0 && Chain(fs, services.Keys, p, p[0]) && p[0] in after && !Absent(fs, services.Keys, p[|p| - 1])
    ensures IsWalk(SetGraph(after), p)
    decreases |p|
  {
    hide Reloaded, Edge;
    if |p| > 1 {
      var q := p[1..];
      assert Descends(fs, p, 1);
      assert !Absent(fs, services.Keys, p[1]) by { if |p| > 2 { assert Descends(fs, p, 2); } }
      AddedEdge(fs, services, name, items, stays, after, p[0], p[1]);
      forall i: nat | 0 < i < |q| ensures Descends(fs, q, i) { assert Descends(fs, p, i + 1); }
      ChainWalks(fs, services, name, items, stays, after, q);
      forall i: nat | 0 < i < |p| ensures Hop(SetGraph(after), p, i) {
        if i > 1 { assert Hop(SetGraph(after), q, i - 1); }
      }
    }
  }

  lemma AddedEdge(fs: Files, services: ServiceMap, name: Name, items: seq<Item>, stays: seq<Dep>, after: ServiceMap, a: Name, b: Name)
    requires Reloaded(fs, services, name, items, stays, after) && a in after && a !in services
    requires Describes(fs, a, b) && !Absent(fs, services.Keys, b)
    ensures Edge(SetGraph(after), a, b) && b in after
  {
    hide AddedAsDescribed, AddedClosed, Kept, Absent, Describes, Summons;
    EdgeIsNext(fs, services, name, items, stays, after, a, b);
    NextStays(fs, services, name, items, stays, after, a, b);
  }

  lemma NoLoopsLoaded(fs: Files, services: ServiceMap, name: Name, items: seq<Item>, stays: seq<Dep>, after: ServiceMap, n: Name)
    requires Reloaded(fs, services, name, items, stays, after) && Acyclic(SetGraph(after)) && n in after && n !in services
    ensures !OnLoop(fs, services.Keys, n)
  {
    hide Reloaded;
    if OnLoop(fs, services.Keys, n) {
      var p :| Chain(fs, services.Keys, p, n) && |p| > 1 && p[|p| - 1] == n;
      assert Descends(fs, p, 1);
      ChainWalks(fs, services, name, items, stays, after, p);
      NoCycleAt(SetGraph(after), p);
    }
  }

  /** Every link of the reloaded set leads to a service of the set. */
  lemma ReloadedCloses(fs: Files, services: ServiceMap, name: Name, items: seq<Item>, stays: seq<Dep>, after: ServiceMap)
    requires Reloaded(fs, services, name, items, stays, after) && Sound(services, {})
    requires forall d :: d in stays ==> d in services[name].deps
    ensures Closed(after)
  {
    hide Kept, CalcDepth, Summons, AddedAsDescribed;
    forall n, d | n in after && d in after[n].deps ensures d.to in after {
      if n in services {
        assert SoundAt(services, {}, n);
      }
    }
  }

  /** In the reloaded set only the depth of the service itself can be wrong. */
  lemma ReloadedRight(fs: Files, services: ServiceMap, name: Name, items: seq<Item>, stays: seq<Dep>, after: ServiceMap)
    requires Reloaded(fs, services, name, items, stays, after) && Sound(services, {}) && Acyclic(SetGraph(after))
    requires after[name].depth == services[name].depth && AddedSound(fs, services.Keys, after, {})
    ensures RightElsewhere(after, name)
  {
    hide Kept, CalcDepth, Summons, Acyclic, OnLoop, AddedAsDescribed, AddedClosed;
    forall n | n in after && n != name ensures after[n].depth == CalcDepth(after, after[n].deps) {
      if n in services {
        assert SoundAt(services, {}, n);
        forall d | d in services[n].deps ensures DepthOf(services, d.to) == DepthOf(after, d.to) {}
        CalcDepthSame(services, after, services[n].deps);
      } else {
        NoLoopsLoaded(fs, services, name, items, stays, after, n);
      }
    }
  }

  lemma StraysStayAway(st: State, after: State)
    requires NoStray(st) && after.orphans == st.orphans && st.services.Keys <= after.services.Keys && Closed(after.services)
    requires forall n :: n in after.services ==> !Hidden(n)
    ensures NoStray(after)
  {
    var r, r' := Records(st), Records(after);
    forall n, d | n in r' && d in r'[n].deps ensures d.to in after.services {
      if n !in after.services {
        assert n in r && r[n] == r'[n];
      }
    }
  }

  /** Once the links are replaced and whatever they ask for is loaded, the set is ready for the
      recalculation: nothing dangles, no cycle has been closed, and only the depth of the reloaded
      service can be wrong. */
  lemma ReloadReadies(fs: Files, st: State, name: Name, d: Description)
    requires Mirrored(st) && NoStray(st) && Sound(st.services, {}) && name in st.services && !Matches(st.services[name].deps, d)
    requires AllLoad(fs, st, name, d) && DescriptionResolves(fs, st.services.Keys, d) && !WayBack(fs, st.services, name, Items(d))
    ensures
      var st' := UpdateDependencies(fs, st, name, d, false).0;
      Mirrored(st') && ReadyToUpdate(Records(st'), FromLists(st'.dependents), name, st'.services.Keys)
  {
    hide UpdateDependencies, Reloaded, WayBack, AllLoad, Items, Matches, Befores, NonBefores, Sound, Acyclic, Mirror, NoStray,
      ReadyToUpdate, AddedSound, LongestFrom, Records, Closed, RightElsewhere;
    var was, st' := st.services[name].deps, UpdateDependencies(fs, st, name, d, false).0;
    SoundMeansLongest(st.services);
    ReloadMirrors(fs, st, name, d, false);
    ReloadAcyclicExactly(fs, st, name, d);
    ReloadedSet(fs, st, name, d);
    ReloadedState(fs, st, name, d);
    forall x | x in Befores(was) ensures x in was { SplitMember(was, x); }
    ReloadedCloses(fs, st.services, name, Items(d), Befores(was), st'.services);
    ReloadedRight(fs, st.services, name, Items(d), Befores(was), st'.services);
    StraysStayAway(st, st');
    RecordsReady(st', name);
  }

  lemma ReloadedState(fs: Files, st: State, name: Name, d: Description)
    requires name in st.services && !Matches(st.services[name].deps, d)
    requires AllLoad(fs, st, name, d) && DescriptionResolves(fs, st.services.Keys, d)
    ensures
      var st' := UpdateDependencies(fs, st, name, d, false).0;
      && st'.orphans == st.orphans && st.services.Keys <= st'.services.Keys
      && st'.services[name].depth == st.services[name].depth && AddedSound(fs, st.services.Keys, st'.services, {})
  {
    hide Items, Matches, Befores, TakeOutFrom, Kept, LoadDependencies, OptionalsResolve, LinesResolve, OnLoop;
    var base, torn, items := st.services.Keys, TakeOut(st, name), Items(d);
    TakeOutDeps(st, name);
    DepsLoaded(fs, base, torn, name, items);
    DepsKeepDepth(fs, torn, name, items);
    DepsAddSound(fs, base, torn, {}, name, items);
    ExtendsKeys(torn.services, name, LoadDependencies(fs, torn, name, items).0.services);
  }

  /** From a sound set, a reload with no way back succeeds with a sound set exactly when every
      record met on the way up is in time; in a layered graph, exactly when none of them goes over
      the limit. */
  lemma ReloadKeepsDepths(fs: Files, st: State, name: Name, d: Description)
    requires Mirrored(st) && NoStray(st) && Sound(st.services, {}) && name in st.services && !Matches(st.services[name].deps, d)
    requires AllLoad(fs, st, name, d) && DescriptionResolves(fs, st.services.Keys, d) && !WayBack(fs, st.services, name, Items(d))
    ensures
      var st' := UpdateDependencies(fs, st, name, d, false).0;
      ReadyToUpdate(Records(st'), FromLists(st'.dependents), name, st'.services.Keys)
    ensures
      var st' := UpdateDependencies(fs, st, name, d, false).0;
      var start, live, lists := Records(st'), st'.services.Keys, FromLists(st'.dependents);
      var (w, fits) := Recalculated(fs, st, name, d);
      var order := SweepFrom(start, lists, name, live);
      && (fits && Sound(Part(w.services, live), {}) <==>
          forall i :: 0 <= i < |order| ==> InTime(start, RightDepths(start), live, order, i))
      && ((exists layer :: Layered(SetGraph(start), name, layer)) ==>
          (fits && Sound(Part(w.services, live), {}) <==>
           forall i :: 0 <= i < |order| ==> RightDepths(start)[order[i].name].depth <= MAX_DEP_DEPTH))
  {
    hide Items, Matches, UpdateDependencies, WayBack, Process, InTime, Sound, SetGraph, RightDepths, ReadyToUpdate, SweepFrom, Ready,
      Layered, Mirrored, NoStray, AllLoad, DescriptionResolves, Part, Records;
    var st' := UpdateDependencies(fs, st, name, d, false).0;
    var start, live, lists := Records(st'), st'.services.Keys, FromLists(st'.dependents);
    ReloadReadies(fs, st, name, d);
    DepthsRightIff(start, lists, name, live);
    if layer :| Layered(SetGraph(start), name, layer) {
      LayeredIsRight(start, lists, name, live, layer);
    }
  }
}
