/** Links to orphans: loading and reloading make none, as long as no chain of descriptions loops.
    So the premise of the depth theorems holds in every state that is reached without loops. */
module Strays {
  import opened Graph
  import opened Services
  import opened Loader
  import opened LinkLists
  import opened LoadSafety
  import opened LoadLoops
  import opened Reload
  import opened ReloadSafety
  import opened DepthSafety
  import opened DepthReload

  /** Every link leads to a service of the set that is fully loaded. */
  ghost predicate Settles(st: State, busy: set<Name>, deps: seq<Dep>) {
    forall d :: d in deps ==> d.to in st.services && d.to !in busy
  }

  ghost predicate Tidy(st: State, busy: set<Name>) {
    && (forall n :: n in st.services ==> Settles(st, busy, st.services[n].deps))
    && (forall i :: 0 <= i < |st.orphans| ==> Settles(st, busy, st.orphans[i].deps))
  }

  lemma TidyIsNoStray(st: State)
    requires Mirrored(st)
    ensures Tidy(st, {}) <==> NoStray(st)
  {
    hide Mirror;
    var r := Records(st);
    if NoStray(st) {
      forall i | 0 <= i < |st.orphans| ensures Settles(st, {}, st.orphans[i].deps) {
        assert OrphanKey(i) in r && r[OrphanKey(i)] == st.orphans[i];
      }
    } else {
      var n, d :| n in r && d in r[n].deps && d.to !in st.services;
      if n !in st.services { assert r[n] == st.orphans[|n| - 1]; }
    }
  }

  // ----- loading -----

  lemma TidyEnters(st: State, busy: set<Name>, name: Name)
    requires Tidy(st, busy) && name !in st.services
    ensures Tidy(Enter(st, name), busy + {name})
  {
    var e := Enter(st, name);
    forall n | n in e.services ensures Settles(e, busy + {name}, e.services[n].deps) {
      if n != name { assert Settles(st, busy, st.services[n].deps); }
    }
    forall i | 0 <= i < |e.orphans| ensures Settles(e, busy + {name}, e.orphans[i].deps) {
      assert Settles(st, busy, st.orphans[i].deps);
    }
  }

  lemma TidySettles(was: State, left: State, busy: set<Name>, name: Name)
    requires name in left.services && Tidy(left, busy + {name})
    ensures Tidy(Settle(was, left, name), busy)
  {
    hide CalcDepth;
    var s := Settle(was, left, name);
    forall n | n in s.services ensures Settles(s, busy, s.services[n].deps) {
      assert Settles(left, busy + {name}, left.services[n].deps);
    }
    forall i | 0 <= i < |s.orphans| ensures Settles(s, busy, s.orphans[i].deps) {
      assert Settles(left, busy + {name}, left.orphans[i].deps);
    }
  }

  /** Nothing links to the record that is taken out. */
  lemma TidyForgets(was: State, left: State, busy: set<Name>, name: Name)
    requires name in left.services && Tidy(left, busy + {name})
    ensures Tidy(Forget(was, left, name), busy)
  {
    var f, key := Forget(was, left, name), OrphanKey(|left.orphans|);
    assert f.services.Keys == left.services.Keys - {name};
    var all := left.orphans + [left.services[name]];
    forall n | n in f.services ensures Settles(f, busy, f.services[n].deps) {
      assert Settles(left, busy + {name}, left.services[n].deps);
      RekeyNothing(left.services[n], name, key);
    }
    forall i | 0 <= i < |f.orphans| ensures Settles(f, busy, f.orphans[i].deps) {
      assert Settles(left, busy + {name}, all[i].deps);
      RekeyNothing(all[i], name, key);
    }
  }

  lemma TidyLinks(st: State, busy: set<Name>, name: Name, d: Dep)
    requires Tidy(st, busy) && name in st.services && d.to in st.services && d.to !in busy
    ensures Tidy(AddDep(st, name, d), busy)
  {
    var a := AddDep(st, name, d);
    forall n | n in a.services ensures Settles(a, busy, a.services[n].deps) {
      assert Settles(st, busy, st.services[n].deps);
    }
    forall i | 0 <= i < |a.orphans| ensures Settles(a, busy, a.orphans[i].deps) {
      assert Settles(st, busy, st.orphans[i].deps);
    }
  }

  lemma {:induction false} LoadTidies(fs: Files, st: State, busy: set<Name>, name: Name)
    requires busy <= st.services.Keys && Tidy(st, busy) && NoLoop(fs, Settled(st.services, busy), busy, name)
    ensures Tidy(LoadService(fs, st, name).0, busy) && name !in busy
    decreases Budget(st), 0, 0
  {
    hide Tidy, NoLoop, Settle, Forget;
    NoLoopStart(fs, Settled(st.services, busy), busy, name);
    if name !in st.services && st.curDepth < MAX_DEP_DEPTH && name !in st.loading && fs(name).Found? {
      var items, entered, busy' := fs(name).items, Enter(st, name), busy + {name};
      TidyEnters(st, busy, name);
      assert Settled(entered.services, busy') == Settled(st.services, busy);
      forall it | it in items && it.Link? ensures NoLoop(fs, Settled(entered.services, busy'), busy', it.target) {
        NoLoopBelow(fs, Settled(st.services, busy), busy, name, it.target);
      }
      DepsTidy(fs, entered, busy', name, items);
      var (left, outcome) := LoadDependencies(fs, entered, name, items);
      if outcome.Loaded? { TidySettles(st, left, busy, name); } else { TidyForgets(st, left, busy, name); }
    }
  }

  lemma {:induction false} DepsTidy(fs: Files, st: State, busy: set<Name>, name: Name, items: seq<Item>)
    requires busy <= st.services.Keys && Tidy(st, busy) && name in st.services
    requires forall it :: it in items && it.Link? ==> NoLoop(fs, Settled(st.services, busy), busy, it.target)
    ensures Tidy(LoadDependencies(fs, st, name, items).0, busy)
    decreases Budget(st), 1, |items|
  {
    hide Tidy, NoLoop, LoadService;
    if items != [] && items[0].Link? {
      var target := items[0].target;
      assert items[0] in items;
      LoadTidies(fs, st, busy, target);
      var (st', outcome) := LoadService(fs, st, target);
      assert Settled(st.services, busy) <= Settled(st'.services, busy);
      forall it | it in items[1..] && it.Link? ensures NoLoop(fs, Settled(st'.services, busy), busy, it.target) {
        NoLoopGrows(fs, Settled(st.services, busy), Settled(st'.services, busy), busy, it.target);
      }
      if outcome.Loaded? {
        var d := Dep(target, items[0].kind);
        TidyLinks(st', busy, name, d);
        assert AddDep(st', name, d).services.Keys == st'.services.Keys;
        DepsTidy(fs, AddDep(st', name, d), busy, name, items[1..]);
      } else if items[0].optional && outcome.NotFound? {
        DepsTidy(fs, st', busy, name, items[1..]);
      }
    }
  }

  /** Whatever the outcome, a load makes no link to an orphan unless a chain of descriptions loops. */
  lemma LoadMakesNoStray(fs: Files, st: State, name: Name)
    requires Mirrored(st) && NoStray(st) && NoLoop(fs, st.services.Keys, {}, name)
    ensures Mirrored(LoadService(fs, st, name).0) && NoStray(LoadService(fs, st, name).0)
  {
    hide Mirrored, NoStray, Tidy, NoLoop, LoadService;
    assert Settled(st.services, {}) == st.services.Keys;
    TidyIsNoStray(st);
    LoadTidies(fs, st, {}, name);
    LoadMirrors(fs, st, name);
    TidyIsNoStray(LoadService(fs, st, name).0);
  }

  // ----- reloading -----

  lemma TidyRelinks(st: State, name: Name, after: State, deps: seq<Dep>)
    requires name in st.services && Tidy(st, {}) && OnlyDepsChanged(st, name, after, deps) && Settles(st, {}, deps)
    ensures Tidy(after, {})
  {
    forall n | n in after.services ensures Settles(after, {}, after.services[n].deps) {
      assert Settles(st, {}, st.services[n].deps);
    }
    forall i | 0 <= i < |after.orphans| ensures Settles(after, {}, after.orphans[i].deps) {
      assert Settles(st, {}, st.orphans[i].deps);
    }
  }

  lemma TornIsTidy(st: State, name: Name)
    requires name in st.services && Tidy(st, {})
    ensures Tidy(TakeOut(st, name), {}) && TakeOut(st, name).services.Keys == st.services.Keys
  {
    hide TakeOut, Befores;
    var was := st.services[name].deps;
    TakeOutDeps(st, name);
    forall d | d in Befores(was) ensures d in was { SplitMember(was, d); }
    assert Settles(st, {}, was);
    TidyRelinks(st, name, TakeOut(st, name), Befores(was));
  }

  lemma PutInIsTidy(st: State, name: Name, ds: seq<Dep>)
    requires name in st.services && Tidy(st, {}) && Settles(st, {}, ds)
    ensures Tidy(PutIn(st, name, ds), {})
  {
    hide PutIn;
    PutInDeps(st, name, ds);
    assert Settles(st, {}, st.services[name].deps);
    TidyRelinks(st, name, PutIn(st, name, ds), st.services[name].deps + ds);
  }

  /** Nor does a reload, on any of its ways out. */
  lemma ReloadMakesNoStray(fs: Files, st: State, name: Name, d: Description, overflow: bool)
    requires Mirrored(st) && NoStray(st) && name in st.services
    requires forall it :: it in Items(d) && it.Link? ==> NoLoop(fs, st.services.Keys, {}, it.target)
    ensures Mirrored(UpdateDependencies(fs, st, name, d, overflow).0) && NoStray(UpdateDependencies(fs, st, name, d, overflow).0)
  {
    hide Mirrored, NoStray, NoLoop, LoadDependencies, Items, Matches, NonBefores, Tidy, TakeOut, PutIn;
    var was, torn, after := st.services[name].deps, TakeOut(st, name), UpdateDependencies(fs, st, name, d, overflow).0;
    TidyIsNoStray(st);
    TornIsTidy(st, name);
    assert Settled(torn.services, {}) == st.services.Keys;
    DepsTidy(fs, torn, {}, name, Items(d));
    var st' := LoadDependencies(fs, torn, name, Items(d)).0;
    OldLinksSettle(st, name, st');
    PutInIsTidy(st', name, NonBefores(was));
    TornIsTidy(st', name);
    OldLinksSettle(st, name, TakeOut(st', name));
    PutInIsTidy(TakeOut(st', name), name, NonBefores(was));
    ReloadMirrors(fs, st, name, d, overflow);
    TidyIsNoStray(after);
  }

  lemma OldLinksSettle(st: State, name: Name, after: State)
    requires name in st.services && Tidy(st, {}) && st.services.Keys <= after.services.Keys
    ensures Settles(after, {}, NonBefores(st.services[name].deps))
  {
    var was := st.services[name].deps;
    assert Settles(st, {}, was);
    forall d | d in NonBefores(was) ensures d in was { SplitMember(was, d); }
  }

  // ----- links that failed loads leave in the lists of dependents -----

  /** Some service whose load fails, in the load of `name` or in one that it calls for, had put a link
      in: an earlier line than the one it failed at had its target loaded. */
  ghost predicate LeavesLink(fs: Files, st: State, name: Name)
    decreases Budget(st), 0, 0
  {
    && name !in st.services && st.curDepth < MAX_DEP_DEPTH && name !in st.loading && fs(name).Found?
    && var entered, items := Enter(st, name), fs(name).items;
       || LinesLeaveLink(fs, entered, name, items)
       || (!LoadDependencies(fs, entered, name, items).1.Loaded? && PutsSomeIn(fs, entered, name, items))
  }

  ghost predicate PutsSomeIn(fs: Files, st: State, name: Name, items: seq<Item>)
    requires name in st.services
  {
    exists i :: 0 <= i < |items| && PutsIn(fs, st, name, items, i)
  }

  /** The same for the targets of the lines that are come to. */
  ghost predicate LinesLeaveLink(fs: Files, st: State, name: Name, items: seq<Item>)
    requires name in st.services
    decreases Budget(st), 1, |items|
  {
    && items != [] && items[0].Link?
    && var (st', outcome) := LoadService(fs, st, items[0].target);
       || LeavesLink(fs, st, items[0].target)
       || (outcome.Loaded? && LinesLeaveLink(fs, AddDep(st', name, Dep(items[0].target, items[0].kind)), name, items[1..]))
       || (!outcome.Loaded? && items[0].optional && outcome.NotFound? && LinesLeaveLink(fs, st', name, items[1..]))
  }

  /** Orphans have links exactly when they had, and stay in their places. */
  ghost predicate SameShape(a: State, b: State) {
    |a.orphans| <= |b.orphans| && forall i :: 0 <= i < |a.orphans| ==> (b.orphans[i].deps == [] <==> a.orphans[i].deps == [])
  }

  /** There are orphans with links that were not there before. */
  ghost predicate NewLinked(a: State, b: State) {
    exists i :: |a.orphans| <= i < |b.orphans| && b.orphans[i].deps != []
  }

  lemma ShapeTrans(a: State, b: State, c: State)
    requires SameShape(a, b) && SameShape(b, c)
    ensures SameShape(a, c) && (NewLinked(a, c) <==> NewLinked(a, b) || NewLinked(b, c))
  {
    if i :| |a.orphans| <= i < |b.orphans| && b.orphans[i].deps != [] { assert c.orphans[i].deps != []; }
  }

  lemma ForgetShape(was: State, left: State, name: Name)
    requires name in left.services
    ensures
      var after := Forget(was, left, name);
      SameShape(left, after) && (NewLinked(left, after) <==> left.services[name].deps != [])
  {
    var after, all := Forget(was, left, name), left.orphans + [left.services[name]];
    assert forall i :: 0 <= i < |all| ==> |after.orphans[i].deps| == |all[i].deps|;
    assert all[|left.orphans|] == left.services[name];
  }

  lemma {:induction false} LoadLeaves(fs: Files, st: State, name: Name)
    ensures
      var after := LoadService(fs, st, name).0;
      SameShape(st, after) && (NewLinked(st, after) <==> LeavesLink(fs, st, name))
    decreases Budget(st), 0, 0
  {
    hide Forget, Settle, SameShape, NewLinked, Extends, PutsSomeIn;
    ShapeRefl(st, st);
    if name !in st.services && st.curDepth < MAX_DEP_DEPTH && name !in st.loading && fs(name).Found? {
      var items, entered := fs(name).items, Enter(st, name);
      DepsLeave(fs, entered, name, items);
      var (left, outcome) := LoadDependencies(fs, entered, name, items);
      ShapeRefl(st, entered);
      ShapeTrans(st, entered, left);
      if outcome.Loaded? {
        SettleKeepsOrphans(st, left, name);
        ShapeRefl(left, Settle(st, left, name));
        ShapeTrans(st, left, Settle(st, left, name));
      } else {
        ForgetShape(st, left, name);
        ShapeTrans(st, left, Forget(st, left, name));
        PutInIff(fs, entered, name, items);
      }
    }
  }

  lemma ShapeRefl(a: State, b: State)
    requires b.orphans == a.orphans
    ensures SameShape(a, b) && !NewLinked(a, b)
  {
  }

  /** A new record has links exactly when a line has put one in. */
  lemma PutInIff(fs: Files, st: State, name: Name, items: seq<Item>)
    requires name in st.services && st.services[name].deps == []
    ensures LoadDependencies(fs, st, name, items).0.services[name].deps != [] <==> PutsSomeIn(fs, st, name, items)
  {
    hide LoadDependencies, PutsIn, Added, LoadService;
    DepsAppended(fs, st, name, items);
    var added := Added(fs, st, name, items);
    if added != [] {
      AddedIffPutsIn(fs, st, name, items, added[0]);
    }
    if i: nat :| i < |items| && PutsIn(fs, st, name, items, i) {
      PutsInIsLink(fs, st, name, items, i);
      AddedIffPutsIn(fs, st, name, items, Dep(items[i].target, items[i].kind));
    }
  }

  lemma {:induction false} DepsLeave(fs: Files, st: State, name: Name, items: seq<Item>)
    requires name in st.services
    ensures
      var left := LoadDependencies(fs, st, name, items).0;
      SameShape(st, left) && (NewLinked(st, left) <==> LinesLeaveLink(fs, st, name, items))
    decreases Budget(st), 1, |items|
  {
    hide LoadService, LeavesLink, SameShape, NewLinked;
    ShapeRefl(st, st);
    if items != [] && items[0].Link? {
      var (st', outcome) := LoadService(fs, st, items[0].target);
      LoadLeaves(fs, st, items[0].target);
      if outcome.Loaded? {
        var linked := AddDep(st', name, Dep(items[0].target, items[0].kind));
        DepsLeave(fs, linked, name, items[1..]);
        ShapeRefl(st', linked);
        ShapeTrans(st, st', linked);
        ShapeTrans(st, linked, LoadDependencies(fs, linked, name, items[1..]).0);
      } else if items[0].optional && outcome.NotFound? {
        DepsLeave(fs, st', name, items[1..]);
        ShapeTrans(st, st', LoadDependencies(fs, st', name, items[1..]).0);
      }
    }
  }

  lemma TidyClings(st: State, i: nat)
    requires Tidy(st, {}) && i < |st.orphans|
    ensures Clings(st.orphans[i], st.services) <==> st.orphans[i].deps != []
  {
    assert Settles(st, {}, st.orphans[i].deps);
    if st.orphans[i].deps != [] { assert st.orphans[i].deps[0] in st.orphans[i].deps; }
  }

  /** Without loops, a load leaves the lists of dependents the inverse of the links in the set exactly
      when no service whose load fails on the way had put a link in. */
  lemma InverseSurvivesIff(fs: Files, st: State, name: Name)
    requires Mirrored(st) && NoStray(st) && NoLoop(fs, st.services.Keys, {}, name)
    requires Inverse(st.services, FromLists(st.dependents))
    ensures
      var after := LoadService(fs, st, name).0;
      Inverse(after.services, FromLists(after.dependents)) <==> !LeavesLink(fs, st, name)
  {
    hide Mirrored, NoStray, Tidy, NoLoop, LoadService, Inverse, LeavesLink, Clings;
    var after := LoadService(fs, st, name).0;
    TidyIsNoStray(st);
    LoadMakesNoStray(fs, st, name);
    TidyIsNoStray(after);
    InverseAfterLoad(fs, st, name);
    LoadLeaves(fs, st, name);
    forall i | 0 <= i < |after.orphans| ensures Clings(after.orphans[i], after.services) <==> after.orphans[i].deps != [] {
      TidyClings(after, i);
    }
  }
}
