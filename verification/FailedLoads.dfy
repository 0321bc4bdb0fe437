/** A failed load, and a reload of what it had been linked to: the depths overflow because of a service
    that is not in the set. */
module FailedLoads {
  import opened Graph
  import opened Services
  import opened Loader
  import opened LinkLists
  import opened LoadSafety
  import opened LoadLoops
  import opened Reload
  import opened ReloadSafety
  import opened DepthUpdate
  import opened DepthSafety
  import opened DepthShapes
  import opened DepthReload

  /** `a` depends on `b`, which is loaded, and then on `c`, which nobody describes. */
  ghost predicate LoadedThenMissing(fs: Files, st: State, a: Name, b: Name, c: Name) {
    && fs(a) == Found([Link(b, Regular, false), Link(c, Regular, false)]) && fs(c).Missing? && b in st.services
    && a !in st.services && c !in st.services && a != c && a !in st.loading && c !in st.loading && st.curDepth + 1 < MAX_DEP_DEPTH
  }

  ghost function HalfLinked(st: State, a: Name, b: Name): State {
    AddDep(Enter(st, a), a, Dep(b, Regular))
  }

  lemma LoadFails(fs: Files, st: State, a: Name, b: Name, c: Name)
    requires LoadedThenMissing(fs, st, a, b, c)
    ensures LoadService(fs, st, a) == (Forget(st, HalfLinked(st, a, b), a), NotFound)
  {
    hide Forget, Extends;
    var e, items, half := Enter(st, a), fs(a).items, HalfLinked(st, a, b);
    assert LoadService(fs, e, b) == (e, Loaded);
    assert items[1..] == [Link(c, Regular, false)];
    assert LoadService(fs, half, c) == (half, NotFound);
    assert LoadDependencies(fs, half, a, items[1..]) == (half, NotFound);
    assert LoadDependencies(fs, e, a, items) == (half, NotFound);
  }

  /** The set is as it was; `b` lists the service that failed, which is an orphan now. */
  lemma FailedState(fs: Files, st: State, a: Name, b: Name, c: Name)
    requires LoadedThenMissing(fs, st, a, b, c) && Mirrored(st) && st.dependents[b] == []
    ensures
      var after := LoadService(fs, st, a).0;
      && after.services == st.services && b in after.dependents && after.dependents[b] == [Dept(OrphanKey(|st.orphans|), Regular)]
      && |after.orphans| == |st.orphans| + 1 && after.orphans[|st.orphans|].deps == [Dep(b, Regular)]
      && forall i :: 0 <= i < |st.orphans| ==> after.orphans[i] == st.orphans[i]
  {
    hide LoadService, Forget, HalfLinked, Mirror;
    LoadFails(fs, st, a, b, c);
    assert !Hidden(a);
    MirrorKeys(Records(st), st.dependents);
    HalfServices(st, a, b);
    HalfDependents(st, a, b);
    HalfOrphans(st, a, b);
  }

  lemma HalfServices(st: State, a: Name, b: Name)
    requires a !in st.services && b in st.services
    ensures a in HalfLinked(st, a, b).services && Forget(st, HalfLinked(st, a, b), a).services == st.services
  {
    hide RekeyRec, RekeyRecs, RekeyDepts;
    var half := HalfLinked(st, a, b);
    assert forall n :: n in st.services ==> n in half.services && half.services[n] == st.services[n];
    assert half.services.Keys == st.services.Keys + {a};
  }

  lemma HalfDependents(st: State, a: Name, b: Name)
    requires a !in st.services && b in st.services && b in st.dependents && st.dependents[b] == [] && a != b
    requires b != OrphanKey(|st.orphans|)
    ensures a in HalfLinked(st, a, b).services
    ensures
      var after := Forget(st, HalfLinked(st, a, b), a);
      b in after.dependents && after.dependents[b] == [Dept(OrphanKey(|st.orphans|), Regular)]
  {
    hide RekeyRec, RekeyRecs;
    var half, key := HalfLinked(st, a, b), OrphanKey(|st.orphans|);
    assert half.dependents[b] == [Dept(a, Regular)];
    assert half.orphans == st.orphans;
    hide HalfLinked;
    assert Forget(st, half, a).dependents[b] == RekeyDepts([Dept(a, Regular)], a, key);
  }

  lemma HalfOrphans(st: State, a: Name, b: Name)
    requires Mirrored(st) && a !in st.services && b in st.services && !Hidden(a)
    ensures a in HalfLinked(st, a, b).services
    ensures
      var after := Forget(st, HalfLinked(st, a, b), a);
      && |after.orphans| == |st.orphans| + 1 && after.orphans[|st.orphans|].deps == [Dep(b, Regular)]
      && forall i :: 0 <= i < |st.orphans| ==> after.orphans[i] == st.orphans[i]
  {
    hide Mirrored, RekeyDepts;
    var half, key := HalfLinked(st, a, b), OrphanKey(|st.orphans|);
    assert half.orphans == st.orphans && half.services[a].deps == [Dep(b, Regular)];
    hide HalfLinked;
    assert half.orphans[..|st.orphans|] == st.orphans;
    ForgetKeepsOrphans(st, half, a);
    var all := half.orphans + [half.services[a]];
    assert all[|st.orphans|] == half.services[a];
    RekeyOne(b, a, key);
    var after := Forget(st, half, a);
    hide Forget;
    forall i | 0 <= i < |st.orphans| ensures after.orphans[i] == st.orphans[i] { assert after.orphans[..|st.orphans|][i] == st.orphans[i]; }
  }

  lemma RekeyOne(b: Name, a: Name, key: Name)
    requires a != b
    ensures RekeyDepts([Dept(a, Regular)], a, key) == [Dept(key, Regular)] && RekeyDeps([Dep(b, Regular)], a, key) == [Dep(b, Regular)]
  {
  }

  // ----- the reload -----

  /** The dependent end of a new link to `x`, where nothing was linked before. */
  lemma ReloadAdds(fs: Files, st: State, b: Name, x: Name)
    requires b in st.services && x in st.services && st.services[b].deps == []
    ensures UpdateDependencies(fs, st, b, Bare([x], []), false) == (AddDep(st, b, Dep(x, Regular)), true)
  {
    hide Matches, LoadDependencies, Extends;
    var d := Bare([x], []);
    WantsMore([], d, x);
    assert Items(d) == [Link(x, Regular, false)];
    assert LoadService(fs, st, x) == (st, Loaded);
    LinkOne(fs, st, b, x);
    assert TakeOut(st, b) == st;
  }

  /** Nobody depends on `b`, so no depth but its own changes. */
  lemma ReadyAgain(st: State, b: Name, x: Name)
    requires Mirrored(st) && NoStray(st) && Sound(st.services, {}) && b in st.services && x in st.services && x != b
    requires st.services[b].deps == [] && forall n :: n in st.services ==> !Edge(SetGraph(st.services), n, b)
    ensures
      var after := AddDep(st, b, Dep(x, Regular));
      Mirrored(after) && ReadyToUpdate(Records(after), FromLists(after.dependents), b, after.services.Keys)
  {
    assert x in Records(st);
    hide Mirrored, NoStray, Sound, ReadyToUpdate, Acyclic, Records, AddDep, Edge, RightElsewhere;
    var after := AddDep(st, b, Dep(x, Regular));
    AddedServices(st, b, x);
    AddDepMirrors(st, b, Dep(x, Regular));
    AddStaysClean(st, b, x);
    AddStaysAcyclic(st.services, after.services, b, x);
    AddRightElsewhere(st.services, after.services, b, x);
    RecordsReady(after, b);
  }

  lemma AddedServices(st: State, b: Name, x: Name)
    requires b in st.services && st.services[b].deps == []
    ensures AddDep(st, b, Dep(x, Regular)).services == st.services[b := Rec([Dep(x, Regular)], st.services[b].depth)]
  {
    assert [] + [Dep(x, Regular)] == [Dep(x, Regular)];
  }

  lemma AddStaysClean(st: State, b: Name, x: Name)
    requires NoStray(st) && Mirrored(st) && b in st.services && x in st.services
    ensures NoStray(AddDep(st, b, Dep(x, Regular)))
  {
    hide Mirror;
    var after := AddDep(st, b, Dep(x, Regular));
    var r, r' := Records(st), Records(after);
    forall n, d | n in r' && d in r'[n].deps ensures d.to in after.services {
      if n in st.services {
        if !(n == b && d == Dep(x, Regular)) { assert d in r[n].deps; }
      } else {
        assert r'[n] == r[n];
      }
    }
  }

  lemma AddStaysAcyclic(services: ServiceMap, after: ServiceMap, b: Name, x: Name)
    requires Sound(services, {}) && b in services && x in services && x != b && services[b].deps == []
    requires after == services[b := Rec([Dep(x, Regular)], services[b].depth)]
    requires forall n :: n in services ==> !Edge(SetGraph(services), n, b)
    ensures Acyclic(SetGraph(after))
  {
    hide Sound, LongestFrom;
    SoundMeansLongest(services);
    var g := SetGraph(services);
    assert TargetNames([Dep(x, Regular)]) == [x];
    assert SetGraph(after) == g[b := [x]];
    forall p ensures !WalkFromTo(g, p, x, b) { assert |p| > 1 && IsWalk(g, p) ==> Hop(g, p, |p| - 1); }
    ReplaceAcyclicIff(g, b, [x]);
  }

  lemma AddRightElsewhere(services: ServiceMap, after: ServiceMap, b: Name, x: Name)
    requires Sound(services, {}) && b in services
    requires after == services[b := Rec([Dep(x, Regular)], services[b].depth)]
    requires forall n :: n in services ==> !Edge(SetGraph(services), n, b)
    ensures RightElsewhere(after, b)
  {
    hide CalcDepth;
    forall n | n in after && n != b ensures after[n].depth == CalcDepth(after, after[n].deps) {
      assert SoundAt(services, {}, n);
      EdgeMember(services, n, b);
      forall d | d in services[n].deps ensures DepthOf(services, d.to) == DepthOf(after, d.to) {}
      CalcDepthSame(services, after, services[n].deps);
    }
  }

  /** With right depths, `b` is one above `x`, and everything else is as it was. */
  lemma RightAgain(st: State, after: State, b: Name, x: Name)
    requires Sound(st.services, {}) && b in st.services && x in st.services && x != b
    requires after.services == st.services[b := Rec([Dep(x, Regular)], st.services[b].depth)]
    requires forall n :: n in st.services ==> !Edge(SetGraph(st.services), n, b)
    requires LinksInto(Records(after), after.services.Keys) && Acyclic(SetGraph(Records(after)))
    ensures RightDepths(Records(after))[b].depth == st.services[x].depth + 1
    ensures forall n :: n in st.services && n != b ==> RightDepths(Records(after))[n].depth == st.services[n].depth
  {
    hide Sound, Acyclic, Edge, RightDepths, LinksInto, Records, SameLinks, Part, Closed;
    var m := st.services[b := Rec([Dep(x, Regular)], st.services[x].depth + 1)];
    GoalIsSound(st.services, m, b, x);
    OnlyDepthDiffers(st.services, b, [Dep(x, Regular)], st.services[b].depth, st.services[x].depth + 1);
    SetIsPart(after, m);
    IntoIsClosed(Records(after), after.services.Keys);
    RightIs(Records(after), after.services.Keys, m);
  }

  lemma OnlyDepthDiffers(services: ServiceMap, b: Name, deps: seq<Dep>, i: nat, j: nat)
    ensures SameLinks(services[b := Rec(deps, i)], services[b := Rec(deps, j)])
  {
  }

  lemma SetIsPart(after: State, m: ServiceMap)
    requires SameLinks(after.services, m)
    ensures after.services.Keys <= Records(after).Keys && SameLinks(Part(Records(after), after.services.Keys), m)
  {
  }

  lemma IntoIsClosed(start: ServiceMap, live: set<Name>)
    requires LinksInto(start, live) && live <= start.Keys
    ensures Closed(start)
  {
  }

  /** Right depths over all records are right depths over the set. */
  lemma RightIs(start: ServiceMap, live: set<Name>, m: ServiceMap)
    requires Closed(start) && Acyclic(SetGraph(start)) && LinksInto(start, live) && live <= start.Keys
    requires Sound(m, {}) && SameLinks(Part(start, live), m)
    ensures forall n :: n in m ==> n in start && RightDepths(start)[n] == m[n]
  {
    hide Sound, Acyclic;
    var goal := RightDepths(start);
    RightDepthsSound(start);
    hide RightDepths;
    RightIsSound(start, goal, live, goal);
    assert SameLinks(Part(goal, live), m);
    hide SameLinks, LinksInto, Closed;
    SoundUnique(Part(goal, live), m);
    forall n | n in m ensures n in goal && goal[n] == m[n] { assert n in Part(goal, live); }
    assert goal.Keys == start.Keys by { RightKeys(start); }
  }

  lemma RightKeys(start: ServiceMap)
    requires Acyclic(SetGraph(start))
    ensures RightDepths(start).Keys == start.Keys
  {
    hide Acyclic;
  }

  lemma GoalIsSound(services: ServiceMap, m: ServiceMap, b: Name, x: Name)
    requires Sound(services, {}) && b in services && x in services && x != b
    requires m == services[b := Rec([Dep(x, Regular)], services[x].depth + 1)]
    requires forall n :: n in services ==> !Edge(SetGraph(services), n, b)
    ensures Sound(m, {})
  {
    hide CalcDepth, SetGraph, Edge;
    forall n | n in m ensures SoundAt(m, {}, n) {
      if n == b {
        DepthOfLink(m, x);
      } else {
        assert SoundAt(services, {}, n);
        EdgeMember(services, n, b);
        OtherIsSound(services, m, b, n);
      }
    }
  }

  lemma OtherIsSound(services: ServiceMap, m: ServiceMap, b: Name, n: Name)
    requires n in services && n != b && SoundAt(services, {}, n) && b in services && b in m && m == services[b := m[b]]
    requires forall d :: d in services[n].deps ==> d.to != b
    ensures SoundAt(m, {}, n)
  {
    SoundAtKept(services, {}, m, {}, n);
  }

  /** `b` is a leaf that nobody depends on, and `x` is one below the limit.  A service that depends on
      `b` fails to load; then `b` is reloaded with a dependency on `x`.  That overflows the depths,
      although every service of the set is within the limit. */
  lemma FailedLoadOverflowsReload(fs: Files, st: State, a: Name, b: Name, c: Name, x: Name)
    requires Mirrored(st) && NoStray(st) && Sound(st.services, {}) && LoadedThenMissing(fs, st, a, b, c)
    requires x in st.services && x != b && st.services[b].deps == [] && st.dependents[b] == []
    requires st.services[x].depth + 1 == MAX_DEP_DEPTH && forall n :: n in st.services ==> st.services[n].depth <= MAX_DEP_DEPTH
    ensures
      var (failed, outcome) := LoadService(fs, st, a);
      var reloaded := UpdateDependencies(fs, failed, b, Bare([x], []), false).0;
      && outcome.NotFound? && failed.services == st.services && Mirrored(failed) && !Recalculated(fs, failed, b, Bare([x], [])).1
      && Acyclic(SetGraph(Records(reloaded)))
      && forall n :: n in reloaded.services ==> n in Records(reloaded) && RightDepths(Records(reloaded))[n].depth <= MAX_DEP_DEPTH
  {
    hide LoadService, UpdateDependencies, Mirrored, NoStray, Sound, Acyclic, Records, RightDepths, Recalculated, Edge, Forget;
    var failed := LoadService(fs, st, a).0;
    LoadFails(fs, st, a, b, c);
    FailedState(fs, st, a, b, c);
    LoadMirrors(fs, st, a);
    FailedIsClean(fs, st, a, b, c);
    NobodyLinks(st, b);
    PlainServices(st);
    ReloadOverflows(fs, failed, b, x, OrphanKey(|st.orphans|));
  }

  lemma PlainServices(st: State)
    requires Mirrored(st)
    ensures forall n :: n in st.services ==> !Hidden(n)
  {
  }

  lemma ReloadOverflows(fs: Files, st: State, b: Name, x: Name, orphan: Name)
    requires Mirrored(st) && NoStray(st) && Sound(st.services, {}) && b in st.services && x in st.services && x != b
    requires st.services[b].deps == [] && b in st.dependents && st.dependents[b] == [Dept(orphan, Regular)] && orphan !in st.services
    requires forall n :: n in st.services ==> !Edge(SetGraph(st.services), n, b)
    requires st.services[x].depth + 1 == MAX_DEP_DEPTH && forall n :: n in st.services ==> st.services[n].depth <= MAX_DEP_DEPTH
    ensures
      var reloaded := UpdateDependencies(fs, st, b, Bare([x], []), false).0;
      && !Recalculated(fs, st, b, Bare([x], [])).1 && Acyclic(SetGraph(Records(reloaded)))
      && forall n :: n in reloaded.services ==> n in Records(reloaded) && RightDepths(Records(reloaded))[n].depth <= MAX_DEP_DEPTH
  {
    hide AddDep, UpdateDependencies, Mirrored, NoStray, Sound, ReadyToUpdate, Acyclic, Records, RightDepths, Recalculated, Recalculation, Edge,
      Bare, LinksInto;
    var after := AddDep(st, b, Dep(x, Regular));
    AddedSet(st, b, x);
    ReloadAdds(fs, st, b, x);
    ReadyAgain(st, b, x);
    ReadyParts(after, b);
    WithinLimit(st, after, b, x);
    NoDepsNoDepth(st.services, b);
    Overflows(after, b, x, orphan);
    RecalculatedIs(fs, st, b, Bare([x], []), after);
  }

  lemma AddedSet(st: State, b: Name, x: Name)
    requires b in st.services && x in st.services && x != b && st.services[b].deps == [] && b in st.dependents
    ensures
      var after := AddDep(st, b, Dep(x, Regular));
      && after.services == st.services[b := Rec([Dep(x, Regular)], st.services[b].depth)]
      && b in after.dependents && after.dependents[b] == st.dependents[b]
  {
    AddedServices(st, b, x);
  }

  lemma WithinLimit(st: State, after: State, b: Name, x: Name)
    requires Sound(st.services, {}) && b in st.services && x in st.services && x != b
    requires after.services == st.services[b := Rec([Dep(x, Regular)], st.services[b].depth)]
    requires forall n :: n in st.services ==> !Edge(SetGraph(st.services), n, b)
    requires LinksInto(Records(after), after.services.Keys) && Acyclic(SetGraph(Records(after)))
    requires st.services[x].depth + 1 == MAX_DEP_DEPTH && forall n :: n in st.services ==> st.services[n].depth <= MAX_DEP_DEPTH
    ensures forall n :: n in after.services ==> n in Records(after) && RightDepths(Records(after))[n].depth <= MAX_DEP_DEPTH
  {
    hide Sound, Edge, LinksInto, Acyclic;
    RightAgain(st, after, b, x);
  }

  lemma RecalculatedIs(fs: Files, st: State, b: Name, d: Description, after: State)
    requires Mirrored(st) && Mirrored(after) && b in st.services && b in after.services && UpdateDependencies(fs, st, b, d, false).0 == after
    ensures Recalculated(fs, st, b, d) == Recalculation(after, b)
  {
    hide UpdateDependencies, Mirrored, Recalculation;
  }

  lemma ReadyParts(st: State, b: Name)
    requires ReadyToUpdate(Records(st), FromLists(st.dependents), b, st.services.Keys)
    ensures LinksInto(Records(st), st.services.Keys) && Acyclic(SetGraph(Records(st)))
  {
  }

  lemma NobodyLinks(st: State, b: Name)
    requires Mirrored(st) && b in st.services && st.dependents[b] == []
    ensures forall n :: n in st.services ==> !Edge(SetGraph(st.services), n, b)
  {
    hide Mirror, Edge;
    MirrorKeys(Records(st), st.dependents);
    MirrorIsInverse(Records(st), st.dependents);
    var lists := FromLists(st.dependents);
    assert lists[b] == [];
    forall n | n in st.services ensures !Edge(SetGraph(st.services), n, b) {
      assert n !in lists[b];
      EdgeMember(Records(st), n, b);
      EdgeMember(st.services, n, b);
    }
  }

  lemma FailedIsClean(fs: Files, st: State, a: Name, b: Name, c: Name)
    requires LoadedThenMissing(fs, st, a, b, c) && Mirrored(st) && NoStray(st) && st.dependents[b] == []
    ensures NoStray(LoadService(fs, st, a).0)
  {
    hide LoadService, Mirror;
    FailedState(fs, st, a, b, c);
    var after := LoadService(fs, st, a).0;
    OrphansAreClean(st, after, b);
  }

  lemma OrphansAreClean(st: State, after: State, b: Name)
    requires NoStray(st) && after.services == st.services && b in st.services
    requires |after.orphans| == |st.orphans| + 1 && after.orphans[|st.orphans|].deps == [Dep(b, Regular)]
    requires forall i :: 0 <= i < |st.orphans| ==> after.orphans[i] == st.orphans[i]
    ensures NoStray(after)
  {
    var r, r' := Records(st), Records(after);
    forall n, d | n in r' && d in r'[n].deps ensures d.to in after.services {
      if n in st.services {
        assert d in r[n].deps;
      } else if |n| <= |st.orphans| {
        OrphanRecord(st, n);
        OrphanRecord(after, n);
        assert d in r[n].deps;
      } else {
        OrphanRecord(after, n);
      }
    }
  }

  lemma OrphanRecord(st: State, n: Name)
    requires n !in st.services && Hidden(n) && 0 < |n| <= |st.orphans| && n == OrphanKey(|n| - 1)
    ensures n in Records(st) && Records(st)[n] == st.orphans[|n| - 1]
  {
  }

  lemma Overflows(st: State, b: Name, x: Name, orphan: Name)
    requires Mirrored(st) && b in st.services && x in st.services && x != b && orphan !in st.services
    requires ReadyToUpdate(Records(st), FromLists(st.dependents), b, st.services.Keys)
    requires b in st.dependents && st.dependents[b] == [Dept(orphan, Regular)] && st.services[b].deps == [Dep(x, Regular)]
    requires st.services[b].depth == 0 && st.services[x].depth + 1 == MAX_DEP_DEPTH
    requires Acyclic(SetGraph(Records(st))) && forall n :: n in st.services ==> n in Records(st) && RightDepths(Records(st))[n].depth <= MAX_DEP_DEPTH
    ensures !Recalculation(st, b).1
  {
    hide Mirrored, ReadyToUpdate, CalcDepth, Acyclic, RightDepths, Process;
    DepthOfLink(Records(st), x);
    assert FromLists(st.dependents)[b] == [orphan];
    OrphanOverflows(Records(st), FromLists(st.dependents), b, st.services.Keys, orphan);
  }
}
