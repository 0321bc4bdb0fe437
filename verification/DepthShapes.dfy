/** Where recalculated depths can be relied on: the shapes of graph for which they are always
    right, the smallest one for which they are not, and what an orphan does to them. */
module DepthShapes {
  import opened Graph
  import opened Services
  import opened Loader
  import opened LinkLists
  import opened LoadSafety
  import opened LoadLoops
  import opened DepthUpdate
  import opened DepthSafety

  // ----- graphs in layers -----

  /** The services above `svc` come in layers: every link between them goes down one layer, so
      all routes from a service down to `svc` have the same length. */
  ghost predicate Layered(g: Graph, svc: Name, layer: map<Name, nat>) {
    svc in layer && forall x, y :: Edge(g, x, y) && Reaches(g, y, svc) ==> OneDown(layer, x, y)
  }

  ghost predicate OneDown(layer: map<Name, nat>, x: Name, y: Name) {
    x in layer && y in layer && layer[x] == layer[y] + 1
  }

  ghost predicate Above(g: Graph, svc: Name, layer: map<Name, nat>, n: Name) {
    n in layer && Reaches(g, n, svc)
  }

  /** The queue holds services above `svc`, layer after layer, and at most one layer ahead. */
  ghost predicate ByLayers(g: Graph, svc: Name, layer: map<Name, nat>, changed: seq<Snapshot>, next: nat) {
    && (forall i :: 0 <= i < |changed| ==> Above(g, svc, layer, changed[i].name))
    && (forall i, j :: 0 <= i < j < |changed| ==> layer[changed[i].name] <= layer[changed[j].name])
    && (forall j :: next < |changed| && 0 <= j < |changed| ==> layer[changed[j].name] <= layer[changed[next].name] + 1)
  }

  lemma LayerAbove(g: Graph, svc: Name, layer: map<Name, nat>, x: Name, y: Name)
    requires Layered(g, svc, layer) && Edge(g, x, y) && Above(g, svc, layer, y)
    ensures OneDown(layer, x, y) && Above(g, svc, layer, x)
  {
    EdgeReaches(g, x, y);
    ReachesTransitive(g, x, y, svc);
  }

  lemma WidenByLayers(start: ServiceMap, goal: ServiceMap, dependents: Lists, svc: Name, layer: map<Name, nat>, changed: seq<Snapshot>, next: nat)
    requires SameLinks(start, goal) && Ready(dependents, Work(start, changed, next)) && next < |changed|
    requires Inverse(start, dependents) && Layered(SetGraph(start), svc, layer)
    requires ByLayers(SetGraph(start), svc, layer, changed, next)
    ensures ByLayers(SetGraph(start), svc, layer, Widen(start, goal, dependents, changed, next), next + 1)
  {
    hide *;
    var r := Widen(start, goal, dependents, changed, next);
    WidenGrows(start, goal, dependents, changed, next);
    forall i: nat | |changed| <= i < |r| ensures Joins(SetGraph(start), svc, layer, changed, next, r[i].name) {
      WidenJoins(start, goal, dependents, svc, layer, changed, next, i);
    }
    LayersExtend(SetGraph(start), svc, layer, changed, next, r);
  }

  ghost predicate Joins(g: Graph, svc: Name, layer: map<Name, nat>, changed: seq<Snapshot>, next: nat, n: Name)
    requires next < |changed|
  {
    Above(g, svc, layer, n) && OneDown(layer, n, changed[next].name)
  }

  lemma WidenJoins(start: ServiceMap, goal: ServiceMap, dependents: Lists, svc: Name, layer: map<Name, nat>, changed: seq<Snapshot>, next: nat, i: nat)
    requires SameLinks(start, goal) && Ready(dependents, Work(start, changed, next)) && next < |changed|
    requires Inverse(start, dependents) && Layered(SetGraph(start), svc, layer)
    requires ByLayers(SetGraph(start), svc, layer, changed, next)
    requires |changed| <= i < |Widen(start, goal, dependents, changed, next)|
    ensures Joins(SetGraph(start), svc, layer, changed, next, Widen(start, goal, dependents, changed, next)[i].name)
  {
    hide Layered, SetGraph, Reaches, Queued;
    var r := Widen(start, goal, dependents, changed, next);
    var n := changed[next].name;
    EnqueueGrows(start, changed, dependents[n]);
    assert EnteredFresh(start, changed, dependents[n], r, i);
    assert Edge(SetGraph(start), r[i].name, n);
    LayerAbove(SetGraph(start), svc, layer, r[i].name, n);
  }

  lemma LayersExtend(g: Graph, svc: Name, layer: map<Name, nat>, changed: seq<Snapshot>, next: nat, r: seq<Snapshot>)
    requires next < |changed| <= |r| && r[..|changed|] == changed && ByLayers(g, svc, layer, changed, next)
    requires forall i: nat :: |changed| <= i < |r| ==> Joins(g, svc, layer, changed, next, r[i].name)
    ensures ByLayers(g, svc, layer, r, next + 1)
  {
    hide Reaches;
    forall i | 0 <= i < |changed| ensures r[i] == changed[i] { assert r[i] == r[..|changed|][i]; }
  }

  lemma {:induction false} SweepByLayers(start: ServiceMap, goal: ServiceMap, dependents: Lists, svc: Name, layer: map<Name, nat>, changed: seq<Snapshot>, next: nat)
    requires SameLinks(start, goal) && Ready(dependents, Work(start, changed, next))
    requires Inverse(start, dependents) && Layered(SetGraph(start), svc, layer)
    requires ByLayers(SetGraph(start), svc, layer, changed, next) && Covered(start, goal, dependents, svc, changed, next)
    ensures
      var r := Sweep(start, goal, dependents, changed, next);
      && ByLayers(SetGraph(start), svc, layer, r, |r|) && Covered(start, goal, dependents, svc, r, |r|)
    decreases |start.Keys - QueuedNames(changed)|, |changed| - next
  {
    hide SetGraph, Inverse, Layered, ByLayers, Covered, Widen, Sweep, Queued, QueuedNames, Listed;
    if next == |changed| {
      SweepDone(start, goal, dependents, changed);
    } else {
      SweepTurn(start, goal, dependents, changed, next);
      WidenGrows(start, goal, dependents, changed, next);
      WidenByLayers(start, goal, dependents, svc, layer, changed, next);
      WidenCovers(start, goal, dependents, svc, changed, next);
      SweepByLayers(start, goal, dependents, svc, layer, Widen(start, goal, dependents, changed, next), next + 1);
    }
  }

  /** In a layered graph every dependency has settled before a record gets its turn. */
  lemma LayersAreInTime(start: ServiceMap, goal: ServiceMap, dependents: Lists, svc: Name, live: set<Name>, layer: map<Name, nat>, order: seq<Snapshot>, i: nat)
    requires Relinked(start, goal, dependents, svc, live) && Layered(SetGraph(start), svc, layer)
    requires Ready(dependents, Work(start, order, |order|)) && i < |order|
    requires ByLayers(SetGraph(start), svc, layer, order, |order|) && Covered(start, goal, dependents, svc, order, |order|)
    ensures Calculated(start, goal, order, i) == goal[order[i].name].depth
  {
    hide CalcDepth, Sound, Inverse, Covered, Layered, Reaches, Listed, LinksInto;
    var mix, x := Mix(start, goal, QueuedNames(order[..i])), order[i].name;
    GoalHere(goal, x);
    forall d | d in start[x].deps ensures DepthOf(mix, d.to) == DepthOf(goal, d.to) {
      GoalBelow(goal, x, d);
      DepIsEdge(start, x, d);
      LinksIntoLive(start, live, x, d);
      if !Queued(order[..i], d.to) {
        if Queued(order, d.to) {
          var j := Later(order, i, d.to);
          LayerAbove(SetGraph(start), svc, layer, x, d.to);
          assert false;
        }
        UnsweptIsRight(start, goal, dependents, svc, live, order, d.to);
      }
    }
    CalcDepthSame(mix, goal, start[x].deps);
  }

  lemma LinksIntoLive(start: ServiceMap, live: set<Name>, x: Name, d: Dep)
    requires LinksInto(start, live) && x in start && d in start[x].deps
    ensures d.to in live
  {
  }

  lemma Later(order: seq<Snapshot>, i: nat, n: Name) returns (j: nat)
    requires i < |order| && Queued(order, n) && !Queued(order[..i], n)
    ensures i <= j < |order| && order[j].name == n
  {
    j :| 0 <= j < |order| && order[j].name == n;
  }

  /** Above a service whose dependents come in layers, recalculating succeeds with all depths of
      the set right exactly when no record that is met goes over the limit. */
  lemma LayeredIsRight(start: ServiceMap, dependents: Lists, svc: Name, live: set<Name>, layer: map<Name, nat>)
    requires ReadyToUpdate(start, dependents, svc, live) && Layered(SetGraph(start), svc, layer)
    ensures Ready(dependents, FirstWork(start, svc))
    ensures
      var (w, ok) := Process(dependents, FirstWork(start, svc));
      var order := SweepFrom(start, dependents, svc, live);
      ok && Sound(Part(w.services, live), {}) <==>
      forall i :: 0 <= i < |order| ==> RightDepths(start)[order[i].name].depth <= MAX_DEP_DEPTH
  {
    hide Process, Sweep, Sound, Closed, Acyclic, Inverse, CalcDepth, Queued, RightDepths, SetGraph, Listed, Layered, ByLayers,
      Covered, Mix, LinksInto, Part, InTime, Calculated;
    var goal := RightDepths(start);
    UpdateStarts(start, dependents, svc, live);
    DepthsRightIff(start, dependents, svc, live);
    var first := FirstWork(start, svc).changed;
    FirstByLayers(SetGraph(start), svc, layer, start[svc].depth);
    SweepByLayers(start, goal, dependents, svc, layer, first, 0);
    var order := Sweep(start, goal, dependents, first, 0);
    assert order == SweepFrom(start, dependents, svc, live);
    forall i | 0 <= i < |order| ensures InTime(start, goal, live, order, i) <==> goal[order[i].name].depth <= MAX_DEP_DEPTH {
      LayersAreInTime(start, goal, dependents, svc, live, layer, order, i);
      InTimeMeans(start, goal, live, order, i);
    }
  }

  lemma FirstByLayers(g: Graph, svc: Name, layer: map<Name, nat>, depth: nat)
    requires Layered(g, svc, layer)
    ensures ByLayers(g, svc, layer, [Snapshot(svc, depth)], 0)
  {
    ReachesSelf(g, svc);
  }

  // ----- the smallest graph that goes wrong -----

  /** `s` has just been linked to `t`; `y` depends on `s`, and `x` on both. */
  ghost function Diamond(t: Name, s: Name, y: Name, x: Name, sDepth: nat, yDepth: nat, xDepth: nat): ServiceMap {
    map[t := Rec([], 0), s := Rec([Dep(t, Regular)], sDepth), y := Rec([Dep(s, Regular)], yDepth),
        x := Rec([Dep(s, Regular), Dep(y, Regular)], xDepth)]
  }

  function DiamondDependents(t: Name, s: Name, y: Name, x: Name, aboveS: seq<Name>): Lists {
    map[t := [s], s := aboveS, y := [x], x := []]
  }

  lemma DepthOfTwoLinks(services: ServiceMap, a: Name, b: Name)
    ensures
      var i, j := DepthOf(services, a) + 1, DepthOf(services, b) + 1;
      CalcDepth(services, [Dep(a, Regular), Dep(b, Regular)]) == if i > j then i else j
  {
    DepthOfLink(services, a);
    var deps := [Dep(a, Regular), Dep(b, Regular)];
    assert deps[..1] == [Dep(a, Regular)] && |deps| == 2;
  }

  lemma EnqueueTwo(services: ServiceMap, changed: seq<Snapshot>, a: Name, b: Name)
    requires a in services && b in services && a != b && !Queued(changed, a) && !Queued(changed, b)
    ensures Enqueue(services, changed, [a, b]) == changed + [Snapshot(a, services[a].depth), Snapshot(b, services[b].depth)]
  {
    var one := changed + [Snapshot(a, services[a].depth)];
    assert [a, b][1..] == [b] && [b][1..] == [];
    assert !Queued(one, b);
    assert Enqueue(services, changed, [a, b]) == Enqueue(services, one, [b]);
    assert Enqueue(services, one, [b]) == Enqueue(services, one + [Snapshot(b, services[b].depth)], []);
    assert one + [Snapshot(b, services[b].depth)] == changed + [Snapshot(a, services[a].depth), Snapshot(b, services[b].depth)];
  }

  lemma EnqueueQueued(services: ServiceMap, changed: seq<Snapshot>, a: Name)
    requires a in services && Queued(changed, a)
    ensures Enqueue(services, changed, [a]) == changed
  {
    assert [a][1..] == [];
  }

  ghost predicate Apart(t: Name, s: Name, y: Name, x: Name) {
    t != s && t != y && t != x && s != y && s != x && y != x
  }

  /** The turns of `s`, `x` and `y`, in this order. */
  ghost function StaleTurn(t: Name, s: Name, y: Name, x: Name, i: nat): Work
    requires i <= 3
  {
    if i == 0 then FirstWork(Diamond(t, s, y, x, 0, 1, 2), s)
    else Work(Diamond(t, s, y, x, 1, if i == 3 then 2 else 1, 2), [Snapshot(s, 0), Snapshot(x, 2), Snapshot(y, 1)], i)
  }

  lemma StaleTurnS(t: Name, s: Name, y: Name, x: Name)
    requires Apart(t, s, y, x)
    ensures
      var w, dependents := StaleTurn(t, s, y, x, 0), DiamondDependents(t, s, y, x, [x, y]);
      Ready(dependents, w) && NewDepth(w) == 1 && Advance(dependents, w) == StaleTurn(t, s, y, x, 1)
  {
    hide CalcDepth, Enqueue;
    var w, dependents := StaleTurn(t, s, y, x, 0), DiamondDependents(t, s, y, x, [x, y]);
    DepthOfLink(w.services, t);
    var services := SetDepth(w.services, s, 1);
    assert services == Diamond(t, s, y, x, 1, 1, 2);
    EnqueueTwo(services, w.changed, x, y);
  }

  lemma StaleTurnX(t: Name, s: Name, y: Name, x: Name)
    requires Apart(t, s, y, x)
    ensures
      var w, dependents := StaleTurn(t, s, y, x, 1), DiamondDependents(t, s, y, x, [x, y]);
      Ready(dependents, w) && NewDepth(w) == 2 && Advance(dependents, w) == StaleTurn(t, s, y, x, 2)
  {
    hide CalcDepth, Enqueue;
    DepthOfTwoLinks(StaleTurn(t, s, y, x, 1).services, s, y);
  }

  lemma StaleTurnY(t: Name, s: Name, y: Name, x: Name)
    requires Apart(t, s, y, x)
    ensures
      var w, dependents := StaleTurn(t, s, y, x, 2), DiamondDependents(t, s, y, x, [x, y]);
      Ready(dependents, w) && NewDepth(w) == 2 && Advance(dependents, w) == StaleTurn(t, s, y, x, 3)
  {
    hide CalcDepth, Enqueue;
    var w, dependents := StaleTurn(t, s, y, x, 2), DiamondDependents(t, s, y, x, [x, y]);
    DepthOfLink(w.services, s);
    var services := SetDepth(w.services, y, 2);
    assert services == Diamond(t, s, y, x, 1, 2, 2);
    assert w.changed[1].name == x;
    EnqueueQueued(services, w.changed, x);
  }

  lemma DiamondDepths(t: Name, s: Name, y: Name, x: Name, d: nat)
    requires Apart(t, s, y, x)
    ensures Sound(Diamond(t, s, y, x, 1, 2, d), {}) <==> d == 3
  {
    hide CalcDepth;
    var services := Diamond(t, s, y, x, 1, 2, d);
    DepthOfLink(services, t);
    DepthOfLink(services, s);
    DepthOfTwoLinks(services, s, y);
    NoLinks(services);
    assert SoundAt(services, {}, x) <==> d == 3;
    assert SoundAt(services, {}, t) && SoundAt(services, {}, s) && SoundAt(services, {}, y);
  }

  /** When `x` is listed among the dependents of `s` before `y`, it is looked at too early:
      recalculating succeeds and leaves it at depth 2 on top of a chain of 3 links. */
  lemma DiamondGoesStale(t: Name, s: Name, y: Name, x: Name)
    requires Apart(t, s, y, x)
    ensures
      var start, dependents := Diamond(t, s, y, x, 0, 1, 2), DiamondDependents(t, s, y, x, [x, y]);
      && Ready(dependents, FirstWork(start, s))
      && Process(dependents, FirstWork(start, s)).1
      && Process(dependents, FirstWork(start, s)).0.services == Diamond(t, s, y, x, 1, 2, 2)
    ensures Sound(Diamond(t, s, y, x, 1, 2, 3), {}) && !Sound(Diamond(t, s, y, x, 1, 2, 2), {})
  {
    hide Process, Advance, Sound, NewDepth, Diamond, DiamondDependents, Listed;
    var dependents := DiamondDependents(t, s, y, x, [x, y]);
    StaleTurnS(t, s, y, x);
    ProcessTurn(dependents, StaleTurn(t, s, y, x, 0));
    StaleTurnX(t, s, y, x);
    ProcessTurn(dependents, StaleTurn(t, s, y, x, 1));
    StaleTurnY(t, s, y, x);
    ProcessTurn(dependents, StaleTurn(t, s, y, x, 2));
    ProcessDone(dependents, StaleTurn(t, s, y, x, 3));
    DiamondDepths(t, s, y, x, 2);
    DiamondDepths(t, s, y, x, 3);
  }

  // ----- orphans -----

  /** A service that gets to the limit and lists one record, which is outside the set: recalculating
      overflows, though with right depths no service of the set is over the limit. */
  lemma OrphanOverflows(start: ServiceMap, dependents: Lists, svc: Name, live: set<Name>, orphan: Name)
    requires ReadyToUpdate(start, dependents, svc, live) && orphan !in live && dependents[svc] == [orphan]
    requires forall n :: n in live ==> RightDepths(start)[n].depth <= MAX_DEP_DEPTH
    requires CalcDepth(start, start[svc].deps) == MAX_DEP_DEPTH != start[svc].depth
    ensures Ready(dependents, FirstWork(start, svc)) && !Process(dependents, FirstWork(start, svc)).1
  {
    hide Process, CalcDepth, Advance, NewDepth, Queued, QueuedNames, Acyclic;
    DepthsRightIff(start, dependents, svc, live);
    assert orphan in dependents[svc];
    EdgeMember(start, orphan, svc);
    var w := FirstWork(start, svc);
    ProcessTurn(dependents, w);
    DependentIsNext(start, dependents, svc, orphan);
    ProcessTurn(dependents, Advance(dependents, w));
  }

  lemma DependentIsNext(start: ServiceMap, dependents: Lists, svc: Name, orphan: Name)
    requires svc in start && Ready(dependents, FirstWork(start, svc)) && orphan != svc && dependents[svc] == [orphan]
    requires CalcDepth(start, start[svc].deps) == MAX_DEP_DEPTH != start[svc].depth
    requires orphan in start && exists d :: d in start[orphan].deps && d.to == svc
    ensures
      var w := FirstWork(start, svc);
      var r := Advance(dependents, w);
      NewDepth(w) == MAX_DEP_DEPTH && r.next < |r.changed| && NewDepth(r) > MAX_DEP_DEPTH
  {
    hide CalcDepth, Enqueue, Listed;
    var w := FirstWork(start, svc);
    var services := SetDepth(start, svc, MAX_DEP_DEPTH);
    EnqueueOne(services, w.changed, orphan);
    CalcAtMost(services, services[orphan].deps, MAX_DEP_DEPTH);
  }

  lemma EnqueueOne(services: ServiceMap, changed: seq<Snapshot>, a: Name)
    requires a in services && !Queued(changed, a)
    ensures Enqueue(services, changed, [a]) == changed + [Snapshot(a, services[a].depth)]
  {
    assert [a][1..] == [];
  }
}
