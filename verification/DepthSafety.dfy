/** When recalculating the depths gives every service the length of its longest dependency
    chain.  It does not always: each service is looked at once, in breadth-first order, and one
    that is looked at before a dependency of it has settled keeps a stale depth. */
module DepthSafety {
  import opened Graph
  import opened Services
  import opened Loader
  import opened LinkLists
  import opened LoadSafety
  import opened DepthUpdate

  ghost predicate SameLinks(a: ServiceMap, b: ServiceMap) {
    a.Keys == b.Keys && forall n :: n in a ==> a[n].deps == b[n].deps
  }

  /** The links of `svc` have changed; the depths of all other services of the set are right for the
      depths below them.  `live` is the set; the other records are orphans, and nothing links to
      them.  `goal` has all depths right. */
  ghost predicate Relinked(start: ServiceMap, goal: ServiceMap, dependents: Lists, svc: Name, live: set<Name>) {
    && svc in live && live <= start.Keys && SameLinks(start, goal) && Sound(goal, {}) && Inverse(start, dependents)
    && LinksInto(start, live)
    && forall n :: n in live && n != svc ==> start[n].depth == CalcDepth(start, start[n].deps)
  }

  /** Every link of every record leads to a service of the set. */
  ghost predicate LinksInto(records: ServiceMap, live: set<Name>) {
    forall n, d :: n in records && d in records[n].deps ==> d.to in live
  }

  lemma EnqueueReady(dependents: Lists, services: ServiceMap, changed: seq<Snapshot>, next: nat, names: seq<Name>)
    requires Ready(dependents, Work(services, changed, next)) && next < |changed| && forall n :: n in names ==> n in services
    ensures
      var r := Enqueue(services, changed, names);
      Ready(dependents, Work(services, r, next + 1)) && |changed| <= |r| && r[..|changed|] == changed
  {
    EnqueueGrows(services, changed, names);
    var r := Enqueue(services, changed, names);
    forall i | 0 <= i < |r| ensures r[i].name in services {
      if i < |changed| {
        assert r[i] == r[..|changed|][i];
      } else {
        assert EnteredFresh(services, changed, names, r, i);
      }
    }
  }

  /** What is queued after the turn of a service that has its right depth then. */
  ghost function Widen(start: ServiceMap, goal: ServiceMap, dependents: Lists, changed: seq<Snapshot>, next: nat): (r: seq<Snapshot>)
    requires SameLinks(start, goal) && Ready(dependents, Work(start, changed, next)) && next < |changed|
  {
    var n := changed[next].name;
    if goal[n].depth == start[n].depth then changed else Enqueue(start, changed, dependents[n])
  }

  lemma WidenGrows(start: ServiceMap, goal: ServiceMap, dependents: Lists, changed: seq<Snapshot>, next: nat)
    requires SameLinks(start, goal) && Ready(dependents, Work(start, changed, next)) && next < |changed|
    ensures
      var r := Widen(start, goal, dependents, changed, next);
      && Ready(dependents, Work(start, r, next + 1)) && |changed| <= |r| && r[..|changed|] == changed
      && (r == changed || |start.Keys - QueuedNames(r)| < |start.Keys - QueuedNames(changed)|)
  {
    hide QueuedNames, Queued, Enqueue;
    var n := changed[next].name;
    EnqueueReady(dependents, start, changed, next, dependents[n]);
    EnqueueEnds(start, changed, dependents[n]);
    StillReady(dependents, start, changed, next);
  }

  lemma StillReady(dependents: Lists, start: ServiceMap, changed: seq<Snapshot>, next: nat)
    requires Ready(dependents, Work(start, changed, next)) && next < |changed|
    ensures Ready(dependents, Work(start, changed, next + 1))
  {
  }

  /** The breadth-first order in which the dependents are met, going on from the services whose
      depth has to change. */
  ghost function Sweep(start: ServiceMap, goal: ServiceMap, dependents: Lists, changed: seq<Snapshot>, next: nat): (r: seq<Snapshot>)
    requires SameLinks(start, goal) && Ready(dependents, Work(start, changed, next))
    ensures |changed| <= |r| && r[..|changed|] == changed
    ensures Ready(dependents, Work(start, r, |r|))
    decreases |start.Keys - QueuedNames(changed)|, |changed| - next
  {
    hide *;
    if next == |changed| then changed
    else
      var more := Widen(start, goal, dependents, changed, next);
      WidenGrows(start, goal, dependents, changed, next);
      var r := Sweep(start, goal, dependents, more, next + 1);
      PrefixTrans(changed, more, r);
      r
  }

  lemma PrefixTrans(a: seq<Snapshot>, b: seq<Snapshot>, c: seq<Snapshot>)
    requires |a| <= |b| <= |c| && b[..|a|] == a && c[..|b|] == b
    ensures c[..|a|] == a
  {
    assert c[..|a|] == c[..|b|][..|a|];
  }

  /** The set when exactly the services `done` have got their right depth. */
  ghost function Mix(start: ServiceMap, goal: ServiceMap, done: set<Name>): ServiceMap
    requires SameLinks(start, goal)
  {
    map n | n in start :: if n in done then goal[n] else start[n]
  }

  /** The depth of a dependency as it is when the turn comes to position `i`. */
  ghost function Seen(start: ServiceMap, goal: ServiceMap, order: seq<Snapshot>, i: nat, y: Name): nat
    requires SameLinks(start, goal) && i <= |order| && y in start
  {
    if Queued(order[..i], y) then goal[y].depth else start[y].depth
  }

  /** When its turn comes, nothing keeps the service from its right depth: one of its dependencies
      carries its longest chain, by having been met earlier or by its old depth; no dependency that
      is still to come has an old depth that is too large; and the right depth is within the limit.
      An orphan only has to stay within the limit. */
  ghost predicate InTime(start: ServiceMap, goal: ServiceMap, live: set<Name>, order: seq<Snapshot>, i: nat)
    requires SameLinks(start, goal) && LinksInto(start, live) && live <= start.Keys && i < |order| && order[i].name in start
  {
    var n := order[i].name;
    var deps := start[n].deps;
    if n in live then
      && goal[n].depth <= MAX_DEP_DEPTH
      && (forall d :: d in deps && !Queued(order[..i], d.to) ==> start[d.to].depth < goal[n].depth)
      && (deps == [] || exists d :: d in deps && Seen(start, goal, order, i, d.to) + 1 == goal[n].depth)
    else
      forall d :: d in deps ==> Seen(start, goal, order, i, d.to) < MAX_DEP_DEPTH
  }

  /** What the service then calculates. */
  ghost function Calculated(start: ServiceMap, goal: ServiceMap, order: seq<Snapshot>, i: nat): nat
    requires SameLinks(start, goal) && i < |order| && order[i].name in start
  {
    CalcDepth(Mix(start, goal, QueuedNames(order[..i])), start[order[i].name].deps)
  }

  lemma SeenIsMixed(start: ServiceMap, goal: ServiceMap, order: seq<Snapshot>, i: nat, y: Name)
    requires SameLinks(start, goal) && i <= |order| && y in start
    ensures DepthOf(Mix(start, goal, QueuedNames(order[..i])), y) == Seen(start, goal, order, i, y)
  {
  }

  lemma CalcIs(m: ServiceMap, deps: seq<Dep>, g: nat)
    ensures CalcDepth(m, deps) == g <==>
      (forall d :: d in deps ==> DepthOf(m, d.to) < g) && (if deps == [] then g == 0 else exists d :: d in deps && DepthOf(m, d.to) + 1 == g)
  {
    var c := CalcDepth(m, deps);
    forall d | d in deps ensures DepthOf(m, d.to) < c {
      var k :| 0 <= k < |deps| && deps[k] == d;
    }
    if c > 0 {
      var k :| 0 <= k < |deps| && c == DepthOf(m, deps[k].to) + 1;
      assert deps[k] in deps;
    }
    if deps != [] { assert deps[0] in deps; }
  }

  lemma CalcAtMost(m: ServiceMap, deps: seq<Dep>, k: nat)
    ensures CalcDepth(m, deps) <= k <==> forall d :: d in deps ==> DepthOf(m, d.to) < k
  {
    hide CalcDepth;
    CalcIs(m, deps, CalcDepth(m, deps));
  }

  /** Being in time is calculating the right depth, within the limit. */
  lemma InTimeMeans(start: ServiceMap, goal: ServiceMap, live: set<Name>, order: seq<Snapshot>, i: nat)
    requires SameLinks(start, goal) && LinksInto(start, live) && live <= start.Keys && Sound(goal, {})
    requires i < |order| && order[i].name in start
    ensures
      var n, c := order[i].name, Calculated(start, goal, order, i);
      InTime(start, goal, live, order, i) <==> c <= MAX_DEP_DEPTH && (n in live ==> c == goal[n].depth)
  {
    hide CalcDepth, Mix, Queued, Sound, QueuedNames;
    var n := order[i].name;
    var deps, mix := start[n].deps, Mix(start, goal, QueuedNames(order[..i]));
    forall d | d in deps ensures DepthOf(mix, d.to) == Seen(start, goal, order, i, d.to) {
      SeenIsMixed(start, goal, order, i, d.to);
    }
    CalcAtMost(mix, deps, MAX_DEP_DEPTH);
    CalcIs(mix, deps, goal[n].depth);
    if n in live {
      MetIsLower(start, goal, live, order, i);
      if deps == [] { NoDepsNoDepth(goal, n); }
    }
  }

  lemma MetIsLower(start: ServiceMap, goal: ServiceMap, live: set<Name>, order: seq<Snapshot>, i: nat)
    requires SameLinks(start, goal) && LinksInto(start, live) && live <= start.Keys && Sound(goal, {})
    requires i < |order| && order[i].name in start
    ensures
      var n := order[i].name;
      (forall d :: d in start[n].deps && !Queued(order[..i], d.to) ==> start[d.to].depth < goal[n].depth) <==>
      (forall d :: d in start[n].deps ==> Seen(start, goal, order, i, d.to) < goal[n].depth)
  {
    hide CalcDepth, Sound, Queued;
    var n := order[i].name;
    forall d | d in start[n].deps ensures goal[d.to].depth < goal[n].depth {
      GoalBelow(goal, n, d);
    }
  }

  lemma NoDepsNoDepth(goal: ServiceMap, n: Name)
    requires Sound(goal, {}) && n in goal && goal[n].deps == []
    ensures goal[n].depth == 0
  {
    assert SoundAt(goal, {}, n);
  }

  ghost predicate QueuedOnce(changed: seq<Snapshot>) {
    forall i, j :: 0 <= i < j < |changed| ==> changed[i].name != changed[j].name
  }

  /** The dependents of every service that has been looked at and has to change are queued. */
  ghost predicate Covered(start: ServiceMap, goal: ServiceMap, dependents: Lists, svc: Name, changed: seq<Snapshot>, next: nat)
    requires SameLinks(start, goal) && Ready(dependents, Work(start, changed, next))
  {
    && Queued(changed, svc)
    && forall i, x :: 0 <= i < next && x in dependents[changed[i].name] ==>
         goal[changed[i].name].depth == start[changed[i].name].depth || Queued(changed, x)
  }

  // ----- services that are never met -----

  lemma DepIsEdge(services: ServiceMap, x: Name, d: Dep)
    requires x in services && d in services[x].deps
    ensures Edge(SetGraph(services), x, d.to)
  {
    var i :| 0 <= i < |services[x].deps| && services[x].deps[i] == d;
    assert TargetNames(services[x].deps)[i] == d.to;
  }

  lemma GoalBelow(goal: ServiceMap, n: Name, d: Dep)
    requires Sound(goal, {}) && n in goal && d in goal[n].deps
    ensures d.to in goal && goal[d.to].depth < goal[n].depth && goal[n].depth == CalcDepth(goal, goal[n].deps)
  {
    assert SoundAt(goal, {}, n);
    var i :| 0 <= i < |goal[n].deps| && goal[n].deps[i] == d;
  }

  lemma GoalHere(goal: ServiceMap, n: Name)
    requires Sound(goal, {}) && n in goal
    ensures goal[n].depth == CalcDepth(goal, goal[n].deps)
  {
    assert SoundAt(goal, {}, n);
  }

  lemma ListedDependent(start: ServiceMap, dependents: Lists, x: Name, n: Name)
    requires Inverse(start, dependents) && n in start && Edge(SetGraph(start), x, n)
    ensures n in dependents && x in dependents[n]
  {
  }

  /** A service of the set that the sweep never met has the right depth already. */
  lemma {:induction false} UnsweptIsRight(start: ServiceMap, goal: ServiceMap, dependents: Lists, svc: Name, live: set<Name>, order: seq<Snapshot>, n: Name)
    requires Relinked(start, goal, dependents, svc, live)
    requires Ready(dependents, Work(start, order, |order|)) && Covered(start, goal, dependents, svc, order, |order|)
    requires n in live && !Queued(order, n)
    ensures goal[n] == start[n]
    decreases goal[n].depth
  {
    hide Sound, Inverse, CalcDepth;
    GoalHere(goal, n);
    forall d | d in start[n].deps ensures DepthOf(start, d.to) == DepthOf(goal, d.to) {
      GoalBelow(goal, n, d);
      DepIsEdge(start, n, d);
      ListedDependent(start, dependents, n, d.to);
      if Queued(order, d.to) {
        var i :| 0 <= i < |order| && order[i].name == d.to;
        assert n in dependents[order[i].name];
      } else {
        UnsweptIsRight(start, goal, dependents, svc, live, order, d.to);
      }
    }
    CalcDepthSame(start, goal, start[n].deps);
  }

  // ----- the queue follows the sweep as long as every service is in time -----

  lemma AdvanceKeepsDistinct(dependents: Lists, w: Work)
    requires Ready(dependents, w) && w.next < |w.changed| && QueuedOnce(w.changed)
    ensures QueuedOnce(Advance(dependents, w).changed)
  {
    var r := Advance(dependents, w);
    var names := dependents[w.changed[w.next].name];
    EnqueueGrows(r.services, w.changed, names);
    forall i, j | 0 <= i < j < |r.changed| ensures r.changed[i].name != r.changed[j].name {
      if j >= |w.changed| {
        assert NewDepth(w) != w.services[w.changed[w.next].name].depth;
        assert EnteredFresh(r.services, w.changed, names, r.changed, j);
      } else {
        assert r.changed[i] == r.changed[..|w.changed|][i] && r.changed[j] == r.changed[..|w.changed|][j];
      }
    }
  }

  /** A service is looked at once: afterwards its depth stays. */
  lemma {:induction false} DoneStays(dependents: Lists, w: Work, i: nat)
    requires Ready(dependents, w) && QueuedOnce(w.changed) && i < w.next <= |w.changed| && w.changed[i].name in w.services
    ensures Process(dependents, w).0.services[w.changed[i].name] == w.services[w.changed[i].name]
    decreases |w.services.Keys - QueuedNames(w.changed)|, |w.changed| - w.next
  {
    hide Advance, QueuedOnce, CalcDepth, Queued;
    if w.next < |w.changed| && NewDepth(w) <= MAX_DEP_DEPTH {
      AdvanceEnds(dependents, w);
      AdvanceKeepsDistinct(dependents, w);
      AdvanceKeepsDone(dependents, w, i);
      DoneStays(dependents, Advance(dependents, w), i);
    }
  }

  lemma AdvanceKeepsDone(dependents: Lists, w: Work, i: nat)
    requires Ready(dependents, w) && QueuedOnce(w.changed) && i < w.next < |w.changed|
    ensures
      var r := Advance(dependents, w);
      i < |r.changed| && r.changed[i] == w.changed[i] && w.changed[i].name in r.services
      && r.services[w.changed[i].name] == w.services[w.changed[i].name]
  {
    var r := Advance(dependents, w);
    assert r.changed[i] == r.changed[..|w.changed|][i];
  }

  lemma StaysQueued(changed: seq<Snapshot>, more: seq<Snapshot>, m: Name)
    requires |changed| <= |more| && more[..|changed|] == changed
    ensures Queued(changed, m) ==> Queued(more, m)
  {
    if Queued(changed, m) {
      var i :| 0 <= i < |changed| && changed[i].name == m;
      assert more[..|changed|][i].name == m && more[i].name == m;
    }
  }

  /** Queueing reads only the depths of services that are not queued. */
  lemma {:induction false} EnqueueSame(a: ServiceMap, b: ServiceMap, changed: seq<Snapshot>, names: seq<Name>)
    requires forall n :: n in names ==> n in a && n in b
    requires forall n :: n in names && !Queued(changed, n) ==> a[n] == b[n]
    ensures Enqueue(a, changed, names) == Enqueue(b, changed, names)
    decreases |names|
  {
    if names != [] {
      var n := names[0];
      var one := if Queued(changed, n) then changed else changed + [Snapshot(n, a[n].depth)];
      forall m | m in names[1..] && !Queued(one, m) ensures a[m] == b[m] { StaysQueued(changed, one, m); }
      EnqueueSame(a, b, one, names[1..]);
    }
  }

  /** Every service of the set that was looked at so far has its right depth, and nothing else has
      changed but depths of orphans. */
  ghost predicate OnTrack(start: ServiceMap, goal: ServiceMap, dependents: Lists, svc: Name, live: set<Name>, w: Work) {
    && SameLinks(start, goal) && Ready(dependents, Work(start, w.changed, w.next)) && QueuedOnce(w.changed)
    && Covered(start, goal, dependents, svc, w.changed, w.next)
    && Tracks(start, goal, live, w.services, QueuedNames(w.changed[..w.next]))
  }

  ghost predicate Tracks(start: ServiceMap, goal: ServiceMap, live: set<Name>, services: ServiceMap, done: set<Name>)
    requires SameLinks(start, goal)
  {
    && SameLinks(start, services)
    && forall n :: n in start && (n in live || n !in done) ==> services[n] == Mix(start, goal, done)[n]
  }

  lemma QueuedPrefix(changed: seq<Snapshot>, i: nat, n: Name)
    requires i < |changed|
    ensures Queued(changed[..i + 1], n) <==> Queued(changed[..i], n) || changed[i].name == n
  {
    if Queued(changed[..i], n) {
      var j :| 0 <= j < i && changed[..i][j].name == n;
      assert changed[..i + 1][j].name == n;
    }
    if changed[i].name == n { assert changed[..i + 1][i].name == n; }
    if Queued(changed[..i + 1], n) && changed[i].name != n {
      var j :| 0 <= j < i + 1 && changed[..i + 1][j].name == n;
      assert changed[..i][j].name == n;
    }
  }

  lemma MixNext(start: ServiceMap, goal: ServiceMap, changed: seq<Snapshot>, i: nat)
    requires SameLinks(start, goal) && i < |changed| && changed[i].name in start && QueuedOnce(changed)
    ensures
      var n := changed[i].name;
      var mix := Mix(start, goal, QueuedNames(changed[..i]));
      && mix[n] == start[n] && Mix(start, goal, QueuedNames(changed[..i + 1])) == mix[n := goal[n]]
  {
    forall m ensures Queued(changed[..i + 1], m) <==> Queued(changed[..i], m) || changed[i].name == m {
      QueuedPrefix(changed, i, m);
    }
  }

  /** Orphans have no dependents. */
  lemma OrphanIsLeaf(start: ServiceMap, dependents: Lists, live: set<Name>, n: Name)
    requires Inverse(start, dependents) && LinksInto(start, live) && n in start && n !in live
    ensures n in dependents && dependents[n] == []
  {
    if dependents[n] != [] {
      var x := dependents[n][0];
      assert x in dependents[n];
      EdgeMember(start, x, n);
    }
  }

  /** What is calculated only depends on services of the set. */
  lemma TracksCalc(start: ServiceMap, goal: ServiceMap, live: set<Name>, services: ServiceMap, done: set<Name>, n: Name)
    requires SameLinks(start, goal) && Tracks(start, goal, live, services, done) && LinksInto(start, live) && live <= start.Keys && n in start
    ensures CalcDepth(services, services[n].deps) == CalcDepth(Mix(start, goal, done), start[n].deps)
  {
    hide CalcDepth;
    forall d | d in start[n].deps ensures DepthOf(services, d.to) == DepthOf(Mix(start, goal, done), d.to) {}
    CalcDepthSame(services, Mix(start, goal, done), start[n].deps);
  }

  /** The turn of a service that finds its right depth, or of an orphan. */
  ghost predicate RightTurn(goal: ServiceMap, live: set<Name>, w: Work)
    requires w.next < |w.changed| && w.changed[w.next].name in w.services && w.changed[w.next].name in goal
  {
    w.changed[w.next].name in live ==> NewDepth(w) == goal[w.changed[w.next].name].depth
  }

  /** Until its turn, nothing has touched the record. */
  lemma NotYetMet(start: ServiceMap, goal: ServiceMap, live: set<Name>, services: ServiceMap, changed: seq<Snapshot>, i: nat)
    requires SameLinks(start, goal) && i < |changed| && changed[i].name in start && QueuedOnce(changed)
    requires Tracks(start, goal, live, services, QueuedNames(changed[..i]))
    ensures services[changed[i].name] == start[changed[i].name]
  {
    MixNext(start, goal, changed, i);
    var n := changed[i].name;
    assert !Queued(changed[..i], n);
  }

  /** The queue then grows as the sweep does. */
  lemma AdvanceFollows(start: ServiceMap, goal: ServiceMap, dependents: Lists, svc: Name, live: set<Name>, w: Work)
    requires Inverse(start, dependents) && LinksInto(start, live)
    requires OnTrack(start, goal, dependents, svc, live, w) && Ready(dependents, w) && w.next < |w.changed| && RightTurn(goal, live, w)
    ensures Advance(dependents, w).changed == Widen(start, goal, dependents, w.changed, w.next)
  {
    hide Covered, CalcDepth, Mix, Inverse, LinksInto, Tracks, QueuedOnce, Queued, QueuedNames, Enqueue;
    var n := w.changed[w.next].name;
    NotYetMet(start, goal, live, w.services, w.changed, w.next);
    if n !in live {
      OrphanIsLeaf(start, dependents, live, n);
      NothingQueued(SetDepth(w.services, n, NewDepth(w)), w.changed);
      NothingQueued(start, w.changed);
    } else {
      SameQueue(start, goal, live, w, NewDepth(w), dependents[n]);
    }
  }

  lemma NothingQueued(services: ServiceMap, changed: seq<Snapshot>)
    ensures Enqueue(services, changed, []) == changed
  {
  }

  lemma SameQueue(start: ServiceMap, goal: ServiceMap, live: set<Name>, w: Work, d: nat, names: seq<Name>)
    requires SameLinks(start, goal) && w.next < |w.changed| && w.changed[w.next].name in start
    requires Tracks(start, goal, live, w.services, QueuedNames(w.changed[..w.next])) && forall m :: m in names ==> m in start
    ensures Enqueue(SetDepth(w.services, w.changed[w.next].name, d), w.changed, names) == Enqueue(start, w.changed, names)
  {
    var services := SetDepth(w.services, w.changed[w.next].name, d);
    assert Queued(w.changed, w.changed[w.next].name);
    forall m | m in names && !Queued(w.changed, m) ensures services[m] == start[m] {
      assert !Queued(w.changed[..w.next], m) by {
        if Queued(w.changed[..w.next], m) { QueuedShorter(w.changed, w.next, m); }
      }
    }
    EnqueueSame(services, start, w.changed, names);
  }

  lemma QueuedShorter(changed: seq<Snapshot>, i: nat, m: Name)
    requires i <= |changed| && Queued(changed[..i], m)
    ensures Queued(changed, m)
  {
    var j :| 0 <= j < i && changed[..i][j].name == m;
    assert changed[j].name == m;
  }

  /** It takes that depth, and nothing else changes. */
  lemma AdvanceTracks(start: ServiceMap, goal: ServiceMap, dependents: Lists, svc: Name, live: set<Name>, w: Work)
    requires OnTrack(start, goal, dependents, svc, live, w) && Ready(dependents, w) && w.next < |w.changed| && RightTurn(goal, live, w)
    ensures Tracks(start, goal, live, Advance(dependents, w).services, QueuedNames(w.changed[..w.next + 1]))
  {
    hide Covered, CalcDepth, Enqueue, Mix, Listed, Tracks, Queued, QueuedNames, QueuedOnce;
    var n := w.changed[w.next].name;
    assert Advance(dependents, w).services == SetDepth(w.services, n, NewDepth(w)) by {
      assert w.services[n].(depth := w.services[n].depth) == w.services[n];
    }
    TracksNext(start, goal, live, w.services, w.changed, w.next, NewDepth(w));
  }

  lemma TracksNext(start: ServiceMap, goal: ServiceMap, live: set<Name>, services: ServiceMap, changed: seq<Snapshot>, i: nat, d: nat)
    requires SameLinks(start, goal) && i < |changed| && changed[i].name in start && QueuedOnce(changed)
    requires Tracks(start, goal, live, services, QueuedNames(changed[..i]))
    requires changed[i].name in live ==> d == goal[changed[i].name].depth
    ensures Tracks(start, goal, live, SetDepth(services, changed[i].name, d), QueuedNames(changed[..i + 1]))
  {
    hide Mix, QueuedOnce;
    MixNext(start, goal, changed, i);
    forall m ensures m in QueuedNames(changed[..i + 1]) <==> m in QueuedNames(changed[..i]) || changed[i].name == m {
      QueuedPrefix(changed, i, m);
    }
    hide Queued;
  }

  lemma AdvanceStaysOnTrack(start: ServiceMap, goal: ServiceMap, dependents: Lists, svc: Name, live: set<Name>, w: Work)
    requires Inverse(start, dependents) && LinksInto(start, live)
    requires OnTrack(start, goal, dependents, svc, live, w) && Ready(dependents, w) && w.next < |w.changed| && RightTurn(goal, live, w)
    ensures OnTrack(start, goal, dependents, svc, live, Advance(dependents, w))
  {
    hide CalcDepth, Mix, Enqueue, Advance, Inverse, LinksInto, Tracks, RightTurn, Listed;
    var r := Advance(dependents, w);
    AdvanceFollows(start, goal, dependents, svc, live, w);
    AdvanceTracks(start, goal, dependents, svc, live, w);
    AdvanceKeepsDistinct(dependents, w);
    WidenCovers(start, goal, dependents, svc, w.changed, w.next);
    WidenGrows(start, goal, dependents, w.changed, w.next);
    assert r.changed[..r.next] == w.changed[..r.next] by { PrefixPrefix(w.changed, r.changed, r.next); }
  }

  lemma PrefixPrefix(a: seq<Snapshot>, b: seq<Snapshot>, i: nat)
    requires i <= |a| <= |b| && b[..|a|] == a
    ensures b[..i] == a[..i]
  {
    assert b[..i] == b[..|a|][..i];
  }

  lemma WidenCovers(start: ServiceMap, goal: ServiceMap, dependents: Lists, svc: Name, changed: seq<Snapshot>, next: nat)
    requires SameLinks(start, goal) && Ready(dependents, Work(start, changed, next)) && next < |changed|
    requires Covered(start, goal, dependents, svc, changed, next)
    ensures
      var r := Widen(start, goal, dependents, changed, next);
      Ready(dependents, Work(start, r, next + 1)) && Covered(start, goal, dependents, svc, r, next + 1)
  {
    WidenGrows(start, goal, dependents, changed, next);
    var n := changed[next].name;
    EnqueueGrows(start, changed, dependents[n]);
    var r := Widen(start, goal, dependents, changed, next);
    forall i, x | 0 <= i < next + 1 && x in dependents[r[i].name]
      ensures goal[r[i].name].depth == start[r[i].name].depth || Queued(r, x)
    {
      assert r[i] == r[..|changed|][i];
      if i < next && goal[changed[i].name].depth != start[changed[i].name].depth {
        assert x in dependents[changed[i].name];
        assert Queued(changed, x);
      }
    }
  }

  /** All depths of the set are as in `goal`. */
  ghost predicate AllRight(goal: ServiceMap, live: set<Name>, services: ServiceMap) {
    forall n :: n in live ==> n in services && n in goal && services[n] == goal[n]
  }

  lemma SweptIsRight(start: ServiceMap, goal: ServiceMap, dependents: Lists, svc: Name, live: set<Name>, w: Work)
    requires Relinked(start, goal, dependents, svc, live) && OnTrack(start, goal, dependents, svc, live, w) && w.next == |w.changed|
    ensures AllRight(goal, live, w.services)
  {
    hide Covered, QueuedOnce, Listed, Queued, CalcDepth, Inverse, Sound, LinksInto;
    assert w.changed[..w.next] == w.changed;
    forall n | n in live ensures w.services[n] == goal[n] {
      if !Queued(w.changed, n) {
        UnsweptIsRight(start, goal, dependents, svc, live, w.changed, n);
      }
    }
  }

  /** The recalculation ends with all depths of the set right exactly when every record that the
      sweep still has to meet is in time. */
  lemma {:induction false} FollowsSweep(start: ServiceMap, goal: ServiceMap, dependents: Lists, svc: Name, live: set<Name>, w: Work)
    requires Relinked(start, goal, dependents, svc, live) && OnTrack(start, goal, dependents, svc, live, w) && Ready(dependents, w)
    ensures
      var (r, ok) := Process(dependents, w);
      var order := Sweep(start, goal, dependents, w.changed, w.next);
      ok && AllRight(goal, live, r.services) <==> forall i :: w.next <= i < |order| ==> InTime(start, goal, live, order, i)
    decreases |w.services.Keys - QueuedNames(w.changed)|, |w.changed| - w.next
  {
    hide NewDepth, CalcDepth, Mix, Enqueue, Advance, Covered, QueuedOnce, InTime, Widen, Process, Sweep, Queued, QueuedNames,
      Listed, Sound, Inverse, LinksInto, Tracks;
    var order := Sweep(start, goal, dependents, w.changed, w.next);
    if w.next == |w.changed| {
      SweptIsRight(start, goal, dependents, svc, live, w);
      ProcessDone(dependents, w);
      SweepDone(start, goal, dependents, w.changed);
    } else {
      var n := w.changed[w.next].name;
      ProcessTurn(dependents, w);
      SweepTurn(start, goal, dependents, w.changed, w.next);
      TurnInTime(start, goal, dependents, svc, live, w, order);
      if NewDepth(w) <= MAX_DEP_DEPTH && RightTurn(goal, live, w) {
        AdvanceStaysOnTrack(start, goal, dependents, svc, live, w);
        AdvanceFollows(start, goal, dependents, svc, live, w);
        FollowsSweep(start, goal, dependents, svc, live, Advance(dependents, w));
      } else if NewDepth(w) <= MAX_DEP_DEPTH {
        StaleStays(dependents, w);
      }
    }
  }

  lemma TurnInTime(start: ServiceMap, goal: ServiceMap, dependents: Lists, svc: Name, live: set<Name>, w: Work, order: seq<Snapshot>)
    requires Relinked(start, goal, dependents, svc, live)
    requires OnTrack(start, goal, dependents, svc, live, w) && Ready(dependents, w) && w.next < |w.changed|
    requires |w.changed| <= |order| && order[..|w.changed|] == w.changed
    ensures order[w.next] == w.changed[w.next]
    ensures InTime(start, goal, live, order, w.next) <==> NewDepth(w) <= MAX_DEP_DEPTH && RightTurn(goal, live, w)
  {
    hide CalcDepth, Mix, Covered, QueuedOnce, InTime, Listed, Sound, Inverse, LinksInto, Tracks;
    assert order[w.next] == order[..|w.changed|][w.next];
    PrefixPrefix(w.changed, order, w.next);
    InTimeMeans(start, goal, live, order, w.next);
    TracksCalc(start, goal, live, w.services, QueuedNames(w.changed[..w.next]), w.changed[w.next].name);
  }

  lemma StaleStays(dependents: Lists, w: Work)
    requires Ready(dependents, w) && QueuedOnce(w.changed) && w.next < |w.changed| && NewDepth(w) <= MAX_DEP_DEPTH
    ensures Process(dependents, w).0.services[w.changed[w.next].name].depth == NewDepth(w)
  {
    hide Advance, CalcDepth, NewDepth, QueuedOnce, Process, Queued, QueuedNames;
    ProcessTurn(dependents, w);
    AdvanceKeepsDistinct(dependents, w);
    AdvanceSets(dependents, w);
    DoneStays(dependents, Advance(dependents, w), w.next);
  }

  lemma AdvanceSets(dependents: Lists, w: Work)
    requires Ready(dependents, w) && w.next < |w.changed|
    ensures
      var r := Advance(dependents, w);
      && w.next < |r.changed| && r.changed[w.next] == w.changed[w.next]
      && w.changed[w.next].name in r.services && r.services[w.changed[w.next].name].depth == NewDepth(w)
  {
    var r := Advance(dependents, w);
    assert r.changed[w.next] == r.changed[..|w.changed|][w.next];
  }

  lemma SweepDone(start: ServiceMap, goal: ServiceMap, dependents: Lists, changed: seq<Snapshot>)
    requires SameLinks(start, goal) && Ready(dependents, Work(start, changed, |changed|))
    ensures Sweep(start, goal, dependents, changed, |changed|) == changed
  {
  }

  lemma SweepTurn(start: ServiceMap, goal: ServiceMap, dependents: Lists, changed: seq<Snapshot>, next: nat)
    requires SameLinks(start, goal) && Ready(dependents, Work(start, changed, next)) && next < |changed|
    ensures
      var more := Widen(start, goal, dependents, changed, next);
      && Ready(dependents, Work(start, more, next + 1))
      && Sweep(start, goal, dependents, changed, next) == Sweep(start, goal, dependents, more, next + 1)
  {
    hide Widen, Ready, Queued, QueuedNames;
    WidenGrows(start, goal, dependents, changed, next);
  }

  // ----- the right depths -----

  ghost predicate Closed(services: ServiceMap) {
    forall n, d :: n in services && d in services[n].deps ==> d.to in services
  }

  ghost function Longest(g: Graph, n: Name): (d: nat)
    requires Acyclic(g)
    ensures LongestFrom(g, n, d)
  {
    AcyclicHasLongest(g, n);
    var d :| LongestFrom(g, n, d);
    d
  }

  /** The set with every depth the length of a longest dependency chain. */
  ghost function RightDepths(services: ServiceMap): ServiceMap
    requires Acyclic(SetGraph(services))
  {
    map n | n in services :: Rec(services[n].deps, Longest(SetGraph(services), n))
  }

  lemma RightDepthsSound(services: ServiceMap)
    requires Closed(services) && Acyclic(SetGraph(services))
    ensures SameLinks(services, RightDepths(services)) && Sound(RightDepths(services), {})
  {
    hide Acyclic, LongestFrom, CalcDepth;
    var goal := RightDepths(services);
    forall n | n in goal ensures SoundAt(goal, {}, n) {
      LongestIsCalculated(services, n);
    }
  }

  lemma LongestIsCalculated(services: ServiceMap, n: Name)
    requires Closed(services) && Acyclic(SetGraph(services)) && n in services
    ensures Longest(SetGraph(services), n) == CalcDepth(RightDepths(services), services[n].deps)
  {
    hide Acyclic, LongestFrom;
    var g, goal, deps := SetGraph(services), RightDepths(services), services[n].deps;
    var d, c := Longest(g, n), CalcDepth(goal, deps);
    if c > 0 {
      var i :| 0 <= i < |deps| && c == DepthOf(goal, deps[i].to) + 1;
      DepIsEdge(services, n, deps[i]);
      LongestAbove(g, n, deps[i].to, d, Longest(g, deps[i].to));
    }
    if d > 0 {
      var v := LongestBelow(g, n, d);
      EdgeIsDep(services, n, v);
      var i :| 0 <= i < |deps| && deps[i].to == v;
      assert deps[i] in deps;
      assert d <= Longest(g, v) + 1;
    }
  }

  lemma LongestFromUnique(g: Graph, n: Name, d: nat, e: nat)
    requires LongestFrom(g, n, d) && LongestFrom(g, n, e)
    ensures d == e
  {
  }

  /** There is only one way to have all depths right. */
  lemma SoundUnique(a: ServiceMap, b: ServiceMap)
    requires SameLinks(a, b) && Sound(a, {}) && Sound(b, {})
    ensures a == b
  {
    hide Sound, LongestFrom;
    SoundMeansLongest(a);
    SoundMeansLongest(b);
    assert SetGraph(a) == SetGraph(b);
    forall n | n in a ensures a[n] == b[n] { LongestFromUnique(SetGraph(a), n, a[n].depth, b[n].depth); }
  }

  // ----- the theorem -----

  /** The services of the set among the records. */
  ghost function Part(records: ServiceMap, live: set<Name>): ServiceMap {
    map n | n in records && n in live :: records[n]
  }

  lemma PartIsSound(goal: ServiceMap, live: set<Name>)
    requires Sound(goal, {}) && LinksInto(goal, live) && live <= goal.Keys
    ensures Sound(Part(goal, live), {})
  {
    hide CalcDepth;
    var part := Part(goal, live);
    forall n | n in part ensures SoundAt(part, {}, n) {
      assert SoundAt(goal, {}, n);
      forall d | d in part[n].deps ensures DepthOf(goal, d.to) == DepthOf(part, d.to) {}
      CalcDepthSame(goal, part, part[n].deps);
    }
  }

  lemma SamePart(a: ServiceMap, b: ServiceMap, live: set<Name>)
    requires Part(a, live) == Part(b, live) && live <= a.Keys && live <= b.Keys
    ensures AllRight(b, live, a)
  {
    forall n | n in live ensures a[n] == b[n] { assert Part(a, live)[n] == a[n] && Part(b, live)[n] == b[n]; }
  }

  /** All depths of the set are right exactly when the set is sound. */
  lemma RightIsSound(start: ServiceMap, goal: ServiceMap, live: set<Name>, services: ServiceMap)
    requires SameLinks(start, goal) && SameLinks(start, services) && Sound(goal, {}) && LinksInto(start, live) && live <= start.Keys
    ensures AllRight(goal, live, services) <==> Sound(Part(services, live), {})
  {
    hide Sound;
    PartIsSound(goal, live);
    if AllRight(goal, live, services) {
      assert Part(services, live) == Part(goal, live);
    }
    if Sound(Part(services, live), {}) {
      SoundUnique(Part(services, live), Part(goal, live));
      SamePart(services, goal, live);
    }
  }

  /** The links of `svc` were replaced in a set whose other depths are right; nothing links to an
      orphan, the graph has no cycles, and the lists of dependents are the inverse of the links. */
  ghost predicate ReadyToUpdate(start: ServiceMap, dependents: Lists, svc: Name, live: set<Name>) {
    && svc in live && live <= start.Keys && LinksInto(start, live) && Acyclic(SetGraph(start)) && Inverse(start, dependents)
    && forall n :: n in live && n != svc ==> start[n].depth == CalcDepth(start, start[n].deps)
  }

  ghost function FirstWork(start: ServiceMap, svc: Name): Work
    requires svc in start
  {
    Work(start, [Snapshot(svc, start[svc].depth)], 0)
  }

  lemma StartsReady(start: ServiceMap, dependents: Lists, svc: Name)
    requires svc in start && Inverse(start, dependents)
    ensures Ready(dependents, FirstWork(start, svc))
  {
    hide CalcDepth, TargetNames;
  }

  lemma StartsOnTrack(start: ServiceMap, goal: ServiceMap, dependents: Lists, svc: Name, live: set<Name>)
    requires SameLinks(start, goal) && svc in start && Ready(dependents, FirstWork(start, svc))
    ensures OnTrack(start, goal, dependents, svc, live, FirstWork(start, svc))
  {
    hide Ready;
    var w := FirstWork(start, svc);
    assert w.changed[0].name == svc;
    assert w.changed[..0] == [];
    assert Mix(start, goal, QueuedNames([])) == start;
  }

  lemma UpdateStarts(start: ServiceMap, dependents: Lists, svc: Name, live: set<Name>)
    requires ReadyToUpdate(start, dependents, svc, live)
    ensures Relinked(start, RightDepths(start), dependents, svc, live) && Ready(dependents, FirstWork(start, svc))
    ensures OnTrack(start, RightDepths(start), dependents, svc, live, FirstWork(start, svc))
  {
    hide Acyclic, CalcDepth, Sound, SameLinks, Closed, Inverse, Ready, OnTrack, RightDepths, SetGraph, LinksInto;
    LinksIntoCloses(start, live);
    RightDepthsSound(start);
    StartsReady(start, dependents, svc);
    StartsOnTrack(start, RightDepths(start), dependents, svc, live);
  }

  lemma LinksIntoCloses(start: ServiceMap, live: set<Name>)
    requires LinksInto(start, live) && live <= start.Keys
    ensures Closed(start)
  {
  }

  /** The order in which the records above `svc` are looked at again. */
  ghost function SweepFrom(start: ServiceMap, dependents: Lists, svc: Name, live: set<Name>): (r: seq<Snapshot>)
    requires ReadyToUpdate(start, dependents, svc, live)
    ensures SameLinks(start, RightDepths(start)) && forall i :: 0 <= i < |r| ==> r[i].name in start
  {
    UpdateStarts(start, dependents, svc, live);
    Sweep(start, RightDepths(start), dependents, FirstWork(start, svc).changed, 0)
  }

  /** Recalculating succeeds with every depth of the set that of the longest chain exactly when each
      record met on the way up is in time. */
  lemma DepthsRightIff(start: ServiceMap, dependents: Lists, svc: Name, live: set<Name>)
    requires ReadyToUpdate(start, dependents, svc, live)
    ensures Ready(dependents, FirstWork(start, svc))
    ensures
      var (w, ok) := Process(dependents, FirstWork(start, svc));
      var order := SweepFrom(start, dependents, svc, live);
      ok && Sound(Part(w.services, live), {}) <==>
      forall i :: 0 <= i < |order| ==> InTime(start, RightDepths(start), live, order, i)
  {
    hide Process, Sweep, InTime, Sound, Closed, Acyclic, Inverse, CalcDepth, OnTrack, Queued, Relinked, RightDepths, SetGraph,
      Listed, LinksInto, Part, AllRight;
    UpdateStarts(start, dependents, svc, live);
    var w0, goal := FirstWork(start, svc), RightDepths(start);
    LinksIntoCloses(start, live);
    RightDepthsSound(start);
    FollowsSweep(start, goal, dependents, svc, live, w0);
    ProcessKeepsLinks(dependents, start, w0);
    var w := Process(dependents, w0).0;
    assert SweepFrom(start, dependents, svc, live) == Sweep(start, goal, dependents, w0.changed, w0.next);
    RightIsSound(start, goal, live, w.services);
  }

  lemma ProcessKeepsLinks(dependents: Lists, start: ServiceMap, w: Work)
    requires Ready(dependents, w) && w.services == start
    requires forall i :: 0 <= i < |w.changed| ==> w.changed[i].name in start && w.changed[i].origDepth == start[w.changed[i].name].depth
    ensures SameLinks(start, Process(dependents, w).0.services)
  {
    ProcessRemembers(dependents, start, w);
  }
}
