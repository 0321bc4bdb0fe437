/** The linter's depth check: a first-in first-out topological pass that reports every
    service below a chain of more than `MAX_DEP_DEPTH` links. */
module CheckDepth {
  import opened Sequences
  import opened Graph
  import opened Services

  type Links = map<Name, seq<Dep>>

  /** The targets of the links that count towards depth, in order. */
  function Counted(deps: seq<Dep>): (r: seq<Name>) {
    if deps == [] then []
    else (if IsOnlyOrdering(deps[0].kind) then [] else [deps[0].to]) + Counted(deps[1..])
  }

  /** All links count but those that only say what is to be started before or after what. */
  lemma {:induction false} CountedAre(deps: seq<Dep>, n: Name)
    ensures n in Counted(deps) <==> exists i :: 0 <= i < |deps| && deps[i].to == n && deps[i].kind != Before && deps[i].kind != After
  {
    if deps != [] {
      CountedAre(deps[1..], n);
      if i :| 0 <= i < |deps[1..]| && deps[1..][i].to == n && deps[1..][i].kind != Before && deps[1..][i].kind != After {
        assert deps[i + 1].to == n;
      }
      if i :| 0 <= i < |deps| && deps[i].to == n && deps[i].kind != Before && deps[i].kind != After {
        if i > 0 { assert deps[1..][i - 1].to == n; }
      }
    }
  }

  /** The graph of the links that count towards depth. */
  ghost function DepthGraph(links: Links): (g: Graph) {
    map n | n in links :: Counted(links[n])
  }

  /** Some longest chain of counted links into `v` is over the limit. */
  ghost predicate TooDeep(g: Graph, v: Name) {
    exists d :: d > MAX_DEP_DEPTH && LongestInto(g, v, d)
  }

  ghost function Occurrences(names: seq<Name>, v: Name): (n: nat)
    ensures n == 0 <==> v !in names
  {
    if names == [] then 0 else (if names[0] == v then 1 else 0) + Occurrences(names[1..], v)
  }

  lemma OccurrencesCons(v: Name, rest: seq<Name>)
    ensures forall u :: Occurrences([v] + rest, u) == (if u == v then 1 else 0) + Occurrences(rest, u)
  {
    assert ([v] + rest)[1..] == rest;
  }

  /** How many counted links lead to `v` from the listed services outside `done`. */
  ghost function InCount(services: seq<Svc>, done: set<Name>, v: Name): nat {
    if services == [] then 0
    else (if services[0].name in done then 0 else Occurrences(Counted(services[0].deps), v))
         + InCount(services[1..], done, v)
  }

  lemma {:induction false} InCountDone(services: seq<Svc>, done: set<Name>, u: Svc, v: Name)
    requires DistinctNames(services) && u in services && u.name !in done
    ensures InCount(services, done, v) == InCount(services, done + {u.name}, v) + Occurrences(Counted(u.deps), v)
  {
    if u == services[0] {
      InCountIgnores(services[1..], done, u.name, v);
    } else {
      var i :| 0 <= i < |services| && services[i] == u;
      assert services[1..][i - 1] == u;
      InCountDone(services[1..], done, u, v);
    }
  }

  lemma {:induction false} InCountIgnores(services: seq<Svc>, done: set<Name>, n: Name, v: Name)
    requires forall i :: 0 <= i < |services| ==> services[i].name != n
    ensures InCount(services, done, v) == InCount(services, done + {n}, v)
  {
    if services != [] {
      InCountIgnores(services[1..], done, n, v);
    }
  }

  lemma {:induction false} InCountZero(services: seq<Svc>, done: set<Name>, v: Name)
    ensures InCount(services, done, v) == 0 <==>
            forall s :: s in services && s.name !in done ==> v !in Counted(s.deps)
  {
    if services != [] {
      InCountZero(services[1..], done, v);
      assert services == [services[0]] + services[1..];
    }
  }

  // ----- longest chains -----

  lemma LongestIntoUnique(g: Graph, v: Name, d: nat, e: nat)
    requires LongestInto(g, v, d) && LongestInto(g, v, e)
    ensures d == e
  {
    var p :| WalkInto(g, p, v) && |p| == d + 1;
    var q :| WalkInto(g, q, v) && |q| == e + 1;
  }

  lemma LongestOfRoot(g: Graph, v: Name)
    requires forall u :: !Edge(g, u, v)
    ensures LongestInto(g, v, 0)
  {
    assert WalkInto(g, [v], v);
    forall p | |p| > 1 && p[|p| - 1] == v ensures !IsWalk(g, p) {
      assert !Hop(g, p, |p| - 1);
    }
  }

  /** The last predecessor to be dequeued is a deepest one. */
  lemma LongestStep(g: Graph, v: Name, cur: Name, depth: map<Name, int>)
    requires Edge(g, cur, v) && cur in depth && depth[cur] >= 0 && LongestInto(g, cur, depth[cur])
    requires forall u :: Edge(g, u, v) ==> u in depth && 0 <= depth[u] <= depth[cur] && LongestInto(g, u, depth[u])
    ensures LongestInto(g, v, depth[cur] + 1)
  {
    var d: nat := depth[cur] + 1;
    var p :| WalkInto(g, p, cur) && |p| == depth[cur] + 1;
    WalkSnoc(g, p, v);
    assert WalkInto(g, p + [v], v);
    forall q | WalkInto(g, q, v) ensures |q| <= d + 1 {
      if |q| > 1 {
        assert Hop(g, q, |q| - 1);
        WalkSlice(g, q, 0, |q| - 1);
        assert WalkInto(g, q[0..|q| - 1], q[|q| - 2]);
      }
    }
  }

  ghost predicate HasPredOutside(g: Graph, done: set<Name>, w: Name) {
    exists u :: u !in done && Edge(g, u, w)
  }

  /** Where every service outside `done` has a predecessor outside `done`, chains into such
      services have no longest member. */
  lemma StuckHasNoLongest(g: Graph, done: set<Name>, v: Name, d: nat)
    requires v in g && v !in done
    requires forall w {:trigger HasPredOutside(g, done, w)} :: w in g && w !in done ==> HasPredOutside(g, done, w)
    ensures !LongestInto(g, v, d)
  {
    var p := StuckWalk(g, done, v, d + 1);
    assert WalkInto(g, p, v);
  }

  lemma {:induction false} StuckWalk(g: Graph, done: set<Name>, v: Name, n: nat) returns (p: seq<Name>)
    requires v in g && v !in done
    requires forall w {:trigger HasPredOutside(g, done, w)} :: w in g && w !in done ==> HasPredOutside(g, done, w)
    ensures WalkInto(g, p, v) && |p| == n + 1
    decreases n
  {
    if n == 0 {
      p := [v];
    } else {
      assert HasPredOutside(g, done, v);
      var u :| u !in done && Edge(g, u, v);
      var q := StuckWalk(g, done, u, n - 1);
      WalkSnoc(g, q, v);
      p := q + [v];
    }
  }

  /** A service is too deep exactly when no cycle leads into it and some chain of counted
      links into it is longer than the limit. */
  lemma TooDeepMeans(g: Graph, v: Name)
    ensures TooDeep(g, v) <==>
            !CyclicAncestor(g, v) && exists p :: WalkInto(g, p, v) && |p| - 1 > 32
  {
    LongestIntoIffNoCyclicAncestor(g, v);
  }

  // ----- the pass -----

  datatype Pass = Pass(inDegree: map<Name, int>, depth: map<Name, int>, queue: seq<Name>, errors: nat)

  /** A Go map read: zero for an absent key. */
  function Get(m: map<Name, int>, n: Name): int {
    if n in m then m[n] else 0
  }

  ghost function Elems(s: seq<Name>): set<Name> {
    set x | x in s
  }

  ghost function DeepSet(order: seq<Name>, depth: map<Name, int>): set<Name> {
    set v | v in order && Get(depth, v) > MAX_DEP_DEPTH
  }

  /** The in-degrees count what is still to be processed: the links of the services outside
      `done`, and `rest` of the links of the service in hand. */
  ghost predicate DegreesOk(services: seq<Svc>, g: Graph, inDegree: map<Name, int>, done: seq<Name>, rest: seq<Name>) {
    && (forall v :: v in g ==> Get(inDegree, v) == InCount(services, Elems(done), v) + Occurrences(rest, v))
    && (forall v :: v !in g ==> Get(inDegree, v) <= 0)
  }

  /** What has been queued is what has no link left to count. */
  ghost predicate QueuedOk(g: Graph, inDegree: map<Name, int>, order: seq<Name>) {
    && Distinct(order)
    && (forall v :: v in order ==> v in g)
    && (forall v :: v in g ==> (v in order <==> Get(inDegree, v) == 0))
  }

  /** What has been queued has its final depth. */
  ghost predicate Final(g: Graph, depth: map<Name, int>, order: seq<Name>) {
    forall v :: v in order ==> Get(depth, v) >= 0 && LongestInto(g, v, Get(depth, v))
  }

  /** Services are dequeued in nondecreasing depth, and nothing is more than one link deeper
      than the service in hand, whose depth is `top`. */
  ghost predicate DepthsOk(g: Graph, depth: map<Name, int>, order: seq<Name>, top: int) {
    && (forall i, j :: 0 <= i < j < |order| ==> Get(depth, order[i]) <= Get(depth, order[j]))
    && (forall v :: v in g ==> Get(depth, v) <= top + 1)
  }

  /** `order` lists the services in the order they were queued; those in `done` have been dequeued. */
  ghost predicate PassOk(services: seq<Svc>, g: Graph, s: Pass, done: seq<Name>, rest: seq<Name>, order: seq<Name>) {
    && order == done + s.queue
    && DegreesOk(services, g, s.inDegree, done, rest)
    && QueuedOk(g, s.inDegree, order)
    && Final(g, s.depth, order)
    && DepthsOk(g, s.depth, order, Top(s.depth, done))
    && s.errors == |DeepSet(order, s.depth)|
  }

  /** The depth of the service in hand. */
  ghost function Top(depth: map<Name, int>, done: seq<Name>): int {
    if done == [] then -1 else Get(depth, done[|done| - 1])
  }

  /** Processing one counted link from `cur` to `v`. */
  function Follow(s: Pass, cur: Name, v: Name): (r: Pass) {
    var newDepth := Get(s.depth, cur) + 1;
    var depth := if newDepth > Get(s.depth, v) then s.depth[v := newDepth] else s.depth;
    var inDegree := s.inDegree[v := Get(s.inDegree, v) - 1];
    if inDegree[v] == 0 then
      Pass(inDegree, depth, s.queue + [v], if newDepth > MAX_DEP_DEPTH then s.errors + 1 else s.errors)
    else
      Pass(inDegree, depth, s.queue, s.errors)
  }

  /** `g` is the depth graph of the listed services. */
  ghost predicate GraphOf(services: seq<Svc>, g: Graph) {
    && DistinctNames(services)
    && (forall s :: s in services ==> s.name in g && g[s.name] == Counted(s.deps))
    && (forall n :: n in g ==> exists s :: s in services && s.name == n)
  }

  /** Once the count for `v` is down to zero, all its predecessors have been dequeued. */
  lemma NoLinkLeft(services: seq<Svc>, g: Graph, done: set<Name>, v: Name)
    requires GraphOf(services, g) && InCount(services, done, v) == 0
    ensures forall u :: Edge(g, u, v) ==> u in done
  {
    InCountZero(services, done, v);
    forall u | Edge(g, u, v) ensures u in done {
      var s :| s in services && s.name == u;
    }
  }

  lemma LinkLeft(services: seq<Svc>, g: Graph, done: set<Name>, v: Name)
    requires GraphOf(services, g) && InCount(services, done, v) > 0
    ensures HasPredOutside(g, done, v)
  {
    InCountZero(services, done, v);
    var s :| s in services && s.name !in done && v in Counted(s.deps);
    assert Edge(g, s.name, v);
  }

  /** The service whose count reaches zero gets the depth of its longest chain. */
  lemma FinalDepth(services: seq<Svc>, g: Graph, depth: map<Name, int>, done: seq<Name>, order: seq<Name>, v: Name)
    requires GraphOf(services, g) && Final(g, depth, order) && DepthsOk(g, depth, order, Top(depth, done))
    requires done != [] && done <= order && Edge(g, done[|done| - 1], v)
    requires InCount(services, Elems(done), v) == 0
    ensures LongestInto(g, v, Top(depth, done) + 1)
  {
    hide LongestInto, GraphOf;
    NoLinkLeft(services, g, Elems(done), v);
    var cur := done[|done| - 1];
    var final := map u | u in done :: Get(depth, u);
    forall u | u in done ensures 0 <= final[u] <= final[cur] && LongestInto(g, u, final[u]) {
      var i :| 0 <= i < |done| && done[i] == u;
      assert order[i] == u && order[|done| - 1] == cur;
    }
    LongestStep(g, v, cur, final);
  }

  /** What was queued first is still first, and `v` with a link left is not queued. */
  lemma HandAndTarget(g: Graph, s: Pass, done: seq<Name>, order: seq<Name>, v: Name)
    requires QueuedOk(g, s.inDegree, order) && order == done + s.queue && done != []
    requires v in g ==> Get(s.inDegree, v) > 0
    ensures done <= order && done[|done| - 1] in order && v !in order
  {
    assert order[|done| - 1] == done[|done| - 1];
  }

  /** A link that leaves the count above zero changes at most the depth of a service that is
      not queued yet. */
  lemma FollowCounts(g: Graph, s: Pass, order: seq<Name>, cur: Name, v: Name)
    requires QueuedOk(g, s.inDegree, order) && DepthsOk(g, s.depth, order, Get(s.depth, cur))
    requires v !in order && Get(s.inDegree, v) != 1
    ensures QueuedOk(g, Follow(s, cur, v).inDegree, order)
    ensures DepthsOk(g, Follow(s, cur, v).depth, order, Get(s.depth, cur))
    ensures Follow(s, cur, v).queue == s.queue && Follow(s, cur, v).errors == s.errors
  {
    forall i | 0 <= i < |order| ensures Get(Follow(s, cur, v).depth, order[i]) == Get(s.depth, order[i]) {}
  }

  lemma FollowFinal(g: Graph, s: Pass, order: seq<Name>, cur: Name, v: Name)
    requires Final(g, s.depth, order) && v !in order
    ensures Final(g, Follow(s, cur, v).depth, order)
    ensures DeepSet(order, Follow(s, cur, v).depth) == DeepSet(order, s.depth)
    ensures forall u :: u in order ==> Get(Follow(s, cur, v).depth, u) == Get(s.depth, u)
  {
    forall u | u in order ensures Get(Follow(s, cur, v).depth, u) == Get(s.depth, u) {}
  }

  /** The link that brings the count to zero queues its target, no shallower than anything
      queued before. */
  lemma FollowQueues(g: Graph, s: Pass, order: seq<Name>, cur: Name, v: Name)
    requires QueuedOk(g, s.inDegree, order) && DepthsOk(g, s.depth, order, Get(s.depth, cur))
    requires v !in order && v in g && Get(s.inDegree, v) == 1
    ensures QueuedOk(g, Follow(s, cur, v).inDegree, order + [v])
    ensures DepthsOk(g, Follow(s, cur, v).depth, order + [v], Get(s.depth, cur))
    ensures Get(Follow(s, cur, v).depth, v) == Get(s.depth, cur) + 1
    ensures Follow(s, cur, v).queue == s.queue + [v]
    ensures Follow(s, cur, v).errors == s.errors + if Get(s.depth, cur) + 1 > MAX_DEP_DEPTH then 1 else 0
  {
    var depth := Follow(s, cur, v).depth;
    forall i | 0 <= i < |order| ensures Get(depth, order[i]) == Get(s.depth, order[i]) <= Get(s.depth, cur) + 1 {
      assert order[i] in order;
    }
  }

  lemma FollowDegrees(services: seq<Svc>, g: Graph, s: Pass, done: seq<Name>, cur: Name, v: Name, rest: seq<Name>)
    requires DegreesOk(services, g, s.inDegree, done, [v] + rest)
    ensures DegreesOk(services, g, Follow(s, cur, v).inDegree, done, rest)
    ensures v in g ==> Get(s.inDegree, v) > 0
    ensures Get(s.inDegree, v) == 1 ==> v in g && InCount(services, Elems(done), v) == 0
  {
    hide InCount, Occurrences;
    OccurrencesCons(v, rest);
  }

  /** Following a link keeps the pass in order, whether or not it completes its target. */
  lemma FollowKeeps(services: seq<Svc>, g: Graph, s: Pass, done: seq<Name>, v: Name, rest: seq<Name>, order: seq<Name>)
    requires GraphOf(services, g) && PassOk(services, g, s, done, [v] + rest, order) && done != []
    requires Edge(g, done[|done| - 1], v)
    ensures PassOk(services, g, Follow(s, done[|done| - 1], v), done, rest,
                   if Get(s.inDegree, v) == 1 then order + [v] else order)
  {
    hide InCount, LongestInto, GraphOf, DegreesOk, QueuedOk, DepthsOk, DeepSet, Follow;
    var cur := done[|done| - 1];
    FollowDegrees(services, g, s, done, cur, v, rest);
    HandAndTarget(g, s, done, order, v);
    FollowFinal(g, s, order, cur, v);
    if Get(s.inDegree, v) == 1 {
      FinalDepth(services, g, s.depth, done, order, v);
      FollowQueues(g, s, order, cur, v);
      DeepSetGrows(order, v, Follow(s, cur, v).depth);
    } else {
      FollowCounts(g, s, order, cur, v);
    }
  }

  lemma DeepSetGrows(order: seq<Name>, v: Name, depth: map<Name, int>)
    requires v !in order
    ensures |DeepSet(order + [v], depth)| == |DeepSet(order, depth)| + if Get(depth, v) > MAX_DEP_DEPTH then 1 else 0
  {
    assert DeepSet(order + [v], depth) == DeepSet(order, depth) + if Get(depth, v) > MAX_DEP_DEPTH then {v} else {};
  }

  /** Taking the next service from the queue puts its counted links in hand. */
  lemma Dequeue(services: seq<Svc>, g: Graph, s: Pass, done: seq<Name>, order: seq<Name>)
    requires GraphOf(services, g) && PassOk(services, g, s, done, [], order) && s.queue != []
    ensures s.queue[0] in g
    ensures PassOk(services, g, s.(queue := s.queue[1..]), done + [s.queue[0]], g[s.queue[0]], order)
  {
    hide InCount, LongestInto, GraphOf;
    var cur := s.queue[0];
    assert order[|done|] == cur;
    assert done + [cur] + s.queue[1..] == order;
    assert cur in order && cur !in done by {
      forall i | 0 <= i < |done| ensures done[i] != cur { assert order[i] == done[i]; }
    }
    DequeueDegrees(services, g, s.inDegree, done, cur);
    if done != [] { assert order[|done| - 1] == done[|done| - 1]; }
  }

  lemma DequeueDegrees(services: seq<Svc>, g: Graph, inDegree: map<Name, int>, done: seq<Name>, cur: Name)
    requires GraphOf(services, g) && DegreesOk(services, g, inDegree, done, []) && cur in g && cur !in done
    ensures DegreesOk(services, g, inDegree, done + [cur], g[cur])
  {
    assert Elems(done + [cur]) == Elems(done) + {cur};
    var u :| u in services && u.name == cur;
    forall v | v in g ensures Get(inDegree, v) == InCount(services, Elems(done + [cur]), v) + Occurrences(g[cur], v) {
      InCountDone(services, Elems(done), u, v);
    }
  }

  /** When the queue is empty, the dequeued services are those with a longest chain into them. */
  lemma Drained(services: seq<Svc>, g: Graph, s: Pass, done: seq<Name>, order: seq<Name>)
    requires GraphOf(services, g) && PassOk(services, g, s, done, [], order) && s.queue == []
    ensures s.errors == |set v | v in g && TooDeep(g, v)|
  {
    assert order == done;
    forall w | w in g && w !in Elems(done) ensures HasPredOutside(g, Elems(done), w) {
      LinkLeft(services, g, Elems(done), w);
    }
    forall v | v in g ensures TooDeep(g, v) <==> v in DeepSet(done, s.depth) {
      if v in done {
        forall d: nat | LongestInto(g, v, d) ensures d == Get(s.depth, v) {
          LongestIntoUnique(g, v, d, Get(s.depth, v));
        }
      } else {
        forall d: nat ensures !LongestInto(g, v, d) {
          StuckHasNoLongest(g, Elems(done), v, d);
        }
      }
    }
    assert DeepSet(done, s.depth) == set v | v in g && TooDeep(g, v);
  }

  // ----- setting up the pass -----

  lemma {:induction false} CountedSnoc(deps: seq<Dep>, d: Dep)
    ensures Counted(deps + [d]) == Counted(deps) + if IsOnlyOrdering(d.kind) then [] else [d.to]
  {
    if deps == [] {
      assert deps + [d] == [d];
    } else {
      assert (deps + [d])[1..] == deps[1..] + [d];
      CountedSnoc(deps[1..], d);
    }
  }

  lemma {:induction false} OccurrencesSnoc(names: seq<Name>, n: Name, v: Name)
    ensures Occurrences(names + [n], v) == Occurrences(names, v) + if n == v then 1 else 0
  {
    if names == [] {
      assert names + [n] == [n];
    } else {
      assert (names + [n])[1..] == names[1..] + [n];
      OccurrencesSnoc(names[1..], n, v);
    }
  }

  lemma {:induction false} InCountSnoc(services: seq<Svc>, s: Svc, v: Name)
    ensures InCount(services + [s], {}, v) == InCount(services, {}, v) + Occurrences(Counted(s.deps), v)
  {
    if services == [] {
      assert services + [s] == [s];
    } else {
      assert (services + [s])[1..] == services[1..] + [s];
      InCountSnoc(services[1..], s, v);
    }
  }

  /** Counts the counted links into each listed service. */
  method CountLinks(services: seq<Svc>, zero: map<Name, int>) returns (inDegree: map<Name, int>)
    requires forall n :: n in zero ==> zero[n] == 0
    ensures inDegree.Keys == zero.Keys
    ensures forall v :: v in zero ==> inDegree[v] == InCount(services, {}, v)
  {
    inDegree := zero;
    for i := 0 to |services|
      invariant inDegree.Keys == zero.Keys
      invariant forall v :: v in zero ==> inDegree[v] == InCount(services[..i], {}, v)
    {
      var deps := services[i].deps;
      ghost var before := inDegree;
      inDegree := CountLinksOf(deps, inDegree);
      assert services[..i + 1] == services[..i] + [services[i]];
      forall v | v in zero ensures inDegree[v] == InCount(services[..i + 1], {}, v) {
        InCountSnoc(services[..i], services[i], v);
      }
    }
    assert services[..|services|] == services;
  }

  lemma AllOccurrences(names: seq<Name>, n: Name)
    ensures forall v :: Occurrences(names + [n], v) == Occurrences(names, v) + if n == v then 1 else 0
  {
    forall v ensures Occurrences(names + [n], v) == Occurrences(names, v) + if n == v then 1 else 0 {
      OccurrencesSnoc(names, n, v);
    }
  }

  method CountLinksOf(deps: seq<Dep>, before: map<Name, int>) returns (inDegree: map<Name, int>)
    ensures inDegree.Keys == before.Keys
    ensures forall v :: v in before ==> inDegree[v] == before[v] + Occurrences(Counted(deps), v)
  {
    hide Occurrences, Counted;
    inDegree := before;
    assert deps[..0] == [];
    NothingCounted(before);
    for k := 0 to |deps|
      invariant inDegree.Keys == before.Keys
      invariant forall v :: v in before ==> inDegree[v] == before[v] + Occurrences(Counted(deps[..k]), v)
    {
      var d := deps[k];
      assert deps[..k + 1] == deps[..k] + [d];
      CountedSnoc(deps[..k], d);
      assert Counted(deps[..k]) + [] == Counted(deps[..k]);
      AllOccurrences(Counted(deps[..k]), d.to);
      if !IsOnlyOrdering(d.kind) && d.to in inDegree {
        inDegree := inDegree[d.to := inDegree[d.to] + 1];
      }
    }
    assert deps[..|deps|] == deps;
  }

  lemma NothingCounted(names: map<Name, int>)
    ensures forall v :: v in names ==> Occurrences(Counted([]), v) == 0
  {
  }

  /** Lists the services no counted link leads to. */
  method Roots(services: seq<Svc>, inDegree: map<Name, int>) returns (queue: seq<Name>)
    requires DistinctNames(services)
    requires forall s :: s in services ==> s.name in inDegree
    ensures Distinct(queue)
    ensures forall n :: n in queue <==> exists s :: s in services && s.name == n && inDegree[n] == 0
  {
    queue := [];
    for i := 0 to |services|
      invariant Distinct(queue)
      invariant forall n :: n in queue <==> exists k :: 0 <= k < i && services[k].name == n && inDegree[n] == 0
    {
      var n := services[i].name;
      assert services[i] in services;
      if inDegree[n] == 0 {
        assert n !in queue;
        queue := queue + [n];
      }
    }
  }

  lemma PassStarts(services: seq<Svc>, g: Graph, s: Pass)
    requires GraphOf(services, g) && s.inDegree.Keys == g.Keys && s.errors == 0
    requires forall v :: v in g ==> s.inDegree[v] == InCount(services, {}, v)
    requires forall v :: v in g ==> Get(s.depth, v) == 0
    requires Distinct(s.queue)
    requires forall v :: v in s.queue <==> v in g && s.inDegree[v] == 0
    ensures PassOk(services, g, s, [], [], s.queue)
  {
    hide InCount, LongestInto, GraphOf, Final, DegreesOk, DepthsOk, QueuedOk;
    RootsAreFinal(services, g, s);
    RootsCount(services, g, s);
    RootsAreFlat(g, s);
    assert QueuedOk(g, s.inDegree, s.queue) by { RootsAreQueued(g, s); }
    assert [] + s.queue == s.queue;
  }

  lemma RootsCount(services: seq<Svc>, g: Graph, s: Pass)
    requires s.inDegree.Keys == g.Keys && forall v :: v in g ==> s.inDegree[v] == InCount(services, {}, v)
    ensures DegreesOk(services, g, s.inDegree, [], [])
  {
    hide InCount;
    assert Elems([]) == {};
  }

  lemma RootsAreQueued(g: Graph, s: Pass)
    requires s.inDegree.Keys == g.Keys && Distinct(s.queue) && forall v :: v in s.queue <==> v in g && s.inDegree[v] == 0
    ensures QueuedOk(g, s.inDegree, s.queue)
  {
  }

  lemma RootsAreFlat(g: Graph, s: Pass)
    requires (forall v :: v in g ==> Get(s.depth, v) == 0) && forall v :: v in s.queue ==> v in g
    ensures DepthsOk(g, s.depth, s.queue, -1) && DeepSet(s.queue, s.depth) == {}
  {
  }

  lemma RootsAreFinal(services: seq<Svc>, g: Graph, s: Pass)
    requires GraphOf(services, g)
    requires forall v :: v in s.queue ==> v in g && Get(s.depth, v) == 0 && InCount(services, {}, v) == 0
    ensures Final(g, s.depth, s.queue)
  {
    hide InCount, LongestInto, GraphOf;
    forall v | v in s.queue ensures LongestInto(g, v, 0) {
      NoLinkLeft(services, g, {}, v);
      LongestOfRoot(g, v);
    }
  }

  /** Follows the counted links of the service just dequeued. */
  method FollowLinks(ghost services: seq<Svc>, ghost g: Graph, before: Pass, deps: seq<Dep>, cur: Name,
                     ghost done: seq<Name>, ghost order0: seq<Name>)
    returns (s: Pass, ghost order: seq<Name>)
    requires GraphOf(services, g) && done != [] && cur == done[|done| - 1]
    requires cur in g && g[cur] == Counted(deps)
    requires PassOk(services, g, before, done, Counted(deps), order0)
    ensures PassOk(services, g, s, done, [], order)
  {
    hide PassOk, GraphOf;
    s, order := before, order0;
    for k := 0 to |deps|
      invariant PassOk(services, g, s, done, Counted(deps[k..]), order)
    {
      var d := deps[k];
      assert deps[k..][1..] == deps[k + 1..];
      if !IsOnlyOrdering(d.kind) {
        assert Edge(g, cur, d.to) by { CountedMember(deps, k); }
        FollowKeeps(services, g, s, done, d.to, Counted(deps[k + 1..]), order);
        order := if Get(s.inDegree, d.to) == 1 then order + [d.to] else order;
        s := Follow(s, cur, d.to);
      } else {
        assert [] + Counted(deps[k + 1..]) == Counted(deps[k + 1..]);
      }
    }
  }

  lemma {:induction false} CountedMember(deps: seq<Dep>, k: nat)
    requires k < |deps| && !IsOnlyOrdering(deps[k].kind)
    ensures deps[k].to in Counted(deps)
  {
    if k > 0 { CountedMember(deps[1..], k - 1); }
  }

  lemma DoneIsBounded(services: seq<Svc>, g: Graph, s: Pass, done: seq<Name>, rest: seq<Name>, order: seq<Name>)
    requires PassOk(services, g, s, done, rest, order)
    ensures |done| + |s.queue| <= |g.Keys|
  {
    if |order| > |g.Keys| {
      Pigeonhole(order, g.Keys);
    }
  }

  /** Indexes the services, counts their links and queues the roots. */
  method StartPass(services: seq<Svc>) returns (svcMap: Links, s: Pass)
    requires DistinctNames(services)
    ensures svcMap == ByName(services) && GraphOf(services, DepthGraph(svcMap))
    ensures PassOk(services, DepthGraph(svcMap), s, [], [], s.queue)
  {
    hide PassOk, InCount, Counted;
    var zero;
    svcMap, zero := IndexForCount(services);
    var inDegree := CountLinks(services, zero);
    var queue := Roots(services, inDegree);
    s := Pass(inDegree, zero, queue, 0);
    PassStarts(services, DepthGraph(svcMap), s);
  }

  /** Reports exactly the services whose longest chain of counted links is over the limit;
      a service below a cycle has no longest chain and is not reported. */
  method CheckDepthLimits(services: seq<Svc>) returns (errors: nat)
    requires DistinctNames(services)
    ensures
      var g := DepthGraph(ByName(services));
      errors == |set v | v in g && TooDeep(g, v)|
  {
    hide PassOk, GraphOf, TooDeep, Counted;
    var svcMap, s := StartPass(services);
    ghost var g := DepthGraph(svcMap);
    ghost var done: seq<Name>, order := [], s.queue;
    while s.queue != []
      invariant PassOk(services, g, s, done, [], order)
      decreases |g.Keys| - |done|
    {
      var cur := s.queue[0];
      Dequeue(services, g, s, done, order);
      DoneIsBounded(services, g, s, done, [], order);
      done := done + [cur];
      s := s.(queue := s.queue[1..]);
      s, order := FollowLinks(services, g, s, svcMap[cur], cur, done, order);
    }
    Drained(services, g, s, done, order);
    errors := s.errors;
  }

  method IndexForCount(services: seq<Svc>) returns (svcMap: Links, zero: map<Name, int>)
    requires DistinctNames(services)
    ensures svcMap == ByName(services) && zero.Keys == svcMap.Keys
    ensures forall n :: n in zero ==> zero[n] == 0
    ensures GraphOf(services, DepthGraph(svcMap))
  {
    ghost var links := ByName(services);
    svcMap, zero := map[], map[];
    for i := 0 to |services|
      invariant zero.Keys == svcMap.Keys && forall n :: n in zero ==> zero[n] == 0
      invariant forall k :: 0 <= k < i ==> services[k].name in svcMap
      invariant forall n :: n in svcMap ==> n in links && svcMap[n] == links[n]
    {
      zero := zero[services[i].name := 0];
      svcMap := svcMap[services[i].name := services[i].deps];
    }
    assert svcMap == links;
    forall n | n in svcMap ensures exists s :: s in services && s.name == n {
      var i :| 0 <= i < |services| && services[i].name == n;
      assert services[i] in services;
    }
  }
}
