/** The linter's cycle detector: a depth-first search with an explicit stack. */
module CheckCycles {
  import opened Graph
  import opened Services

  datatype Color = Unvisited | Visiting | CycleFree

  datatype Frame = Frame(svc: Name, deps: seq<Dep>, index: nat)

  type Links = map<Name, seq<Dep>>

  /** `report` lists the edges of a closed walk, in walking order. */
  ghost predicate ClosedWalk(g: Graph, report: seq<(Name, Name)>) {
    && |report| > 0
    && (forall i :: 0 <= i < |report| ==> Edge(g, report[i].0, report[i].1))
    && (forall i, j :: 0 <= i && j == i + 1 < |report| ==> report[i].1 == report[j].0)
    && report[|report| - 1].1 == report[0].0
  }

  /** A name that needs no further exploration: black, or not loaded. */
  ghost predicate Settled(states: map<Name, Color>, n: Name) {
    n in states ==> states[n] == CycleFree
  }

  ghost predicate FrameOk(links: Links, states: map<Name, Color>, f: Frame) {
    && f.svc in links && f.deps == links[f.svc] && f.index <= |f.deps|
    && f.svc in states && states[f.svc] == Visiting
    && forall k :: 0 <= k < f.index ==> Settled(states, f.deps[k].to)
  }

  /** The link `f` is exploring leads to `s`. */
  ghost predicate LeadsTo(f: Frame, s: Name) {
    f.index < |f.deps| && f.deps[f.index].to == s
  }

  ghost predicate Linked(stack: seq<Frame>, i: nat)
    requires 0 < i < |stack|
  {
    LeadsTo(stack[i - 1], stack[i].svc)
  }

  /** The stack is a path of frames. */
  ghost predicate StackPath(links: Links, states: map<Name, Color>, stack: seq<Frame>) {
    && (forall i :: 0 <= i < |stack| ==> FrameOk(links, states, stack[i]))
    && (forall i: nat :: 0 < i < |stack| ==> Linked(stack, i))
  }

  ghost predicate OnStack(stack: seq<Frame>, s: Name) {
    exists i :: 0 <= i < |stack| && stack[i].svc == s
  }

  /** The stack holds every grey service, and none twice. */
  ghost predicate StackComplete(states: map<Name, Color>, stack: seq<Frame>) {
    && (forall i, j :: 0 <= i < j < |stack| ==> stack[i].svc != stack[j].svc)
    && (forall s :: s in states && states[s] == Visiting ==> OnStack(stack, s))
  }

  /** Every loaded dependency of `n` was finished before `n`. */
  ghost predicate DepsRanked(links: Links, rank: map<Name, nat>, n: Name)
    requires n in links && n in rank
  {
    forall d :: d in links[n] && d.to in links ==> d.to in rank && rank[d.to] < rank[n]
  }

  /** `rank` numbers exactly the black services, in finishing order. */
  ghost predicate BlackRanked(links: Links, states: map<Name, Color>, rank: map<Name, nat>, next: nat)
    requires states.Keys == links.Keys
  {
    && (forall n :: n in rank <==> n in states && states[n] == CycleFree)
    && (forall n :: n in rank ==> rank[n] < next && DepsRanked(links, rank, n))
  }

  ghost predicate SearchOk(links: Links, states: map<Name, Color>, stack: seq<Frame>, rank: map<Name, nat>, next: nat) {
    && states.Keys == links.Keys
    && StackPath(links, states, stack)
    && StackComplete(states, stack)
    && BlackRanked(links, states, rank, next)
  }

  ghost function UnvisitedNames(states: map<Name, Color>): set<Name> {
    set n | n in states && states[n] == Unvisited
  }

  /** Popping a finished frame turns its service black. */
  lemma FinishFrame(links: Links, states: map<Name, Color>, stack: seq<Frame>, rank: map<Name, nat>, next: nat)
    requires SearchOk(links, states, stack, rank, next) && |stack| > 0
    requires stack[|stack| - 1].index == |stack[|stack| - 1].deps|
    ensures
      var n := |stack| - 1;
      var s := stack[n].svc;
      && SearchOk(links, states[s := CycleFree], stack[..n], rank[s := next], next + 1)
      && UnvisitedNames(states[s := CycleFree]) == UnvisitedNames(states)
      && (n > 0 ==> LeadsTo(stack[n - 1], s))
  {
    var n := |stack| - 1;
    var s := stack[n].svc;
    var states' := states[s := CycleFree];
    assert states'.Keys == links.Keys;
    assert StackPath(links, states', stack[..n]) by { PopPath(links, states, stack); }
    assert StackComplete(states', stack[..n]) by {
      forall m | m in states' && states'[m] == Visiting ensures OnStack(stack[..n], m) {
        var i :| 0 <= i < |stack| && stack[i].svc == m;
        assert stack[..n][i].svc == m;
      }
    }
    assert FrameOk(links, states, stack[n]);
    if n > 0 { assert Linked(stack, n); }
    RankTop(links, states, stack[n], rank, next);
  }

  lemma PopPath(links: Links, states: map<Name, Color>, stack: seq<Frame>)
    requires StackPath(links, states, stack) && StackComplete(states, stack) && |stack| > 0
    ensures StackPath(links, states[stack[|stack| - 1].svc := CycleFree], stack[..|stack| - 1])
  {
    var n := |stack| - 1;
    forall i | 0 <= i < n ensures FrameOk(links, states[stack[n].svc := CycleFree], stack[..n][i]) {
      assert FrameOk(links, states, stack[i]);
    }
    forall i: nat | 0 < i < n ensures Linked(stack[..n], i) {
      assert Linked(stack, i);
    }
  }

  lemma RankTop(links: Links, states: map<Name, Color>, f: Frame, rank: map<Name, nat>, next: nat)
    requires states.Keys == links.Keys && BlackRanked(links, states, rank, next)
    requires FrameOk(links, states, f) && f.index == |f.deps|
    ensures BlackRanked(links, states[f.svc := CycleFree], rank[f.svc := next], next + 1)
  {
    var rank' := rank[f.svc := next];
    forall n | n in rank' ensures DepsRanked(links, rank', n) {
      if n == f.svc {
        forall d | d in links[n] && d.to in links ensures d.to in rank' && rank'[d.to] < next {
          var k :| 0 <= k < |f.deps| && f.deps[k] == d;
          assert Settled(states, f.deps[k].to);
        }
      } else {
        assert DepsRanked(links, rank, n);
      }
    }
  }

  /** Pushing an unvisited dependency of the top frame turns it grey. */
  lemma PushFrame(links: Links, states: map<Name, Color>, stack: seq<Frame>, rank: map<Name, nat>, next: nat, s: Name)
    requires SearchOk(links, states, stack, rank, next)
    requires s in links && states[s] == Unvisited
    requires |stack| > 0 ==> LeadsTo(stack[|stack| - 1], s)
    ensures SearchOk(links, states[s := Visiting], stack + [Frame(s, links[s], 0)], rank, next)
    ensures UnvisitedNames(states[s := Visiting]) == UnvisitedNames(states) - {s}
  {
    var states' := states[s := Visiting];
    var stack' := stack + [Frame(s, links[s], 0)];
    assert states'.Keys == links.Keys;
    assert StackPath(links, states', stack') by { PushPath(links, states, stack, s); }
    assert StackComplete(states', stack') by {
      forall i | 0 <= i < |stack| ensures stack[i].svc != s {
        assert FrameOk(links, states, stack[i]);
      }
      forall m | m in states' && states'[m] == Visiting ensures OnStack(stack', m) {
        if m == s {
          assert stack'[|stack|].svc == m;
        } else {
          var i :| 0 <= i < |stack| && stack[i].svc == m;
          assert stack'[i].svc == m;
        }
      }
    }
    forall n | n in rank ensures DepsRanked(links, rank, n) {}
  }

  lemma PushPath(links: Links, states: map<Name, Color>, stack: seq<Frame>, s: Name)
    requires StackPath(links, states, stack)
    requires s in links && s in states && states[s] == Unvisited
    requires |stack| > 0 ==> LeadsTo(stack[|stack| - 1], s)
    ensures StackPath(links, states[s := Visiting], stack + [Frame(s, links[s], 0)])
  {
    var states' := states[s := Visiting];
    var stack' := stack + [Frame(s, links[s], 0)];
    forall i | 0 <= i < |stack'| ensures FrameOk(links, states', stack'[i]) {
      if i < |stack| { assert FrameOk(links, states, stack[i]); }
    }
    forall i: nat | 0 < i < |stack'| ensures Linked(stack', i) {
      if i < |stack| { assert Linked(stack, i); }
    }
  }

  /** The link at the top frame's index needs no search of its own. */
  lemma SkipLink(links: Links, states: map<Name, Color>, stack: seq<Frame>, rank: map<Name, nat>, next: nat)
    requires SearchOk(links, states, stack, rank, next) && |stack| > 0
    requires stack[|stack| - 1].index < |stack[|stack| - 1].deps|
    requires Settled(states, stack[|stack| - 1].deps[stack[|stack| - 1].index].to)
    ensures SearchOk(links, states, Advance(stack), rank, next)
  {
    var n := |stack| - 1;
    var stack' := Advance(stack);
    forall i | 0 <= i < |stack'| ensures FrameOk(links, states, stack'[i]) {
      assert FrameOk(links, states, stack[i]);
    }
    forall i: nat | 0 < i < |stack'| ensures Linked(stack', i) {
      assert Linked(stack, i);
    }
    forall m | m in states && states[m] == Visiting ensures OnStack(stack', m) {
      var i :| 0 <= i < |stack| && stack[i].svc == m;
      assert stack'[i].svc == m;
    }
  }

  lemma EmptyStackNoGrey(links: Links, states: map<Name, Color>, rank: map<Name, nat>, next: nat)
    requires SearchOk(links, states, [], rank, next)
    ensures states.Keys == links.Keys && forall s :: s in states ==> states[s] != Visiting
  {
  }

  /** When everything is black the finishing order ranks the graph. */
  lemma AllBlackIsAcyclic(links: Links, states: map<Name, Color>, rank: map<Name, nat>, next: nat)
    requires states.Keys == links.Keys && BlackRanked(links, states, rank, next)
    requires forall n :: n in states ==> states[n] == CycleFree
    ensures Acyclic(LinkGraph(links))
  {
    var g := LinkGraph(links);
    forall u, v | Edge(g, u, v) && u in rank && v in rank ensures rank[v] < rank[u] {
      var k :| 0 <= k < |links[u]| && links[u][k].to == v;
      assert links[u][k] in links[u];
    }
    RankedIsAcyclic(g, rank);
  }

  /** The stack segment from the frame of `s` up, closed by the link back to `s`, is a cycle. */
  lemma StackCycle(links: Links, states: map<Name, Color>, stack: seq<Frame>, start: nat, s: Name)
    requires StackPath(links, states, stack) && start < |stack| && stack[start].svc == s
    requires LeadsTo(stack[|stack| - 1], s)
    ensures ClosedWalk(LinkGraph(links), StackEdges(stack, start, s))
  {
    var g := LinkGraph(links);
    var r := StackEdges(stack, start, s);
    forall i | 0 <= i < |r| ensures Edge(g, r[i].0, r[i].1) {
      var f := stack[start + i];
      assert FrameOk(links, states, f);
      if i < |r| - 1 { assert Linked(stack, start + i + 1); }
      assert f.deps[f.index].to == r[i].1;
      assert TargetNames(f.deps)[f.index] == r[i].1;
    }
  }

  function StackEdges(stack: seq<Frame>, start: nat, s: Name): (r: seq<(Name, Name)>)
    requires start <= |stack|
    ensures |r| == |stack| - start
  {
    seq(|stack| - start, i requires 0 <= i < |stack| - start =>
      (stack[start + i].svc, if start + i + 1 < |stack| then stack[start + i + 1].svc else s))
  }

  lemma ClosedWalkIsCycle(g: Graph, report: seq<(Name, Name)>)
    requires ClosedWalk(g, report)
    ensures HasCycle(g)
  {
    var p := [report[0].0] + seq(|report|, i requires 0 <= i < |report| => report[i].1);
    forall i: nat | 0 < i < |p| ensures Hop(g, p, i) {
      assert Edge(g, report[i - 1].0, report[i - 1].1);
    }
    assert IsCycle(g, p);
  }

  /** The first frame of a service; a grey service always has one. */
  method FrameOf(stack: seq<Frame>, s: Name) returns (start: nat)
    requires exists i :: 0 <= i < |stack| && stack[i].svc == s
    ensures start < |stack| && stack[start].svc == s
    ensures forall i :: 0 <= i < start ==> stack[i].svc != s
  {
    start := 0;
    while stack[start].svc != s
      invariant start < |stack| && forall i :: 0 <= i < start ==> stack[i].svc != s
      decreases |stack| - start
    {
      start := start + 1;
    }
  }

  /** No service gets a lighter color. */
  ghost predicate Darkens(before: map<Name, Color>, after: map<Name, Color>) {
    && before.Keys == after.Keys
    && forall n :: n in before ==>
         (before[n] == CycleFree ==> after[n] == CycleFree) && (before[n] == Visiting ==> after[n] != Unvisited)
  }

  /** Advances the top frame past its current link. */
  function Advance(stack: seq<Frame>): (r: seq<Frame>)
    requires |stack| > 0
  {
    stack[|stack| - 1 := stack[|stack| - 1].(index := stack[|stack| - 1].index + 1)]
  }

  ghost function LinksLeft(stack: seq<Frame>): int {
    if |stack| == 0 then 0 else |stack[|stack| - 1].deps| - stack[|stack| - 1].index
  }

  /** One turn of the search at a frame with a link left to explore. */
  method FollowLink(svcMap: Links, states0: map<Name, Color>, stack0: seq<Frame>, ghost rank: map<Name, nat>, ghost next: nat)
    returns (states: map<Name, Color>, stack: seq<Frame>, report: seq<(Name, Name)>)
    requires SearchOk(svcMap, states0, stack0, rank, next) && |stack0| > 0 && LinksLeft(stack0) > 0
    ensures Darkens(states0, states)
    ensures report != [] ==> ClosedWalk(LinkGraph(svcMap), report)
    ensures report == [] ==>
      && SearchOk(svcMap, states, stack, rank, next)
      && (|| |UnvisitedNames(states)| < |UnvisitedNames(states0)|
          || (states == states0 && |stack| == |stack0| && LinksLeft(stack) < LinksLeft(stack0)))
  {
    states, stack, report := states0, stack0, [];
    var top := stack[|stack| - 1];
    var dep := top.deps[top.index].to;
    assert FrameOk(svcMap, states, top);
    match if dep in states then states[dep] else Unvisited
    case CycleFree =>
      SkipLink(svcMap, states, stack, rank, next);
      stack := Advance(stack);
    case Visiting =>
      assert OnStack(stack, dep);
      var cycleStart := FrameOf(stack, dep);
      StackCycle(svcMap, states, stack, cycleStart, dep);
      report := StackEdges(stack, cycleStart, dep);
    case Unvisited =>
      if dep !in svcMap {
        SkipLink(svcMap, states, stack, rank, next);
        stack := Advance(stack);
      } else {
        PushFrame(svcMap, states, stack, rank, next, dep);
        states := states[dep := Visiting];
        stack := stack + [Frame(dep, svcMap[dep], 0)];
      }
  }

  lemma TopFrame(links: Links, states: map<Name, Color>, stack: seq<Frame>, rank: map<Name, nat>, next: nat)
    requires SearchOk(links, states, stack, rank, next)
    ensures states.Keys == links.Keys
    ensures |stack| > 0 ==>
      var top := stack[|stack| - 1];
      top.index <= |top.deps| && top.svc in states && states[top.svc] == Visiting
  {
    if |stack| > 0 { assert FrameOk(links, states, stack[|stack| - 1]); }
  }

  /** Popping a finished frame moves the frame below past the link that led to it. */
  lemma FinishAndAdvance(links: Links, states: map<Name, Color>, stack: seq<Frame>, rank: map<Name, nat>, next: nat)
    requires SearchOk(links, states, stack, rank, next) && |stack| > 0
    requires stack[|stack| - 1].index == |stack[|stack| - 1].deps|
    ensures
      var n := |stack| - 1;
      var s := stack[n].svc;
      && SearchOk(links, states[s := CycleFree], if n > 0 then Advance(stack[..n]) else [], rank[s := next], next + 1)
      && UnvisitedNames(states[s := CycleFree]) == UnvisitedNames(states)
  {
    hide SearchOk, UnvisitedNames;
    var n := |stack| - 1;
    var s := stack[n].svc;
    FinishFrame(links, states, stack, rank, next);
    if n > 0 {
      SkipLink(links, states[s := CycleFree], stack[..n], rank[s := next], next + 1);
    }
  }

  /** Searches everything below `root`.  Without a cycle, `root` and all it reaches end up
      black; otherwise the closed walk that was found is returned. */
  method Explore(svcMap: Links, before: map<Name, Color>, root: Name, ghost rank0: map<Name, nat>, ghost next0: nat)
    returns (states: map<Name, Color>, report: seq<(Name, Name)>, ghost rank: map<Name, nat>, ghost next: nat)
    requires SearchOk(svcMap, before, [], rank0, next0)
    requires root in svcMap && before[root] == Unvisited
    ensures report == [] ==> SearchOk(svcMap, states, [], rank, next) && states[root] == CycleFree
    ensures report == [] ==> Darkens(before, states)
    ensures report != [] ==> ClosedWalk(LinkGraph(svcMap), report)
  {
    hide SearchOk, FrameOk, ClosedWalk, LinkGraph, LeadsTo, UnvisitedNames;
    report, rank, next := [], rank0, next0;
    TopFrame(svcMap, before, [], rank, next);
    var stack := [Frame(root, svcMap[root], 0)];
    PushFrame(svcMap, before, [], rank, next, root);
    assert stack == [] + [Frame(root, svcMap[root], 0)];
    states := before[root := Visiting];
    while |stack| > 0
      invariant SearchOk(svcMap, states, stack, rank, next)
      invariant report == [] && Darkens(before, states) && states[root] != Unvisited
      decreases |UnvisitedNames(states)|, |stack|, LinksLeft(stack)
    {
      var n := |stack| - 1;
      var top := stack[n];
      TopFrame(svcMap, states, stack, rank, next);
      if top.index >= |top.deps| {
        FinishAndAdvance(svcMap, states, stack, rank, next);
        rank, next := rank[top.svc := next], next + 1;
        states := states[top.svc := CycleFree];
        stack := stack[..n];
        if n > 0 {
          stack := Advance(stack);
        }
      } else {
        states, stack, report := FollowLink(svcMap, states, stack, rank, next);
        if report != [] {
          return;
        }
      }
    }
    EmptyStackNoGrey(svcMap, states, rank, next);
  }

  ghost predicate ListedBlack(services: seq<Svc>, states: map<Name, Color>) {
    forall s :: s in services ==> s.name in states && states[s.name] == CycleFree
  }

  lemma DarkensKeepsBlack(services: seq<Svc>, before: map<Name, Color>, after: map<Name, Color>)
    requires ListedBlack(services, before) && Darkens(before, after)
    ensures ListedBlack(services, after)
  {
  }

  method IndexForSearch(services: seq<Svc>) returns (states: map<Name, Color>, svcMap: Links)
    requires DistinctNames(services)
    ensures svcMap == ByName(services)
    ensures states.Keys == svcMap.Keys && forall n :: n in states ==> states[n] == Unvisited
  {
    ghost var links := ByName(services);
    states, svcMap := map[], map[];
    for i := 0 to |services|
      invariant states.Keys == svcMap.Keys
      invariant forall n :: n in states ==> states[n] == Unvisited
      invariant forall k :: 0 <= k < i ==> services[k].name in svcMap
      invariant forall n :: n in svcMap ==> n in links && svcMap[n] == links[n]
    {
      states := states[services[i].name := Unvisited];
      svcMap := svcMap[services[i].name := services[i].deps];
    }
    assert svcMap == links;
  }

  /** Runs the search from every listed service that is still unvisited. */
  method SearchAll(svcMap: Links, roots: seq<Svc>, before: map<Name, Color>)
    returns (report: seq<(Name, Name)>)
    requires SearchOk(svcMap, before, [], map[], 0)
    requires forall n :: n in svcMap <==> exists s :: s in roots && s.name == n
    ensures report == [] ==> Acyclic(LinkGraph(svcMap))
    ensures report != [] ==> ClosedWalk(LinkGraph(svcMap), report)
  {
    hide SearchOk, ClosedWalk, LinkGraph, Acyclic;
    report := [];
    var states := before;
    ghost var rank: map<Name, nat> := map[];
    ghost var next := 0;
    for i := 0 to |roots|
      invariant report == [] && SearchOk(svcMap, states, [], rank, next)
      invariant ListedBlack(roots[..i], states)
    {
      var root := roots[i];
      assert root in roots;
      EmptyStackNoGrey(svcMap, states, rank, next);
      if states[root.name] == Unvisited {
        ghost var was := states;
        states, report, rank, next := Explore(svcMap, states, root.name, rank, next);
        if report != [] {
          return;
        }
        DarkensKeepsBlack(roots[..i], was, states);
      }
      assert roots[..i + 1] == roots[..i] + [root];
    }
    assert roots[..|roots|] == roots;
    SearchIsOver(svcMap, roots, states, rank, next);
  }

  lemma SearchIsOver(links: Links, roots: seq<Svc>, states: map<Name, Color>, rank: map<Name, nat>, next: nat)
    requires SearchOk(links, states, [], rank, next) && ListedBlack(roots, states)
    requires forall n :: n in links <==> exists s :: s in roots && s.name == n
    ensures Acyclic(LinkGraph(links))
  {
    AllBlackIsAcyclic(links, states, rank, next);
  }

  /** Returns 1 exactly when the links among the listed services form a cycle; what it prints
      is then a closed walk of such links. */
  method DetectCycles(services: seq<Svc>) returns (cycles: nat, report: seq<(Name, Name)>)
    requires DistinctNames(services)
    ensures cycles == if HasCycle(LinkGraph(ByName(services))) then 1 else 0
    ensures cycles == 1 ==> ClosedWalk(LinkGraph(ByName(services)), report)
    ensures cycles == 0 ==> report == []
  {
    var states, svcMap := IndexForSearch(services);
    forall s | s in services ensures s.name in svcMap {
      var i :| 0 <= i < |services| && services[i] == s;
    }
    report := SearchAll(svcMap, services, states);
    if report != [] {
      ClosedWalkIsCycle(LinkGraph(svcMap), report);
      return 1, report;
    }
    return 0, [];
  }
}
