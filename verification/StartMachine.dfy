/** The starting half of the service state machine, and what happens when a service has
    started, stopped or failed. */
module StartMachine {
  import opened Services
  import opened Records
  import opened StopMachine

  // ----- acquiring -----

  /** Marks a link as holding and counts it. */
  function Attach(w: World, l: LinkId): (v: World)
    requires l !in w.books.holding
    ensures Attached(w, v, [l])
  {
    if l !in w.topo.links then
      NothingAttached(w, [l]);
      hide Attached;
      w
    else
      var to := L(w, l).to;
      var v := w.(books := w.books.(required := w.books.required[to := Required(w.books, to) + 1], holding := w.books.holding + {l}),
                  past := Acquires(w.past, L(w, l).from));
      AttachKeeps(w, l, v);
      hide Attached;
      v
  }

  /** The service acquires something, whatever it was asked to release before. */
  function Acquires(h: History, s: Id): History {
    h.(asked := h.asked - {s})
  }

  /** Some link of the list leads to the service. */
  ghost predicate LedTo(t: Topo, ls: seq<LinkId>, s: Id) {
    exists l :: l in ls && l in t.links && t.links[l].to == s
  }

  /** Nothing has changed, but that links of the list may have come to hold their targets. */
  ghost predicate Attached(w: World, v: World, ls: seq<LinkId>) {
    && Even(w, v) && v == w.(books := v.books, past := w.past.(asked := v.past.asked)) && v.past.asked <= w.past.asked
    && v.books.explicit == w.books.explicit
    && (forall l :: l in w.books.holding ==> l in v.books.holding)
    && (forall l :: l in v.books.holding ==> l in w.books.holding || l in ls)
    && forall s :: LedTo(w.topo, ls, s) || Required(v.books, s) == Required(w.books, s)
  }

  lemma NothingAttached(w: World, ls: seq<LinkId>)
    ensures Attached(w, w, ls)
  {
  }

  lemma AttachKeeps(w: World, l: LinkId, v: World)
    requires l !in w.books.holding && l in w.topo.links
    requires
      var to := L(w, l).to;
      v == w.(books := w.books.(required := w.books.required[to := Required(w.books, to) + 1], holding := w.books.holding + {l}),
              past := Acquires(w.past, L(w, l).from))
    ensures Attached(w, v, [l])
  {
    forall s ensures Excess(v.topo, v.books, s) == Excess(w.topo, w.books, s) {
      HoldersAdd(w.topo, w.books.holding, l, s);
    }
    HeldDutiful(w, l, v);
    hide Dutiful;
    assert LedTo(w.topo, [l], L(w, l).to) by { assert l in [l]; }
  }

  /** A link comes to hold, and the service at its near end is no longer asked to release. */
  lemma HeldDutiful(w: World, l: LinkId, v: World)
    requires l in w.topo.links && v.topo == w.topo && v.recs == w.recs && v.books.holding == w.books.holding + {l}
    requires v.past.told == w.past.told && v.past.asked == w.past.asked - {L(w, l).from}
    ensures Dutiful(w, v)
  {
    forall s | TopoOk(w.topo) && Withheld(v, s) ensures Withheld(w, s) {
      assert Deps(v, s) == Deps(w, s);
      var m :| m in Deps(v, s) && m in v.topo.links && m in v.books.holding;
      assert m != l;
    }
  }

  lemma AttachedTrans(u: World, v: World, w: World, ls: seq<LinkId>)
    requires ls != [] && Attached(u, v, ls[..1]) && Attached(v, w, ls[1..])
    ensures Attached(u, w, ls)
  {
    hide Lost, InStep, Excess, Held, Dutiful;
    DutifulTrans(u, v, w);
    assert ls == ls[..1] + ls[1..];
    forall s ensures LedTo(u.topo, ls, s) || Required(w.books, s) == Required(u.books, s) {
      if l :| l in ls[..1] && l in u.topo.links && u.topo.links[l].to == s { assert l in ls; }
      if l :| l in ls[1..] && l in u.topo.links && u.topo.links[l].to == s { assert l in ls; }
    }
  }

  /** Dependents that are up take hold again of a service that is about to start.  Every link
      that is not hard is re-attached, ordering-only links included. */
  function AttachSoft(w: World, ls: seq<LinkId>): (v: World)
    ensures Attached(w, v, ls)
    decreases |ls|
  {
    hide Attached;
    NothingAttached(w, ls);
    if ls == [] then w
    else
      assert ls[..1] == [ls[0]];
      NothingAttached(w, ls[..1]);
      var w1 := if !IsHard(w, ls[0]) && ls[0] !in w.books.holding && Up(R(w, L(w, ls[0]).from)) then Attach(w, ls[0]) else w;
      var v := AttachSoft(w1, ls[1..]);
      AttachedTrans(w, w1, v, ls);
      v
  }

  /** The link is one through which a dependent that is up wakes its target. */
  predicate Wakes(w: World, l: LinkId) {
    !IsOrdering(w, l) && Up(R(w, L(w, l).from))
  }

  /** The same for a service that is woken: every link but the ordering ones. */
  function AttachActive(w: World, ls: seq<LinkId>): (v: World)
    ensures Attached(w, v, ls)
    ensures forall l :: l in v.books.holding && l !in w.books.holding ==> Wakes(w, l)
    ensures (forall l :: l in ls ==> !Wakes(w, l)) ==> v == w
    ensures forall l :: l in ls && l in w.topo.links && L(w, l).kind != Before && L(w, l).kind != After ==>
      R(w, L(w, l).from).state == Started || R(w, L(w, l).from).state == Starting ==> l in v.books.holding
    decreases |ls|
  {
    NothingAttached(w, ls);
    if ls == [] then w
    else
      assert ls[..1] == [ls[0]];
      NothingAttached(w, ls[..1]);
      var w1 := if Wakes(w, ls[0]) && ls[0] !in w.books.holding then Attach(w, ls[0]) else w;
      var v := AttachActive(w1, ls[1..]);
      AttachedTrans(w, w1, v, ls);
      assert forall l :: Wakes(w1, l) <==> Wakes(w, l);
      v
  }

  // ----- starting -----

  /** Which dependencies have to be waited for. */
  function WaitForDeps(w: World, ls: seq<LinkId>): (v: World)
    ensures v == w.(waiting := v.waiting) && w.waiting <= v.waiting
    ensures forall l :: l in ls && !NoWait(w, l) ==> l in v.waiting
    ensures forall l :: l in v.waiting && l !in w.waiting ==> l in ls && !NoWait(w, l)
    decreases |ls|
  {
    if ls == [] then w
    else WaitForDeps(if NoWait(w, ls[0]) then w else w.(waiting := w.waiting + {ls[0]}), ls[1..])
  }

  /** The link need not be waited for. */
  predicate NoWait(w: World, l: LinkId) {
    var to := R(w, L(w, l).to).state;
    (IsOrdering(w, l) && to != Starting) || to == Started
  }

  /** Which starting dependents have to wait for this service because of an ordering link. */
  function HoldBack(w: World, ls: seq<LinkId>): (v: World)
    ensures v == w.(waiting := v.waiting) && w.waiting <= v.waiting
    ensures forall l :: l in v.waiting && l !in w.waiting ==> l in ls && IsOrdering(w, l)
    ensures forall l :: l in ls && IsOrdering(w, l) && R(w, L(w, l).from).state == Starting ==> l in v.waiting
    decreases |ls|
  {
    if ls == [] then w
    else
      var waits := IsOrdering(w, ls[0]) && R(w, L(w, ls[0]).from).state == Starting;
      HoldBack(if waits then w.(waiting := w.waiting + {ls[0]}) else w, ls[1..])
  }

  predicate DepsSettled(w: World, ls: seq<LinkId>) {
    forall l :: l in ls ==> NoWait(w, l)
  }

  /** Where the start begins: the service waits for its dependencies. */
  function BeginStart(w: World, s: Id): World {
    w.(recs := w.recs[s := R(w, s).(startFailed := false, startedEmitted := false, state := Starting, waitingForDeps := true)],
       past := BegunPast(w, s))
  }

  /** The service begins to start; what became of it last time no longer counts. */
  function Afresh(h: History, s: Id): History {
    h.(begun := h.begun + multiset{s}, mute := h.mute - {s}, spent := h.spent - {s}, told := h.told - {s})
  }

  /** What the service needs and is not up. */
  function Lacking(w: World, s: Id): set<LinkId> {
    set l | l in Deps(w, s) && MustWait(w.topo, l) && (L(w, l).to == s || R(w, L(w, l).to).state != Started)
  }

  /** The history once the service begins to start. */
  function BegunPast(w: World, s: Id): History {
    Afresh(w.past, s).(lacking := (set l | l in w.past.lacking && l !in Deps(w, s)) + Lacking(w, s))
  }

  function InitiateStart(w: World, s: Id): (v: World)
    ensures KeptBut(w, v, s) && v.books == w.books && v.past == BegunPast(w, s)
    ensures (TopoOk(w.topo) ==> NotRushed(v, s)) && AwaitsAll(w, v, s)
    ensures R(v, s).state == Starting && R(v, s).waitingForDeps && R(v, s).desired == R(w, s).desired
    ensures R(v, s).flags == R(w, s).flags && R(v, s).inProp == R(w, s).inProp
    ensures forall t :: t != s ==> R(v, t) == R(w, t)
  {
    var w1 := BeginStart(w, s);
    var w3 := HoldBack(WaitForDeps(w1, Deps(w1, s)), Dpts(w1, s));
    var v := if DepsSettled(w1, Deps(w1, s)) then AddTransition(w3, s) else w3;
    InitiateKeeps(w, s, v);
    InitiateAwaits(w, s, v);
    hide KeptBut, Kept, NotRushed, AwaitsAll;
    v
  }

  /** Every dependency that is not up is waited for, an ordering one if it is on its way; and every
      dependent that is starting and wants to come after the service waits for it. */
  ghost predicate AwaitsAll(w: World, v: World, s: Id) {
    && v.waiting >= w.waiting
    && (forall l :: l in Deps(w, s) && (L(w, l).to == s || R(w, L(w, l).to).state != Started) && !IsOrdering(w, l) ==> l in v.waiting)
    && (forall l :: l in Deps(w, s) && (L(w, l).to == s || R(w, L(w, l).to).state == Starting) ==> l in v.waiting)
    && (forall l :: l in Dpts(w, s) && IsOrdering(w, l) && (L(w, l).from == s || R(w, L(w, l).from).state == Starting) ==> l in v.waiting)
  }

  lemma InitiateAwaits(w: World, s: Id, v: World)
    requires
      var w1 := BeginStart(w, s);
      var w3 := HoldBack(WaitForDeps(w1, Deps(w1, s)), Dpts(w1, s));
      v == if DepsSettled(w1, Deps(w1, s)) then AddTransition(w3, s) else w3
    ensures AwaitsAll(w, v, s) && (TopoOk(w.topo) ==> NotRushed(v, s))
  {
    hide DepsSettled, Kept, KeptBut, Calm, PinsKept, Stuck, BegunPast, TopoOk, NotRushed, BeginStart, AwaitsAll;
    var w1 := BeginStart(w, s);
    BeginStates(w, w1, s);
    var w2 := WaitForDeps(w1, Deps(w1, s));
    var w3 := HoldBack(w2, Dpts(w1, s));
    hide WaitForDeps, HoldBack;
    AwaitsBoth(w, w1, w2, v, s);
    AwaitedNotRushed(w, v, s);
  }

  lemma AwaitsBoth(w: World, w1: World, w2: World, v: World, s: Id)
    requires w1.topo == w.topo && w1.waiting == w.waiting && (forall t :: R(w1, t).state == if t == s then Starting else R(w, t).state)
    requires w2 == w1.(waiting := w2.waiting) && w1.waiting <= w2.waiting <= v.waiting
    requires forall l :: l in Deps(w, s) && !NoWait(w1, l) ==> l in w2.waiting
    requires forall l :: l in Dpts(w, s) && IsOrdering(w2, l) && R(w2, L(w2, l).from).state == Starting ==> l in v.waiting
    ensures AwaitsAll(w, v, s)
  {
    forall l ensures L(w1, l) == L(w, l) && L(w2, l) == L(w, l) && R(w2, L(w, l).from) == R(w1, L(w, l).from) {}
  }

  lemma BeginStates(w: World, v: World, s: Id)
    requires v == BeginStart(w, s)
    ensures forall t :: R(v, t).state == if t == s then Starting else R(w, t).state
    ensures v.topo == w.topo && Deps(v, s) == Deps(w, s) && Dpts(v, s) == Dpts(w, s) && forall l :: L(v, l) == L(w, l)
    ensures forall l :: IsOrdering(v, l) == IsOrdering(w, l)
    ensures v.waiting == w.waiting && v.past == BegunPast(w, s) && R(v, s).waitingForDeps
  {
    hide BegunPast;
  }

  /** Whatever the service lacks it waits for. */
  lemma AwaitedNotRushed(w: World, v: World, s: Id)
    requires AwaitsAll(w, v, s) && v.topo == w.topo && v.past == BegunPast(w, s) && R(v, s).state == Starting && R(v, s).waitingForDeps
    ensures TopoOk(w.topo) ==> NotRushed(v, s)
  {
    if TopoOk(w.topo) {
      forall l | l in v.topo.links && v.topo.links[l].from == s ensures !Rushed(v, l) { assert ListedTwice(w.topo, l); }
    }
  }

  lemma InitiateKeeps(w: World, s: Id, v: World)
    requires
      var w1 := BeginStart(w, s);
      var w3 := HoldBack(WaitForDeps(w1, Deps(w1, s)), Dpts(w1, s));
      v == if DepsSettled(w1, Deps(w1, s)) then AddTransition(w3, s) else w3
    ensures KeptBut(w, v, s)
  {
    hide Flows, WaitForDeps, HoldBack, DepsSettled, Kept, KeptBut, Even, OrderlyBut, PinsKept, Calm;
    InitiateFlows(w, s, v);
    InitiateOrderly(w, s, v);
    OnlyRec(w, s, v);
    InitiateBut(w, s, v);
  }

  lemma InitiateBut(w: World, s: Id, v: World)
    requires Even(w, v) && Flows(w, v) && OrderlyBut(w, v, s) && forall t :: t != s ==> Holds(R(w, t), R(v, t))
    ensures KeptBut(w, v, s)
  {
    hide Even, Flows, OrderlyBut, Holds;
  }

  /** Only its own dependencies, and those that an ordering link holds back, are waited for. */
  lemma InitiateOrderly(w: World, s: Id, v: World)
    requires
      var w1 := BeginStart(w, s);
      var w3 := HoldBack(WaitForDeps(w1, Deps(w1, s)), Dpts(w1, s));
      v == if DepsSettled(w1, Deps(w1, s)) then AddTransition(w3, s) else w3
    ensures OrderlyBut(w, v, s)
  {
    hide WaitForDeps, HoldBack, DepsSettled, Kept, KeptBut, Calm, PinsKept, Stuck, OrderlyBut;
    InitiateWaits(w, s, v);
    InitiateSame(w, s, v);
    BegunOrderly(w, s, v);
  }

  /** All else is as it was. */
  lemma InitiateSame(w: World, s: Id, v: World)
    requires
      var w1 := BeginStart(w, s);
      var w3 := HoldBack(WaitForDeps(w1, Deps(w1, s)), Dpts(w1, s));
      v == if DepsSettled(w1, Deps(w1, s)) then AddTransition(w3, s) else w3
    ensures (forall t :: t != s ==> R(v, t) == R(w, t)) && v.topo == w.topo && v.books == w.books && v.past == BegunPast(w, s)
    ensures forall t :: t != s && t in v.transitions ==> t in w.transitions
  {
    hide WaitForDeps, HoldBack, DepsSettled, Kept, KeptBut, Calm, PinsKept, Stuck;
  }

  lemma BegunOrderly(w: World, s: Id, v: World)
    requires (forall t :: t != s ==> R(v, t) == R(w, t)) && v.topo == w.topo && v.books == w.books && v.past == BegunPast(w, s)
    requires w.waiting <= v.waiting && forall t :: t != s && t in v.transitions ==> t in w.transitions
    requires forall l :: l in v.waiting && l !in w.waiting ==>
      (l in Deps(w, s) && WorthWaiting(w, v, l)) || (l in Dpts(w, s) && IsOrdering(w, l))
    ensures OrderlyBut(w, v, s)
  {
    assert Begun(w, v, s) && Chronicled(w, v);
    if TopoOk(w.topo) {
      BegunWaits(w, s, v);
      BegunRushes(w, s, v);
      forall t | t != s ensures StaysStuck(w, v, t) {
        if Stuck(w, t) && !Ordered(w, v, t) { NotHeldBack(w, s, v, t); }
      }
      hide TopoOk, StaysStuck, Untold, Overtaken, Rushed, WorthWaiting, Begun, IsOrdering, Chronicled;
      forall t | t != s && Asleep(v, t) ensures Asleep(w, t) {}
    }
  }

  lemma BegunWaits(w: World, s: Id, v: World)
    requires TopoOk(w.topo) && (forall t :: t != s ==> R(v, t) == R(w, t)) && v.topo == w.topo && v.past == BegunPast(w, s)
    requires forall l :: l in v.waiting && l !in w.waiting ==>
      (l in Deps(w, s) && WorthWaiting(w, v, l)) || (l in Dpts(w, s) && IsOrdering(w, l))
    ensures forall l :: l in w.topo.links && w.topo.links[l].to != s && Untold(v, l) ==> Untold(w, l)
    ensures forall l :: l in w.topo.links && w.topo.links[l].to != s && Overtaken(v, l) ==> Overtaken(w, l)
  {
    forall l | l in w.topo.links && w.topo.links[l].to != s && (Untold(v, l) || Overtaken(v, l)) ensures l in w.waiting {
      assert l !in Dpts(w, s);
    }
    hide TopoOk, WorthWaiting;
  }

  /** What others lack has not changed, nor do they wait for less. */
  lemma BegunRushes(w: World, s: Id, v: World)
    requires TopoOk(w.topo) && (forall t :: t != s ==> R(v, t) == R(w, t)) && v.topo == w.topo && v.past == BegunPast(w, s) && w.waiting <= v.waiting
    ensures forall l :: l in w.topo.links && w.topo.links[l].from != s && Rushed(v, l) ==> Rushed(w, l)
  {
    forall l | l in w.topo.links && w.topo.links[l].from != s && Rushed(v, l) ensures Rushed(w, l) {
      assert l !in Deps(w, s);
      hide TopoOk;
      assert l in w.past.lacking;
    }
  }

  /** The target is not up; that of an ordering link is on its way. */
  ghost predicate WorthWaiting(w: World, v: World, l: LinkId) {
    R(v, L(w, l).to).state != Started && (IsOrdering(w, l) ==> R(v, L(w, l).to).state == Starting)
  }

  /** What has come to be waited for. */
  lemma InitiateWaits(w: World, s: Id, v: World)
    requires
      var w1 := BeginStart(w, s);
      var w3 := HoldBack(WaitForDeps(w1, Deps(w1, s)), Dpts(w1, s));
      v == if DepsSettled(w1, Deps(w1, s)) then AddTransition(w3, s) else w3
    ensures w.waiting <= v.waiting && Deps(v, s) == Deps(w, s)
    ensures forall l :: l in v.waiting && l !in w.waiting ==>
      (l in Deps(w, s) && WorthWaiting(w, v, l)) || (l in Dpts(w, s) && IsOrdering(w, l))
  {
    hide DepsSettled, Kept, KeptBut, Calm, PinsKept, Stuck, BegunPast, BeginStart, WorthWaiting;
    var w1 := BeginStart(w, s);
    BeginStates(w, w1, s);
    var w2 := WaitForDeps(w1, Deps(w1, s));
    var w3 := HoldBack(w2, Dpts(w1, s));
    hide WaitForDeps, HoldBack;
    forall t ensures R(v, t).state == R(w1, t).state {}
    WaitedFor(w, w1, w2, v, s);
  }

  lemma WaitedFor(w: World, w1: World, w2: World, v: World, s: Id)
    requires w1.topo == w.topo && w2.topo == w.topo && w1.waiting == w.waiting && forall t :: R(v, t).state == R(w1, t).state
    requires forall l :: l in w2.waiting && l !in w1.waiting ==> l in Deps(w, s) && !NoWait(w1, l)
    requires forall l :: l in v.waiting && l !in w2.waiting ==> l in Dpts(w, s) && IsOrdering(w2, l)
    ensures forall l :: l in v.waiting && l !in w.waiting ==>
      (l in Deps(w, s) && WorthWaiting(w, v, l)) || (l in Dpts(w, s) && IsOrdering(w, l))
  {
    forall l ensures L(w1, l) == L(w, l) && L(w2, l) == L(w, l) {}
  }

  lemma NotHeldBack(w: World, s: Id, v: World, t: Id)
    requires TopoOk(w.topo) && v.topo == w.topo && t != s && Begun(w, v, s) && Stuck(w, t) && !Ordered(w, v, t) && R(v, t) == R(w, t)
    requires forall l :: l in v.waiting && l !in w.waiting ==> l in Deps(w, s) || (l in Dpts(w, s) && IsOrdering(w, l))
    ensures Stuck(v, t)
  {
    forall m | m in Deps(v, t) ensures m !in v.waiting {
      assert m in Deps(w, t) && m !in w.waiting && m in w.topo.links && w.topo.links[m].from == t;
      assert OrderingLink(w.topo, m) ==> !Begun(w, v, w.topo.links[m].to);
    }
  }

  /** One record has changed, and neither its flags nor the propagation queue. */
  lemma OnlyRec(w: World, s: Id, v: World)
    requires v.topo == w.topo && v.books == w.books && v.props == w.props && v.past.asked == w.past.asked && v.past.told <= w.past.told
    requires Heeds(v.past, s, R(w, s), R(v, s))
    requires R(v, s).flags == R(w, s).flags && R(v, s).inProp == R(w, s).inProp
    requires forall t :: t != s ==> R(v, t) == R(w, t)
    ensures Even(w, v) && forall t :: t != s ==> Holds(R(w, t), R(v, t))
  {
    SameBooks(w, v);
    OneDutiful(w, v, s);
    hide Balanced, Dutiful;
  }

  /** The service is taken on at once, or has a dependency to wait for. */
  lemma InitiateFlows(w: World, s: Id, v: World)
    requires
      var w1 := BeginStart(w, s);
      var w3 := HoldBack(WaitForDeps(w1, Deps(w1, s)), Dpts(w1, s));
      v == if DepsSettled(w1, Deps(w1, s)) then AddTransition(w3, s) else w3
    ensures Flows(w, v)
  {
    hide WaitForDeps, HoldBack, Kept, KeptBut, Calm, PinsKept;
    var w1 := BeginStart(w, s);
    assert forall t :: Deps(v, t) == Deps(w, t);
    assert w.waiting <= v.waiting;
    assert !Stuck(v, s) by {
      if !DepsSettled(w1, Deps(w1, s)) {
        var l :| l in Deps(w1, s) && !NoWait(w1, l);
        assert l in v.waiting && l in Deps(v, s);
      }
    }
    forall t | Stuck(v, t) ensures Stuck(w, t) {
      forall m | m in Deps(w, t) ensures m !in w.waiting { assert m in Deps(v, t); }
    }
  }

  /** The start of a service that is not active: its dependents take hold of it, and its own
      acquisitions are to be made, unless a release of them was still to come. */
  function Activate(w: World, s: Id): (v: World)
    ensures KeptBut(w, v, s) && PinsKept(w, v) && v.past.begun == w.past.begun && v.past.starts == w.past.starts + [s]
    ensures R(v, s).state == R(w, s).state && R(v, s).desired == R(w, s).desired && R(v, s).pinnedStopped == R(w, s).pinnedStopped
    ensures Engages(R(w, s), R(v, s)) && v.books.explicit == w.books.explicit && w.books.holding <= v.books.holding
    ensures forall t :: t != s ==> R(v, t) == R(w, t)
  {
    hide Kept, KeptBut, Attached, AttachSoft, PinsKept;
    var w0 := w.(past := w.past.(starts := w.past.starts + [s]));
    var w1 := AttachSoft(w0, Dpts(w0, s));
    ActivateKeeps(w, s, w0, w1);
    AttachedRecs(w0, w1, Dpts(w0, s));
    var v := if FRelease in R(w1, s).flags then LowerBoth(w1, s) else Raise(w1, s, FRequire);
    KeptIsBut(w1, v, s);
    ButTrans(w, w1, v, s);
    KeptPins(w1, v);
    PinsTrans(w, w1, v);
    v
  }

  /** The service is queued to acquire its dependencies, unless it had still to release them, and then
      it keeps them. */
  ghost predicate Engages(a: Rec, b: Rec) {
    && FRelease !in b.flags && (FRequire in b.flags <==> FRelease !in a.flags) && (FRequire in b.flags ==> b.inProp)
  }

  lemma PinsTrans(u: World, v: World, w: World)
    requires PinsKept(u, v) && PinsKept(v, w)
    ensures PinsKept(u, w)
  {
  }

  lemma AttachedRecs(w: World, v: World, ls: seq<LinkId>)
    requires Attached(w, v, ls)
    ensures v == w.(books := v.books, past := w.past.(asked := v.past.asked)) && v.books.explicit == w.books.explicit
    ensures w.books.holding <= v.books.holding
  {
  }

  /** Whatever came to hold the service did so because it starts. */
  lemma ActivateKeeps(w: World, s: Id, w0: World, w1: World)
    requires w0 == w.(past := w.past.(starts := w.past.starts + [s])) && Attached(w0, w1, Dpts(w0, s))
    ensures KeptBut(w, w1, s) && PinsKept(w, w1)
  {
    ActivateFlows(w, s, w0, w1);
    AttachedOrderly(w, w1, s);
    StillDutiful(w, w0);
    DutifulTrans(w, w0, w1);
    hide Flows, OrderlyBut, Lost, InStep, Held, Dutiful;
    forall t ensures Excess(w0.topo, w0.books, t) == Excess(w.topo, w.books, t) {}
  }

  /** Only the count of the service itself has grown. */
  lemma AttachedOrderly(w: World, v: World, s: Id)
    requires v == w.(books := v.books, past := v.past) && v.past == w.past.(starts := v.past.starts, asked := v.past.asked)
    requires forall t :: LedTo(w.topo, Dpts(w, s), t) || Required(v.books, t) == Required(w.books, t)
    ensures OrderlyBut(w, v, s)
  {
    if TopoOk(w.topo) {
      assert forall t :: t != s ==> Required(v.books, t) == Required(w.books, t);
      hide TopoOk, LedTo, OrderlyBut;
      StillOrderlyBut(w, v, s);
    } else {
      hide TopoOk, LedTo;
    }
  }

  lemma ActivateFlows(w: World, s: Id, w0: World, w1: World)
    requires w0 == w.(past := w.past.(starts := w.past.starts + [s])) && Attached(w0, w1, Dpts(w0, s))
    ensures Flows(w, w1)
  {
    hide Even, LedTo;
    assert w1.past.starts[|w.past.starts|..] == [s];
    assert forall t :: Deps(w1, t) == Deps(w, t);
    forall t | Stuck(w1, t) ensures Stuck(w, t) {
      forall m | m in Deps(w, t) ensures m !in w.waiting { assert m in Deps(w1, t); }
    }
    if TopoOk(w.topo) {
      forall l | l in w1.books.holding && l !in w.books.holding && OrderingLink(w.topo, l)
        ensures w.topo.links[l].to in w1.past.starts[|w.past.starts|..]
      {
        assert l in Dpts(w, s);
      }
    }
  }

  /** Nothing keeps the service from starting: it is stopped, or can still go back from stopping. */
  predicate Startable(r: Rec) {
    !r.pinnedStopped && !r.markedDown && (r.state == Stopped || (r.state == Stopping && r.waitingForDeps && !r.forceStop))
  }

  /** Gets a service going that is stopped, or that can still go back from stopping. */
  function Launch(w: World, s: Id): (v: World)
    requires Startable(R(w, s))
    ensures KeptBut(w, v, s) && R(v, s).state == Starting && Begun(w, v, s) && (TopoOk(w.topo) ==> NotRushed(v, s))
    ensures R(v, s).desired == R(w, s).desired && (R(w, s).state == Stopped ==> Engages(R(w, s), R(v, s)))
    ensures v.books.explicit == w.books.explicit && w.books.holding <= v.books.holding && forall t :: t != s ==> R(v, t) == R(w, t)
  {
    hide Kept, KeptBut, Activate, InitiateStart, TopoOk, NotRushed, AwaitsAll;
    if R(w, s).state == Stopped then
      var w1 := Activate(w, s);
      var v := InitiateStart(w1, s);
      ButTrans(w, w1, v, s);
      ButTopo(w, w1, s);
      v
    else InitiateStart(w, s)
  }

  /** Starts a service that can be started; no other state changes. */
  function DoStart(w: World, s: Id): (v: World)
    ensures Kept(w, v) && !Asleep(v, s)
    ensures R(v, s).state == if Startable(R(w, s)) then Starting else R(w, s).state
    ensures R(w, s).pinnedStopped || R(w, s).markedDown || Up(R(w, s)) ==> R(v, s).state == R(w, s).state
    ensures R(w, s).state == Stopping && (R(w, s).forceStop || !R(w, s).waitingForDeps) ==> R(v, s).state == Stopping
    ensures R(v, s).desired == if (if R(w, s).pinnedStopped then R(w, s).state == Stopped else R(w, s).markedDown) then Stopped else Started
    ensures Startable(R(w, s)) && R(w, s).state == Stopped ==> Engages(R(w, s), R(v, s))
    ensures !R(w, s).pinnedStopped ==> v.books.explicit == w.books.explicit && w.books.holding <= v.books.holding
    ensures forall t :: t != s ==> R(v, t).state == R(w, t).state
  {
    hide *;
    var w1 := SetDesired(w, s, Started);
    var r := R(w1, s);
    StartCases(R(w, s), r, R(SetDesired(w, s, Stopped), s));
    StartCannot(R(w, s));
    if r.pinnedStopped then
      if r.state == Stopped then
        var v := Fail(w1, s);
        KeptTrans(w, w1, v);
        StatesAre(w1, v);
        v
      else
        AwakeIf(w1, s);
        w1
    else if r.markedDown then
      AwakeIf(SetDesired(w, s, Stopped), s);
      SetDesired(w, s, Stopped)
    else if Startable(r) then
      var v := Launch(w1, s);
      KeptTopo(w, w1);
      EngagesSame(R(w, s), r, R(v, s));
      BegunIsOrderly(w, w1, v, s);
      StartsFree(w, w1, v, s);
      AwakeIf(v, s);
      v
    else
      AwakeIf(w1, s);
      w1
  }

  /** What keeps a service from being started. */
  lemma StartCannot(r: Rec)
    ensures r.pinnedStopped || r.markedDown || Up(r) ==> !Startable(r)
    ensures r.state == Stopping && (r.forceStop || !r.waitingForDeps) ==> !Startable(r)
  {
  }

  lemma EngagesSame(r0: Rec, r: Rec, r1: Rec)
    requires r.flags == r0.flags
    ensures Engages(r, r1) ==> Engages(r0, r1)
  {
  }

  /** A service that is not stopped is not asleep, nor is one that a marker keeps down. */
  lemma AwakeIf(w: World, s: Id)
    ensures R(w, s).state != Stopped || R(w, s).markedDown ==> !Asleep(w, s)
  {
  }

  lemma BegunIsOrderly(w: World, w1: World, v: World, s: Id)
    requires Kept(w, w1) && KeptBut(w1, v, s) && R(v, s).state == Starting && Begun(w1, v, s) && (TopoOk(w1.topo) ==> NotRushed(v, s))
    ensures OrderlyAt(w, v, s)
  {
    hide Flows, Even, PinsKept, TopoOk, Asleep, Untold, StaysStuck, NotRushed;
    MovingIsOrderly(w, v, s);
  }

  /** What is wanted of a service does not decide whether it can be started. */
  lemma StartCases(r0: Rec, r: Rec, r1: Rec)
    requires r == r0.(desired := Started) && r1 == r0.(desired := Stopped)
    ensures r.state == r0.state && r1.state == r0.state && (Startable(r) <==> Startable(r0))
    ensures r.pinnedStopped || r.markedDown ==> !Startable(r)
    ensures !r.pinnedStopped && !r.markedDown && r.state == Stopped ==> Startable(r)
    ensures r1.markedDown == r.markedDown && r.markedDown == r0.markedDown && r.pinnedStopped == r0.pinnedStopped && r.flags == r0.flags
    ensures Startable(r) ==> !Held(r0)
  {
  }

  lemma StatesAre(w: World, v: World)
    requires SameStates(w, v)
    ensures forall t :: R(v, t).state == R(w, t).state
  {
  }

  /** The dependents that are up and not hard, and only they, take hold. */
  lemma {:induction false} AttachSoftHolds(w: World, ls: seq<LinkId>, l: LinkId)
    requires l !in w.books.holding
    ensures l in AttachSoft(w, ls).books.holding <==> l in ls && l in w.topo.links && !IsHard(w, l) && Up(R(w, L(w, l).from))
    decreases |ls|
  {
    hide Kept, Up;
    if ls != [] {
      var w1 := if !IsHard(w, ls[0]) && ls[0] !in w.books.holding && Up(R(w, L(w, ls[0]).from)) then Attach(w, ls[0]) else w;
      assert R(w1, L(w1, l).from) == R(w, L(w, l).from);
      if l !in w1.books.holding {
        AttachSoftHolds(w1, ls[1..], l);
      } else {
        assert Attached(w1, AttachSoft(w1, ls[1..]), ls[1..]);
      }
    }
  }

  /** Starting a stopped service makes exactly those ordering-only links hold it that come from a
      service that is up: it then counts as required by a service that merely wants to be started
      before or after it.  Starting anything else makes none hold. */
  lemma OrderingLinkIsHeld(w: World, s: Id, l: LinkId)
    requires IsOrdering(w, l) && l in w.topo.links && l !in w.books.holding
    ensures l in DoStart(w, s).books.holding <==>
      && R(w, s).state == Stopped && !R(w, s).pinnedStopped && !R(w, s).markedDown
      && l in Dpts(w, s) && Up(R(w, L(w, l).from))
  {
    hide Kept, KeptBut, InitiateStart, FailDependents, Entries, ClearExplicit, Activate, SameStates, Calm;
    var w1 := SetDesired(w, s, Started);
    var r := R(w1, s);
    assert Up(R(w1, L(w1, l).from)) <==> Up(R(w, L(w, l).from));
    if r.pinnedStopped {
      FailHolds(w1, s);
    } else if !r.markedDown && r.state == Stopped {
      ActivateHolds(w1, s, l);
    }
  }

  lemma FailHolds(w: World, s: Id)
    ensures Fail(w, s).books.holding <= w.books.holding
  {
    hide Kept, KeptBut, FailDependents, Entries, ClearExplicit, PinsKept, Holds;
    var w1 := Set(w, s, R(w, s).(waitingForSlot := false, desired := Stopped));
    var w2 := ClearExplicit(w1, s);
    CalmIsStill(w2, FailDependents(w2, Dpts(w2, s)));
  }

  lemma ActivateHolds(w: World, s: Id, l: LinkId)
    requires l !in w.books.holding && l in w.topo.links && IsOrdering(w, l)
    ensures l in Activate(w, s).books.holding <==> l in Dpts(w, s) && Up(R(w, L(w, l).from))
  {
    hide Kept, Attached, AttachSoft, Up;
    var w0 := w.(past := w.past.(starts := w.past.starts + [s]));
    assert R(w0, L(w0, l).from) == R(w, L(w, l).from);
    AttachSoftHolds(w0, Dpts(w0, s), l);
  }

  lemma StartsFree(w: World, w1: World, v: World, s: Id)
    requires Kept(w, w1) && KeptBut(w1, v, s) && !Held(R(w, s)) && OrderlyAt(w, v, s)
    ensures Kept(w, v)
  {
    hide Kept, KeptBut;
    KeptIsBut(w, w1, s);
    ButTrans(w, w1, v, s);
    ButFree(w, v, s);
  }

  // ----- failing -----

  /** A dependency failed to start: what waits hard for it fails too, everything else goes on,
      and every link lets go. */
  function FailDependents(w: World, ls: seq<LinkId>): (v: World)
    ensures Kept(w, v) && Entries(v.books) <= Entries(w.books) && Calm(w, v)
    ensures forall l :: l in ls && l in w.topo.links ==> FailTold(w, v, l)
    decreases |ls|
  {
    hide *;
    KeptRefl(w);
    CalmRefl(w);
    if ls == [] then w
    else
      var w1 := FailDependent(w, ls[0]);
      var w2 := LetGo(w1, ls[0]);
      KeptTopo(w, w1);
      var v := FailDependents(w2, ls[1..]);
      CalmTrans(w, w1, w2);
      CalmTrans(w, w2, v);
      KeptTrans(w, w1, w2);
      KeptTrans(w, w2, v);
      FailToldAll(w, w1, w2, v, ls);
      v
  }

  predicate FailsWith(w: World, l: LinkId) {
    var k := L(w, l).kind;
    k == Regular || k == PreparedBy || k == Milestone
  }

  /** The dependent fails too if it is starting; one that does not depend hard goes on. */
  function FailDependent(w: World, l: LinkId): (v: World)
    ensures Kept(w, v) && v.books == w.books && Calm(w, v)
    ensures MustWait(w.topo, l) && R(w, L(w, l).from).state == Starting ==> FFailure in R(v, L(w, l).from).flags
    ensures NeverHard(w, l) ==> l !in v.waiting
  {
    hide Kept, Calm;
    KeptRefl(w);
    CalmRefl(w);
    var f := L(w, l).from;
    if FailsWith(w, l) then (if R(w, f).state == Starting then Raise(w, f, FFailure) else w) else StopWaiting(w, l)
  }

  /** What comes to the service at the near end of `l`: it fails too if it depends hard and is starting,
      or else no longer waits; and the link lets go. */
  ghost predicate FailTold(w: World, v: World, l: LinkId) {
    && l !in v.books.holding
    && (MustWait(w.topo, l) && R(w, L(w, l).from).state == Starting ==> FFailure in R(v, L(w, l).from).flags)
    && (NeverHard(w, l) ==> l !in v.waiting)
  }

  lemma FailToldAll(w: World, w1: World, w2: World, v: World, ls: seq<LinkId>)
    requires ls != [] && Kept(w, w1) && Kept(w1, w2) && Calm(w, w1) && Calm(w1, w2) && Calm(w2, v)
    requires ls[0] in w.topo.links ==> ls[0] !in w2.books.holding
    requires MustWait(w.topo, ls[0]) && R(w, L(w, ls[0]).from).state == Starting ==> FFailure in R(w1, L(w, ls[0]).from).flags
    requires NeverHard(w, ls[0]) ==> ls[0] !in w1.waiting
    requires forall l :: l in ls[1..] && l in w2.topo.links ==> FailTold(w2, v, l)
    ensures forall l :: l in ls && l in w.topo.links ==> FailTold(w, v, l)
  {
    hide Kept, Calm;
    KeptTopo(w, w1);
    KeptTopo(w1, w2);
    CalmTrans(w1, w2, v);
    CalmTrans(w, w1, w2);
    CalmIsStill(w1, v);
    CalmIsStill(w2, v);
    forall l | l in ls && l in w.topo.links ensures FailTold(w, v, l) {
      var f := L(w, l).from;
      CalmAt(w, w2, f);
      if l == ls[0] { CalmAt(w1, v, f); } else { assert l in ls[1..] && FailTold(w2, v, l); }
    }
  }

  function Fail(w: World, s: Id): (v: World)
    ensures KeptBut(w, v, s) && Entries(v.books) <= Entries(w.books) && SameStates(w, v) && Orderly(w, v)
    ensures R(v, s).desired == Stopped && !R(v, s).pinnedStarted && !Asleep(v, s) && R(v, s).startFailed && s !in v.books.explicit
    ensures forall l :: l in Dpts(w, s) && l in w.topo.links ==> FailTold(w, v, l)
    ensures R(w, s).state == Stopped ==> Kept(w, v)
  {
    hide *;
    var w1 := CallOff(w, s);
    var w2 := ClearExplicit(w1, s);
    var w3 := FailDependents(w2, Dpts(w2, s));
    var v := MarkFailed(w3, s);
    KeptTrans(w, w1, w2);
    KeptTrans(w, w2, w3);
    KeptIsBut(w, w3, s);
    ButTrans(w, w3, v, s);
    CalmTrans(w1, w2, w3);
    CalmIsSame(w1, w3);
    CalmAt(w1, w3, s);
    CalmRecIs(R(w1, s), R(w3, s));
    FailStates(w, w1, w3, v, s);
    FailDealt(w, w1, w2, w3, v, s);
    KeptOrderly(w, w3);
    OrderlyTrans(w, w3, v);
    if R(w, s).state == Stopped then KeptTrans(w, w3, v); v else v
  }

  lemma CalmRecIs(a: Rec, b: Rec)
    requires CalmRec(a, b)
    ensures b.state == a.state && (a.desired == Stopped ==> b.desired == Stopped)
  {
  }

  /** The start is no longer wanted. */
  function CallOff(w: World, s: Id): (v: World)
    ensures Kept(w, v) && v.books == w.books && R(v, s).desired == Stopped && R(v, s).state == R(w, s).state
    ensures forall t :: t != s ==> R(v, t) == R(w, t)
  {
    hide Kept, KeptBut, Orderly;
    Set(w, s, R(w, s).(waitingForSlot := false, desired := Stopped))
  }

  /** The start has failed, and with it goes the pin. */
  function MarkFailed(w: World, s: Id): (v: World)
    ensures KeptBut(w, v, s) && Orderly(w, v) && !Asleep(v, s) && (R(w, s).state == Stopped ==> Kept(w, v))
    ensures v.books == w.books && v.waiting == w.waiting && forall t :: t != s ==> R(v, t) == R(w, t)
    ensures R(v, s).state == R(w, s).state && R(v, s).desired == R(w, s).desired && R(v, s).flags == R(w, s).flags
    ensures R(v, s).startFailed && !R(v, s).pinnedStarted
  {
    hide Kept, KeptBut, PinsKept, Asleep, Orderly;
    var w1 := Forgive(w, s);
    var w2 := Set(w1, s, R(w1, s).(startFailed := true, pinnedStarted := false));
    var v := Strand(w2, s);
    KeptIsBut(w, w1, s);
    ButTrans(w, w1, w2, s);
    KeptIsBut(w2, v, s);
    ButTrans(w, w2, v, s);
    KeptOrderly(w, w1);
    OrderlyTrans(w, w1, w2);
    KeptOrderly(w2, v);
    OrderlyTrans(w, w2, v);
    if R(w, s).state == Stopped then
      UnpinKeeps(w1, w2, s);
      KeptTrans(w, w1, w2);
      KeptTrans(w, w2, v);
      v
    else v
  }

  /** A stopped service loses nothing with its start pin. */
  lemma UnpinKeeps(w: World, v: World, s: Id)
    requires R(w, s).state == Stopped && s !in w.past.told
    requires v == w.(recs := w.recs[s := R(w, s).(startFailed := true, pinnedStarted := false)])
    ensures Kept(w, v)
  {
    SetKeeps(w, s, R(w, s).(startFailed := true, pinnedStarted := false), v);
    hide Kept, KeptBut;
  }

  /** What the service was told no longer counts. */
  function Forgive(w: World, s: Id): (v: World)
    ensures Kept(w, v) && v == w.(past := w.past.(told := w.past.told - {s})) && Still(w, v)
  {
    var v := w.(past := w.past.(told := w.past.told - {s}));
    ForgiveKeeps(w, v);
    hide Kept;
    v
  }

  lemma ForgiveKeeps(w: World, v: World)
    requires v == w.(past := w.past.(told := v.past.told)) && v.past.told <= w.past.told
    ensures Kept(w, v)
  {
    SameBooks(w, v);
    FlowsStill(w, v);
    StillOrderly(w, v);
    StillDutiful(w, v);
    hide Flows, Balanced, Orderly, Dutiful;
  }

  /** Takes down that the service is not coming up although it counts as required. */
  function Strand(w: World, s: Id): (v: World)
    ensures Kept(w, v) && v == w.(past := v.past) && Still(w, v) && !Asleep(v, s)
  {
    var v := if Required(w.books, s) > 0 then w.(past := w.past.(spent := w.past.spent + {s})) else w;
    StrandKeeps(w, s, v);
    hide Kept;
    v
  }

  lemma StrandKeeps(w: World, s: Id, v: World)
    requires v == w || v == w.(past := w.past.(spent := w.past.spent + {s}))
    ensures Kept(w, v)
  {
    SameBooks(w, v);
    FlowsStill(w, v);
    StrandOrderly(w, s, v);
    StillDutiful(w, v);
    hide Flows, Balanced, Orderly, Dutiful;
  }

  lemma StrandOrderly(w: World, s: Id, v: World)
    requires v == w || v == w.(past := w.past.(spent := w.past.spent + {s}))
    ensures Orderly(w, v)
  {
    hide TopoOk;
    forall t ensures StaysStuck(w, v, t) { assert Deps(v, t) == Deps(w, t); }
  }

  lemma FailDealt(w: World, w1: World, w2: World, w3: World, v: World, s: Id)
    requires Kept(w, w2) && (forall t :: t != s ==> R(w1, t) == R(w, t)) && R(w1, s).state == R(w, s).state && Calm(w1, w2) && Calm(w2, w3)
    requires forall l :: l in Dpts(w2, s) && l in w2.topo.links ==> FailTold(w2, w3, l)
    requires v.books == w3.books && v.waiting == w3.waiting && R(v, s).flags == R(w3, s).flags && forall t :: t != s ==> R(v, t) == R(w3, t)
    requires s !in w2.books.explicit
    ensures s !in v.books.explicit && forall l :: l in Dpts(w, s) && l in w.topo.links ==> FailTold(w, v, l)
  {
    hide Kept, Calm;
    KeptTopo(w, w2);
    CalmIsStill(w2, w3);
    forall l | l in Dpts(w, s) && l in w.topo.links ensures FailTold(w, v, l) {
      assert FailTold(w2, w3, l);
      CalmAt(w1, w2, L(w, l).from);
    }
  }

  lemma FailStates(w: World, w1: World, w3: World, v: World, s: Id)
    requires R(w1, s).state == R(w, s).state && (forall t :: t != s ==> R(w1, t) == R(w, t)) && SameStates(w1, w3)
    requires R(v, s).state == R(w3, s).state && (forall t :: t != s ==> R(v, t) == R(w3, t))
    ensures SameStates(w, v)
  {
    forall t ensures R(v, t).state == R(w, t).state { if t != s { assert R(v, t) == R(w3, t); } }
  }

  lemma KeptHolds(w: World, v: World, t: Id)
    requires Kept(w, v)
    ensures Holds(R(w, t), R(v, t))
  {
  }

  // ----- having stopped -----

  predicate NoLiveDependent(w: World, s: Id) {
    forall l :: l in Dpts(w, s) ==> !(IsHard(w, l) && l in w.books.holding && l !in w.waiting)
  }

  /** The dependent at the near end of the link holds the service and depends hard on it. */
  ghost predicate Blocks(w: World, l: LinkId) {
    AlwaysHard(w, l) && l in w.books.holding && l !in w.waiting
  }

  /** A dependent of `s` has stopped: `s` may go on stopping, or may no longer be needed. */
  function DependentStopped(w: World, s: Id): (v: World)
    ensures Kept(w, v) && v.books == w.books && Calm(w, v) && Resumes(w, v, s)
    ensures R(w, s).stopWhenUnneeded && R(w, s).state == Started && s !in w.books.explicit && !R(w, s).pinnedStarted && NoLiveDependent(w, s) ==>
      R(v, s).desired == Stopped && FStop in R(v, s).flags
  {
    hide Kept, KeptBut, PinsKept, Calm, NoLiveDependent, Excused, R, Dpts;
    KeptRefl(w);
    CalmRefl(w);
    NotStarting(w, s);
    hide Stuck;
    var w1 := if R(w, s).state == Stopping && R(w, s).waitingForDeps then AddTransition(w, s) else w;
    var r := R(w1, s);
    if r.stopWhenUnneeded && r.state == Started && s !in w1.books.explicit && !r.pinnedStarted && NoLiveDependent(w1, s) then
      var w2 := SetDesired(w1, s, Stopped);
      var v := Raise(w2, s, FStop);
      KeptTrans(w, w1, w2);
      KeptTrans(w, w2, v);
      FlaggedIsExcused(v, s);
      ForcedCalm(w1, w2, v, s);
      CalmTrans(w, w1, v);
      v
    else w1
  }

  lemma NotStarting(w: World, s: Id)
    ensures R(w, s).state != Starting ==> !Stuck(w, s)
  {
  }

  /** A service that waits for its dependents to stop looks again. */
  ghost predicate Resumes(w: World, v: World, s: Id) {
    R(w, s).state == Stopping && R(w, s).waitingForDeps ==> R(v, s).inTransition
  }

  function TellDeps(w: World, ls: seq<LinkId>): (v: World)
    ensures Kept(w, v) && v.books == w.books && Calm(w, v)
    ensures forall l :: l in ls ==> Resumes(w, v, L(w, l).to)
    decreases |ls|
  {
    hide *;
    KeptRefl(w);
    CalmRefl(w);
    if ls == [] then w
    else
      var w1 := DependentStopped(w, L(w, ls[0]).to);
      var v := TellDeps(w1, ls[1..]);
      KeptTrans(w, w1, v);
      CalmTrans(w, w1, v);
      AllResume(w, w1, v, ls);
      v
  }

  lemma AllResume(w: World, w1: World, v: World, ls: seq<LinkId>)
    requires ls != [] && Calm(w, w1) && Calm(w1, v) && Resumes(w, w1, L(w, ls[0]).to)
    requires forall l :: l in ls[1..] ==> Resumes(w1, v, L(w1, l).to)
    ensures forall l :: l in ls ==> Resumes(w, v, L(w, l).to)
  {
    hide Calm;
    CalmIsStill(w, w1);
    forall l | l in ls ensures Resumes(w, v, L(w, l).to) {
      CalmAt(w, w1, L(w, l).to);
      CalmAt(w1, v, L(w, l).to);
      if l != ls[0] { assert l in ls[1..] && L(w1, l) == L(w, l); }
    }
  }

  function BreakSofts(w: World, ls: seq<LinkId>): (v: World)
    ensures Kept(w, v) && Calm(w, v)
    ensures forall l :: l in ls && NeverHard(w, l) ==> l !in v.waiting && l !in v.books.holding
    decreases |ls|
  {
    hide *;
    KeptRefl(w);
    CalmRefl(w);
    if ls == [] then w
    else
      var w1 := if IsHard(w, ls[0]) then w else BreakSoft(w, ls[0]);
      var v := BreakSofts(w1, ls[1..]);
      KeptTrans(w, w1, v);
      CalmTrans(w, w1, v);
      KeptTopo(w, w1);
      CalmIsStill(w1, v);
      StillIs(w1, v);
      AllBroken(w, w1, v, ls);
      v
  }

  lemma AllBroken(w: World, w1: World, v: World, ls: seq<LinkId>)
    requires ls != [] && w1.topo == w.topo && v.waiting <= w1.waiting && v.books.holding <= w1.books.holding
    requires IsHard(w, ls[0]) || ls[0] !in w.topo.links || (ls[0] !in w1.waiting && ls[0] !in w1.books.holding)
    requires forall l :: l in ls[1..] && NeverHard(w1, l) ==> l !in v.waiting && l !in v.books.holding
    ensures forall l :: l in ls && NeverHard(w, l) ==> l !in v.waiting && l !in v.books.holding
  {
    forall l | l in ls && NeverHard(w, l) ensures l !in v.waiting && l !in v.books.holding {
      if l != ls[0] { assert l in ls[1..] && NeverHard(w1, l); }
    }
  }

  function Restart(w: World, s: Id, o: Answers): (v: World)
    ensures Kept(w, v) && Quiet(w, v)
    ensures R(w, s).state == Started && !StartPinned(R(w, s)) ==> R(v, s).state == Stopping && R(v, s).forceStop
    ensures R(w, s).state != Started ==> v == w
  {
    hide Kept, KeptBut, Calm, Quiet, Dealt, Notified, Exhausts, Underway;
    KeptRefl(w);
    CalmRefl(w);
    if R(w, s).state == Started then
      var w1 := MarkForced(w, s);
      CalmAt(w, w1, s);
      var v := DoStop(w1, s, true, o);
      KeptTrans(w, w1, v);
      CalmIsQuiet(w, w1);
      QuietTrans(w, w1, v);
      QuietAt(w1, v, s);
      v
    else w
  }

  /** Prepared-by dependencies are restarted before the service itself. */
  function RestartPrepared(w: World, ls: seq<LinkId>, o: Answers): (v: World)
    ensures Kept(w, v) && Quiet(w, v)
    ensures forall l :: l in ls && L(w, l).kind == PreparedBy ==> Renewed(w, v, L(w, l).to)
    decreases |ls|
  {
    hide *;
    KeptRefl(w);
    CalmRefl(w);
    if ls == [] then w
    else
      RenewedIs(w, L(w, ls[0]).to, o);
      var w1 := if L(w, ls[0]).kind == PreparedBy then Restart(w, L(w, ls[0]).to, o) else w;
      var v := RestartPrepared(w1, ls[1..], o);
      KeptTrans(w, w1, v);
      QuietTrans(w, w1, v);
      AllRenewed(w, w1, v, ls);
      v
  }

  /** A service that was up, and not pinned there, is on its way down. */
  ghost predicate Renewed(w: World, v: World, s: Id) {
    R(w, s).state == Started && !StartPinned(R(w, s)) ==> R(v, s).state == Stopping
  }

  lemma RenewedIs(w: World, s: Id, o: Answers)
    ensures Renewed(w, Restart(w, s, o), s)
  {
    hide Kept, Quiet, Restart;
  }

  lemma AllRenewed(w: World, w1: World, v: World, ls: seq<LinkId>)
    requires ls != [] && Quiet(w, w1) && Quiet(w1, v) && (L(w, ls[0]).kind == PreparedBy ==> Renewed(w, w1, L(w, ls[0]).to))
    requires forall l :: l in ls[1..] && L(w1, l).kind == PreparedBy ==> Renewed(w1, v, L(w1, l).to)
    ensures forall l :: l in ls && L(w, l).kind == PreparedBy ==> Renewed(w, v, L(w, l).to)
  {
    hide Quiet;
    QuietStill(w, w1);
    forall l | l in ls && L(w, l).kind == PreparedBy ensures Renewed(w, v, L(w, l).to) {
      QuietAt(w, w1, L(w, l).to);
      QuietAt(w1, v, L(w, l).to);
      if l != ls[0] { assert l in ls[1..] && L(w1, l) == L(w, l); }
    }
  }

  function ClearStop(w: World, s: Id): (v: World)
    ensures Kept(w, v) && v.books == w.books && !R(v, s).forceStop && forall t :: t != s ==> R(v, t) == R(w, t)
    ensures R(w, s).limitExhausted ==> R(v, s).startFailed && R(v, s).desired == Stopped
    ensures !R(w, s).limitExhausted ==> R(v, s).startFailed == R(w, s).startFailed && R(v, s).desired == R(w, s).desired
  {
    StopClears(w.past, s, R(w, s));
    ClearedIs(R(w, s));
    hide StopCleared, Kept, KeptBut, Orderly, Holds, Unmoved, Heeds, Replaces;
    Set(w, s, StopCleared(R(w, s)))
  }

  /** What is left of the stop: a service whose restarts are used up counts as failed. */
  function StopCleared(r: Rec): Rec {
    if r.limitExhausted then r.(forceStop := false, startFailed := true, desired := Stopped, limitExhausted := false)
    else r.(forceStop := false)
  }

  lemma ClearedIs(r: Rec)
    ensures
      var b := StopCleared(r);
      && !b.forceStop && (r.limitExhausted ==> b.startFailed && b.desired == Stopped)
      && (!r.limitExhausted ==> b.startFailed == r.startFailed && b.desired == r.desired)
  {
  }

  lemma StopClears(h: History, s: Id, r: Rec)
    ensures Replaces(StopCleared(r), r) && Heeds(h, s, r, StopCleared(r)) && Holds(r, StopCleared(r)) && Unmoved(r, StopCleared(r))
  {
  }

  function SetState(w: World, s: Id, st: RunState): (v: World)
    requires st == Stopped || st == Stopping
    ensures KeptBut(w, v, s) && v == w.(recs := v.recs)
    ensures R(v, s).state == st && R(v, s).startFailed == R(w, s).startFailed && forall t :: t != s ==> R(v, t) == R(w, t)
  {
    Set(w, s, R(w, s).(state := st))
  }

  /** A service that will not restart becomes inactive; an activation that is still there is
      taken back first. */
  function Deactivate(w: World, s: Id): (v: World)
    ensures Kept(w, v) && Calm(w, v) && !Asleep(v, s) && s !in v.books.explicit
  {
    hide Kept, Calm, Asleep;
    KeptRefl(w);
    CalmRefl(w);
    var w1 := if s in w.books.explicit then ClearExplicit(w, s) else w;
    var v := Strand(w1, s);
    KeptTrans(w, w1, v);
    SameRecsCalm(w1, v);
    CalmTrans(w, w1, v);
    v
  }

  /** The service has actually stopped.  It starts again if that is wanted and allowed; otherwise it
      is stopped now, unless it is chained to itself. */
  function HasStopped(w: World, s: Id, o: Answers): (v: World)
    ensures KeptBut(w, v, s) && Resigned(v, s)
    ensures R(w, s).desired == Started && !R(w, s).pinnedStopped && !R(w, s).limitExhausted ==> R(v, s).state == Starting
    ensures (R(w, s).desired != Started || R(w, s).pinnedStopped || R(w, s).limitExhausted) && (forall k :: o(k).chain != Next(s)) ==>
      R(v, s).state == Stopped
    ensures R(w, s).limitExhausted ==> R(v, s).state == Stopped && R(v, s).startFailed
  {
    hide *;
    RestartIf(R(w, s));
    var w1 := Halt(w, s, o);
    var v := Chain(w1, s, o);
    KeptIsBut(w1, v, s);
    ButTrans(w, w1, v, s);
    ResignedOn(w1, v, s);
    if R(w1, s).startFailed then SameRecsAt(w1, v, s); v else v
  }

  lemma RestartIf(r: Rec)
    ensures WillRestart(r) <==> r.desired == Started && !r.pinnedStopped && !r.limitExhausted
  {
  }

  /** What that comes to for others: the dependencies that wait for the service are told; a service
      that does not start again gives up its activation and its soft dependents, and one that does
      first restarts what prepares it. */
  ghost predicate Halted(w: World, v: World, s: Id) {
    && (forall l :: l in Deps(w, s) && L(w, l).to != s ==> Resumes(w, v, L(w, l).to))
    && (WillRestart(R(w, s)) ==> forall l :: l in Deps(w, s) && L(w, l).to != s && L(w, l).kind == PreparedBy ==> Renewed(w, v, L(w, l).to))
    && (!WillRestart(R(w, s)) ==>
        && s !in v.books.explicit && forall l :: l in Dpts(w, s) && NeverHard(w, l) ==> l !in v.waiting && l !in v.books.holding)
  }

  /** The end of the service, or its next start. */
  function Halt(w: World, s: Id, o: Answers): (v: World)
    ensures KeptBut(w, v, s) && Resigned(v, s) && Halted(w, v, s)
    ensures R(v, s).state == if WillRestart(R(w, s)) then Starting else Stopped
    ensures R(w, s).limitExhausted ==> R(v, s).startFailed
  {
    hide *;
    RestartIf(R(w, s));
    if WillRestart(R(w, s)) then StartOver(w, s, o) else Retire(w, s)
  }

  /** The service starts again. */
  function StartOver(w: World, s: Id, o: Answers): (v: World)
    requires WillRestart(R(w, s))
    ensures KeptBut(w, v, s) && Resigned(v, s) && Halted(w, v, s) && R(v, s).state == Starting
  {
    hide *;
    var w1 := ClearStop(w, s);
    var w3 := TellDeps(w1, Deps(w1, s));
    var w4 := SetState(w3, s, Stopped);
    var w5 := RestartPrepared(w4, Deps(w4, s), o);
    var v := InitiateStart(w5, s);
    KeptTrans(w, w1, w3);
    KeptIsBut(w, w3, s);
    ButTrans(w, w3, w4, s);
    KeptIsBut(w4, w5, s);
    ButTrans(w, w4, w5, s);
    ButTrans(w, w5, v, s);
    AwakeIf(v, s);
    StartingNotOvertaken(v, s);
    ButTopo(w5, v, s);
    ResignedNow(v, s);
    KeptTopo(w, w1);
    KeptTopo(w, w3);
    ButTopo(w3, w4, s);
    HaltedRestart(w, w1, w3, w4, w5, v, s);
    v
  }

  /** The service ends. */
  function Retire(w: World, s: Id): (v: World)
    requires !WillRestart(R(w, s))
    ensures KeptBut(w, v, s) && Resigned(v, s) && Halted(w, v, s) && R(v, s).state == Stopped
    ensures R(v, s).startFailed == (R(w, s).startFailed || R(w, s).limitExhausted)
  {
    hide *;
    var w1 := ClearStop(w, s);
    var w2 := BreakSofts(w1, Dpts(w1, s));
    var w3 := TellDeps(w2, Deps(w2, s));
    var w4 := SetState(w3, s, Stopped);
    var v := Deactivate(w4, s);
    KeptTrans(w, w1, w2);
    KeptTrans(w, w2, w3);
    KeptIsBut(w, w3, s);
    ButTrans(w, w3, w4, s);
    KeptIsBut(w4, v, s);
    ButTrans(w, w4, v, s);
    StaysStopped(w4, v, s);
    FailedStays(w1, w2, s);
    FailedStays(w2, w3, s);
    FailedStays(w4, v, s);
    CalmIsStill(w2, w3);
    CalmIsStill(w4, v);
    KeptTopo(w, w1);
    KeptTopo(w1, w2);
    KeptTopo(w2, w3);
    ButTopo(w3, w4, s);
    StillIs(w2, w3);
    StillIs(w4, v);
    KeptTopo(w4, v);
    SoftsBroken(w1, w2, s);
    BrokenNotOvertaken(w2, v, s);
    DownNotRushed(v, s);
    ResignedNow(v, s);
    HaltedRetired(w, w1, w2, w3, w4, v, s);
    v
  }

  lemma FailedStays(w: World, v: World, s: Id)
    requires Calm(w, v)
    ensures R(v, s).startFailed == R(w, s).startFailed
  {
    CalmAt(w, v, s);
  }

  lemma ResignedNow(w: World, s: Id)
    requires !Asleep(w, s) && (R(w, s).state == Stopped || R(w, s).state == Starting) && (TopoOk(w.topo) ==> NotOvertaken(w, s) && NotRushed(w, s))
    ensures Resigned(w, s)
  {
  }

  lemma HaltedRestart(w: World, w1: World, w3: World, w4: World, w5: World, v: World, s: Id)
    requires WillRestart(R(w, s)) && w1.topo == w.topo && w3.topo == w.topo && w4.topo == w.topo && (forall t :: t != s ==> R(w1, t) == R(w, t))
    requires Calm(w1, w3) && (forall t :: t != s ==> R(w4, t) == R(w3, t)) && Quiet(w4, w5) && (forall t :: t != s ==> R(v, t) == R(w5, t))
    requires forall l :: l in Deps(w1, s) ==> Resumes(w1, w3, L(w1, l).to)
    requires forall l :: l in Deps(w4, s) && L(w4, l).kind == PreparedBy ==> Renewed(w4, w5, L(w4, l).to)
    ensures Halted(w, v, s)
  {
    hide Calm, Quiet;
    forall l | l in Deps(w, s) && L(w, l).to != s
      ensures Resumes(w, v, L(w, l).to) && (L(w, l).kind == PreparedBy ==> Renewed(w, v, L(w, l).to))
    {
      assert l in Deps(w1, s) && l in Deps(w4, s) && L(w1, l) == L(w, l) && L(w4, l) == L(w, l);
      CalmAt(w1, w3, L(w, l).to);
      QuietAt(w4, w5, L(w, l).to);
    }
  }

  lemma HaltedRetired(w: World, w1: World, w2: World, w3: World, w4: World, v: World, s: Id)
    requires !WillRestart(R(w, s)) && w1.topo == w.topo && w2.topo == w.topo && (forall t :: t != s ==> R(w1, t) == R(w, t))
    requires Calm(w1, w2) && Calm(w2, w3) && (forall t :: t != s ==> R(w4, t) == R(w3, t)) && Calm(w4, v)
    requires forall l :: l in Dpts(w1, s) && NeverHard(w1, l) ==> l !in w2.waiting && l !in w2.books.holding
    requires forall l :: l in Deps(w2, s) ==> Resumes(w2, w3, L(w2, l).to)
    requires w3.waiting <= w2.waiting && w3.books.holding <= w2.books.holding && w4.waiting == w3.waiting && w4.books == w3.books
    requires v.waiting <= w4.waiting && v.books.holding <= w4.books.holding && s !in v.books.explicit
    ensures Halted(w, v, s)
  {
    hide Calm;
    forall l | l in Deps(w, s) && L(w, l).to != s ensures Resumes(w, v, L(w, l).to) {
      assert l in Deps(w2, s) && L(w2, l) == L(w, l);
      CalmAt(w1, w2, L(w, l).to);
      CalmAt(w2, w3, L(w, l).to);
      CalmAt(w4, v, L(w, l).to);
    }
    forall l | l in Dpts(w, s) && NeverHard(w, l) ensures l !in v.waiting && l !in v.books.holding {
      assert l in Dpts(w1, s) && NeverHard(w1, l);
    }
  }

  lemma SoftsBroken(w: World, v: World, s: Id)
    requires v.topo == w.topo && forall l :: l in Dpts(w, s) && NeverHard(w, l) ==> l !in v.waiting && l !in v.books.holding
    ensures forall l :: l in Dpts(v, s) && l in v.topo.links && OrderingLink(v.topo, l) ==> l !in v.waiting
  {
  }

  /** The service is stopped, and that is accounted for, or it has begun to start again. */
  ghost predicate Resigned(w: World, s: Id) {
    && (TopoOk(w.topo) ==> !Asleep(w, s) && NotOvertaken(w, s) && NotRushed(w, s))
    && (R(w, s).state == Stopped || R(w, s).state == Starting)
  }

  /** No ordering link to the service is waited for, unless it is on its way. */
  ghost predicate NotOvertaken(w: World, s: Id) {
    forall l :: l in w.topo.links && w.topo.links[l].to == s ==> !Overtaken(w, l)
  }

  lemma ResignedOn(w: World, v: World, s: Id)
    requires Kept(w, v) && Resigned(w, s) && (R(v, s).state == R(w, s).state || R(v, s).state == Starting)
    ensures Resigned(v, s)
  {
    hide Flows, Even, PinsKept, TopoOk, Asleep, Untold, Overtaken, Rushed, StaysStuck;
  }

  /** A service that is down is not rushed. */
  lemma DownNotRushed(w: World, s: Id)
    requires R(w, s).state == Stopped
    ensures NotRushed(w, s)
  {
  }

  /** Once the soft links are broken, nobody waits for an ordering link to the service. */
  lemma BrokenNotOvertaken(w: World, v: World, s: Id)
    requires v.topo == w.topo && v.waiting <= w.waiting && forall l :: l in Dpts(w, s) && l in w.topo.links && OrderingLink(w.topo, l) ==> l !in w.waiting
    ensures TopoOk(v.topo) ==> NotOvertaken(v, s)
  {
    if TopoOk(v.topo) {
      forall l | l in v.topo.links && v.topo.links[l].to == s ensures !Overtaken(v, l) { assert ListedTwice(v.topo, l); }
    }
  }

  lemma StartingNotOvertaken(w: World, s: Id)
    requires R(w, s).state == Starting
    ensures NotOvertaken(w, s)
  {
  }

  lemma StaysStopped(w: World, v: World, s: Id)
    requires R(w, s).state == Stopped && (Quiet(w, v) || Calm(w, v))
    ensures R(v, s).state == Stopped
  {
    if Calm(w, v) { CalmAt(w, v, s); } else { QuietAt(w, v, s); }
  }

  /** A service that finished may start another one. */
  function Chain(w: World, s: Id, o: Answers): (v: World)
    ensures Kept(w, v)
    ensures R(w, s).state == Starting || (forall k :: o(k).chain != Next(s)) ==> R(v, s).state == R(w, s).state
    ensures R(v, s).state == R(w, s).state || R(v, s).state == Starting
    ensures R(w, s).startFailed || o(w.tick).chain == Nobody ==> v.recs == w.recs && v.books == w.books
    ensures forall t :: !R(w, s).startFailed && o(w.tick).chain == Next(t) ==> Summoned(w, v, t)
  {
    hide *;
    KeptRefl(w);
    var w1 := Tick(w);
    SameRecsAt(w, w1, s);
    match o(w.tick).chain
    case Nobody => w1
    case Next(next) =>
      if R(w1, s).startFailed then w1
      else
        var v := Start(w1, next);
        Summons(w, w1, v, next);
        KeptTrans(w, w1, v);
        if R(w1, s).state == Starting then NotStartable(R(w1, s)); v else v
  }

  /** Unless it is pinned down, the service has been asked to start. */
  ghost predicate Summoned(w: World, v: World, t: Id) {
    !R(w, t).pinnedStopped ==> t in v.books.explicit && R(v, t).desired == Started
  }

  lemma Summons(w: World, w1: World, v: World, t: Id)
    requires w1.recs == w.recs && (!R(w1, t).pinnedStopped ==> t in v.books.explicit && R(v, t).desired == Started)
    ensures Summoned(w, v, t)
  {
  }

  lemma SameRecsAt(w: World, v: World, s: Id)
    requires v.recs == w.recs
    ensures R(v, s) == R(w, s)
  {
  }

  lemma NotStartable(r: Rec)
    requires r.state == Starting
    ensures !Startable(r.(markedDown := false))
  {
  }

  // ----- starting on request -----

  function Activation(w: World, s: Id): (v: World)
    requires s !in w.books.explicit
    ensures KeptBut(w, v, s) && PinsKept(w, v) && v == w.(books := v.books) && s in v.books.explicit
  {
    var v := w.(books := w.books.(required := w.books.required[s := Required(w.books, s) + 1], explicit := w.books.explicit + {s}));
    ActivationKeeps(w, s, v);
    hide KeptBut, PinsKept;
    v
  }

  lemma ActivationKeeps(w: World, s: Id, v: World)
    requires s !in w.books.explicit
    requires v == w.(books := w.books.(required := w.books.required[s := Required(w.books, s) + 1], explicit := w.books.explicit + {s}))
    ensures KeptBut(w, v, s) && PinsKept(w, v)
  {
    FlowsStill(w, v);
    StillOrderlyBut(w, v, s);
    StillDutiful(w, v);
    hide Flows, OrderlyBut, Held, Dutiful;
  }

  function Start(w: World, s: Id): (v: World)
    ensures Kept(w, v)
    ensures R(v, s).state == if Startable(R(w, s).(markedDown := false)) then Starting else R(w, s).state
    ensures R(w, s).pinnedStopped ==> v == w
    ensures R(w, s).state == Stopped && !R(w, s).pinnedStopped ==> R(v, s).state == Starting
    ensures !R(w, s).pinnedStopped ==> s in v.books.explicit && R(v, s).desired == Started
    ensures Startable(R(w, s).(markedDown := false)) && R(w, s).state == Stopped ==> Engages(R(w, s), R(v, s))
    ensures forall t :: t != s ==> R(v, t).state == R(w, t).state
  {
    hide Kept, KeptBut, DoStart, Activation, PinsKept, Asleep, Engages, Orderly;
    KeptRefl(w);
    if R(w, s).pinnedStopped then w
    else
      var w1 := Set(w, s, R(w, s).(markedDown := false));
      KeptRefl(w1);
      KeptIsBut(w1, w1, s);
      var w2 := if s in w1.books.explicit then w1 else Activation(w1, s);
      var v := DoStart(w2, s);
      ButTrans(w, w1, w2, s);
      ThenKept(w, w2, v, s);
      EngagesSame(R(w, s), R(w2, s), R(v, s));
      v
  }

  /** A change to one service that leaves its state and its links alone, and then its start. */
  lemma ThenKept(w: World, w1: World, v: World, s: Id)
    requires KeptBut(w, w1, s) && Kept(w1, v) && !Asleep(v, s) && Holds(R(w, s), R(w1, s)) && SameWaits(w, w1, s)
    ensures Kept(w, v)
  {
    KeptHolds(w1, v, s);
    KeptAt(w1, v, s);
    KeptIsBut(w1, v, s);
    ButTrans(w, w1, v, s);
    ThenOrderly(w, w1, v, s);
    hide Kept, KeptBut, OrderlyAt;
    ButFree(w, v, s);
  }

  /** The service is in the same state and waits for the same. */
  ghost predicate SameWaits(w: World, v: World, s: Id) {
    && v.topo == w.topo && v.waiting == w.waiting && v.transitions == w.transitions
    && v.past.mute == w.past.mute && v.past.begun == w.past.begun && v.past.lacking == w.past.lacking
    && R(v, s).state == R(w, s).state && R(v, s).waitingForDeps == R(w, s).waitingForDeps && R(v, s).inTransition == R(w, s).inTransition
  }

  lemma ThenOrderly(w: World, w1: World, v: World, s: Id)
    requires OrderlyAt(w1, v, s) && !Asleep(v, s) && SameWaits(w, w1, s) && v.topo == w1.topo
    ensures OrderlyAt(w, v, s)
  {
    hide TopoOk, Asleep;
    assert Deps(w1, s) == Deps(w, s);
    assert Ordered(w1, v, s) ==> Ordered(w, v, s);
  }

  // ----- failing and having started -----

  /** A failed start that also ends the service. */
  function FailAndStop(w: World, s: Id, o: Answers): (v: World)
    ensures KeptBut(w, v, s) && Resigned(v, s)
    ensures (forall k :: o(k).chain != Next(s)) ==> R(v, s).state == Stopped
  {
    hide *;
    var w1 := Fail(w, s);
    var v := HasStopped(w1, s, o);
    ButTrans(w, w1, v, s);
    NotWanted(R(w1, s));
    v
  }

  lemma NotWanted(r: Rec)
    requires r.desired == Stopped
    ensures !WillRestart(r)
  {
  }

  function TellDependents(w: World, ls: seq<LinkId>): (v: World)
    requires forall l :: l in ls ==> l !in w.past.lacking
    ensures Kept(w, v) && v.books == w.books && v.past == w.past && Calm(w, v)
    ensures v.waiting <= w.waiting && forall l :: l in ls && l in w.topo.links ==> l !in v.waiting
    decreases |ls|
  {
    hide *;
    KeptRefl(w);
    CalmRefl(w);
    if ls == [] then w
    else
      NotLacked(w, ls[0]);
      var w1 := StopWaiting(w, ls[0]);
      var v := TellDependents(w1, ls[1..]);
      KeptTrans(w, w1, v);
      CalmTrans(w, w1, v);
      KeptTopo(w, w1);
      v
  }

  lemma NotLacked(w: World, l: LinkId)
    requires l !in w.past.lacking
    ensures !Needs(w, l)
  {
  }

  /** The service has come up: none of its dependents lacks it any more. */
  function Arrive(w: World, s: Id): (v: World)
    ensures Kept(w, v) && v == w.(past := v.past) && v.past == w.past.(lacking := v.past.lacking)
    ensures v.past.lacking == set l | l in w.past.lacking && l !in Dpts(w, s)
  {
    var v := w.(past := w.past.(lacking := set l | l in w.past.lacking && l !in Dpts(w, s)));
    ArriveKeeps(w, v);
    hide Kept;
    v
  }

  lemma ArriveKeeps(w: World, v: World)
    requires v == w.(past := w.past.(lacking := v.past.lacking)) && v.past.lacking <= w.past.lacking
    ensures Kept(w, v)
  {
    SameBooks(w, v);
    FlowsStill(w, v);
    StillDutiful(w, v);
    ArriveOrderly(w, v);
    hide Flows, Balanced, Orderly, Dutiful;
  }

  lemma ArriveOrderly(w: World, v: World)
    requires v == w.(past := w.past.(lacking := v.past.lacking)) && v.past.lacking <= w.past.lacking
    ensures Orderly(w, v)
  {
    hide TopoOk;
    forall t ensures StaysStuck(w, v, t) { assert Deps(v, t) == Deps(w, t); }
  }

  /** The service has started; a stop that was asked for meanwhile happens now. */
  function HasStarted(w: World, s: Id, o: Answers): (v: World)
    ensures KeptBut(w, v, s) && (v == w || Reported(v, s)) && (TopoOk(w.topo) && TakenOn(R(w, s)) ==> RushesNone(w, v, s))
    ensures R(w, s).startedEmitted ==> v == w
    ensures ComesUp(R(w, s)) ==> R(v, s).state == Started
    ensures !R(w, s).startedEmitted && (R(w, s).forceStop || R(w, s).desired == Stopped) && !StartPinned(R(w, s)) ==> R(v, s).state == Stopping
  {
    hide Kept, KeptBut, Quiet, Calm, Reported, Orderly, TopoOk, RushesNone, TakenOn;
    KeptRefl(w);
    KeptIsBut(w, w, s);
    NoneRushed(w, w, w, s);
    if R(w, s).startedEmitted then w
    else
      var w0 := Land(w, s);
      var w1 := Set(w0, s, R(w0, s).(startedEmitted := true, state := Started));
      KeptIsBut(w, w0, s);
      ButTrans(w, w0, w1, s);
      if R(w1, s).forceStop || R(w1, s).desired == Stopped then
        var w2 := Silence(w1, s);
        var v := DoStop(w2, s, false, o);
        ButTrans(w, w1, w2, s);
        KeptIsBut(w2, v, s);
        ButTrans(w, w2, v, s);
        SilenceReported(w2, v, s);
        NoneRushed(w, w2, v, s);
        v
      else
        var v := TellDependents(w1, Dpts(w1, s));
        KeptIsBut(w1, v, s);
        ButTrans(w, w1, v, s);
        ToldReported(w1, v, s);
        CalmAt(w1, v, s);
        NoneRushed(w, w1, v, s);
        v
  }

  /** The service is up for the first time since it began to start, and is not to stop at once. */
  predicate ComesUp(r: Rec) {
    !r.startedEmitted && !r.forceStop && r.desired != Stopped
  }

  /** What the service was told no longer counts, and nobody lacks it. */
  function Land(w: World, s: Id): (v: World)
    ensures Kept(w, v) && v == w.(past := v.past) && s !in v.past.told && v.past.lacking <= w.past.lacking
    ensures forall l :: l in Dpts(v, s) ==> l !in v.past.lacking
  {
    hide Kept, Still;
    var w1 := Forgive(w, s);
    var v := Arrive(w1, s);
    KeptTrans(w, w1, v);
    v
  }

  /** The service has been taken on: it is up, or coming up with nothing left to wait for. */
  predicate TakenOn(r: Rec) {
    r.state == Started || (r.state == Starting && !r.waitingForDeps)
  }

  lemma RushesRefl(w: World, s: Id)
    ensures RushesNone(w, w, s)
  {
  }

  /** Such a service is not rushed any further. */
  lemma NoneRushed(w: World, w1: World, v: World, s: Id)
    requires w1.topo == w.topo && w1.past.lacking <= w.past.lacking && Kept(w1, v)
    ensures TopoOk(w.topo) && TakenOn(R(w, s)) ==> RushesNone(w, v, s)
  {
    hide Even, Flows, PinsKept, TopoOk, Asleep, Untold, Overtaken, StaysStuck;
  }

  /** Nobody waits for the service, or it came up without telling, or it is not up. */
  ghost predicate Reported(w: World, s: Id) {
    TopoOk(w.topo) ==> R(w, s).state != Stopped && forall l :: l in w.topo.links && w.topo.links[l].to == s ==> !Untold(w, l)
  }

  /** Takes down that a service that is to stop again, but is pinned up, tells nobody. */
  function Silence(w: World, s: Id): (v: World)
    ensures KeptBut(w, v, s) && v.recs == w.recs && v.books == w.books && v.topo == w.topo && v.past.lacking == w.past.lacking && (StartPinned(R(w, s)) ==> s in v.past.mute)
  {
    var v := if StartPinned(R(w, s)) then w.(past := w.past.(mute := w.past.mute + {s})) else w;
    SilenceKeeps(w, s, v);
    hide KeptBut;
    v
  }

  lemma SilenceKeeps(w: World, s: Id, v: World)
    requires v == w || v == w.(past := w.past.(mute := w.past.mute + {s}))
    ensures KeptBut(w, v, s)
  {
    SameBooks(w, v);
    FlowsStill(w, v);
    SilenceOrderly(w, s, v);
    StillDutiful(w, v);
    hide Flows, Balanced, OrderlyBut, Dutiful;
  }

  lemma SilenceOrderly(w: World, s: Id, v: World)
    requires v == w || v == w.(past := w.past.(mute := w.past.mute + {s}))
    ensures OrderlyBut(w, v, s)
  {
    hide TopoOk;
    forall t ensures StaysStuck(w, v, t) { assert Deps(v, t) == Deps(w, t); }
  }

  lemma SilenceReported(w: World, v: World, s: Id)
    requires Kept(w, v) && R(w, s).state == Started && (StartPinned(R(w, s)) ==> s in w.past.mute && v == w)
    requires !StartPinned(R(w, s)) ==> R(v, s).state == Stopping
    ensures Reported(v, s)
  {
  }

  lemma ToldReported(w: World, v: World, s: Id)
    requires Kept(w, v) && Calm(w, v) && R(w, s).state == Started
    requires forall l :: l in Dpts(w, s) && l in w.topo.links ==> l !in v.waiting
    ensures Reported(v, s)
  {
    hide Flows, Orderly, PinsKept, Asleep;
    CalmAt(w, v, s);
    if TopoOk(v.topo) {
      forall l | l in v.topo.links && v.topo.links[l].to == s ensures !Untold(v, l) { assert ListedTwice(w.topo, l); }
    }
  }

  // ----- transitions -----

  function BringUp(w: World, s: Id, how: BringUpResult, o: Answers): (v: World)
    ensures KeptBut(w, v, s) && (v == w || Reported(v, s) || Resigned(v, s))
    ensures TopoOk(w.topo) && TakenOn(R(w, s)) ==> RushesNone(w, v, s)
    ensures BroughtUp(w, v, s, how)
  {
    hide Kept, KeptBut, Reported, Resigned, RushesNone, TopoOk, TakenOn, ComesUp;
    KeptRefl(w);
    NoneRushed(w, w, w, s);
    KeptIsBut(w, w, s);
    match how
    case Pending => w
    case AtOnce => HasStarted(w, s, o)
    case Fails =>
      var w1 := SetState(w, s, Stopping);
      var v := FailAndStop(w1, s, o);
      ButTrans(w, w1, v, s);
      ResignedRushes(w, v, s);
      FailsOrBegins(w, w1, v, s);
      v
  }

  /** What comes of an attempt to bring the service up, by how that went. */
  ghost predicate BroughtUp(w: World, v: World, s: Id, how: BringUpResult) {
    match how
    case Pending => R(v, s) == R(w, s)
    case AtOnce => ComesUp(R(w, s)) ==> R(v, s).state == Started
    case Fails => R(v, s).state == Stopped || Begun(w, v, s)
  }

  lemma FailsOrBegins(w: World, w1: World, v: World, s: Id)
    requires KeptBut(w, w1, s) && KeptBut(w1, v, s) && R(w1, s).state == Stopping && Resigned(v, s)
    ensures R(v, s).state == Stopped || Begun(w, v, s)
  {
    hide Even, Flows, Holds, TopoOk, Stuck;
  }

  lemma ResignedRushes(w: World, v: World, s: Id)
    requires KeptBut(w, v, s) && Resigned(v, s)
    ensures TopoOk(w.topo) ==> RushesNone(w, v, s)
  {
    hide Even, Flows, TopoOk;
  }

  /** All dependencies have started: the service comes up, or waits for a start slot. */
  function AllDepsStarted(w: World, s: Id, o: Answers): (v: World)
    requires R(w, s).state == Starting && NoDepWaited(w, s)
    ensures KeptBut(w, v, s) && (TopoOk(w.topo) ==> !Stuck(v, s) && RushesNone(w, v, s)) && Spoken(v, s)
    ensures !o(w.tick).slotFree ==> R(v, s) == R(w, s).(waitingForDeps := false, waitingForSlot := true)
    ensures o(w.tick).slotFree && o(w.tick).up.Pending? ==> R(v, s) == R(w, s).(waitingForDeps := false, waitingForSlot := false)
    ensures o(w.tick).slotFree && o(w.tick).up.AtOnce? && ComesUp(R(w, s)) ==> R(v, s).state == Started
    ensures o(w.tick).slotFree && o(w.tick).up.Fails? ==> R(v, s).state == Stopped || Begun(w, v, s)
  {
    hide Kept, KeptBut, Reported, Resigned, Spoken, RushesNone, TopoOk, NoDepWaited, Stuck, Orderly;
    var a := o(w.tick);
    var w1 := Tick(w);
    var w2 := Set(w1, s, R(w1, s).(waitingForDeps := false, waitingForSlot := !a.slotFree));
    KeptIsBut(w, w1, s);
    ButTrans(w, w1, w2, s);
    KeptRefl(w2);
    KeptIsBut(w2, w2, s);
    NoneRushed(w2, w2, w2, s);
    var v := if a.slotFree then BringUp(w2, s, a.up, o) else w2;
    ButTrans(w, w2, v, s);
    ReadyToGo(w, w2, v, s);
    NotStuckOn(w, w2, v, s);
    SpokenIf(w2, v, s);
    v
  }

  /** Nothing is lacking that was not: all that the service lacks it would still be waiting for. */
  lemma ReadyToGo(w: World, w1: World, v: World, s: Id)
    requires R(w, s).state == Starting && NoDepWaited(w, s) && w1.topo == w.topo && w1.past == w.past
    requires TopoOk(w.topo) ==> RushesNone(w1, v, s)
    ensures TopoOk(w.topo) ==> RushesNone(w, v, s)
  {
    if TopoOk(w.topo) {
      forall l | l in w.topo.links && w.topo.links[l].from == s && Rushed(v, l) ensures Rushed(w, l) {
        assert Rushed(w1, l) && ListedTwice(w.topo, l);
      }
    }
  }

  /** The service is not asleep, and nobody waits for it in vain. */
  ghost predicate Spoken(w: World, s: Id) {
    TopoOk(w.topo) ==> !Asleep(w, s) && forall l :: l in w.topo.links && w.topo.links[l].to == s ==> !Untold(w, l) && !Overtaken(w, l)
  }

  lemma SpokenIf(w: World, v: World, s: Id)
    requires R(w, s).state == Starting && (v == w || Reported(v, s) || Resigned(v, s))
    ensures Spoken(v, s)
  {
    hide TopoOk;
  }

  lemma NotStuckOn(w: World, w1: World, v: World, s: Id)
    requires KeptBut(w, w1, s) && KeptBut(w1, v, s) && !(R(w1, s).state == Starting && R(w1, s).waitingForDeps)
    ensures TopoOk(w.topo) ==> !Stuck(v, s)
  {
    hide TopoOk, Even, OrderlyBut, Logged, Holds;
    ButTopo(w, w1, s);
  }

  lemma ButTopo(w: World, v: World, s: Id)
    requires KeptBut(w, v, s)
    ensures v.topo == w.topo
  {
  }

  lemma KeptTopo(w: World, v: World)
    requires Kept(w, v)
    ensures v.topo == w.topo
  {
  }

  /** Takes a record on that was queued for it; it is not left stuck. */
  function ExecuteTransition(w: World, s: Id, o: Answers): (v: World)
    ensures R(w, s).state == Starting && (exists l :: l in Deps(w, s) && l in w.waiting) ==> v == w
    ensures R(w, s).state == Stopping && (exists l :: l in Dpts(w, s) && Blocks(w, l)) ==> v == w
    ensures R(w, s).state == Stopping && !(exists l :: l in Dpts(w, s) && Blocks(w, l)) ==> R(v, s).state != Stopping || !R(v, s).waitingForDeps
    ensures KeptBut(w, v, s) && Holds(R(w, s), R(v, s)) && (TopoOk(w.topo) ==> !Stuck(v, s) && RushesNone(w, v, s)) && (v == w || Spoken(v, s))
  {
    hide Kept, KeptBut, Spoken, Resigned, RushesNone, TopoOk;
    KeptRefl(w);
    RushesRefl(w, s);
    KeptIsBut(w, w, s);
    if R(w, s).state == Starting && NoDepWaited(w, s) then
      AllDepsStarted(w, s, o)
    else if R(w, s).state == Stopping && NoLiveDependent(w, s) then
      var w1 := Tick(w);
      var w2 := Set(w1, s, R(w1, s).(waitingForDeps := false));
      KeptIsBut(w, w1, s);
      ButTrans(w, w1, w2, s);
      KeptRefl(w2);
      KeptIsBut(w2, w2, s);
      var v := if o(w.tick).downAtOnce then HasStopped(w2, s, o) else w2;
      ButTrans(w, w2, v, s);
      NotStuckOn(w, w2, v, s);
      SpokenSo(w2, v, s);
      StoppingRushes(w, w2, v, s);
      v
    else w
  }

  lemma StoppingRushes(w: World, w1: World, v: World, s: Id)
    requires KeptBut(w, v, s) && R(w1, s).state == Stopping && (v == w1 || Resigned(v, s))
    ensures TopoOk(w.topo) ==> RushesNone(w, v, s)
  {
    if v != w1 { ResignedRushes(w, v, s); }
  }

  lemma SpokenSo(w: World, v: World, s: Id)
    requires R(w, s).state == Stopping && (v == w || Resigned(v, s))
    ensures Spoken(v, s)
  {
    hide TopoOk;
  }
}
