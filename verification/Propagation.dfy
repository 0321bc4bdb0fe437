/** The propagation pass over one record: acquisitions, releases, failures, starts, stops and
    pins that were queued for it. */
module Propagation {
  import opened Services
  import opened Records
  import opened StopMachine
  import opened StartMachine

  // ----- acquiring the dependencies -----

  function Credit(w: World, s: Id): World {
    w.(books := w.books.(required := w.books.required[s := Required(w.books, s) + 1]))
  }

  /** One more acquisition of `s`; the first one starts it, unless it waits for the operator. */
  function Require(w: World, s: Id): (v: World)
    ensures Owed(w, v, s, 1)
    ensures v.books == w.books.(required := w.books.required[s := Required(w.books, s) + 1]) && MoreFlags(w, v)
  {
    hide Kept, Owed, Calm;
    var w1 := Credit(w, s);
    if R(w1, s).manual && s !in w1.books.explicit then
      CreditOwed(w, w1, s);
      w1
    else if Required(w1.books, s) == 1 && !Up(R(w1, s)) then
      var v := Raise(w1, s, FStart);
      RaisedOwed(w, w1, v, s);
      v
    else
      CreditOwed(w, w1, s);
      w1
  }

  /** No flag has been taken off. */
  ghost predicate MoreFlags(w: World, v: World) {
    forall t :: R(w, t).flags <= R(v, t).flags
  }

  lemma MoreFlagsTrans(u: World, v: World, w: World)
    requires MoreFlags(u, v) && MoreFlags(v, w)
    ensures MoreFlags(u, w)
  {
  }

  lemma SameFlags(w: World, v: World)
    requires v.recs == w.recs
    ensures MoreFlags(w, v)
  {
  }

  lemma CreditKeeps(w: World, v: World, s: Id)
    requires v == Credit(w, s)
    ensures Shifted(w, v, s, 1) && QueueKept(w, v) && Dutiful(w, v) && Flows(w, v) && OrderlyBut(w, v, s) && PinsKept(w, v)
  {
    FlowsStill(w, v);
    StillOrderlyBut(w, v, s);
    StillDutiful(w, v);
    hide Flows, OrderlyBut, Dutiful;
  }

  /** A service that counted as required before, or that the operator has to start, is not put to
      sleep. */
  lemma CreditOwed(w: World, v: World, s: Id)
    requires v == Credit(w, s) && (R(v, s).manual || Required(v.books, s) != 1 || Up(R(v, s)))
    ensures Owed(w, v, s, 1)
  {
    CreditKeeps(w, v, s);
    CreditOrderly(w, v, s);
    OrderlySplit(w, v, s);
    hide Shifted, QueueKept, Dutiful, Flows, PinsKept, OrderlyBut, OrderlyAt, Orderly;
  }

  lemma CreditOrderly(w: World, v: World, s: Id)
    requires v == Credit(w, s) && (R(v, s).manual || Required(v.books, s) != 1 || Up(R(v, s)))
    ensures OrderlyAt(w, v, s)
  {
    hide TopoOk;
    assert Deps(v, s) == Deps(w, s);
  }

  /** Nor is one that is flagged for a start. */
  lemma RaisedOwed(w: World, w1: World, v: World, s: Id)
    requires w1 == Credit(w, s) && v == Raise(w1, s, FStart)
    ensures Owed(w, v, s, 1)
  {
    hide Kept, KeptBut, Calm, Raise;
    CreditKeeps(w, w1, s);
    RaisedOrderly(w, w1, v, s);
    hide OrderlyBut, OrderlyAt, Orderly, Shifted, QueueKept, Dutiful, Flows, PinsKept, Credit;
    KeptIsBut(w1, v, s);
    CreditThen(w, w1, v, s);
  }

  lemma RaisedOrderly(w: World, w1: World, v: World, s: Id)
    requires w1 == Credit(w, s) && Kept(w1, v) && FStart in R(v, s).flags
    ensures OrderlyAt(w, v, s)
  {
    KeptAt(w1, v, s);
    KeptTopo(w1, v);
    hide Kept, TopoOk;
    ThenOrderly(w, w1, v, s);
  }

  lemma CreditThen(w: World, w1: World, v: World, s: Id)
    requires Shifted(w, w1, s, 1) && QueueKept(w, w1) && Dutiful(w, w1) && Flows(w, w1) && OrderlyBut(w, w1, s) && PinsKept(w, w1)
    requires Kept(w1, v) && KeptBut(w1, v, s) && OrderlyAt(w, v, s)
    ensures Owed(w, v, s, 1)
  {
    hide Flows, OrderlyBut, OrderlyAt, Orderly, Dutiful;
    DutifulTrans(w, w1, v);
    FlowsTrans(w, w1, v);
    OrderlyButTrans(w, w1, v, s);
    OrderlySplit(w, v, s);
  }

  function Hold(w: World, l: LinkId): (v: World)
    requires l in w.topo.links && l !in w.books.holding && !IsOrdering(w, l)
    ensures Owed(w, v, L(w, l).to, -1) && v == w.(books := v.books, past := Acquires(w.past, L(w, l).from))
    ensures v.books == w.books.(holding := w.books.holding + {l})
  {
    assert forall s :: |Holders(w.topo, w.books.holding + {l}, s)|
             == |Holders(w.topo, w.books.holding, s)| + if L(w, l).to == s then 1 else 0 by {
      forall s ensures |Holders(w.topo, w.books.holding + {l}, s)|
             == |Holders(w.topo, w.books.holding, s)| + if L(w, l).to == s then 1 else 0 {
        HoldersAdd(w.topo, w.books.holding, l, s);
      }
    }
    var v := w.(books := w.books.(holding := w.books.holding + {l}), past := Acquires(w.past, L(w, l).from));
    HoldOwed(w, l, v);
    hide Owed;
    v
  }

  lemma HoldOwed(w: World, l: LinkId, v: World)
    requires l in w.topo.links && l !in w.books.holding && !IsOrdering(w, l)
    requires v == w.(books := w.books.(holding := w.books.holding + {l}), past := Acquires(w.past, L(w, l).from))
    requires Shifted(w, v, L(w, l).to, -1)
    ensures Owed(w, v, L(w, l).to, -1)
  {
    hide Shifted;
    StillOrderly(w, v);
    HeldDutiful(w, l, v);
    hide Orderly, Dutiful;
    assert forall t :: Stuck(v, t) ==> Stuck(w, t) by {
      forall t | Stuck(v, t) ensures Stuck(w, t) { assert Deps(v, t) == Deps(w, t); }
    }
  }

  /** Acquires the target of a link, without looking at whether the link already holds it. */
  function Acquire(w: World, l: LinkId): (v: World)
    requires l in w.topo.links && !IsOrdering(w, l)
    ensures Owed(w, v, L(w, l).to, if l in w.books.holding then 1 else 0)
    ensures v.books.holding == w.books.holding + {l} && v.books.explicit == w.books.explicit && MoreFlags(w, v)
  {
    hide Kept, Owed, MoreFlags;
    var to := L(w, l).to;
    var w1 := Require(w, to);
    if l in w1.books.holding then w1
    else
      OwedTopo(w, w1, to, 1);
      var v := Hold(w1, l);
      OwedPaid(w, w1, v, to, 1);
      KeptIsOwed(w, v, to);
      SameFlags(w1, v);
      MoreFlagsTrans(w, w1, v);
      v
  }

  lemma OwedTopo(w: World, v: World, s: Id, k: int)
    requires Owed(w, v, s, k)
    ensures v.topo == w.topo
  {
  }

  lemma KeptIsOwed(w: World, v: World, s: Id)
    requires Kept(w, v)
    ensures Owed(w, v, s, 0)
  {
  }

  predicate Acquirable(t: Topo, l: LinkId) {
    l in t.links && !IsOnlyOrdering(t.links[l].kind)
  }

  /** How often acquiring along `ls` acquires `s` for a link that already holds it. */
  ghost function Doubled(t: Topo, holding: set<LinkId>, ls: seq<LinkId>, s: Id): nat
    decreases |ls|
  {
    if ls == [] then 0
    else
      (if Acquirable(t, ls[0]) && ls[0] in holding && t.links[ls[0]].to == s then 1 else 0)
      + Doubled(t, if Acquirable(t, ls[0]) then holding + {ls[0]} else holding, ls[1..], s)
  }

  /** Kept, but for the acquisitions that were made twice. */
  ghost predicate Overdrawn(w: World, v: World, ls: seq<LinkId>) {
    && v.topo == w.topo && QueueKept(w, v) && Dutiful(w, v) && Flows(w, v) && Orderly(w, v) && PinsKept(w, v)
    && forall s :: Excess(v.topo, v.books, s) == Excess(w.topo, w.books, s) + Doubled(w.topo, w.books.holding, ls, s)
  }

  function AcquireAll(w: World, ls: seq<LinkId>): (v: World)
    ensures Overdrawn(w, v, ls)
    ensures v.books.holding == w.books.holding + (set l | l in ls && Acquirable(w.topo, l)) && v.books.explicit == w.books.explicit && MoreFlags(w, v)
    decreases |ls|
  {
    hide *;
    SameFlags(w, w);
    if ls == [] then OverdrawnNil(w); w
    else if Acquirable(w.topo, ls[0]) then
      AcquirableLink(w, ls[0]);
      var w1 := Acquire(w, ls[0]);
      var v := AcquireAll(w1, ls[1..]);
      OverdrawnCons(w, w1, v, ls);
      MoreFlagsTrans(w, w1, v);
      OwedTopo(w, w1, L(w, ls[0]).to, if ls[0] in w.books.holding then 1 else 0);
      v
    else
      var v := AcquireAll(w, ls[1..]);
      OverdrawnSkip(w, v, ls);
      v
  }

  lemma AcquirableLink(w: World, l: LinkId)
    requires Acquirable(w.topo, l)
    ensures l in w.topo.links && !IsOrdering(w, l)
  {
  }

  lemma OverdrawnNil(w: World)
    ensures Overdrawn(w, w, [])
  {
    FlowsRefl(w);
    OrderlyRefl(w);
    DutifulRefl(w);
    hide Flows, Orderly, Dutiful;
  }

  lemma OverdrawnCons(w: World, w1: World, v: World, ls: seq<LinkId>)
    requires ls != [] && Acquirable(w.topo, ls[0])
    requires Owed(w, w1, L(w, ls[0]).to, if ls[0] in w.books.holding then 1 else 0)
    requires w1.books.holding == w.books.holding + {ls[0]} && Overdrawn(w1, v, ls[1..])
    ensures Overdrawn(w, v, ls)
  {
    hide Excess, QueueKept, PinsKept, Flows, Orderly, Dutiful;
    assert QueueKept(w, v) && PinsKept(w, v) by { QueueTrans(w, w1, v); }
    FlowsTrans(w, w1, v);
    OrderlyTrans(w, w1, v);
    DutifulTrans(w, w1, v);
  }

  lemma QueueTrans(u: World, v: World, w: World)
    requires QueueKept(u, v) && QueueKept(v, w) && PinsKept(u, v) && PinsKept(v, w)
    ensures QueueKept(u, w) && PinsKept(u, w)
  {
  }

  lemma OverdrawnSkip(w: World, v: World, ls: seq<LinkId>)
    requires ls != [] && !Acquirable(w.topo, ls[0]) && Overdrawn(w, v, ls[1..])
    ensures Overdrawn(w, v, ls)
  {
    hide Excess, QueueKept, PinsKept, Flows, Orderly, Dutiful;
  }

  lemma OverdrawnKept(w: World, v: World, x: World, ls: seq<LinkId>)
    requires Overdrawn(w, v, ls) && Kept(v, x)
    ensures Overdrawn(w, x, ls)
  {
    hide Excess, QueueKept, PinsKept, Flows, Orderly, Dutiful;
    assert QueueKept(w, x) && PinsKept(w, x) by { QueueTrans(w, v, x); }
    FlowsTrans(w, v, x);
    OrderlyTrans(w, v, x);
    DutifulTrans(w, v, x);
  }

  // ----- the other phases -----

  lemma NotLostKept(w: World, v: World, s: Id, f: Flag)
    requires !Lost(w, s, f) && Kept(w, v)
    ensures !Lost(v, s, f)
  {
  }

  lemma NotLostBut(w: World, v: World, s: Id, f: Flag)
    requires !Lost(w, s, f) && KeptBut(w, v, s)
    ensures !Lost(v, s, f)
  {
  }

  lemma ToldIsFree(w: World, s: Id)
    requires FFailure in R(w, s).flags
    ensures !Held(R(w, s))
  {
  }

  lemma LoweredIsNotLost(w: World, v: World, s: Id, f: Flag)
    requires R(v, s) == R(w, s).(flags := R(w, s).flags - {f})
    ensures !Lost(v, s, f)
  {
  }

  lemma UnsetIsNotLost(w: World, s: Id, f: Flag)
    requires f !in R(w, s).flags
    ensures !Lost(w, s, f)
  {
  }

  function PhaseRequire(w: World, s: Id): (v: World)
    ensures Overdrawn(w, v, if FRequire in R(w, s).flags then Deps(w, s) else []) && !Lost(v, s, FRequire)
    ensures FRequire in R(w, s).flags ==>
      forall l :: l in Deps(w, s) && l in w.topo.links && l !in w.books.holding ==>
        (l in v.books.holding <==> L(w, l).kind != Before && L(w, l).kind != After)
    ensures FRequire !in R(w, s).flags ==> v == w
    ensures FFailure in R(w, s).flags ==> FFailure in R(v, s).flags
  {
    hide *;
    if FRequire in R(w, s).flags then
      var w1 := AcquireAll(w, Deps(w, s));
      var v := Lower(w1, s, FRequire);
      OverdrawnKept(w, w1, v, Deps(w, s));
      LoweredIsNotLost(w1, v, s, FRequire);
      StillFlagged(w, w1, s);
      AllAcquired(w, w1, s);
      v
    else
      OverdrawnNil(w);
      UnsetIsNotLost(w, s, FRequire);
      w
  }

  /** All but the ordering links have come to hold. */
  lemma AllAcquired(w: World, v: World, s: Id)
    requires v.books.holding == w.books.holding + (set l | l in Deps(w, s) && Acquirable(w.topo, l))
    ensures forall l :: l in Deps(w, s) && l in w.topo.links && l !in w.books.holding ==>
      (l in v.books.holding <==> L(w, l).kind != Before && L(w, l).kind != After)
  {
  }

  lemma StillFlagged(w: World, v: World, s: Id)
    requires MoreFlags(w, v)
    ensures FFailure in R(w, s).flags ==> FFailure in R(v, s).flags - {FRequire}
  {
    assert R(w, s).flags <= R(v, s).flags;
  }

  /** The link lets go of its target, which stops if it was the last to hold it. */
  function LetGoStop(w: World, l: LinkId, o: Answers): (v: World)
    ensures Kept(w, v) && Quiet(w, v) && (l in w.topo.links ==> l !in v.books.holding)
    ensures
      var to := L(w, l).to;
      l in w.books.holding && l in w.topo.links && Required(w.books, to) == 1 && !StartPinned(R(w, to)) && Stoppable(R(w, to)) ==>
      R(v, to).state == Stopping
  {
    hide *;
    KeptRefl(w);
    CalmRefl(w);
    if l in w.books.holding && l in w.topo.links then
      var w1 := Unhold(w, l);
      SameRecsAt(w, w1, L(w, l).to);
      SameRequired(w, w1, L(w, l).to);
      var v := Release(w1, L(w, l).to, o);
      OwedPaid(w, w1, v, L(w, l).to, 1);
      SameRecsCalm(w, w1);
      CalmIsQuiet(w, w1);
      QuietTrans(w, w1, v);
      QuietStill(w1, v);
      StillIs(w1, v);
      v
    else w
  }

  lemma SameRequired(w: World, v: World, s: Id)
    requires v.books.required == w.books.required
    ensures Required(v.books, s) == Required(w.books, s)
  {
  }

  /** All of the links let go. */
  function ReleaseAll(w: World, ls: seq<LinkId>, o: Answers): (v: World)
    ensures Kept(w, v) && Quiet(w, v) && forall l :: l in ls && l in w.topo.links ==> l !in v.books.holding
    decreases |ls|
  {
    hide *;
    KeptRefl(w);
    CalmRefl(w);
    if ls == [] then w
    else
      var w1 := LetGoStop(w, ls[0], o);
      var v := ReleaseAll(w1, ls[1..], o);
      KeptTrans(w, w1, v);
      QuietTrans(w, w1, v);
      KeptTopo(w, w1);
      QuietStill(w1, v);
      StillIs(w1, v);
      v
  }

  /** Releases what the service holds, if that was asked for.  Afterwards none of its links holds. */
  function PhaseRelease(w: World, s: Id, o: Answers): (v: World)
    ensures Kept(w, v) && !Lost(v, s, FRelease) && FRelease !in R(v, s).flags
    ensures FRelease in R(w, s).flags ==> !Clings(v, s) && Still(w, v)
    ensures FFailure in R(w, s).flags ==> FFailure in R(v, s).flags
    ensures FRelease in R(w, s).flags ==> forall t :: Required(v.books, t) <= Required(w.books, t) - |HeldBy(w, s, t)|
    ensures FRelease !in R(w, s).flags ==> v == w
  {
    hide *;
    if FRelease in R(w, s).flags then
      var w1 := ReleaseAll(w, Deps(w, s), o);
      LetGoes(w, w1, s);
      QuietAt(w, w1, s);
      QuietFlags(R(w, s), R(w1, s));
      var v := Lower(w1, s, FRelease);
      KeptTrans(w, w1, v);
      LoweredIsNotLost(w1, v, s, FRelease);
      QuietStill(w, w1);
      StillTrans(w, w1, v);
      LetGoes(w, v, s);
      ReleaseLowers(w, v, s);
      v
    else
      KeptRefl(w);
      UnsetIsNotLost(w, s, FRelease);
      w
  }

  lemma QuietFlags(a: Rec, b: Rec)
    requires QuietRec(a, b)
    ensures FFailure in a.flags ==> FFailure in b.flags
  {
  }

  /** The links of the service that hold `t`. */
  ghost function HeldBy(w: World, s: Id, t: Id): set<LinkId> {
    set l | l in w.books.holding && l in w.topo.links && w.topo.links[l].to == t && l in Deps(w, s)
  }

  /** With every link that lets go, a count goes down. */
  lemma ReleaseLowers(w: World, v: World, s: Id)
    requires Kept(w, v) && Still(w, v) && !Clings(v, s)
    ensures forall t :: Required(v.books, t) <= Required(w.books, t) - |HeldBy(w, s, t)|
  {
    forall t ensures Required(v.books, t) <= Required(w.books, t) - |HeldBy(w, s, t)| {
      KeptExcess(w, v, t);
      hide Kept;
      var a, b, c := Holders(w.topo, w.books.holding, t), Holders(v.topo, v.books.holding, t), HeldBy(w, s, t);
      assert b !! c && b + c <= a by { assert Deps(v, s) == Deps(w, s); }
      SubsetSize(b + c, a);
    }
  }

  lemma KeptExcess(w: World, v: World, t: Id)
    requires Kept(w, v)
    ensures Excess(v.topo, v.books, t) == Excess(w.topo, w.books, t)
  {
  }

  lemma SubsetSize(a: set<LinkId>, b: set<LinkId>)
    requires a <= b
    ensures |a| <= |b|
  {
    assert b == a + (b - a);
  }

  lemma StillTrans(u: World, v: World, w: World)
    requires Still(u, v) && Still(v, w)
    ensures Still(u, w)
  {
  }

  lemma LetGoes(w: World, v: World, s: Id)
    requires Kept(w, v) && forall l :: l in Deps(w, s) && l in w.topo.links ==> l !in v.books.holding
    ensures !Clings(v, s)
  {
    KeptTopo(w, v);
    hide Kept;
    assert Deps(v, s) == Deps(w, s);
  }

  /** A dependency has failed: so does the service, in whatever state it is by now, pinned or not. */
  function PhaseFailure(w: World, s: Id, o: Answers): (v: World)
    ensures Kept(w, v) && !Lost(v, s, FFailure)
    ensures FFailure in R(w, s).flags && (forall k :: o(k).chain != Next(s)) ==> R(v, s).state == Stopped
    ensures FFailure in R(w, s).flags ==> R(v, s).state == Stopped || Begun(w, v, s)
    ensures FFailure !in R(w, s).flags ==> v == w
  {
    hide *;
    if FFailure in R(w, s).flags then
      var w1 := Lower(w, s, FFailure);
      var w2 := SetState(w1, s, Stopped);
      var v := FailAndStop(w2, s, o);
      LoweredIsNotLost(w, w1, s, FFailure);
      ButTrans(w1, w2, v, s);
      NotLostBut(w1, v, s, FFailure);
      ToldIsFree(w, s);
      KeptIsBut(w, w1, s);
      ButTrans(w, w1, w2, s);
      ResignedOrderly(w, w2, v, s);
      StartsFree(w, w1, v, s);
      DownOrBegun(w, w2, v, s);
      v
    else
      KeptRefl(w);
      UnsetIsNotLost(w, s, FFailure);
      w
  }

  lemma DownOrBegun(w: World, w1: World, v: World, s: Id)
    requires KeptBut(w, w1, s) && KeptBut(w1, v, s) && R(w1, s).state == Stopped && Resigned(v, s)
    ensures R(v, s).state == Stopped || Begun(w, v, s)
  {
    hide Even, Flows, Holds, TopoOk, Stuck;
  }

  /** A service that was down in between and is starting now has begun to in between. */
  lemma ResignedOrderly(w: World, w1: World, v: World, s: Id)
    requires KeptBut(w, w1, s) && KeptBut(w1, v, s) && R(w1, s).state == Stopped && Resigned(v, s)
    ensures OrderlyAt(w, v, s)
  {
    hide Even, Flows, Holds, TopoOk, Stuck;
  }

  function PhaseStart(w: World, s: Id): (v: World)
    ensures Kept(w, v) && !Lost(v, s, FStart)
    ensures FStart in R(w, s).flags ==> R(v, s).state == if Startable(R(w, s)) then Starting else R(w, s).state
    ensures FStart in R(w, s).flags && Startable(R(w, s)) && R(w, s).state == Stopped ==> Engages(R(w, s), R(v, s))
    ensures FStart !in R(w, s).flags ==> v == w
  {
    hide *;
    if FStart in R(w, s).flags then
      var w1 := Lower(w, s, FStart);
      var v := DoStart(w1, s);
      LoweredIsNotLost(w, w1, s, FStart);
      NotLostKept(w1, v, s, FStart);
      LowerSameWaits(w, s);
      ThenKept(w, w1, v, s);
      LoweredStarts(R(w, s), R(v, s));
      v
    else
      KeptRefl(w);
      UnsetIsNotLost(w, s, FStart);
      w
  }

  lemma LoweredStarts(r: Rec, v: Rec)
    ensures
      var b := r.(flags := r.flags - {FStart});
      b.state == r.state && Startable(b) == Startable(r) && (Engages(b, v) ==> Engages(r, v))
  {
  }

  lemma LowerSameWaits(w: World, s: Id)
    ensures SameWaits(w, Lower(w, s, FStart), s) && Holds(R(w, s), R(Lower(w, s, FStart), s))
  {
    hide Kept, KeptBut, Calm;
  }

  /** Stops the service, if that was asked for and no pin keeps it up. */
  function PhaseStop(w: World, s: Id, o: Answers): (v: World)
    ensures Kept(w, v) && !Lost(v, s, FStop)
    ensures FStop in R(w, s).flags && !StartPinned(R(w, s)) && Stoppable(R(w, s)) ==> R(v, s).state == Stopping
    ensures FStop !in R(w, s).flags ==> v == w
    ensures R(w, s).inUserRestart ==> StaysActive(w, v, s)
    ensures R(w, s).state == Stopped ==> R(v, s).state == Stopped
  {
    hide *;
    if FStop in R(w, s).flags then
      var w1 := Unflag(w, s);
      var v := DoStop(w1, s, R(w1, s).inUserRestart, o);
      LoweredIsNotLost(w, w1, s, FStop);
      NotLostKept(w1, v, s, FStop);
      LoweredState(R(w, s), FStop);
      PinnedIs(R(w1, s));
      StopHeeded(w1, v, s);
      RestartsWith(w1, s, o);
      ActiveSince(w, w1, v, s);
      DownStays(w1, v, s);
      Acquit(w, w1, v, s);
      v
    else
      KeptRefl(w);
      ActiveIs(w, w, s);
      UnsetIsNotLost(w, s, FStop);
      w
  }

  lemma RestartsWith(w: World, s: Id, o: Answers)
    ensures Restarts(w, s, true, o)
  {
  }

  lemma ActiveSince(w: World, w1: World, v: World, s: Id)
    requires w1.books == w.books
    ensures StaysActive(w1, v, s) ==> StaysActive(w, v, s)
  {
  }

  lemma LoweredState(r: Rec, f: Flag)
    ensures
      var b := r.(flags := r.flags - {f});
      b.inUserRestart == r.inUserRestart && StartPinned(b) == StartPinned(r) && Stoppable(b) == Stoppable(r) && b.state == r.state
  {
  }

  lemma DownStays(w: World, v: World, s: Id)
    requires Quiet(w, v)
    ensures R(w, s).state == Stopped ==> R(v, s).state == Stopped
  {
    QuietAt(w, v, s);
  }

  /** A stop leaves no service up that is not pinned. */
  lemma StopHeeded(w: World, v: World, s: Id)
    requires Quiet(w, v) && (StartPinned(R(w, s)) ==> v == w) && (!StartPinned(R(w, s)) && Stoppable(R(w, s)) ==> R(v, s).state == Stopping)
    ensures !Ignored(v, s)
  {
    QuietAt(w, v, s);
  }

  /** Tells hard dependencies whose mark differs that a dependent's pin has changed. */
  function TellPins(w: World, ls: seq<LinkId>, pin: bool): (v: World)
    ensures Kept(w, v) && v.books == w.books && Calm(w, v)
    ensures forall l :: l in ls && AlwaysHard(w, l) && R(w, L(w, l).to).deptPinned != pin ==> FPin in R(v, L(w, l).to).flags
    decreases |ls|
  {
    hide *;
    KeptRefl(w);
    CalmRefl(w);
    if ls == [] then w
    else
      var w1 := TellPin(w, ls[0], pin);
      var v := TellPins(w1, ls[1..], pin);
      KeptTrans(w, w1, v);
      CalmTrans(w, w1, v);
      PinsToldAll(w, w1, v, ls, pin);
      v
  }

  function TellPin(w: World, l: LinkId, pin: bool): (v: World)
    ensures Kept(w, v) && v.books == w.books && Calm(w, v)
    ensures AlwaysHard(w, l) && R(w, L(w, l).to).deptPinned != pin ==> FPin in R(v, L(w, l).to).flags
  {
    hide Kept, Calm;
    KeptRefl(w);
    CalmRefl(w);
    if IsHard(w, l) && R(w, L(w, l).to).deptPinned != pin then Raise(w, L(w, l).to, FPin) else w
  }

  lemma PinsToldAll(w: World, w1: World, v: World, ls: seq<LinkId>, pin: bool)
    requires ls != [] && Kept(w, w1) && Calm(w, w1) && Calm(w1, v)
    requires AlwaysHard(w, ls[0]) && R(w, L(w, ls[0]).to).deptPinned != pin ==> FPin in R(w1, L(w, ls[0]).to).flags
    requires forall l :: l in ls[1..] && AlwaysHard(w1, l) && R(w1, L(w1, l).to).deptPinned != pin ==> FPin in R(v, L(w1, l).to).flags
    ensures forall l :: l in ls && AlwaysHard(w, l) && R(w, L(w, l).to).deptPinned != pin ==> FPin in R(v, L(w, l).to).flags
  {
    hide Kept, Calm;
    KeptTopo(w, w1);
    forall l | l in ls && AlwaysHard(w, l) && R(w, L(w, l).to).deptPinned != pin ensures FPin in R(v, L(w, l).to).flags {
      SameHard(w, w1, l);
      CalmAt(w, w1, L(w, l).to);
      CalmAt(w1, v, L(w, l).to);
    }
  }

  predicate HasPinnedDependent(w: World, s: Id) {
    exists l :: l in Dpts(w, s) && IsHard(w, l) && StartPinned(R(w, L(w, l).from))
  }

  /** The mark for a pinned dependent changes; what the service was told meanwhile no longer counts. */
  function SetDeptPinned(w: World, s: Id, pin: bool): (v: World)
    ensures Kept(w, v) && v.books == w.books && v.topo == w.topo && forall t :: t != s ==> R(v, t) == R(w, t)
    ensures R(v, s) == R(w, s).(deptPinned := pin)
  {
    var w1 := Forgive(w, s);
    SameRecsAt(w, w1, s);
    DeptPinnedRec(w1.past, s, R(w1, s), pin);
    hide *;
    var v := Set(w1, s, R(w1, s).(deptPinned := pin));
    KeptTrans(w, w1, v);
    SetAlone(w, w1, v, s);
    v
  }

  lemma DeptPinnedRec(h: History, s: Id, r: Rec, pin: bool)
    requires s !in h.told
    ensures
      var b := r.(deptPinned := pin);
      Replaces(b, r) && Heeds(h, s, r, b) && Holds(r, b) && Unmoved(r, b)
  {
  }

  lemma SetAlone(w: World, w1: World, v: World, s: Id)
    requires w1.recs == w.recs && forall t :: t != s ==> R(v, t) == R(w1, t)
    ensures forall t :: t != s ==> R(v, t) == R(w, t)
  {
    forall t | t != s ensures R(v, t) == R(w, t) { assert R(w1, t) == R(w, t); }
  }

  /** Brings the mark for a pinned dependent up to date.  A service that is to stop and loses its last
      pin that way stops. */
  function RePin(w: World, s: Id, o: Answers): (v: World)
    ensures Kept(w, v) && R(v, s).deptPinned == HasPinnedDependent(w, s) && (R(w, s).state != Started ==> R(v, s).state == R(w, s).state)
    ensures R(w, s).deptPinned && !HasPinnedDependent(w, s) && !R(w, s).pinnedStarted && R(w, s).state == Started ==>
      R(w, s).desired == Stopped || R(w, s).forceStop ==> R(v, s).state == Stopping
    ensures R(w, s).deptPinned != HasPinnedDependent(w, s) ==> PassedOn(w, v, s, HasPinnedDependent(w, s))
  {
    hide *;
    KeptRefl(w);
    var pin := HasPinnedDependent(w, s);
    if pin == R(w, s).deptPinned then w
    else
      var w1 := SetDeptPinned(w, s, pin);
      var w2 := TellPins(w1, Deps(w1, s), pin);
      KeptTrans(w, w1, w2);
      CalmAt(w1, w2, s);
      RePinned(R(w, s), R(w2, s), pin);
      KeptTopo(w, w1);
      PassesOn(w, w1, w2, s, pin);
      var r := R(w2, s);
      if !StartPinned(r) && (r.desired == Stopped || r.forceStop) && r.state == Started then
        var v := StopStarted(w2, s, o);
        KeptTrans(w, w2, v);
        StaysPassedOn(w, w2, v, s, pin);
        v
      else w2
  }

  /** What the service depends on hard, and whose mark for pinned dependents is to change, is flagged to
      look at it. */
  ghost predicate PassedOn(w: World, v: World, s: Id, pin: bool) {
    forall l :: l in Deps(w, s) && L(w, l).to != s && AlwaysHard(w, l) && R(w, L(w, l).to).deptPinned != pin ==> FPin in R(v, L(w, l).to).flags
  }

  lemma PassesOn(w: World, w1: World, v: World, s: Id, pin: bool)
    requires w1.topo == w.topo && forall t :: t != s ==> R(w1, t) == R(w, t)
    requires forall l :: l in Deps(w1, s) && AlwaysHard(w1, l) && R(w1, L(w1, l).to).deptPinned != pin ==> FPin in R(v, L(w1, l).to).flags
    ensures PassedOn(w, v, s, pin)
  {
    forall l | l in Deps(w, s) && L(w, l).to != s && AlwaysHard(w, l) && R(w, L(w, l).to).deptPinned != pin ensures FPin in R(v, L(w, l).to).flags {
      SameHard(w, w1, l);
      assert l in Deps(w1, s) && R(w1, L(w, l).to) == R(w, L(w, l).to);
    }
  }

  lemma StaysPassedOn(w: World, w1: World, v: World, s: Id, pin: bool)
    requires PassedOn(w, w1, s, pin) && Quiet(w1, v)
    ensures PassedOn(w, v, s, pin)
  {
    forall t | FPin in R(w1, t).flags ensures FPin in R(v, t).flags { QuietAt(w1, v, t); }
    hide Quiet;
  }

  /** Stops a service that is up. */
  function StopStarted(w: World, s: Id, o: Answers): (v: World)
    requires R(w, s).state == Started
    ensures Kept(w, v) && Quiet(w, v) && R(v, s).deptPinned == R(w, s).deptPinned && (!StartPinned(R(w, s)) ==> R(v, s).state == Stopping)
  {
    hide *;
    var v := DoStop(w, s, false, o);
    StartedStops(R(w, s));
    QuietAt(w, v, s);
    QuietPins(R(w, s), R(v, s));
    v
  }

  lemma RePinned(a: Rec, b: Rec, pin: bool)
    requires CalmRec(a.(deptPinned := pin), b)
    ensures b.deptPinned == pin && b.state == a.state && (StartPinned(b) <==> pin || a.pinnedStarted) && (a.desired == Stopped ==> b.desired == Stopped) && (a.forceStop ==> b.forceStop)
  {
  }

  lemma StartedStops(r: Rec)
    requires r.state == Started
    ensures Stoppable(r)
  {
  }

  lemma QuietPins(a: Rec, b: Rec)
    requires QuietRec(a, b)
    ensures b.deptPinned == a.deptPinned
  {
  }

  function PhasePin(w: World, s: Id, o: Answers): (v: World)
    ensures Kept(w, v) && !Lost(v, s, FPin)
    ensures FPin in R(w, s).flags ==> R(v, s).deptPinned == HasPinnedDependent(w, s)
    ensures FPin in R(w, s).flags && (exists l :: l in Dpts(w, s) && AlwaysHard(w, l) && (R(w, L(w, l).from).pinnedStarted || R(w, L(w, l).from).deptPinned)) ==> R(v, s).deptPinned
    ensures FPin in R(w, s).flags && R(v, s).deptPinned ==> exists l :: l in Dpts(w, s) && !NeverHard(w, l) && (R(w, L(w, l).from).pinnedStarted || R(w, L(w, l).from).deptPinned)
    ensures FPin !in R(w, s).flags ==> v == w
    ensures R(w, s).state != Started ==> R(v, s).state == R(w, s).state
  {
    hide *;
    if FPin in R(w, s).flags then
      var w1 := Lower(w, s, FPin);
      var v := RePin(w1, s, o);
      SamePinned(w, s);
      PinnedByHard(w, s);
      LoweredIsNotLost(w, w1, s, FPin);
      NotLostKept(w1, v, s, FPin);
      KeptTrans(w, w1, v);
      v
    else
      KeptRefl(w);
      UnsetIsNotLost(w, s, FPin);
      w
  }

  /** Whoever depends hard on the service and is pinned pins it, and nobody else does. */
  lemma PinnedByHard(w: World, s: Id)
    ensures (exists l :: l in Dpts(w, s) && AlwaysHard(w, l) && (R(w, L(w, l).from).pinnedStarted || R(w, L(w, l).from).deptPinned)) ==> HasPinnedDependent(w, s)
    ensures HasPinnedDependent(w, s) ==> exists l :: l in Dpts(w, s) && !NeverHard(w, l) && (R(w, L(w, l).from).pinnedStarted || R(w, L(w, l).from).deptPinned)
  {
  }

  lemma SamePinned(w: World, s: Id)
    ensures HasPinnedDependent(Lower(w, s, FPin), s) == HasPinnedDependent(w, s)
  {
    hide Kept, KeptBut, Calm, Still;
    var v := Lower(w, s, FPin);
    forall l ensures StartPinned(R(v, L(v, l).from)) == StartPinned(R(w, L(w, l).from)) {}
    assert forall l :: IsHard(v, l) == IsHard(w, l);
  }

  /** The whole pass over one record.  It leaves no flag of the record behind unless the record
      is queued again. */
  function DoPropagation(w: World, s: Id, o: Answers): (v: World)
    ensures Overdrawn(w, v, if FRequire in R(w, s).flags then Deps(w, s) else [])
    ensures forall f :: !Lost(v, s, f)
    ensures FFailure in R(w, s).flags ==> R(v, s).state == Stopped || Begun(w, v, s)
    ensures R(w, s).flags == {FPin} ==> R(v, s).deptPinned == HasPinnedDependent(w, s)
  {
    hide *;
    var ls := if FRequire in R(w, s).flags then Deps(w, s) else [];
    var w1 := PhaseRequire(w, s);
    var w2 := PhaseRelease(w1, s, o);
    var w3 := PhaseFailure(w2, s, o);
    var w4 := PhaseStart(w3, s);
    var w5 := PhaseStop(w4, s, o);
    var v := PhasePin(w5, s, o);
    KeptTrans(w4, w5, v);
    assert FFailure in R(w, s).flags ==> R(v, s).state == Stopped || Begun(w, v, s) by {
      if FFailure in R(w, s).flags { GoneOrBegun(w, w1, w2, w3, w4, v, s, ls); }
    }
    KeptTrans(w3, w4, v);
    KeptTrans(w2, w3, v);
    KeptTrans(w1, w2, v);
    OverdrawnKept(w, w1, v, ls);
    NotLostKept(w1, v, s, FRequire);
    NotLostKept(w2, v, s, FRelease);
    NotLostKept(w3, v, s, FFailure);
    NotLostKept(w4, v, s, FStart);
    NotLostKept(w5, v, s, FStop);
    assert forall f :: !Lost(v, s, f) by { AllFlags(v, s); }
    v
  }

  /** A failed service that is not down afterwards was started again. */
  lemma GoneOrBegun(w: World, w1: World, w2: World, w3: World, w4: World, v: World, s: Id, ls: seq<LinkId>)
    requires Overdrawn(w, w1, ls) && Kept(w1, w2) && Kept(w2, w3) && Kept(w3, w4) && Kept(w4, v)
    requires R(w4, s).state == Stopped ==> R(v, s).state == Stopped
    requires R(w3, s).state != Stopped ==> Begun(w2, w3, s)
    requires R(w4, s).state == R(w3, s).state || R(w4, s).state == Starting
    ensures R(v, s).state == Stopped || Begun(w, v, s)
  {
    assert Chronicled(w, w1) && Chronicled(w1, w2) && Chronicled(w2, w3) && Chronicled(w3, w4) && Chronicled(w4, v) by {
      hide Chronicled, QueueKept, Dutiful, Flows, PinsKept;
    }
    hide Kept, Overdrawn;
  }

  lemma AllFlags(w: World, s: Id)
    requires !Lost(w, s, FRequire) && !Lost(w, s, FRelease) && !Lost(w, s, FFailure)
    requires !Lost(w, s, FStart) && !Lost(w, s, FStop) && !Lost(w, s, FPin)
    ensures forall f :: !Lost(w, s, f)
  {
    forall f ensures !Lost(w, s, f) {
      match f case FRequire => case FRelease => case FFailure => case FStart => case FStop => case FPin =>
    }
  }
}
