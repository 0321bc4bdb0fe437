/** Runs of the service state machine: every request, every queue step and everything the
    services themselves do, in any order. */
module ServiceRuns {
  import opened Sequences
  import opened Services
  import opened Records
  import opened StopMachine
  import opened StartMachine
  import opened Propagation

  // ----- requests -----

  /** Takes an explicit activation back, and with it one from the count. */
  function Unactivate(w: World, s: Id): (v: World)
    ensures Kept(w, v) && v == w.(books := v.books) && v.books.explicit == w.books.explicit - {s} && v.books.holding == w.books.holding
    ensures Required(v.books, s) == Required(w.books, s) - if s in w.books.explicit then 1 else 0
  {
    hide Kept, Owed;
    KeptRefl(w);
    if s in w.books.explicit then
      var w1 := Unexplicit(w, s);
      var v := Charge(w1, s);
      OwedPaid(w, w1, v, s, 1);
      v
    else w
  }

  /** A request to stop brings the service down: it says so, or nobody else requires the service. */
  predicate BringsDown(w: World, s: Id, bringDown: bool) {
    bringDown || Required(w.books, s) == if s in w.books.explicit then 1 else 0
  }

  /** The explicit activation goes.  A service that is to come down is no longer wanted; unless it is
      pinned, it then stops if it can, telling what depends on it, and one that nobody requires is to
      release what it holds. */
  function Stop(w: World, s: Id, bringDown: bool, o: Answers): (v: World)
    ensures Kept(w, v) && s !in v.books.explicit
    ensures !BringsDown(w, s, bringDown) ==> v.recs == w.recs
    ensures BringsDown(w, s, bringDown) ==> R(v, s).desired == Stopped
    ensures BringsDown(w, s, bringDown) && !StartPinned(R(w, s)) && Stoppable(R(w, s)) ==>
      && R(v, s).state == Stopping && Underway(v, s)
      && forall l :: l in Dpts(w, s) && AlwaysHard(w, l) && L(w, l).from != s ==> Notified(w, v, L(w, l).from)
    ensures BringsDown(w, s, false) ==> LetDown(R(w, s), R(v, s))
  {
    hide *;
    var w1 := Unactivate(w, s);
    SameRecsAt(w, w1, s);
    var none := Required(w1.books, s) == 0;
    BringsDownIs(w, s, bringDown);
    BringsDownIs(w, s, false);
    if !(bringDown || none) then w1
    else
      var w2 := SetDesired(w1, s, Stopped);
      KeptTrans(w, w1, w2);
      DismissedRec(R(w1, s));
      if StartPinned(R(w2, s)) then
        LetsDown(R(w, s), R(w2, s));
        w2
      else
        KeptRefl(w2);
        var w3 := if none then AskOrSkip(w2, s) else w2;
        KeptTrans(w, w2, w3);
        SkippedRec(R(w2, s), R(w3, s));
        if R(w3, s).state == Stopped then
          LetsDown(R(w, s), R(w3, s));
          NotStoppable(R(w3, s));
          w3
        else
          var v := DoStop(w3, s, false, o);
          KeptTrans(w, w3, v);
          StopKeepsRelease(w3, v, s);
          LetsDown(R(w, s), R(v, s));
          QuietStill(w3, v);
          StillIs(w3, v);
          KeptTopo(w, w3);
          NotifiedFrom(w, w1, w2, w3, v, s);
          v
  }

  lemma BringsDownIs(w: World, s: Id, bringDown: bool)
    ensures BringsDown(w, s, bringDown) <==> bringDown || Required(w.books, s) - (if s in w.books.explicit then 1 else 0) == 0
  {
  }

  lemma DismissedRec(r: Rec)
    ensures
      var b := r.(desired := Stopped);
      StartPinned(b) == StartPinned(r) && Stoppable(b) == Stoppable(r) && b.flags == r.flags && b.state == r.state
  {
  }

  lemma SkippedRec(a: Rec, b: Rec)
    requires b == a || b == a.(flags := b.flags, inProp := b.inProp)
    ensures StartPinned(b) == StartPinned(a) && Stoppable(b) == Stoppable(a) && b.state == a.state && b.desired == a.desired
  {
  }

  lemma NotStoppable(r: Rec)
    requires r.state == Stopped
    ensures !Stoppable(r)
  {
  }

  /** Nobody requires the service: it is to release what it holds, unless it has not acquired it yet. */
  function AskOrSkip(w: World, s: Id): (v: World)
    ensures Kept(w, v) && v.books == w.books && v.topo == w.topo && (forall t :: t != s ==> R(v, t) == R(w, t))
    ensures R(v, s) == R(w, s).(flags := R(v, s).flags, inProp := R(v, s).inProp)
    ensures (FRequire in R(v, s).flags <==> FRequire in R(w, s).flags) && (FRequire in R(w, s).flags || FRelease in R(v, s).flags)
  {
    hide Kept, KeptBut, Calm, Still;
    if FRequire in R(w, s).flags then
      var w1 := Waive(w, s);
      var v := Lower(w1, s, FRelease);
      KeptTrans(w, w1, v);
      v
    else Raise(w, s, FRelease)
  }

  lemma StopKeepsRelease(w: World, v: World, s: Id)
    requires Quiet(w, v) && R(w, s).desired == Stopped
    ensures R(v, s).desired == Stopped && (FRelease in R(w, s).flags && FRequire !in R(w, s).flags ==> FRelease in R(v, s).flags)
  {
    QuietAt(w, v, s);
  }

  lemma NotifiedFrom(w: World, w1: World, w2: World, w3: World, v: World, s: Id)
    requires w1.recs == w.recs && w3.topo == w.topo && (forall t :: t != s ==> R(w2, t) == R(w1, t) && R(w3, t) == R(w2, t))
    requires forall l :: l in Dpts(w3, s) && AlwaysHard(w3, l) ==> Notified(w3, v, L(w3, l).from)
    ensures forall l :: l in Dpts(w, s) && AlwaysHard(w, l) && L(w, l).from != s ==> Notified(w, v, L(w, l).from)
  {
    forall l | l in Dpts(w, s) && AlwaysHard(w, l) && L(w, l).from != s ensures Notified(w, v, L(w, l).from) {
      assert l in Dpts(w3, s) && AlwaysHard(w3, l) && L(w3, l) == L(w, l);
      assert R(w3, L(w, l).from) == R(w, L(w, l).from);
      assert Notified(w3, v, L(w3, l).from);
    }
  }

  predicate HasActiveDependent(w: World, s: Id) {
    exists l :: l in Dpts(w, s) && Wakes(w, l)
  }

  /** The service may be woken: no pin keeps it down, and it does not wait for the operator. */
  predicate MayWake(w: World, s: Id) {
    !R(w, s).pinnedStopped && (R(w, s).manual ==> s in w.books.explicit)
  }

  /** Starts a service that one of its dependents wants, which then holds it. */
  function Wake(w: World, s: Id): (v: World)
    ensures Kept(w, v)
    ensures MayWake(w, s) && HasActiveDependent(w, s) ==> R(v, s).state == if Startable(R(w, s)) then Starting else R(w, s).state
    ensures MayWake(w, s) && HasActiveDependent(w, s) ==>
      forall l :: l in Dpts(w, s) && l in w.topo.links && L(w, l).kind != Before && L(w, l).kind != After ==>
        R(w, L(w, l).from).state == Started || R(w, L(w, l).from).state == Starting ==> l in v.books.holding
    ensures !(MayWake(w, s) && HasActiveDependent(w, s)) ==> v == w
  {
    hide *;
    KeptRefl(w);
    MayWakeIs(w, s);
    if R(w, s).pinnedStopped || (R(w, s).manual && s !in w.books.explicit) then w
    else
      var w1 := AttachActive(w, Dpts(w, s));
      if HasActiveDependent(w, s) then
        var v := DoStart(w1, s);
        AttachedRecs(w, w1, Dpts(w, s));
        SameRecsAt(w, w1, s);
        WokenKeeps(w, w1, s);
        ThenKept(w, w1, v, s);
        v
      else
        NobodyWakes(w, s);
        w1
  }

  lemma MayWakeIs(w: World, s: Id)
    ensures MayWake(w, s) <==> !(R(w, s).pinnedStopped || (R(w, s).manual && s !in w.books.explicit))
  {
  }

  lemma NobodyWakes(w: World, s: Id)
    requires !HasActiveDependent(w, s)
    ensures AttachActive(w, Dpts(w, s)) == w
  {
    hide Attached;
    assert forall l :: l in Dpts(w, s) ==> !Wakes(w, l);
  }

  lemma WokenKeeps(w: World, v: World, s: Id)
    requires Attached(w, v, Dpts(w, s)) && forall l :: l in v.books.holding && l !in w.books.holding ==> Wakes(w, l)
    ensures KeptBut(w, v, s) && Holds(R(w, s), R(v, s)) && SameWaits(w, v, s)
  {
    AttachedOrderly(w, v, s);
    WokenFlows(w, v, s);
    hide OrderlyBut, Flows, Even, LedTo;
  }

  lemma WokenFlows(w: World, v: World, s: Id)
    requires Attached(w, v, Dpts(w, s)) && forall l :: l in v.books.holding && l !in w.books.holding ==> Wakes(w, l)
    ensures Flows(w, v)
  {
    hide Even, LedTo, TopoOk;
    forall t | Stuck(v, t) ensures Stuck(w, t) { assert Deps(v, t) == Deps(w, t); }
  }

  /** Sets the pins; what a service that loses one was told meanwhile no longer counts. */
  function SetPins(w: World, s: Id, started: bool, stopped: bool): (v: World)
    ensures KeptBut(w, v, s) && Orderly(w, v) && v.books == w.books && v.topo == w.topo
    ensures (R(w, s).pinnedStarted ==> started) && (R(w, s).pinnedStopped ==> stopped) ==> Kept(w, v)
    ensures R(v, s) == R(w, s).(pinnedStarted := started, pinnedStopped := stopped) && forall t :: t != s ==> R(v, t) == R(w, t)
  {
    hide *;
    KeptRefl(w);
    var w1 := if R(w, s).pinnedStarted && !started then Forgive(w, s) else w;
    SameRecsAt(w, w1, s);
    PinRec(w1.past, s, R(w1, s), started, stopped);
    var v := Set(w1, s, R(w1, s).(pinnedStarted := started, pinnedStopped := stopped));
    KeptIsBut(w, w1, s);
    ButTrans(w, w1, v, s);
    KeptOrderly(w, w1);
    OrderlyTrans(w, w1, v);
    SetAlone(w, w1, v, s);
    v
  }

  lemma PinRec(h: History, s: Id, r: Rec, started: bool, stopped: bool)
    requires s in h.told && r.pinnedStarted ==> started
    ensures
      var b := r.(pinnedStarted := started, pinnedStopped := stopped);
      && Replaces(b, r) && Heeds(h, s, r, b) && Unmoved(r, b)
      && ((r.pinnedStarted ==> started) && (r.pinnedStopped ==> stopped) ==> Holds(r, b))
  {
  }

  /** Pins the service up, and tells what it depends on. */
  function PinStart(w: World, s: Id): (v: World)
    ensures Kept(w, v) && R(v, s).pinnedStarted
    ensures !StartPinned(R(w, s)) ==> PassedOn(w, v, s, true)
  {
    hide *;
    KeptRefl(w);
    PinnedIs(R(w, s));
    if R(w, s).pinnedStarted then w
    else
      var w1 := if R(w, s).deptPinned then w else TellPins(w, Deps(w, s), true);
      var v := SetPins(w1, s, true, R(w1, s).pinnedStopped);
      KeptTrans(w, w1, v);
      AllPassedOn(w, w1, v, s);
      v
  }

  lemma AllPassedOn(w: World, w1: World, v: World, s: Id)
    requires forall t :: t != s ==> R(v, t) == R(w1, t)
    ensures (forall l :: l in Deps(w, s) && AlwaysHard(w, l) && R(w, L(w, l).to).deptPinned != true ==> FPin in R(w1, L(w, l).to).flags) ==>
      PassedOn(w, v, s, true)
  {
  }

  function PinStop(w: World, s: Id): (v: World)
    ensures Kept(w, v) && R(v, s).pinnedStopped
  {
    SetPins(w, s, R(w, s).pinnedStarted, true)
  }

  /** The pin is gone: what it held up may come down. */
  function UnpinStart(w: World, s: Id, o: Answers): (v: World)
    ensures Kept(w, v)
    ensures R(w, s).state == Started && !StartPinned(R(w, s)) ==> R(w, s).desired == Stopped || R(w, s).forceStop ==> R(v, s).state == Stopping
    ensures PassedOn(w, v, s, false)
  {
    hide *;
    KeptRefl(w);
    var w1 := TellPins(w, Deps(w, s), false);
    PassesOn(w, w, w1, s, false);
    CalmAt(w, w1, s);
    PinsGone(R(w, s), R(w1, s));
    if R(w1, s).state != Started then w1
    else
      var w2 := AskIfUnneeded(w1, s);
      KeptTrans(w, w1, w2);
      CalmIsQuiet(w1, w2);
      StaysPassedOn(w, w1, w2, s, false);
      CalmRefl(w2);
      var v := if R(w2, s).desired == Stopped || R(w2, s).forceStop then StopStarted(w2, s, o) else w2;
      KeptRefl(w2);
      KeptTrans(w, w2, v);
      StaysPassedOn(w, w2, v, s, false);
      v
  }

  lemma PinsGone(a: Rec, b: Rec)
    requires CalmRec(a, b)
    ensures b.state == a.state && StartPinned(b) == StartPinned(a) && (a.desired == Stopped ==> b.desired == Stopped) && (a.forceStop ==> b.forceStop)
  {
  }

  /** A service that nobody requires is to release what it holds. */
  function AskIfUnneeded(w: World, s: Id): (v: World)
    ensures Kept(w, v) && Calm(w, v) && (Required(w.books, s) == 0 ==> FRelease in R(v, s).flags)
    ensures R(v, s).state == R(w, s).state && R(v, s).desired == R(w, s).desired && R(v, s).forceStop == R(w, s).forceStop
    ensures StartPinned(R(v, s)) == StartPinned(R(w, s))
  {
    hide Kept, Calm;
    KeptRefl(w);
    CalmRefl(w);
    if Required(w.books, s) == 0 then Raise(w, s, FRelease) else w
  }

  /** Takes the pins off.  A service that is to stop, and that no dependent's pin keeps up, stops. */
  function Unpin(w: World, s: Id, o: Answers): (v: World)
    ensures KeptBut(w, v, s) && Orderly(w, v)
    ensures R(w, s).pinnedStarted && !R(w, s).deptPinned && R(w, s).state == Started ==>
      R(w, s).desired == Stopped || R(w, s).forceStop ==> R(v, s).state == Stopping
    ensures R(w, s).pinnedStarted && R(w, s).deptPinned ==> R(v, s) == R(w, s).(pinnedStarted := false)
    ensures !(R(w, s).pinnedStarted && R(w, s).deptPinned) ==> !R(v, s).pinnedStopped
    ensures R(w, s).pinnedStarted && !R(w, s).deptPinned ==> PassedOn(w, v, s, false)
  {
    hide *;
    var r := R(w, s);
    if r.pinnedStarted && r.deptPinned then
      SameStopPin(r);
      SetPins(w, s, false, r.pinnedStopped)
    else
      var w1 := SetPins(w, s, false, r.pinnedStopped);
      KeptRefl(w1);
      UnpinnedRec(r);
      var w2 := if r.pinnedStarted then UnpinStart(w1, s, o) else w1;
      var v := SetPins(w2, s, R(w2, s).pinnedStarted, false);
      KeptIsBut(w1, w2, s);
      ButTrans(w, w1, w2, s);
      ButTrans(w, w2, v, s);
      KeptOrderly(w1, w2);
      OrderlyTrans(w, w1, w2);
      OrderlyTrans(w, w2, v);
      SamePinnedState(R(w2, s), R(w2, s).pinnedStarted, false);
      PassedAcross(w, w1, w2, v, s);
      v
  }

  lemma UnpinnedRec(r: Rec)
    ensures
      var b := r.(pinnedStarted := false, pinnedStopped := r.pinnedStopped);
      StartPinned(b) == r.deptPinned && b.state == r.state && b.desired == r.desired && b.forceStop == r.forceStop
  {
  }

  lemma PassedAcross(w: World, w1: World, w2: World, v: World, s: Id)
    requires w1.topo == w.topo && (forall t :: t != s ==> R(w1, t) == R(w, t) && R(v, t) == R(w2, t))
    ensures PassedOn(w1, w2, s, false) ==> PassedOn(w, v, s, false)
  {
    if PassedOn(w1, w2, s, false) {
      forall l | l in Deps(w, s) && L(w, l).to != s && AlwaysHard(w, l) && R(w, L(w, l).to).deptPinned ensures FPin in R(v, L(w, l).to).flags {
        SameHard(w, w1, l);
        assert l in Deps(w1, s) && R(w1, L(w, l).to) == R(w, L(w, l).to);
      }
    }
  }

  lemma SameStopPin(r: Rec)
    ensures r.(pinnedStarted := false, pinnedStopped := r.pinnedStopped) == r.(pinnedStarted := false)
  {
  }

  lemma SamePinnedState(r: Rec, started: bool, stopped: bool)
    ensures
      var b := r.(pinnedStarted := started, pinnedStopped := stopped);
      b.state == r.state && b.pinnedStopped == stopped
  {
  }

  // ----- changing the links -----

  /** The books against whatever links there now are. */
  ghost predicate Accounted(w: World, v: World) {
    && (forall s :: Excess(v.topo, v.books, s) == Excess(w.topo, w.books, s))
    && QueueKept(w, v)
  }

  predicate Fresh(w: World, l: LinkId) {
    l !in w.topo.links && l !in w.books.holding && l !in w.waiting
  }

  function Connect(w: World, l: LinkId, k: Link): (v: World)
    requires Fresh(w, l)
    ensures Accounted(w, v) && v.books == w.books && v.recs == w.recs && l in v.topo.links && L(v, l) == k
  {
    assert forall s :: Holders(Topo(w.topo.links[l := k], w.topo.deps, w.topo.dpts), w.books.holding, s)
                    == Holders(w.topo, w.books.holding, s);
    var t := Topo(w.topo.links[l := k],
                  w.topo.deps[k.from := Deps(w, k.from) + [l]],
                  w.topo.dpts[k.to := Dpts(w, k.to) + [l]]);
    assert forall s :: Holders(t, w.books.holding, s) == Holders(w.topo, w.books.holding, s);
    w.(topo := t, past := w.past.(lacking := w.past.lacking - {l}))
  }

  /** Adds a link; a service that is up acquires the new dependency at once. */
  function AddDep(w: World, l: LinkId, k: Link): (v: World)
    ensures Accounted(w, v) && PinsKept(w, v)
    ensures Fresh(w, l) ==> l in v.topo.links && L(v, l) == k && (l in v.books.holding <==> AcquiresNew(w, k))
    ensures !Fresh(w, l) ==> v == w
  {
    hide *;
    if Fresh(w, l) then
      var w1 := Connect(w, l, k);
      FreshIsFree(w, l);
      AcquiresNewIs(w, w1, k);
      if !IsOnlyOrdering(k.kind) && (k.kind == Regular || k.kind == PreparedBy || Up(R(w1, k.to))) && Up(R(w1, k.from)) then
        NotOrdering(w1, l);
        var v := Acquire(w1, l);
        OwedIsAccounted(w, w1, v, k.to);
        OwedTopo(w1, v, k.to, 0);
        SameLink(w1, v, l);
        v
      else
        SameRecords(w, w1);
        w1
    else AccountedRefl(w); w
  }

  /** A service that is up acquires a new dependency: one that it needs in any case, one that it does
      not need if that is up too, and none that only orders. */
  ghost predicate AcquiresNew(w: World, k: Link) {
    && (R(w, k.from).state == Started || R(w, k.from).state == Starting)
    && match k.kind
       case Regular => true
       case PreparedBy => true
       case Before => false
       case After => false
       case _ => R(w, k.to).state == Started || R(w, k.to).state == Starting
  }

  lemma AcquiresNewIs(w: World, w1: World, k: Link)
    requires w1.recs == w.recs
    ensures !IsOnlyOrdering(k.kind) && (k.kind == Regular || k.kind == PreparedBy || Up(R(w1, k.to))) && Up(R(w1, k.from)) <==> AcquiresNew(w, k)
  {
  }

  lemma SameLink(w: World, v: World, l: LinkId)
    requires v.topo == w.topo
    ensures L(v, l) == L(w, l)
  {
  }

  lemma NotOrdering(w: World, l: LinkId)
    requires !IsOnlyOrdering(L(w, l).kind)
    ensures !IsOrdering(w, l)
  {
  }

  lemma FreshIsFree(w: World, l: LinkId)
    requires Fresh(w, l)
    ensures l !in w.books.holding
  {
  }

  lemma AccountedRefl(w: World)
    ensures Accounted(w, w) && PinsKept(w, w)
  {
  }

  lemma OwedIsAccounted(w: World, w1: World, v: World, s: Id)
    requires Accounted(w, w1) && w1.recs == w.recs && Owed(w1, v, s, 0)
    ensures Accounted(w, v) && PinsKept(w, v)
  {
  }

  function Without(ls: seq<LinkId>, l: LinkId): seq<LinkId> {
    if ls == [] then [] else if ls[0] == l then ls[1..] else [ls[0]] + Without(ls[1..], l)
  }

  function Disconnect(w: World, l: LinkId): (v: World)
    requires l in w.topo.links && l !in w.books.holding
    ensures Accounted(w, v) && v.books == w.books && v.recs == w.recs && l !in v.topo.links
  {
    var k := w.topo.links[l];
    var t := Topo(w.topo.links - {l},
                  w.topo.deps[k.from := Without(Deps(w, k.from), l)],
                  w.topo.dpts[k.to := Without(Dpts(w, k.to), l)]);
    assert forall s :: Holders(t, w.books.holding, s) == Holders(w.topo, w.books.holding, s);
    w.(topo := t)
  }

  /** Removes a link; an acquisition it was holding is released. */
  function RmDep(w: World, l: LinkId, o: Answers): (v: World)
    ensures Accounted(w, v) && PinsKept(w, v) && l !in v.topo.links && (l in w.topo.links ==> l !in v.books.holding)
    ensures l in w.topo.links && l in w.books.holding && Required(w.books, L(w, l).to) == 1 ==>
      && LetDown(R(w, L(w, l).to), R(v, L(w, l).to))
      && (!StartPinned(R(w, L(w, l).to)) && Stoppable(R(w, L(w, l).to)) ==> R(v, L(w, l).to).state == Stopping)
  {
    hide *;
    if l !in w.topo.links then AccountedRefl(w); w
    else if l in w.books.holding then
      var w1 := Unhold(w, l);
      OwedTopo(w, w1, L(w, l).to, 1);
      var w2 := Disconnect(w1, l);
      var v := Release(w2, L(w, l).to, o);
      PaidAcross(w, w1, w2, v, L(w, l).to);
      OwedTopo(w2, v, L(w, l).to, -1);
      SameRecsAt(w, w2, L(w, l).to);
      SameRequired(w, w2, L(w, l).to);
      QuietStill(w2, v);
      StillIs(w2, v);
      v
    else
      var v := Disconnect(w, l);
      SameRecords(w, v);
      v
  }

  lemma SameRecords(w: World, v: World)
    requires v.recs == w.recs
    ensures PinsKept(w, v)
  {
  }

  lemma PaidAcross(w: World, w1: World, w2: World, v: World, s: Id)
    requires Owed(w, w1, s, 1) && Accounted(w1, w2) && w2.recs == w1.recs && Owed(w2, v, s, -1)
    ensures Accounted(w, v) && PinsKept(w, v)
  {
  }

  // ----- runs -----

  /** `Ready`, `Gone`, `Broken`, `Dying` and `Again` are what a service's process reports: it is
      up, it is gone, its start failed, it has to be stopped, it is started afresh. */
  datatype Event =
    | EvStart(s: Id) | EvStop(s: Id, bringDown: bool) | EvWake(s: Id) | EvRestart(s: Id) | EvForcedStop(s: Id)
    | EvPinStart(s: Id) | EvPinStop(s: Id) | EvUnpin(s: Id)
    | EvAddDep(l: LinkId, link: Link) | EvRmDep(l: LinkId)
    | Propagate | Transition
    | SlotGranted(s: Id) | Ready(s: Id) | Gone(s: Id) | Broken(s: Id, atOnce: bool) | Dying(s: Id, withRestart: bool) | Again(s: Id)

  /** Takes the record at the head of the propagation queue out of it. */
  function Popped(w: World): World
    requires w.props != []
  {
    var s := w.props[0];
    w.(recs := w.recs[s := R(w, s).(inProp := false)], props := w.props[1..])
  }

  /** Takes the record at the head of the transition queue out of it. */
  function PoppedTransition(w: World): World
    requires w.transitions != []
  {
    var s := w.transitions[0];
    w.(recs := w.recs[s := R(w, s).(inTransition := false)], transitions := w.transitions[1..])
  }

  /** Takes the head of the transition queue on. */
  function NextTransition(w: World, o: Answers): (v: World)
    requires w.transitions != []
    ensures Kept(w, v)
  {
    var p := PoppedTransition(w);
    var v := ExecuteTransition(p, w.transitions[0], o);
    TransitionKeeps(w, p, v);
    hide Kept;
    v
  }

  lemma TransitionKeeps(w: World, p: World, v: World)
    requires w.transitions != [] && p == PoppedTransition(w)
    requires
      var s := w.transitions[0];
      KeptBut(p, v, s) && Holds(R(p, s), R(v, s)) && (TopoOk(p.topo) ==> !Stuck(v, s) && RushesNone(p, v, s)) && (v == p || Spoken(v, s))
    ensures Kept(w, v)
  {
    TransitionFlows(w, p, v);
    TransitionOrderly(w, p, v);
    OnlyRec(w, w.transitions[0], p);
    assert Holds(R(w, w.transitions[0]), R(p, w.transitions[0]));
    hide Flows, Orderly, OrderlyBut, Even, Holds, Spoken, RushesNone;
    EvenTrans(w, p, v);
  }

  lemma TransitionOrderly(w: World, p: World, v: World)
    requires w.transitions != [] && p == PoppedTransition(w)
    requires KeptBut(p, v, w.transitions[0]) && (v == p || Spoken(v, w.transitions[0])) && (TopoOk(p.topo) ==> RushesNone(p, v, w.transitions[0]))
    ensures Orderly(w, v)
  {
    var s := w.transitions[0];
    StillOrderlyBut(w, p, s);
    hide Even, Flows, Holds;
    assert OrderlyAt(w, v, s) by {
      hide TopoOk;
      assert !Abandoned(w, s);
      assert TopoOk(w.topo) ==> RushesNone(w, v, s);
      if v == p { assert R(p, s).state == R(w, s).state; }
    }
    hide OrderlyBut, OrderlyAt, Orderly, Spoken, Stuck;
    OrderlyButTrans(w, p, v, s);
    OrderlySplit(w, v, s);
  }

  lemma EvenTrans(u: World, v: World, w: World)
    requires Even(u, v) && Even(v, w)
    ensures Even(u, w)
  {
    DutifulTrans(u, v, w);
    hide Dutiful;
  }

  lemma TransitionFlows(w: World, p: World, v: World)
    requires w.transitions != [] && p == PoppedTransition(w) && KeptBut(p, v, w.transitions[0])
    requires TopoOk(p.topo) ==> !Stuck(v, w.transitions[0])
    ensures Flows(w, v)
  {
    hide Even, OrderlyBut, Holds, TopoOk;
    assert Logged(w, v);
    forall t | InTransit(w, t) ensures InTransit(v, t) {
      assert w.transitions == [w.transitions[0]] + w.transitions[1..];
      assert InTransit(p, t);
    }
    if TopoOk(w.topo) {
      forall t | Stuck(v, t) ensures Stuck(w, t) {
        assert Stuck(p, t) && R(p, t) == R(w, t);
        assert Deps(p, t) == Deps(w, t);
      }
    }
  }

  /** The service has to be stopped, and so have those that depend on it. */
  function Dies(w: World, s: Id, withRestart: bool, o: Answers): (v: World)
    ensures Kept(w, v)
    ensures !StartPinned(R(w, s)) && Stoppable(R(w, s)) ==> R(v, s).state == Stopping && R(v, s).forceStop
  {
    hide *;
    var w1 := MarkForced(w, s);
    CalmAt(w, w1, s);
    ForcedRec(R(w, s), R(w1, s));
    var v := DoStop(w1, s, withRestart, o);
    KeptTrans(w, w1, v);
    QuietAt(w1, v, s);
    ForceStays(R(w1, s), R(v, s));
    v
  }

  lemma ForcedRec(a: Rec, b: Rec)
    requires CalmRec(a, b)
    ensures StartPinned(b) == StartPinned(a) && Stoppable(b) == Stoppable(a)
  {
  }

  lemma ForceStays(a: Rec, b: Rec)
    requires QuietRec(a, b)
    ensures a.forceStop ==> b.forceStop
  {
  }

  function GrantSlot(w: World, s: Id, o: Answers): (v: World)
    ensures KeptBut(w, v, s) && (TopoOk(w.topo) && TakenOn(R(w, s)) ==> RushesNone(w, v, s))
    ensures o(w.tick).up.Pending? ==> R(v, s) == R(w, s).(waitingForSlot := false)
    ensures o(w.tick).up.AtOnce? && ComesUp(R(w, s)) ==> R(v, s).state == Started
    ensures o(w.tick).up.Fails? ==> R(v, s).state == Stopped || Begun(w, v, s)
  {
    SlotRec(w.past, s, R(w, s));
    hide *;
    var w1 := Set(w, s, R(w, s).(waitingForSlot := false));
    var w2 := Tick(w1);
    var v := BringUp(w2, s, o(w1.tick).up, o);
    KeptTrans(w, w1, w2);
    KeptIsBut(w, w2, s);
    ButTrans(w, w2, v, s);
    SlotTaken(R(w, s));
    SameRecsAt(w1, w2, s);
    BroughtIs(w, w2, v, s, o(w1.tick).up);
    SlotRushes(w, w2, v, s);
    v
  }

  lemma SlotRec(h: History, s: Id, r: Rec)
    ensures
      var b := r.(waitingForSlot := false);
      Replaces(b, r) && Heeds(h, s, r, b) && Holds(r, b) && Unmoved(r, b)
  {
  }

  lemma SlotTaken(r: Rec)
    ensures TakenOn(r.(waitingForSlot := false)) == TakenOn(r) && ComesUp(r.(waitingForSlot := false)) == ComesUp(r)
  {
  }

  lemma BroughtIs(w: World, w1: World, v: World, s: Id, how: BringUpResult)
    requires BroughtUp(w1, v, s, how) && w1.past == w.past
    ensures how.Pending? ==> R(v, s) == R(w1, s)
    ensures how.AtOnce? && ComesUp(R(w1, s)) ==> R(v, s).state == Started
    ensures how.Fails? ==> R(v, s).state == Stopped || Begun(w, v, s)
  {
  }

  lemma SlotRushes(w: World, w1: World, v: World, s: Id)
    requires w1.topo == w.topo && w1.past == w.past && (TopoOk(w.topo) && TakenOn(R(w, s)) ==> RushesNone(w1, v, s))
    ensures TopoOk(w.topo) && TakenOn(R(w, s)) ==> RushesNone(w, v, s)
  {
    hide TopoOk;
  }

  function Step(w: World, e: Event, o: Answers): World {
    match e
    case EvStart(s) => Start(w, s)
    case EvStop(s, b) => Stop(w, s, b, o)
    case EvWake(s) => Wake(w, s)
    case EvRestart(s) => Restart(w, s, o)
    case EvForcedStop(s) => ForcedStop(w, s)
    case EvPinStart(s) => PinStart(w, s)
    case EvPinStop(s) => PinStop(w, s)
    case EvUnpin(s) => Unpin(w, s, o)
    case EvAddDep(l, k) => AddDep(w, l, k)
    case EvRmDep(l) => RmDep(w, l, o)
    case Propagate => if w.props == [] then w else DoPropagation(Popped(w), w.props[0], o)
    case Transition => if w.transitions == [] then w else NextTransition(w, o)
    case SlotGranted(s) => GrantSlot(w, s, o)
    case Ready(s) => HasStarted(w, s, o)
    case Gone(s) => HasStopped(w, s, o)
    case Broken(s, atOnce) => if atOnce then FailAndStop(w, s, o) else Fail(w, s)
    case Dying(s, withRestart) => Dies(w, s, withRestart, o)
    case Again(s) => InitiateStart(w, s)
  }

  /** The double acquisitions a step makes of `t`: only the propagation of queued acquisitions
      makes any, one for each link that is found holding already. */
  ghost function StepDoubled(w: World, e: Event, t: Id): nat {
    if e.Propagate? && w.props != [] && FRequire in R(w, w.props[0]).flags then
      Doubled(w.topo, w.books.holding, Deps(w, w.props[0]), t)
    else 0
  }

  predicate LeavesLinks(e: Event) {
    !e.Propagate? && !e.EvAddDep? && !e.EvRmDep?
  }

  /** What a service's own process, or the removal of its pins, may do to it. */
  predicate Own(e: Event, s: Id) {
    e == EvUnpin(s) || e == SlotGranted(s) || e == Ready(s) || e == Gone(s) || (e.Broken? && e.s == s) || e == Again(s)
  }

  /** The service an event is about, if it is its own. */
  function Subject(e: Event): Id {
    match e
    case EvUnpin(s) => s
    case SlotGranted(s) => s
    case Ready(s) => s
    case Gone(s) => s
    case Broken(s, _) => s
    case Again(s) => s
    case _ => 0
  }

  lemma StepKept(w: World, e: Event, o: Answers)
    requires LeavesLinks(e)
    ensures KeptBut(w, Step(w, e, o), Subject(e))
    ensures !Own(e, Subject(e)) ==> Kept(w, Step(w, e, o))
  {
    hide Kept, KeptBut, Start, Stop, Wake, Restart, ForcedStop, PinStart, PinStop, Unpin, NextTransition,
      GrantSlot, HasStarted, HasStopped, FailAndStop, Fail, Dies, InitiateStart;
    KeptRefl(w);
    if !Own(e, Subject(e)) {
      KeptIsBut(w, Step(w, e, o), Subject(e));
    }
  }

  lemma ButAccounted(w: World, v: World, s: Id)
    requires KeptBut(w, v, s)
    ensures Accounted(w, v)
  {
  }

  lemma StepAccounted(w: World, e: Event, o: Answers)
    requires !e.Propagate?
    ensures Accounted(w, Step(w, e, o))
  {
    hide Step, Accounted, KeptBut;
    if e.EvAddDep? {
      StepIsAddDep(w, e, o);
    } else if e.EvRmDep? {
      StepIsRmDep(w, e, o);
    } else {
      StepKept(w, e, o);
      ButAccounted(w, Step(w, e, o), Subject(e));
    }
  }

  /** Every step accounts for every count: explicit activations, plus holders, plus the double
      acquisitions made so far. */
  lemma StepAccounts(w: World, e: Event, o: Answers, t: Id)
    ensures
      var v := Step(w, e, o);
      Excess(v.topo, v.books, t) == Excess(w.topo, w.books, t) + StepDoubled(w, e, t)
  {
    hide Step, Excess, DoPropagation, Doubled, Deps;
    if e.Propagate? {
      PropagateAccounts(w, o);
    } else {
      StepAccounted(w, e, o);
    }
  }

  lemma PropagateAccounts(w: World, o: Answers)
    ensures
      var v := Step(w, Propagate, o);
      forall t :: Excess(v.topo, v.books, t) == Excess(w.topo, w.books, t) + StepDoubled(w, Propagate, t)
  {
    hide Excess, DoPropagation, Doubled;
    if w.props != [] {
      assert Overdrawn(Popped(w), DoPropagation(Popped(w), w.props[0], o),
                       if FRequire in R(w, w.props[0]).flags then Deps(w, w.props[0]) else []);
      assert forall t :: Doubled(w.topo, w.books.holding, [], t) == 0 by { NothingDoubled(w); }
    }
  }

  lemma NothingDoubled(w: World)
    ensures forall t :: Doubled(w.topo, w.books.holding, [], t) == 0
  {
  }

  // ----- the queue -----

  /** No work is lost, and queue membership is in step. */
  ghost predicate QueueSound(w: World) {
    (forall s, f :: !Lost(w, s, f)) && forall s :: InStep(w, s)
  }

  lemma QueueKeptSound(w: World, v: World)
    requires QueueSound(w) && QueueKept(w, v)
    ensures QueueSound(v)
  {
  }

  lemma StepQueueSound(w: World, e: Event, o: Answers)
    requires QueueSound(w)
    ensures QueueSound(Step(w, e, o))
  {
    hide DoPropagation, QueueSound, QueueKept;
    if e.Propagate? {
      if w.props != [] {
        PropagateQueueSound(w, o);
      }
    } else {
      hide Step;
      StepAccounted(w, e, o);
      QueueKeptSound(w, Step(w, e, o));
    }
  }

  lemma PropagateQueueSound(w: World, o: Answers)
    requires QueueSound(w) && w.props != []
    ensures QueueSound(DoPropagation(Popped(w), w.props[0], o))
  {
    hide DoPropagation, Overdrawn;
    var s := w.props[0];
    var p := Popped(w);
    var v := DoPropagation(p, s, o);
    PoppedInStep(w);
    OverdrawnQueue(p, v, if FRequire in R(p, s).flags then Deps(p, s) else []);
    forall t, f ensures !Lost(v, t, f) {
      if t != s { assert R(p, t) == R(w, t) && !Lost(w, t, f); }
    }
  }

  lemma PoppedInStep(w: World)
    requires w.props != [] && forall s :: InStep(w, s)
    ensures forall s :: InStep(Popped(w), s)
  {
    assert w.props == [w.props[0]] + w.props[1..];
    forall s ensures InStep(Popped(w), s) {
      assert InStep(w, s);
    }
  }

  lemma OverdrawnQueue(w: World, v: World, ls: seq<LinkId>)
    requires Overdrawn(w, v, ls)
    ensures QueueKept(w, v)
  {
  }

  // ----- the pins -----

  /** Nothing moves a service away from where it is pinned, but its own process, or taking the
      pin off. */
  lemma StepHolds(w: World, e: Event, o: Answers, t: Id)
    requires !Own(e, t)
    ensures Holds(R(w, t), R(Step(w, e, o), t))
  {
    hide Step, Held;
    if e.Propagate? {
      PropagateHolds(w, o, t);
    } else if e.EvAddDep? || e.EvRmDep? {
      LinkStepHolds(w, e, o, t);
    } else {
      StepKept(w, e, o);
      if Own(e, Subject(e)) {
        assert t != Subject(e);
      }
    }
  }

  lemma OverdrawnHolds(w: World, v: World, ls: seq<LinkId>, t: Id)
    requires Overdrawn(w, v, ls)
    ensures Holds(R(w, t), R(v, t))
  {
    hide Excess, QueueKept, Flows, Orderly, Dutiful, Holds;
  }

  lemma LinkStepHolds(w: World, e: Event, o: Answers, t: Id)
    requires e.EvAddDep? || e.EvRmDep?
    ensures Holds(R(w, t), R(Step(w, e, o), t))
  {
    hide AddDep, RmDep, Accounted, Holds;
  }

  lemma PropagateHolds(w: World, o: Answers, t: Id)
    ensures Holds(R(w, t), R(Step(w, Propagate, o), t))
  {
    hide DoPropagation, Overdrawn, Lost, Begun, HasPinnedDependent;
    if w.props != [] {
      var p, s := Popped(w), w.props[0];
      OverdrawnHolds(p, DoPropagation(p, s, o), if FRequire in R(p, s).flags then Deps(p, s) else [], t);
      assert Holds(R(w, t), R(p, t));
    }
  }

  // ----- ordering links and stuck starts -----

  /** What holds across a step of everything that is about links and starts. */
  ghost predicate Moved(w: World, v: World) {
    && TopoOk(v.topo)
    && |w.past.starts| <= |v.past.starts| && v.past.starts[..|w.past.starts|] == w.past.starts
    && (forall l :: l in v.books.holding && l !in w.books.holding && OrderingLink(v.topo, l) ==>
          v.topo.links[l].to in v.past.starts[|w.past.starts|..])
    && (forall s :: InTransit(w, s) ==> InTransit(v, s))
  }

  ghost predicate NoneStuck(w: World) {
    forall s :: !Stuck(w, s)
  }

  lemma FlowsMoved(w: World, v: World)
    requires Flows(w, v) && v.topo == w.topo && TopoOk(w.topo)
    ensures Moved(w, v) && (NoneStuck(w) ==> NoneStuck(v))
  {
    hide TopoOk, Stuck, InTransit;
  }

  /** The links change first, and then something flows. */
  lemma MovedThenFlows(w: World, w1: World, v: World)
    requires TopoOk(w1.topo) && w1.recs == w.recs && w1.past.starts == w.past.starts && w1.transitions == w.transitions
    requires w1.books.holding <= w.books.holding && v.topo == w1.topo && Flows(w1, v)
    requires forall l :: l in w.books.holding && l !in w1.books.holding ==> !OrderingLink(w1.topo, l)
    ensures Moved(w, v) && (NoneStuck(w1) ==> NoneStuck(v))
  {
    hide TopoOk, Stuck;
    forall s | InTransit(w, s) ensures InTransit(v, s) { assert InTransit(w1, s); }
  }

  lemma {:induction false} WithoutMember(ls: seq<LinkId>, l: LinkId, m: LinkId)
    ensures m in Without(ls, l) ==> m in ls
    ensures m in ls && m != l ==> m in Without(ls, l)
    ensures Distinct(ls) ==> Distinct(Without(ls, l)) && l !in Without(ls, l)
  {
    if ls != [] {
      WithoutMember(ls[1..], l, m);
      if Distinct(ls) {
        assert Distinct(ls[1..]);
        WithoutMember(ls[1..], l, ls[0]);
        if ls[0] == l {
          assert l !in ls[1..];
        } else {
          assert ls[0] !in ls[1..];
        }
      }
    }
  }

  /** The lists at one end of the links: each lists exactly the links that end there, once. */
  ghost predicate EndOk(ends: map<LinkId, Id>, lists: map<Id, seq<LinkId>>) {
    && (forall s :: s in lists ==> Distinct(lists[s]))
    && (forall s, l :: s in lists && l in lists[s] ==> l in ends && ends[l] == s)
    && (forall l :: l in ends ==> ends[l] in lists && l in lists[ends[l]])
  }

  ghost function Froms(t: Topo): map<LinkId, Id> {
    map l | l in t.links :: t.links[l].from
  }

  ghost function Tos(t: Topo): map<LinkId, Id> {
    map l | l in t.links :: t.links[l].to
  }

  lemma EndsOk(t: Topo)
    ensures TopoOk(t) <==> EndOk(Froms(t), t.deps) && EndOk(Tos(t), t.dpts)
  {
    if TopoOk(t) { TopoEnds(t); }
    if EndOk(Froms(t), t.deps) && EndOk(Tos(t), t.dpts) { EndsTopo(t); }
    hide TopoOk, EndOk;
  }

  lemma TopoEnds(t: Topo)
    requires TopoOk(t)
    ensures EndOk(Froms(t), t.deps) && EndOk(Tos(t), t.dpts)
  {
    hide Distinct;
    var f, g := Froms(t), Tos(t);
    assert EndOk(f, t.deps) by {
      forall l | l in f ensures f[l] in t.deps && l in t.deps[f[l]] { assert ListedTwice(t, l); }
    }
    assert EndOk(g, t.dpts) by {
      forall l | l in g ensures g[l] in t.dpts && l in t.dpts[g[l]] { assert ListedTwice(t, l); }
    }
  }

  lemma EndsTopo(t: Topo)
    requires EndOk(Froms(t), t.deps) && EndOk(Tos(t), t.dpts)
    ensures TopoOk(t)
  {
    hide Distinct;
    var f, g := Froms(t), Tos(t);
    forall l | l in t.links ensures ListedTwice(t, l) { assert l in f && l in g; }
    forall s, l | s in t.deps && l in t.deps[s] ensures l in t.links && t.links[l].from == s { assert l in f && f[l] == s; }
    forall s, l | s in t.dpts && l in t.dpts[s] ensures l in t.links && t.links[l].to == s { assert l in g && g[l] == s; }
  }

  function Listed(lists: map<Id, seq<LinkId>>, s: Id): seq<LinkId> {
    if s in lists then lists[s] else []
  }

  lemma EndAdds(ends: map<LinkId, Id>, lists: map<Id, seq<LinkId>>, l: LinkId, s: Id)
    requires EndOk(ends, lists) && l !in ends
    ensures EndOk(ends[l := s], lists[s := Listed(lists, s) + [l]])
  {
    assert Distinct(Listed(lists, s) + [l]);
    hide Distinct;
  }

  lemma EndDrops(ends: map<LinkId, Id>, lists: map<Id, seq<LinkId>>, l: LinkId)
    requires EndOk(ends, lists) && l in ends
    ensures EndOk(ends - {l}, lists[ends[l] := Without(lists[ends[l]], l)])
  {
    hide Without;
    var s := ends[l];
    WithoutMember(lists[s], l, l);
    hide Distinct;
    var after := lists[s := Without(lists[s], l)];
    forall x, m | x in after && m in after[x] ensures m in ends - {l} && ends[m] == x { WithoutMember(lists[s], l, m); }
    forall m | m in ends - {l} ensures ends[m] in after && m in after[ends[m]] { WithoutMember(lists[s], l, m); }
  }

  lemma ConnectTopo(w: World, l: LinkId, k: Link)
    requires Fresh(w, l) && TopoOk(w.topo)
    ensures TopoOk(Connect(w, l, k).topo) && (NoneStuck(w) ==> NoneStuck(Connect(w, l, k)))
  {
    hide Accounted, Stuck, TopoOk, EndOk;
    var t := Connect(w, l, k).topo;
    EndsOk(w.topo);
    EndAdds(Froms(w.topo), w.topo.deps, l, k.from);
    EndAdds(Tos(w.topo), w.topo.dpts, l, k.to);
    assert Froms(t) == Froms(w.topo)[l := k.from] && Tos(t) == Tos(w.topo)[l := k.to];
    EndsOk(t);
    ConnectStuck(w, l, k);
  }

  lemma ConnectStuck(w: World, l: LinkId, k: Link)
    requires Fresh(w, l)
    ensures NoneStuck(w) ==> NoneStuck(Connect(w, l, k))
  {
    hide Accounted;
    var v := Connect(w, l, k);
    if NoneStuck(w) {
      forall t ensures !Stuck(v, t) {
        assert !Stuck(w, t);
        if NoDepWaited(v, t) {
          forall m | m in Deps(w, t) ensures m !in w.waiting { assert m in Deps(v, t); }
        }
      }
    }
  }

  lemma DisconnectTopo(w: World, l: LinkId)
    requires l in w.topo.links && l !in w.books.holding && TopoOk(w.topo)
    ensures TopoOk(Disconnect(w, l).topo)
  {
    hide Accounted, EndOk, Without;
    var k, t := w.topo.links[l], Disconnect(w, l).topo;
    assert ListedTwice(w.topo, l);
    hide TopoOk;
    assert t.deps == w.topo.deps[k.from := Without(w.topo.deps[k.from], l)];
    assert t.dpts == w.topo.dpts[k.to := Without(w.topo.dpts[k.to], l)];
    assert t.links == w.topo.links - {l};
    hide Disconnect;
    EndsOk(w.topo);
    EndDrops(Froms(w.topo), w.topo.deps, l);
    EndDrops(Tos(w.topo), w.topo.dpts, l);
    assert Froms(t) == Froms(w.topo) - {l} && Tos(t) == Tos(w.topo) - {l};
    EndsOk(t);
  }

  /** Taking a link out leaves a service stuck only if it was the last one waited for. */
  lemma DisconnectStuck(w: World, l: LinkId, t: Id)
    requires l in w.topo.links && l !in w.books.holding && TopoOk(w.topo)
    ensures Stuck(Disconnect(w, l), t) <==>
      && R(w, t).state == Starting && R(w, t).waitingForDeps && !R(w, t).inTransition
      && forall m :: m in Deps(w, t) && m != l ==> m !in w.waiting
  {
    hide Accounted;
    var k, v := w.topo.links[l], Disconnect(w, l);
    forall m ensures m in Deps(v, t) <==> m in Deps(w, t) && m != l {
      WithoutMember(Deps(w, k.from), l, m);
      if t != k.from { assert l !in Deps(w, t); }
    }
  }

  lemma AddDepMoves(w: World, l: LinkId, k: Link)
    requires TopoOk(w.topo)
    ensures Moved(w, AddDep(w, l, k)) && (NoneStuck(w) ==> NoneStuck(AddDep(w, l, k)))
  {
    hide Accounted, Owed, Acquire, TopoOk, Moved, NoneStuck, Flows, PinsKept, Connect;
    FlowsRefl(w);
    FlowsMoved(w, w);
    if Fresh(w, l) {
      var w1 := Connect(w, l, k);
      ConnectTopo(w, l, k);
      ConnectSame(w, l, k);
      FlowsRefl(w1);
      MovedThenFlows(w, w1, w1);
      if !IsOnlyOrdering(k.kind) && (k.kind == Regular || k.kind == PreparedBy || Up(R(w1, k.to))) && Up(R(w1, k.from)) {
        NotOrdering(w1, l);
        OwedFlows(w1, Acquire(w1, l), k.to, if l in w1.books.holding then 1 else 0);
        MovedThenFlows(w, w1, Acquire(w1, l));
      }
    }
  }

  lemma OwedFlows(w: World, v: World, s: Id, k: int)
    requires Owed(w, v, s, k)
    ensures Flows(w, v) && v.topo == w.topo
  {
  }

  lemma ConnectSame(w: World, l: LinkId, k: Link)
    requires Fresh(w, l)
    ensures
      var v := Connect(w, l, k);
      v.past.starts == w.past.starts && v.transitions == w.transitions && v.books == w.books && v.recs == w.recs
  {
  }

  lemma RmDepMoves(w: World, l: LinkId, o: Answers)
    requires TopoOk(w.topo)
    ensures Moved(w, RmDep(w, l, o)) && (NoneStuck(w) && l !in w.waiting ==> NoneStuck(RmDep(w, l, o)))
  {
    hide Accounted, Owed, Release, TopoOk, Moved, NoneStuck, Flows, PinsKept, Disconnect;
    FlowsRefl(w);
    FlowsMoved(w, w);
    if l in w.topo.links {
      var w1 := if l in w.books.holding then Unhold(w, l) else w;
      UnholdSame(w, l);
      DisconnectTopo(w1, l);
      var w2 := Disconnect(w1, l);
      DisconnectSame(w1, l);
      if NoneStuck(w) && l !in w.waiting { DisconnectLeavesNoneStuck(w, w1, l); }
      FlowsRefl(w2);
      MovedThenFlows(w, w2, w2);
      if l in w.books.holding {
        OwedFlows(w2, Release(w2, L(w, l).to, o), L(w, l).to, -1);
        MovedThenFlows(w, w2, Release(w2, L(w, l).to, o));
      }
    }
  }

  lemma UnholdSame(w: World, l: LinkId)
    requires l in w.topo.links
    ensures
      var v := if l in w.books.holding then Unhold(w, l) else w;
      && v.topo == w.topo && v.recs == w.recs && v.past == w.past && v.transitions == w.transitions && v.waiting == w.waiting
      && v.books.holding == w.books.holding - {l}
  {
    if l !in w.books.holding { assert w.books.holding - {l} == w.books.holding; }
  }

  lemma DisconnectSame(w: World, l: LinkId)
    requires l in w.topo.links && l !in w.books.holding
    ensures
      var v := Disconnect(w, l);
      && v.recs == w.recs && v.past == w.past && v.transitions == w.transitions && v.books == w.books
      && !OrderingLink(v.topo, l)
  {
  }

  lemma DisconnectLeavesNoneStuck(w: World, w1: World, l: LinkId)
    requires TopoOk(w.topo) && NoneStuck(w) && l !in w.waiting && l in w.topo.links
    requires w1.topo == w.topo && w1.recs == w.recs && w1.waiting == w.waiting && l !in w1.books.holding
    ensures NoneStuck(Disconnect(w1, l))
  {
    hide Disconnect, TopoOk;
    forall t ensures !Stuck(Disconnect(w1, l), t) {
      DisconnectStuck(w1, l, t);
      assert !Stuck(w, t) && Deps(w1, t) == Deps(w, t);
    }
  }

  lemma PropagateMoves(w: World, o: Answers)
    requires TopoOk(w.topo)
    ensures Moved(w, Step(w, Propagate, o)) && (NoneStuck(w) ==> NoneStuck(Step(w, Propagate, o)))
  {
    hide DoPropagation, Moved, NoneStuck, TopoOk, Flows, Excess, QueueKept, PinsKept;
    FlowsRefl(w);
    FlowsMoved(w, w);
    if w.props != [] {
      var p, s := Popped(w), w.props[0];
      var v := DoPropagation(p, s, o);
      assert Overdrawn(p, v, if FRequire in R(p, s).flags then Deps(p, s) else []);
      FlowsStill(w, p);
      FlowsTrans(w, p, v);
      FlowsMoved(w, v);
    }
  }

  /** Every step keeps the links in order.  An ordering link comes to hold its target only because
      the step started that target from being stopped.  The marks for transitions stay in step with
      the queue.  And no start gets stuck, but for the removal of a link that is waited for. */
  lemma StepMoves(w: World, e: Event, o: Answers)
    requires TopoOk(w.topo)
    ensures Moved(w, Step(w, e, o))
    ensures NoneStuck(w) && (e.EvRmDep? ==> e.l !in w.waiting) ==> NoneStuck(Step(w, e, o))
  {
    hide Step, Moved, NoneStuck, TopoOk, Flows, PinsKept, Holds;
    if e.Propagate? {
      PropagateMoves(w, o);
    } else if e.EvAddDep? {
      StepIsAddDep(w, e, o);
      AddDepMoves(w, e.l, e.link);
    } else if e.EvRmDep? {
      StepIsRmDep(w, e, o);
      RmDepMoves(w, e.l, o);
    } else {
      StepKept(w, e, o);
      ButTopo(w, Step(w, e, o), Subject(e));
      FlowsMoved(w, Step(w, e, o));
    }
  }

  /** The service at the near end of `l` is starting, is not queued, and waits for no other link. */
  ghost predicate WaitsForNoOther(w: World, l: LinkId)
    requires l in w.topo.links
  {
    var f := w.topo.links[l].from;
    && R(w, f).state == Starting && R(w, f).waitingForDeps && !R(w, f).inTransition
    && forall m :: m in Deps(w, f) && m != l ==> m !in w.waiting
  }

  /** Taking a link away does not stop its target: the link does not hold it, or something else keeps
      it up, or it is not up. */
  predicate TargetStays(w: World, l: LinkId) {
    l !in w.books.holding || Required(w.books, L(w, l).to) != 1 || StartPinned(R(w, L(w, l).to)) || !Up(R(w, L(w, l).to))
  }

  /** Removing a link leaves its service stuck only if it waits for no other, since nobody tells it
      that there is nothing left to wait for; and exactly then, if the service is still starting
      afterwards, which it is unless the removal stops the target. */
  lemma RemovedLinkSticks(w: World, l: LinkId, o: Answers)
    requires TopoOk(w.topo) && l in w.topo.links
    ensures Stuck(RmDep(w, l, o), w.topo.links[l].from) ==> WaitsForNoOther(w, l)
    ensures
      var f := w.topo.links[l].from;
      InTransit(w, f) ==> (Stuck(RmDep(w, l, o), f) <==> WaitsForNoOther(w, l) && R(RmDep(w, l, o), f).state == Starting)
    ensures TargetStays(w, l) ==> (Stuck(RmDep(w, l, o), w.topo.links[l].from) <==> WaitsForNoOther(w, l))
  {
    hide Disconnect, TopoOk, Release, Unhold, Stuck, Flows, Orderly, Accounted, Owed, Quiet, InTransit;
    var f, to := w.topo.links[l].from, w.topo.links[l].to;
    var w1 := if l in w.books.holding then Unhold(w, l) else w;
    UnholdSame(w, l);
    DisconnectStuck(w1, l, f);
    SameWait(w, w1, l);
    if l in w.books.holding {
      var w2 := Disconnect(w1, l);
      DisconnectTopo(w1, l);
      DisconnectSame(w1, l);
      OwedFlows(w2, Release(w2, to, o), to, -1);
      FlowsStuck(w2, Release(w2, to, o), f);
      if InTransit(w, f) { ReleaseLeavesStuck(w, w2, to, o, f); }
      StuckIsStarting(Release(w2, to, o), f);
      if TargetStays(w, l) {
        UnholdRequired(w, l);
        ReleaseStays(w2, to, o, f);
      }
    }
  }

  lemma StuckIsStarting(w: World, s: Id)
    ensures Stuck(w, s) ==> R(w, s).state == Starting
  {
  }

  /** Releasing starts nothing, so a stuck service that it does not stop stays stuck. */
  lemma ReleaseLeavesStuck(w: World, w2: World, to: Id, o: Answers, s: Id)
    requires TopoOk(w2.topo) && w2.recs == w.recs && w2.transitions == w.transitions && InTransit(w, s)
    ensures Stuck(w2, s) && R(Release(w2, to, o), s).state == Starting ==> Stuck(Release(w2, to, o), s)
  {
    var v := Release(w2, to, o);
    assert Owed(w2, v, to, -1) && Quiet(w2, v);
    hide Release, TopoOk, Owed, Quiet;
    if Stuck(w2, s) && R(v, s).state == Starting {
      assert s !in w.transitions by { assert multiset(w.transitions)[s] == 0; }
      OwedStill(w2, v, to, s);
    }
  }

  lemma OwedStill(w: World, v: World, t: Id, s: Id)
    requires Owed(w, v, t, -1) && Quiet(w, v) && TopoOk(w.topo) && Abandoned(w, s) && R(v, s).state == Starting
    ensures Stuck(v, s)
  {
    hide Shifted, QueueKept, Flows, PinsKept, Asleep, Untold, Overtaken, QuietRec, TopoOk, Stuck;
    assert StaysStuck(w, v, s);
  }

  lemma UnholdRequired(w: World, l: LinkId)
    requires l in w.topo.links && l in w.books.holding
    ensures Unhold(w, l).books.required == w.books.required
  {
    hide Owed;
  }

  lemma SameWait(w: World, w1: World, l: LinkId)
    requires l in w.topo.links && w1.topo == w.topo && w1.recs == w.recs && w1.waiting == w.waiting
    ensures
      var f := w.topo.links[l].from;
      WaitsForNoOther(w, l) <==>
      && R(w1, f).state == Starting && R(w1, f).waitingForDeps && !R(w1, f).inTransition
      && forall m :: m in Deps(w1, f) && m != l ==> m !in w1.waiting
  {
    assert Deps(w1, w.topo.links[l].from) == Deps(w, w.topo.links[l].from);
  }

  lemma FlowsStuck(w: World, v: World, s: Id)
    requires Flows(w, v) && TopoOk(w.topo)
    ensures Stuck(v, s) ==> Stuck(w, s)
  {
    hide Stuck, TopoOk, Logged;
  }

  lemma ReleaseStays(w: World, s: Id, o: Answers, t: Id)
    requires Required(w.books, s) != 1 || StartPinned(R(w, s)) || !Up(R(w, s))
    ensures Stuck(Release(w, s, o), t) <==> Stuck(w, t)
  {
    hide Kept, Owed, Calm, Quiet, Drop, DoStop, Stuck;
    var d := Drop(w, s);
    CalmAt(w, d, s);
    DropStays(w, s, t);
    assert Release(w, s, o) == d;
  }

  lemma DropStays(w: World, s: Id, t: Id)
    ensures Stuck(Drop(w, s), t) <==> Stuck(w, t)
  {
    hide Kept, Owed, Calm, Stuck, Raise, LowerBoth, SetDesired;
    var w1 := Charge(w, s);
    SameStuck(w, w1, t);
    if Required(w1.books, s) == 0 {
      var w2 := SetDesired(w1, s, Stopped);
      DesiredStays(w1, s, t);
      if FRequire in R(w2, s).flags { LowerStays(w2, s, t); } else { RaiseStays(w2, s, FRelease, t); }
    }
  }

  lemma SameStuck(w: World, v: World, t: Id)
    requires v.topo == w.topo && v.waiting == w.waiting
    requires R(v, t).state == R(w, t).state && R(v, t).waitingForDeps == R(w, t).waitingForDeps && R(v, t).inTransition == R(w, t).inTransition
    ensures Stuck(v, t) <==> Stuck(w, t)
  {
    assert Deps(v, t) == Deps(w, t);
  }

  lemma DesiredStays(w: World, s: Id, t: Id)
    ensures Stuck(SetDesired(w, s, Stopped), t) <==> Stuck(w, t)
  {
    hide Kept, Calm, Stuck;
    SameStuck(w, SetDesired(w, s, Stopped), t);
  }

  lemma RaiseStays(w: World, s: Id, f: Flag, t: Id)
    requires f != FFailure
    ensures Stuck(Raise(w, s, f), t) <==> Stuck(w, t)
  {
    hide Kept, Calm, Stuck;
    SameStuck(w, Raise(w, s, f), t);
  }

  lemma LowerStays(w: World, s: Id, t: Id)
    ensures Stuck(LowerBoth(w, s), t) <==> Stuck(w, t)
  {
    hide Kept, Calm, Stuck;
    SameStuck(w, LowerBoth(w, s), t);
  }

  // ----- whole runs -----

  function Run(w: World, es: seq<Event>, o: Answers): World
    decreases |es|
  {
    if es == [] then w else Run(Step(w, es[0], o), es[1..], o)
  }

  /** The double acquisitions of `t` over a run. */
  ghost function RunDoubled(w: World, es: seq<Event>, o: Answers, t: Id): nat
    decreases |es|
  {
    if es == [] then 0 else StepDoubled(w, es[0], t) + RunDoubled(Step(w, es[0], o), es[1..], o, t)
  }

  /** A newly created service set. */
  ghost predicate Initial(w: World) {
    && w.books == Books(map[], {}, {}) && w.props == [] && w.transitions == []
    && w.waiting == {} && forall s :: var r := R(w, s); !r.inProp && !r.inTransition && r.flags == {} && r.state == Stopped
  }

  lemma {:induction false} RunAccounts(w: World, es: seq<Event>, o: Answers, t: Id)
    ensures
      var v := Run(w, es, o);
      Excess(v.topo, v.books, t) == Excess(w.topo, w.books, t) + RunDoubled(w, es, o, t)
    decreases |es|
  {
    hide Step, Excess, StepDoubled;
    if es != [] {
      StepAccounts(w, es[0], o, t);
      RunAccounts(Step(w, es[0], o), es[1..], o, t);
    }
  }

  /** Double acquisitions add up: no continuation of a run makes up for one. */
  lemma {:induction false} DoubledForGood(w: World, es: seq<Event>, more: seq<Event>, o: Answers, t: Id)
    ensures RunDoubled(w, es + more, o, t) == RunDoubled(w, es, o, t) + RunDoubled(Run(w, es, o), more, o, t)
    ensures RunDoubled(w, es + more, o, t) >= RunDoubled(w, es, o, t)
    decreases |es|
  {
    hide Step, StepDoubled;
    if es == [] {
      assert es + more == more;
    } else {
      assert (es + more)[1..] == es[1..] + more;
      DoubledForGood(Step(w, es[0], o), es[1..], more, o, t);
    }
  }

  lemma {:induction false} RunQueueSound(w: World, es: seq<Event>, o: Answers)
    requires QueueSound(w)
    ensures QueueSound(Run(w, es, o))
    decreases |es|
  {
    hide Step, QueueSound;
    if es != [] {
      StepQueueSound(w, es[0], o);
      RunQueueSound(Step(w, es[0], o), es[1..], o);
    }
  }

  /** A started service that is pinned started stays started, and a stopped one that is pinned
      stopped stays stopped, through every run of requests, queue steps and link changes, stops
      and failures of its dependencies and dependents included: only what its own process
      reports, and taking its pins off, can change that. */
  lemma {:induction false} PinsHold(w: World, es: seq<Event>, o: Answers, s: Id)
    requires Held(R(w, s)) && forall e :: e in es ==> !Own(e, s)
    ensures Held(R(Run(w, es, o), s)) && R(Run(w, es, o), s).state == R(w, s).state
    decreases |es|
  {
    hide Step, Held;
    if es != [] {
      assert es[0] in es;
      StepHolds(w, es[0], o, s);
      PinsHold(Step(w, es[0], o), es[1..], o, s);
    }
  }

  /** No link is removed while it is waited for. */
  ghost predicate WaitsRespected(w: World, es: seq<Event>, o: Answers)
    decreases |es|
  {
    es == [] || ((es[0].EvRmDep? ==> es[0].l !in w.waiting) && WaitsRespected(Step(w, es[0], o), es[1..], o))
  }

  /** Ordering links hold only services that the history says were started. */
  ghost predicate OrderingByStart(w: World) {
    forall l :: l in w.books.holding && OrderingLink(w.topo, l) ==> w.topo.links[l].to in w.past.starts
  }

  lemma MovedKeepsOrdering(w: World, v: World)
    requires Moved(w, v) && OrderingByStart(w)
    requires forall l :: l in w.books.holding && OrderingLink(v.topo, l) ==> OrderingLink(w.topo, l) && v.topo.links[l].to == w.topo.links[l].to
    ensures OrderingByStart(v)
  {
    hide TopoOk, InTransit;
    forall l | l in v.books.holding && OrderingLink(v.topo, l) ensures v.topo.links[l].to in v.past.starts {
      var t := v.topo.links[l].to;
      if l in w.books.holding {
        var i :| 0 <= i < |w.past.starts| && w.past.starts[i] == t;
        assert v.past.starts[..|w.past.starts|][i] == t;
      } else {
        var i :| 0 <= i < |v.past.starts[|w.past.starts|..]| && v.past.starts[|w.past.starts|..][i] == t;
      }
    }
  }

  /** A link that holds stays the link it is. */
  lemma StepKeepsLinks(w: World, e: Event, o: Answers)
    ensures
      var v := Step(w, e, o);
      forall l :: l in w.books.holding && OrderingLink(v.topo, l) ==> OrderingLink(w.topo, l) && v.topo.links[l].to == w.topo.links[l].to
  {
    hide Step, AddDep, RmDep;
    if e.Propagate? {
      PropagateTopo(w, o);
    } else if e.EvAddDep? {
      StepIsAddDep(w, e, o);
      AddDepKeepsLinks(w, e.l, e.link);
    } else if e.EvRmDep? {
      StepIsRmDep(w, e, o);
      RmDepKeepsLinks(w, e.l, o);
    } else {
      StepKept(w, e, o);
      ButTopo(w, Step(w, e, o), Subject(e));
    }
  }

  lemma PropagateTopo(w: World, o: Answers)
    ensures Step(w, Propagate, o).topo == w.topo
  {
    hide DoPropagation, Flows, Excess, QueueKept, PinsKept;
    if w.props != [] {
      var p, s := Popped(w), w.props[0];
      assert Overdrawn(p, DoPropagation(p, s, o), if FRequire in R(p, s).flags then Deps(p, s) else []);
    }
  }

  lemma StepIsAddDep(w: World, e: Event, o: Answers)
    requires e.EvAddDep?
    ensures Step(w, e, o) == AddDep(w, e.l, e.link)
  {
    hide AddDep;
  }

  lemma StepIsRmDep(w: World, e: Event, o: Answers)
    requires e.EvRmDep?
    ensures Step(w, e, o) == RmDep(w, e.l, o)
  {
    hide RmDep;
  }

  lemma AddDepKeepsLinks(w: World, l: LinkId, k: Link)
    ensures
      var v := AddDep(w, l, k);
      forall m :: m in w.books.holding && m in v.topo.links ==> m in w.topo.links && v.topo.links[m] == w.topo.links[m]
  {
    hide Accounted, Owed, Acquire, PinsKept;
    if Fresh(w, l) {
      var w1 := Connect(w, l, k);
      if !IsOnlyOrdering(k.kind) && (k.kind == Regular || k.kind == PreparedBy || Up(R(w1, k.to))) && Up(R(w1, k.from)) {
        NotOrdering(w1, l);
        OwedFlows(w1, Acquire(w1, l), k.to, if l in w1.books.holding then 1 else 0);
      }
    }
  }

  lemma RmDepKeepsLinks(w: World, l: LinkId, o: Answers)
    ensures
      var v := RmDep(w, l, o);
      forall m :: m in v.topo.links ==> m in w.topo.links && v.topo.links[m] == w.topo.links[m]
  {
    hide Accounted, Owed, Release, PinsKept;
    if l in w.topo.links && l in w.books.holding {
      var w2 := Disconnect(Unhold(w, l), l);
      OwedFlows(w2, Release(w2, L(w, l).to, o), L(w, l).to, -1);
    }
  }

  lemma {:induction false} FlowFrom(w: World, es: seq<Event>, o: Answers)
    requires TopoOk(w.topo) && OrderingByStart(w) && forall s :: InTransit(w, s)
    ensures
      var v := Run(w, es, o);
      && TopoOk(v.topo) && OrderingByStart(v) && (forall s :: InTransit(v, s))
      && (NoneStuck(w) && WaitsRespected(w, es, o) ==> NoneStuck(v))
    decreases |es|
  {
    hide Step, TopoOk, OrderingByStart, InTransit, Stuck;
    if es != [] {
      StepMoves(w, es[0], o);
      StepKeepsLinks(w, es[0], o);
      MovedKeepsOrdering(w, Step(w, es[0], o));
      FlowFrom(Step(w, es[0], o), es[1..], o);
    }
  }

  /** In every run from a new service set: an ordering link that holds a service leads to one that
      was started from being stopped; a record is marked for a transition exactly when it is in that
      queue; and unless a link was removed while it was waited for, a starting service with nothing
      left to wait for is in the queue. */
  lemma StartsFlow(w: World, es: seq<Event>, o: Answers, l: LinkId, s: Id)
    requires Initial(w) && TopoOk(w.topo)
    ensures
      var v := Run(w, es, o);
      && (l in v.books.holding && OrderingLink(v.topo, l) ==> v.topo.links[l].to in v.past.starts)
      && (R(v, s).inTransition <==> s in v.transitions)
      && (WaitsRespected(w, es, o) && R(v, s).state == Starting && R(v, s).waitingForDeps && NoDepWaited(v, s) ==> s in v.transitions)
  {
    hide Run, TopoOk, NoDepWaited;
    FlowFrom(w, es, o);
    var v := Run(w, es, o);
    assert InTransit(v, s);
    assert s in multiset(v.transitions) <==> R(v, s).inTransition;
    if WaitsRespected(w, es, o) { assert !Stuck(v, s); }
  }

  lemma InitialIsClear(w: World, t: Id)
    requires Initial(w)
    ensures Excess(w.topo, w.books, t) == 0 && QueueSound(w)
  {
    assert Holders(w.topo, {}, t) == {};
  }

  /** In every run, the count of every service is the number of its explicit activation and its
      holders, plus one for every time it was acquired through a link that already held it.
      So no release ever takes a count below zero; and the count is exact exactly when no
      propagation of acquisitions met a link that was already holding. */
  lemma CountsAreAccountedFor(w: World, es: seq<Event>, o: Answers, t: Id)
    requires Initial(w)
    ensures
      var v := Run(w, es, o);
      var counted := (if t in v.books.explicit then 1 else 0) + |Holders(v.topo, v.books.holding, t)|;
      && Required(v.books, t) == counted + RunDoubled(w, es, o, t)
      && Required(v.books, t) >= counted >= 0
      && (Required(v.books, t) == counted <==> RunDoubled(w, es, o, t) == 0)
  {
    hide Run, RunDoubled;
    InitialIsClear(w, t);
    RunAccounts(w, es, o, t);
  }

  /** In every run, whatever work a record has flagged is in the propagation queue; once the
      queue is drained nothing is left to do. */
  lemma NoWorkIsLost(w: World, es: seq<Event>, o: Answers, s: Id)
    requires Initial(w)
    ensures
      var v := Run(w, es, o);
      && (R(v, s).flags != {} ==> s in v.props)
      && (v.props == [] ==> R(v, s).flags == {})
  {
    hide Run;
    InitialIsClear(w, s);
    RunQueueSound(w, es, o);
    var v := Run(w, es, o);
    assert InStep(v, s);
    if R(v, s).flags != {} {
      var f :| f in R(v, s).flags;
      assert !Lost(v, s, f);
      assert multiset(v.props)[s] == 1;
      assert s in multiset(v.props);
    }
  }
}
