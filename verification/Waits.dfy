/** What a starting service can be left waiting for, once there is nothing left to do; and how long a
    stuck start stays stuck. */
module Waits {
  import opened Services
  import opened Records
  import opened StopMachine
  import opened StartMachine
  import opened Propagation
  import opened ServiceRuns

  /** No service is put to sleep, and nobody is left untold. */
  ghost predicate Restful(w: World, v: World) {
    && (forall s :: Asleep(v, s) ==> Asleep(w, s))
    && (forall l :: Untold(v, l) ==> Untold(w, l))
    && (forall l :: Overtaken(v, l) ==> Overtaken(w, l))
  }

  lemma OrderlyRests(w: World, v: World)
    requires Orderly(w, v) && TopoOk(w.topo)
    ensures Restful(w, v)
  {
    hide Asleep, Untold, Overtaken, StaysStuck, TopoOk;
  }

  lemma RestfulTrans(u: World, v: World, w: World)
    requires Restful(u, v) && Restful(v, w)
    ensures Restful(u, w)
  {
    hide Asleep, Untold, Overtaken;
  }

  /** The service whose own step it is has spoken. */
  lemma SpokenRests(w: World, v: World, s: Id)
    requires KeptBut(w, v, s) && TopoOk(w.topo) && Spoken(v, s)
    ensures Restful(w, v)
  {
    hide Even, Flows, Holds, Asleep, StaysStuck, TopoOk;
    forall l | Untold(v, l) ensures Untold(w, l) { assert l in w.topo.links; }
    forall l | Overtaken(v, l) ensures Overtaken(w, l) { assert l in w.topo.links; }
  }

  lemma ReportedIsSpoken(w: World, s: Id)
    requires Reported(w, s) || Resigned(w, s)
    ensures Spoken(w, s)
  {
    hide TopoOk;
  }

  // ----- one step -----

  lemma OwnRests(w: World, e: Event, o: Answers)
    requires LeavesLinks(e) && Own(e, Subject(e)) && TopoOk(w.topo)
    ensures Restful(w, Step(w, e, o))
  {
    hide KeptBut, Orderly, TopoOk, Restful, Reported, Resigned, HasStarted, HasStopped, Fail, FailAndStop, InitiateStart, Unpin,
      GrantSlot, Asleep, SameStates, Entries, Afresh;
    match e
    case EvUnpin(s) => OrderlyRests(w, Unpin(w, s, o));
    case Broken(s, atOnce) =>
      if atOnce { ResignedRests(w, FailAndStop(w, s, o), s); } else { OrderlyRests(w, Fail(w, s)); }
    case Gone(s) => ResignedRests(w, HasStopped(w, s, o), s);
    case Ready(s) => ReadyRests(w, s, o);
    case SlotGranted(s) => GrantRests(w, s, o);
    case Again(s) => AgainRests(w, s);
  }

  lemma ResignedRests(w: World, v: World, s: Id)
    requires KeptBut(w, v, s) && TopoOk(w.topo) && Resigned(v, s)
    ensures Restful(w, v)
  {
    hide KeptBut, TopoOk, Resigned, Restful, Spoken;
    ReportedIsSpoken(v, s);
    SpokenRests(w, v, s);
  }

  lemma ReadyRests(w: World, s: Id, o: Answers)
    requires TopoOk(w.topo)
    ensures Restful(w, HasStarted(w, s, o))
  {
    hide KeptBut, TopoOk, Reported, Restful, Spoken, HasStarted, Orderly;
    var v := HasStarted(w, s, o);
    if v == w {
      OrderlyRefl(w);
      OrderlyRests(w, w);
    } else {
      ReportedIsSpoken(v, s);
      SpokenRests(w, v, s);
    }
  }

  lemma AgainRests(w: World, s: Id)
    requires TopoOk(w.topo)
    ensures Restful(w, InitiateStart(w, s))
  {
    var v := InitiateStart(w, s);
    assert KeptBut(w, v, s) && R(v, s).state == Starting;
    hide InitiateStart, KeptBut;
    NotUpSpoken(v, s);
    hide Restful, Spoken;
    SpokenRests(w, v, s);
  }

  lemma NotUpSpoken(w: World, s: Id)
    requires R(w, s).state == Starting || R(w, s).state == Stopping
    ensures Spoken(w, s)
  {
    hide TopoOk;
  }

  lemma GrantRests(w: World, s: Id, o: Answers)
    requires TopoOk(w.topo)
    ensures Restful(w, GrantSlot(w, s, o))
  {
    hide Kept, KeptBut, Orderly, TopoOk, Restful, Reported, Resigned, Spoken, BringUp, Tick;
    var w1 := Set(w, s, R(w, s).(waitingForSlot := false));
    var w2 := Tick(w1);
    var v := BringUp(w2, s, o(w1.tick).up, o);
    KeptOrderly(w1, w2);
    OrderlyTrans(w, w1, w2);
    OrderlyRests(w, w2);
    OrderlyTopo(w, w2);
    if v != w2 {
      ReportedIsSpoken(v, s);
      SpokenRests(w2, v, s);
      RestfulTrans(w, w2, v);
    }
  }

  lemma OrderlyTopo(w: World, v: World)
    requires Orderly(w, v)
    ensures v.topo == w.topo
  {
  }

  lemma PropagateRests(w: World, o: Answers)
    requires TopoOk(w.topo)
    ensures Restful(w, Step(w, Propagate, o))
  {
    hide DoPropagation, TopoOk, Flows, Excess, QueueKept, PinsKept, Restful, Orderly;
    OrderlyRefl(w);
    OrderlyRests(w, w);
    if w.props != [] {
      var p, s := Popped(w), w.props[0];
      var v := DoPropagation(p, s, o);
      assert Overdrawn(p, v, if FRequire in R(p, s).flags then Deps(p, s) else []);
      PoppedOrderly(w);
      OrderlyTrans(w, p, v);
      OrderlyRests(w, v);
    }
  }

  lemma PoppedOrderly(w: World)
    requires w.props != []
    ensures Orderly(w, Popped(w))
  {
    StillOrderly(w, Popped(w));
  }

  /** Changing the links puts nothing to sleep. */
  lemma LinkRests(w: World, v: World)
    requires v.recs == w.recs && v.past.mute == w.past.mute && v.past.spent == w.past.spent && v.waiting == w.waiting
    requires v.books.required == w.books.required
    requires forall l :: l in v.waiting && l in v.topo.links ==> l in w.topo.links && v.topo.links[l] == w.topo.links[l]
    ensures Restful(w, v)
  {
  }

  lemma AddDepRests(w: World, l: LinkId, k: Link)
    requires TopoOk(w.topo)
    ensures Restful(w, AddDep(w, l, k))
  {
    hide Accounted, Owed, Acquire, TopoOk, Restful, PinsKept, Orderly;
    OrderlyRefl(w);
    OrderlyRests(w, w);
    if Fresh(w, l) {
      var w1 := Connect(w, l, k);
      ConnectTopo(w, l, k);
      LinkRests(w, w1);
      if !IsOnlyOrdering(k.kind) && (k.kind == Regular || k.kind == PreparedBy || Up(R(w1, k.to))) && Up(R(w1, k.from)) {
        NotOrdering(w1, l);
        OwedRests(w1, Acquire(w1, l), k.to, if l in w1.books.holding then 1 else 0);
        RestfulTrans(w, w1, Acquire(w1, l));
      }
    }
  }

  lemma OwedRests(w: World, v: World, s: Id, k: int)
    requires Owed(w, v, s, k) && TopoOk(w.topo)
    ensures Restful(w, v)
  {
    hide Shifted, QueueKept, Flows, PinsKept, Orderly, Restful;
    OrderlyRests(w, v);
  }

  lemma RmDepRests(w: World, l: LinkId, o: Answers)
    requires TopoOk(w.topo)
    ensures Restful(w, RmDep(w, l, o))
  {
    hide Accounted, Owed, Release, TopoOk, Restful, PinsKept, Orderly, Unhold;
    OrderlyRefl(w);
    OrderlyRests(w, w);
    if l in w.topo.links {
      var w1 := if l in w.books.holding then Unhold(w, l) else w;
      if l in w.books.holding { OwedRests(w, w1, L(w, l).to, 1); }
      UnholdSame(w, l);
      var w2 := Disconnect(w1, l);
      DisconnectTopo(w1, l);
      LinkRests(w1, w2);
      RestfulTrans(w, w1, w2);
      if l in w.books.holding {
        OwedRests(w2, Release(w2, L(w, l).to, o), L(w, l).to, -1);
        RestfulTrans(w, w2, Release(w2, L(w, l).to, o));
      }
    }
  }

  lemma StepRests(w: World, e: Event, o: Answers)
    requires TopoOk(w.topo)
    ensures Restful(w, Step(w, e, o))
  {
    hide Step, TopoOk, Restful, Kept, KeptBut;
    if e.Propagate? {
      PropagateRests(w, o);
    } else if e.EvAddDep? {
      StepIsAddDep(w, e, o);
      AddDepRests(w, e.l, e.link);
    } else if e.EvRmDep? {
      StepIsRmDep(w, e, o);
      RmDepRests(w, e.l, o);
    } else if Own(e, Subject(e)) {
      OwnRests(w, e, o);
    } else {
      StepKept(w, e, o);
      KeptOrderly(w, Step(w, e, o));
      OrderlyRests(w, Step(w, e, o));
    }
  }

  // ----- whole runs -----

  /** Nothing sleeps, nobody is untold, and no ordering link is waited for in vain. */
  ghost predicate Attended(w: World) {
    (forall s :: !Asleep(w, s)) && (forall l :: !Untold(w, l)) && (forall l :: !Overtaken(w, l))
  }

  lemma {:induction false} RunAttended(w: World, es: seq<Event>, o: Answers)
    requires TopoOk(w.topo) && Attended(w)
    ensures TopoOk(Run(w, es, o).topo) && Attended(Run(w, es, o))
    decreases |es|
  {
    hide Step, TopoOk, Asleep, Untold, Overtaken, Moved;
    if es != [] {
      StepRests(w, es[0], o);
      StepMoves(w, es[0], o);
      MovedTopo(w, Step(w, es[0], o));
      RunAttended(Step(w, es[0], o), es[1..], o);
    }
  }

  lemma MovedTopo(w: World, v: World)
    requires Moved(w, v)
    ensures TopoOk(v.topo)
  {
  }

  /** Why a link can still be waited for when no work is left: its target is on its way, or came up
      without telling anybody because it is pinned up and to be stopped; or the link is more than an
      ordering one, its target is down, and the link does not hold it, or a marker or the operator
      keeps it down, or it stopped or failed while it still counted as required. */
  ghost predicate Explained(w: World, l: LinkId)
    requires l in w.topo.links
  {
    var t := w.topo.links[l].to;
    var r := R(w, t);
    match r.state
    case Starting => true
    case Stopping => true
    case Started => t in w.past.mute
    case Stopped => !IsOrdering(w, l) && (l !in w.books.holding || r.manual || r.markedDown || t in w.past.spent)
  }

  /** In every run from a new service set, once the queue of work is drained, every link that is still
      waited for is explained. */
  lemma WaitsAreExplained(w: World, es: seq<Event>, o: Answers, l: LinkId)
    requires Initial(w) && TopoOk(w.topo)
    ensures
      var v := Run(w, es, o);
      v.props == [] && l in v.waiting && l in v.topo.links ==> Explained(v, l)
  {
    hide Run, TopoOk, Holders, Asleep, Untold, Overtaken, Explained, RunDoubled;
    InitialAttended(w);
    RunAttended(w, es, o);
    var v := Run(w, es, o);
    if v.props == [] && l in v.waiting && l in v.topo.links {
      var t := v.topo.links[l].to;
      NoWorkIsLost(w, es, o, t);
      CountsAreAccountedFor(w, es, o, t);
      if l in v.books.holding { HolderCounts(v.topo, v.books.holding, l); }
      AttendedExplains(v, l);
    }
  }

  lemma AttendedExplains(v: World, l: LinkId)
    requires l in v.waiting && l in v.topo.links
    requires
      var t := v.topo.links[l].to;
      !Asleep(v, t) && !Untold(v, l) && !Overtaken(v, l) && R(v, t).flags == {} && (l in v.books.holding ==> Required(v.books, t) > 0)
    ensures Explained(v, l)
  {
  }

  lemma HolderCounts(t: Topo, holding: set<LinkId>, l: LinkId)
    requires l in holding && l in t.links
    ensures |Holders(t, holding, t.links[l].to)| > 0
  {
    assert l in Holders(t, holding, t.links[l].to);
  }

  lemma InitialAttended(w: World)
    requires Initial(w)
    ensures Attended(w)
  {
  }

  /** So, once both queues are drained and unless a link was removed while it was waited for, a
      service that still waits to start has a link that it waits for, and every such link is
      explained. */
  lemma WaitingIsExplained(w: World, es: seq<Event>, o: Answers, s: Id)
    requires Initial(w) && TopoOk(w.topo) && WaitsRespected(w, es, o)
    ensures
      var v := Run(w, es, o);
      v.props == [] && v.transitions == [] && R(v, s).state == Starting && R(v, s).waitingForDeps ==>
      && (exists l :: l in Deps(v, s) && l in v.waiting)
      && (forall l :: l in Deps(v, s) && l in v.waiting ==> l in v.topo.links && Explained(v, l))
  {
    hide Run, WaitsRespected, Explained;
    var v := Run(w, es, o);
    InitialAttended(w);
    RunAttended(w, es, o);
    StartsFlow(w, es, o, 0, s);
    forall l | v.props == [] && l in Deps(v, s) && l in v.waiting ensures l in v.topo.links && Explained(v, l) {
      WaitsAreExplained(w, es, o, l);
    }
  }

  // ----- a service that counts as required though it is down -----

  /** Acquiring a service that counts as required already starts nothing, whatever its state: once one
      is down and still counted, no dependency brings it up again. */
  lemma CountedIsNotStarted(w: World, l: LinkId)
    requires l in w.topo.links && !IsOrdering(w, l) && Required(w.books, L(w, l).to) > 0
    ensures
      var v := Acquire(w, l);
      v.recs == w.recs && v.props == w.props && Required(v.books, L(w, l).to) > Required(w.books, L(w, l).to)
  {
    hide Owed, Kept;
  }

  // ----- coming up under a pin -----

  /** A service that is pinned up and comes up tells its dependents exactly when it is not to stop again:
      otherwise everybody who waits for it goes on doing so, though it is up. */
  lemma PinnedTellsIff(w: World, s: Id, o: Answers, l: LinkId)
    requires !R(w, s).startedEmitted && StartPinned(R(w, s)) && l in Dpts(w, s) && l in w.topo.links && l in w.waiting
    ensures
      var v := HasStarted(w, s, o);
      R(v, s).state == Started && (l in v.waiting <==> R(w, s).forceStop || R(w, s).desired == Stopped)
  {
    hide Kept, KeptBut, Quiet, Calm, Reported, Orderly, DoStop, TellDependents, RushesNone, TopoOk, Dealt, Notified, Exhausts, Underway;
    var w0 := Land(w, s);
    var w1 := Set(w0, s, R(w0, s).(startedEmitted := true, state := Started));
    assert Dpts(w1, s) == Dpts(w, s);
    if !(R(w, s).forceStop || R(w, s).desired == Stopped) {
      CalmAt(w1, TellDependents(w1, Dpts(w1, s)), s);
    }
  }

  // ----- restarts -----

  /** A service that starts again waits for every dependency that is not up, the soft ones included,
      and acquires none: one that it does not hold, because it had stopped meanwhile, is waited for
      and not started. */
  lemma RestartWaitsAgain(w: World, s: Id, o: Answers, l: LinkId)
    requires WillRestart(R(w, s)) && forall k :: o(k).chain.Nobody?
    requires l in Deps(w, s) && !IsOrdering(w, l) && L(w, l).to != s && R(w, L(w, l).to).state == Stopped
    requires l !in w.books.holding && FRequire !in R(w, s).flags
    ensures
      var v := HasStopped(w, s, o);
      && R(v, s).state == Starting && R(v, s).waitingForDeps && l in Deps(v, s) && l in v.waiting
      && l !in v.books.holding && FRequire !in R(v, s).flags && R(v, L(w, l).to).state == Stopped
  {
    hide HasStopped, ClearStop, TellDeps, SetState, RestartPrepared, InitiateStart, Kept, KeptBut, Calm, Quiet, Tick, WillRestart, Resigned;
    var to := L(w, l).to;
    var w1 := ClearStop(w, s);
    var w3 := TellDeps(w1, Deps(w1, s));
    var w4 := SetState(w3, s, Stopped);
    var w5 := RestartPrepared(w4, Deps(w4, s), o);
    RestartIs(w, s, o);
    ClearStopSame(w, s);
    CalmAt(w1, w3, s);
    CalmAt(w1, w3, to);
    CalmHolding(w1, w3);
    SetStateSame(w3, s);
    QuietAt(w4, w5, s);
    QuietAt(w4, w5, to);
    QuietHolding(w4, w5);
    InitiateWaitsFor(w5, s, l);
  }

  lemma RestartIs(w: World, s: Id, o: Answers)
    requires WillRestart(R(w, s)) && forall k :: o(k).chain.Nobody?
    ensures
      var w1 := ClearStop(w, s);
      var w3 := TellDeps(w1, Deps(w1, s));
      var w4 := SetState(w3, s, Stopped);
      var w5 := RestartPrepared(w4, Deps(w4, s), o);
      HasStopped(w, s, o) == Tick(InitiateStart(w5, s)) && w5.topo == w.topo
  {
    hide ClearStop, TellDeps, SetState, RestartPrepared, InitiateStart, Kept, KeptBut, Calm, Quiet, Tick, Start, Resigned, Retire, Halted,
      Resumes, Renewed;
    var w1 := ClearStop(w, s);
    var w3 := TellDeps(w1, Deps(w1, s));
    var w4 := SetState(w3, s, Stopped);
    KeptTopo(w, w1);
    KeptTopo(w1, w3);
    KeptTopo(w4, RestartPrepared(w4, Deps(w4, s), o));
  }

  lemma ClearStopSame(w: World, s: Id)
    ensures
      var v := ClearStop(w, s);
      v == w.(recs := v.recs) && R(v, s).flags == R(w, s).flags && forall t :: R(v, t).state == R(w, t).state
  {
    hide Kept, KeptBut, Orderly;
  }

  lemma SetStateSame(w: World, s: Id)
    ensures R(SetState(w, s, Stopped), s).flags == R(w, s).flags
  {
    hide Kept, KeptBut, Orderly;
  }

  lemma CalmHolding(w: World, v: World)
    requires Calm(w, v)
    ensures v.books.holding <= w.books.holding
  {
  }

  lemma QuietHolding(w: World, v: World)
    requires Quiet(w, v)
    ensures v.books.holding <= w.books.holding
  {
  }

  lemma InitiateWaitsFor(w: World, s: Id, l: LinkId)
    requires l in Deps(w, s) && !IsOrdering(w, l) && L(w, l).to != s && R(w, L(w, l).to).state == Stopped
    ensures
      var v := InitiateStart(w, s);
      v.topo == w.topo && l in v.waiting && R(v, s).flags == R(w, s).flags
  {
    hide KeptBut, Kept, Calm, PinsKept, Stuck;
    var w1 := BeginStart(w, s);
    assert !NoWait(w1, l);
  }

  // ----- stuck starts -----

  /** The same with the links there are afterwards. */
  ghost predicate OrderedNow(w: World, v: World, s: Id) {
    exists l :: OrderingLink(v.topo, l) && v.topo.links[l].from == s && Begun(w, v, v.topo.links[l].to)
  }

  /** The step leaves the starting service alone: it is still starting, not afresh, its own process has
      reported nothing, and nothing that it is ordered by has begun to start. */
  ghost predicate LeavesAlone(w: World, e: Event, v: World, s: Id) {
    !Own(e, s) && R(v, s).state == Starting && !Begun(w, v, s) && !OrderedNow(w, v, s)
  }

  lemma OrderlyStays(w: World, v: World, s: Id)
    requires Orderly(w, v) && TopoOk(w.topo) && Abandoned(w, s)
    requires R(v, s).state == Starting && !Begun(w, v, s) && !OrderedNow(w, v, s)
    ensures Abandoned(v, s)
  {
    hide Asleep, Untold, Overtaken, TopoOk, Abandoned;
    assert StaysStuck(w, v, s);
  }

  lemma ButStays(w: World, v: World, t: Id, s: Id)
    requires KeptBut(w, v, t) && s != t && TopoOk(w.topo) && Abandoned(w, s)
    requires R(v, s).state == Starting && !Begun(w, v, s) && !OrderedNow(w, v, s)
    ensures Abandoned(v, s)
  {
    hide Even, Flows, Holds, Asleep, Untold, Overtaken, TopoOk, Abandoned;
    assert StaysStuck(w, v, s);
  }

  lemma PropagateStays(w: World, o: Answers, s: Id)
    requires TopoOk(w.topo) && Abandoned(w, s) && LeavesAlone(w, Propagate, Step(w, Propagate, o), s)
    ensures Abandoned(Step(w, Propagate, o), s)
  {
    hide DoPropagation, TopoOk, Flows, Excess, QueueKept, PinsKept, Orderly, Abandoned, OrderedNow;
    if w.props != [] {
      var p, t := Popped(w), w.props[0];
      var v := DoPropagation(p, t, o);
      assert Overdrawn(p, v, if FRequire in R(p, t).flags then Deps(p, t) else []);
      PoppedOrderly(w);
      OrderlyTrans(w, p, v);
      OrderlyStays(w, v, s);
    }
  }

  /** Links come and go, and nothing is waited for that was not. */
  lemma LinkStays(w: World, v: World, s: Id)
    requires Abandoned(w, s) && v.recs == w.recs && v.waiting == w.waiting && v.transitions == w.transitions
    requires forall m :: m in Deps(v, s) && m in w.waiting ==> m in Deps(w, s)
    ensures Abandoned(v, s)
  {
  }

  lemma OwedStays(w: World, v: World, t: Id, k: int, s: Id)
    requires Owed(w, v, t, k) && TopoOk(w.topo) && Abandoned(w, s)
    requires R(v, s).state == Starting && !Begun(w, v, s) && !OrderedNow(w, v, s)
    ensures Abandoned(v, s)
  {
    hide Shifted, QueueKept, Flows, PinsKept, Orderly, Abandoned, OrderedNow, Begun;
    OrderlyStays(w, v, s);
  }

  lemma AddDepStays(w: World, l: LinkId, k: Link, s: Id)
    requires TopoOk(w.topo) && Abandoned(w, s) && LeavesAlone(w, EvAddDep(l, k), AddDep(w, l, k), s)
    ensures Abandoned(AddDep(w, l, k), s)
  {
    hide Accounted, Owed, Acquire, TopoOk, PinsKept, Abandoned, OrderedNow;
    if Fresh(w, l) {
      var w1 := Connect(w, l, k);
      ConnectTopo(w, l, k);
      LinkStays(w, w1, s);
      if !IsOnlyOrdering(k.kind) && (k.kind == Regular || k.kind == PreparedBy || Up(R(w1, k.to))) && Up(R(w1, k.from)) {
        NotOrdering(w1, l);
        var v := Acquire(w1, l);
        SameBegun(w, w1, v, s);
        OwedStays(w1, v, k.to, if l in w1.books.holding then 1 else 0, s);
      }
    }
  }

  lemma SameBegun(w: World, w1: World, v: World, s: Id)
    requires w1.past.begun == w.past.begun
    ensures Begun(w1, v, s) == Begun(w, v, s) && OrderedNow(w1, v, s) == OrderedNow(w, v, s)
  {
  }

  lemma RmDepStays(w: World, l: LinkId, o: Answers, s: Id)
    requires TopoOk(w.topo) && Abandoned(w, s) && LeavesAlone(w, EvRmDep(l), RmDep(w, l, o), s)
    ensures Abandoned(RmDep(w, l, o), s)
  {
    hide Accounted, Owed, Release, TopoOk, PinsKept, Abandoned, OrderedNow, Unhold;
    if l in w.topo.links {
      var w1 := if l in w.books.holding then Unhold(w, l) else w;
      UnholdSame(w, l);
      var w2 := Disconnect(w1, l);
      DisconnectTopo(w1, l);
      DisconnectDeps(w1, l, s);
      LinkStays(w, w1, s);
      LinkStays(w1, w2, s);
      if l in w.books.holding {
        var v := Release(w2, L(w, l).to, o);
        SameBegun(w, w2, v, s);
        OwedStays(w2, v, L(w, l).to, -1, s);
      }
    }
  }

  lemma DisconnectDeps(w: World, l: LinkId, s: Id)
    requires l in w.topo.links && l !in w.books.holding
    ensures forall m :: m in Deps(Disconnect(w, l), s) ==> m in Deps(w, s)
  {
    hide Accounted, Without;
    forall m | m in Deps(Disconnect(w, l), s) ensures m in Deps(w, s) { WithoutMember(Deps(w, w.topo.links[l].from), l, m); }
  }

  lemma StepStays(w: World, e: Event, o: Answers, s: Id)
    requires TopoOk(w.topo) && Abandoned(w, s) && LeavesAlone(w, e, Step(w, e, o), s)
    ensures Abandoned(Step(w, e, o), s)
  {
    hide Step, TopoOk, Kept, KeptBut, Abandoned, OrderedNow, Begun;
    if e.Propagate? {
      PropagateStays(w, o, s);
    } else if e.EvAddDep? {
      StepIsAddDep(w, e, o);
      AddDepStays(w, e.l, e.link, s);
    } else if e.EvRmDep? {
      StepIsRmDep(w, e, o);
      RmDepStays(w, e.l, o, s);
    } else if Own(e, Subject(e)) {
      StepKept(w, e, o);
      ButStays(w, Step(w, e, o), Subject(e), s);
    } else {
      StepKept(w, e, o);
      KeptOrderly(w, Step(w, e, o));
      OrderlyStays(w, Step(w, e, o), s);
    }
  }

  /** Every step of the run leaves the service alone. */
  ghost predicate LeftAlone(w: World, es: seq<Event>, o: Answers, s: Id)
    decreases |es|
  {
    es == [] || (LeavesAlone(w, es[0], Step(w, es[0], o), s) && LeftAlone(Step(w, es[0], o), es[1..], o, s))
  }

  /** A stuck start stays stuck through every run, however long, that leaves it alone: whatever else is
      started, stopped, linked or unlinked, and however often the queues are worked off. */
  lemma {:induction false} StuckForGood(w: World, es: seq<Event>, o: Answers, s: Id)
    requires TopoOk(w.topo) && Abandoned(w, s) && LeftAlone(w, es, o, s)
    ensures Stuck(Run(w, es, o), s) && s !in Run(w, es, o).transitions
    decreases |es|
  {
    hide Step, TopoOk, LeavesAlone, Moved;
    if es != [] {
      StepStays(w, es[0], o, s);
      StepMoves(w, es[0], o);
      MovedTopo(w, Step(w, es[0], o));
      StuckForGood(Step(w, es[0], o), es[1..], o, s);
    }
  }
}
