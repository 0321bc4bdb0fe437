/** What every run owes: stops and releases that were asked for are carried out, and no service comes
    up before the services that it cannot do without. */
module Duties {
  import opened Services
  import opened Records
  import opened StopMachine
  import opened StartMachine
  import opened Propagation
  import opened ServiceRuns
  import opened Waits

  /** No stop and no release is ignored that was not. */
  ghost predicate Heeding(w: World, v: World) {
    forall s :: (Ignored(v, s) ==> Ignored(w, s)) && (Withheld(v, s) ==> Withheld(w, s))
  }

  lemma HeedingRefl(w: World)
    ensures Heeding(w, w)
  {
  }

  lemma HeedingTrans(u: World, v: World, w: World)
    requires Heeding(u, v) && Heeding(v, w)
    ensures Heeding(u, w)
  {
    hide Ignored, Withheld;
  }

  lemma DutifulHeeds(w: World, v: World)
    requires Dutiful(w, v) && TopoOk(w.topo)
    ensures Heeding(w, v)
  {
    hide Ignored, Withheld, TopoOk;
  }

  lemma OwedHeeds(w: World, v: World, s: Id, k: int)
    requires Owed(w, v, s, k) && TopoOk(w.topo)
    ensures Heeding(w, v)
  {
    hide Shifted, QueueKept, Flows, PinsKept, Orderly, Heeding, Dutiful;
    DutifulHeeds(w, v);
  }

  // ----- one step -----

  lemma PropagateHeeds(w: World, o: Answers)
    requires TopoOk(w.topo)
    ensures Heeding(w, Step(w, Propagate, o))
  {
    hide DoPropagation, TopoOk, Flows, Excess, QueueKept, PinsKept, Heeding, Orderly, Dutiful;
    HeedingRefl(w);
    if w.props != [] {
      var p, s := Popped(w), w.props[0];
      var v := DoPropagation(p, s, o);
      assert Overdrawn(p, v, if FRequire in R(p, s).flags then Deps(p, s) else []);
      PoppedHeeds(w);
      DutifulHeeds(p, v);
      HeedingTrans(w, p, v);
    }
  }

  lemma PoppedHeeds(w: World)
    requires w.props != []
    ensures Heeding(w, Popped(w))
  {
    var v := Popped(w);
    forall s ensures (Ignored(v, s) ==> Ignored(w, s)) && (Withheld(v, s) ==> Withheld(w, s)) {
      assert Deps(v, s) == Deps(w, s);
    }
  }

  /** A service clings to nothing new when links come or go that do not hold. */
  lemma LinkHeeds(w: World, v: World)
    requires v.recs == w.recs && v.past.told == w.past.told && v.past.asked == w.past.asked && v.books == w.books
    requires forall s, l :: l in Deps(v, s) && l in v.topo.links && l in w.books.holding ==> l in Deps(w, s) && l in w.topo.links
    ensures Heeding(w, v)
  {
  }

  lemma AddDepHeeds(w: World, l: LinkId, k: Link)
    requires TopoOk(w.topo)
    ensures Heeding(w, AddDep(w, l, k))
  {
    hide Accounted, Owed, Acquire, TopoOk, Heeding, PinsKept;
    HeedingRefl(w);
    if Fresh(w, l) {
      var w1 := Connect(w, l, k);
      ConnectTopo(w, l, k);
      LinkHeeds(w, w1);
      if !IsOnlyOrdering(k.kind) && (k.kind == Regular || k.kind == PreparedBy || Up(R(w1, k.to))) && Up(R(w1, k.from)) {
        NotOrdering(w1, l);
        OwedHeeds(w1, Acquire(w1, l), k.to, if l in w1.books.holding then 1 else 0);
        HeedingTrans(w, w1, Acquire(w1, l));
      }
    }
  }

  lemma RmDepHeeds(w: World, l: LinkId, o: Answers)
    requires TopoOk(w.topo)
    ensures Heeding(w, RmDep(w, l, o))
  {
    hide Accounted, Owed, Release, TopoOk, Heeding, PinsKept, Unhold, Disconnect;
    HeedingRefl(w);
    if l in w.topo.links {
      var w1 := if l in w.books.holding then Unhold(w, l) else w;
      if l in w.books.holding { OwedHeeds(w, w1, L(w, l).to, 1); }
      UnholdSame(w, l);
      var w2 := Disconnect(w1, l);
      DisconnectTopo(w1, l);
      DisconnectHeeds(w1, l);
      HeedingTrans(w, w1, w2);
      if l in w.books.holding {
        OwedHeeds(w2, Release(w2, L(w, l).to, o), L(w, l).to, -1);
        HeedingTrans(w, w2, Release(w2, L(w, l).to, o));
      }
    }
  }

  lemma DisconnectHeeds(w: World, l: LinkId)
    requires l in w.topo.links && l !in w.books.holding
    ensures Heeding(w, Disconnect(w, l))
  {
    hide Accounted, Heeding;
    var v := Disconnect(w, l);
    forall s ensures forall m :: m in Deps(v, s) ==> m in Deps(w, s) { DisconnectDeps(w, l, s); }
    LinkHeeds(w, v);
  }

  lemma ButHeeds(w: World, v: World, s: Id)
    requires KeptBut(w, v, s) && TopoOk(w.topo)
    ensures Heeding(w, v)
  {
    hide Flows, OrderlyBut, Balanced, QueueKept, Dutiful, Heeding, Holds;
    DutifulHeeds(w, v);
  }

  lemma StepHeeds(w: World, e: Event, o: Answers)
    requires TopoOk(w.topo)
    ensures Heeding(w, Step(w, e, o))
  {
    hide Step, TopoOk, Heeding, KeptBut;
    if e.Propagate? {
      PropagateHeeds(w, o);
    } else if e.EvAddDep? {
      StepIsAddDep(w, e, o);
      AddDepHeeds(w, e.l, e.link);
    } else if e.EvRmDep? {
      StepIsRmDep(w, e, o);
      RmDepHeeds(w, e.l, o);
    } else {
      StepKept(w, e, o);
      ButHeeds(w, Step(w, e, o), Subject(e));
    }
  }

  // ----- whole runs -----

  /** Nothing that was asked for is ignored. */
  ghost predicate Heedful(w: World) {
    forall s :: !Ignored(w, s) && !Withheld(w, s)
  }

  lemma HeedingHeedful(w: World, v: World)
    requires Heeding(w, v) && Heedful(w)
    ensures Heedful(v)
  {
    hide Ignored, Withheld;
  }

  lemma {:induction false} RunHeedful(w: World, es: seq<Event>, o: Answers)
    requires TopoOk(w.topo) && Heedful(w)
    ensures TopoOk(Run(w, es, o).topo) && Heedful(Run(w, es, o))
    decreases |es|
  {
    hide Step, TopoOk, Heedful, Heeding, Moved;
    if es != [] {
      StepHeeds(w, es[0], o);
      HeedingHeedful(w, Step(w, es[0], o));
      StepMoves(w, es[0], o);
      MovedTopo(w, Step(w, es[0], o));
      RunHeedful(Step(w, es[0], o), es[1..], o);
    }
  }

  lemma InitialHeedful(w: World)
    requires Initial(w)
    ensures Heedful(w)
  {
  }

  /** In every run from a new service set, a service that was flagged for a stop, by a dependency that is
      to stay down or otherwise, is queued for it as long as it is up without a pin: once the queue is
      drained, no such service is up. */
  lemma StopsAreHeeded(w: World, es: seq<Event>, o: Answers, s: Id)
    requires Initial(w) && TopoOk(w.topo)
    ensures
      var v := Run(w, es, o);
      s in v.past.told && R(v, s).state == Started && !StartPinned(R(v, s)) ==> FStop in R(v, s).flags && s in v.props
  {
    hide Run, TopoOk;
    InitialHeedful(w);
    RunHeedful(w, es, o);
    NoWorkIsLost(w, es, o, s);
    assert !Ignored(Run(w, es, o), s);
  }

  /** In every run from a new service set, a service that was asked to release what it holds, and has not
      acquired anything since, is queued for it as long as it holds one of its dependencies: once the
      queue is drained, it holds none. */
  lemma ReleasesAreHeeded(w: World, es: seq<Event>, o: Answers, s: Id, l: LinkId)
    requires Initial(w) && TopoOk(w.topo)
    ensures
      var v := Run(w, es, o);
      s in v.past.asked && l in Deps(v, s) && l in v.books.holding ==> FRelease in R(v, s).flags && s in v.props
  {
    hide Run;
    InitialHeedful(w);
    RunHeedful(w, es, o);
    NoWorkIsLost(w, es, o, s);
    var v := Run(w, es, o);
    assert !Withheld(v, s);
    if l in Deps(v, s) && l in v.books.holding { assert l in v.topo.links && Clings(v, s); }
  }

  // ----- starting in time -----

  /** No service gets ahead of one that it needs. */
  ghost predicate Unhurried(w: World, v: World) {
    forall l :: Rushed(v, l) ==> Rushed(w, l)
  }

  lemma UnhurriedTrans(u: World, v: World, w: World)
    requires Unhurried(u, v) && Unhurried(v, w)
    ensures Unhurried(u, w)
  {
    hide Rushed;
  }

  lemma OrderlyUnhurried(w: World, v: World)
    requires Orderly(w, v) && TopoOk(w.topo)
    ensures Unhurried(w, v)
  {
    hide Asleep, Untold, Overtaken, Rushed, StaysStuck, TopoOk;
  }

  lemma OwedUnhurried(w: World, v: World, s: Id, k: int)
    requires Owed(w, v, s, k) && TopoOk(w.topo)
    ensures Unhurried(w, v)
  {
    hide Shifted, QueueKept, Flows, PinsKept, Orderly, Unhurried, Dutiful;
    OrderlyUnhurried(w, v);
  }

  lemma ButUnhurried(w: World, v: World, s: Id)
    requires KeptBut(w, v, s) && TopoOk(w.topo) && RushesNone(w, v, s)
    ensures Unhurried(w, v)
  {
    hide Even, Flows, Holds, Asleep, Untold, Overtaken, StaysStuck, TopoOk;
    forall l | Rushed(v, l) ensures Rushed(w, l) { assert l in w.topo.links; }
  }

  /** The process reports that it is up, or is given its slot, only once it has been taken on: whatever it
      waits for was there. */
  predicate Timely(w: World, e: Event) {
    match e
    case Ready(s) => TakenOn(R(w, s))
    case SlotGranted(s) => TakenOn(R(w, s))
    case _ => true
  }

  lemma OwnUnhurried(w: World, e: Event, o: Answers)
    requires LeavesLinks(e) && Own(e, Subject(e)) && TopoOk(w.topo) && Timely(w, e)
    ensures Unhurried(w, Step(w, e, o))
  {
    hide KeptBut, Orderly, TopoOk, Unhurried, Reported, Resigned, HasStarted, HasStopped, Fail, FailAndStop, InitiateStart, Unpin,
      GrantSlot, Asleep, SameStates, Entries, BegunPast, RushesNone, NotRushed, AwaitsAll;
    match e
    case EvUnpin(s) => OrderlyUnhurried(w, Unpin(w, s, o));
    case Broken(s, atOnce) =>
      if atOnce { ResignedUnhurried(w, FailAndStop(w, s, o), s); } else { OrderlyUnhurried(w, Fail(w, s)); }
    case Gone(s) => ResignedUnhurried(w, HasStopped(w, s, o), s);
    case Ready(s) => ButUnhurried(w, HasStarted(w, s, o), s);
    case SlotGranted(s) => ButUnhurried(w, GrantSlot(w, s, o), s);
    case Again(s) =>
      var v := InitiateStart(w, s);
      NotRushedNone(w, v, s);
      ButUnhurried(w, v, s);
  }

  lemma NotRushedNone(w: World, v: World, s: Id)
    requires KeptBut(w, v, s) && NotRushed(v, s)
    ensures RushesNone(w, v, s)
  {
    hide Even, Flows, Holds;
  }

  lemma ResignedUnhurried(w: World, v: World, s: Id)
    requires KeptBut(w, v, s) && TopoOk(w.topo) && Resigned(v, s)
    ensures Unhurried(w, v)
  {
    hide KeptBut, TopoOk, Resigned, Unhurried, RushesNone;
    ResignedRushes(w, v, s);
    ButUnhurried(w, v, s);
  }

  lemma PropagateUnhurried(w: World, o: Answers)
    requires TopoOk(w.topo)
    ensures Unhurried(w, Step(w, Propagate, o))
  {
    hide DoPropagation, TopoOk, Flows, Excess, QueueKept, PinsKept, Unhurried, Orderly;
    OrderlyRefl(w);
    OrderlyUnhurried(w, w);
    if w.props != [] {
      var p, s := Popped(w), w.props[0];
      var v := DoPropagation(p, s, o);
      assert Overdrawn(p, v, if FRequire in R(p, s).flags then Deps(p, s) else []);
      PoppedOrderly(w);
      OrderlyTrans(w, p, v);
      OrderlyUnhurried(w, v);
    }
  }

  /** A link that comes lacks nothing, and one that goes is no longer waited for. */
  lemma LinkUnhurried(w: World, v: World)
    requires v.recs == w.recs && v.waiting == w.waiting && v.past.lacking <= w.past.lacking
    requires forall l :: l in v.past.lacking && l in v.topo.links ==> l in w.topo.links && v.topo.links[l] == w.topo.links[l]
    ensures Unhurried(w, v)
  {
  }

  lemma AddDepUnhurried(w: World, l: LinkId, k: Link)
    requires TopoOk(w.topo)
    ensures Unhurried(w, AddDep(w, l, k))
  {
    hide Accounted, Owed, Acquire, TopoOk, Unhurried, PinsKept, Orderly;
    OrderlyRefl(w);
    OrderlyUnhurried(w, w);
    if Fresh(w, l) {
      var w1 := Connect(w, l, k);
      ConnectTopo(w, l, k);
      LinkUnhurried(w, w1);
      if !IsOnlyOrdering(k.kind) && (k.kind == Regular || k.kind == PreparedBy || Up(R(w1, k.to))) && Up(R(w1, k.from)) {
        NotOrdering(w1, l);
        OwedUnhurried(w1, Acquire(w1, l), k.to, if l in w1.books.holding then 1 else 0);
        UnhurriedTrans(w, w1, Acquire(w1, l));
      }
    }
  }

  lemma RmDepUnhurried(w: World, l: LinkId, o: Answers)
    requires TopoOk(w.topo)
    ensures Unhurried(w, RmDep(w, l, o))
  {
    hide Accounted, Owed, Release, TopoOk, Unhurried, PinsKept, Orderly, Unhold;
    OrderlyRefl(w);
    OrderlyUnhurried(w, w);
    if l in w.topo.links {
      var w1 := if l in w.books.holding then Unhold(w, l) else w;
      if l in w.books.holding { OwedUnhurried(w, w1, L(w, l).to, 1); }
      UnholdSame(w, l);
      var w2 := Disconnect(w1, l);
      DisconnectTopo(w1, l);
      LinkUnhurried(w1, w2);
      UnhurriedTrans(w, w1, w2);
      if l in w.books.holding {
        OwedUnhurried(w2, Release(w2, L(w, l).to, o), L(w, l).to, -1);
        UnhurriedTrans(w, w2, Release(w2, L(w, l).to, o));
      }
    }
  }

  lemma StepUnhurried(w: World, e: Event, o: Answers)
    requires TopoOk(w.topo) && Timely(w, e)
    ensures Unhurried(w, Step(w, e, o))
  {
    hide Step, TopoOk, Unhurried, Kept, KeptBut, Timely;
    if e.Propagate? {
      PropagateUnhurried(w, o);
    } else if e.EvAddDep? {
      StepIsAddDep(w, e, o);
      AddDepUnhurried(w, e.l, e.link);
    } else if e.EvRmDep? {
      StepIsRmDep(w, e, o);
      RmDepUnhurried(w, e.l, o);
    } else if Own(e, Subject(e)) {
      OwnUnhurried(w, e, o);
    } else {
      StepKept(w, e, o);
      KeptOrderly(w, Step(w, e, o));
      OrderlyUnhurried(w, Step(w, e, o));
    }
  }

  /** Every report of the run is timely. */
  ghost predicate AllTimely(w: World, es: seq<Event>, o: Answers)
    decreases |es|
  {
    es == [] || (Timely(w, es[0]) && AllTimely(Step(w, es[0], o), es[1..], o))
  }

  /** No link is ahead of its target. */
  ghost predicate NoneAhead(w: World) {
    forall l :: !Rushed(w, l)
  }

  lemma UnhurriedNone(w: World, v: World)
    requires Unhurried(w, v) && NoneAhead(w)
    ensures NoneAhead(v)
  {
    hide Rushed;
  }

  lemma {:induction false} RunUnhurried(w: World, es: seq<Event>, o: Answers)
    requires TopoOk(w.topo) && NoneAhead(w) && AllTimely(w, es, o)
    ensures NoneAhead(Run(w, es, o))
    decreases |es|
  {
    hide Step, TopoOk, NoneAhead, Unhurried, Moved, Timely;
    if es != [] {
      StepUnhurried(w, es[0], o);
      UnhurriedNone(w, Step(w, es[0], o));
      StepMoves(w, es[0], o);
      MovedTopo(w, Step(w, es[0], o));
      RunUnhurried(Step(w, es[0], o), es[1..], o);
    }
  }

  /** In every run from a new service set in which processes report in time, a service that is up, or is
      coming up and waits for nothing any more, lacks nothing that it cannot do without: whatever it
      depends on was up when it began to start, or has come up since.  And as long as one of them has
      not, the service waits for it. */
  lemma DependenciesComeFirst(w: World, es: seq<Event>, o: Answers, l: LinkId)
    requires Initial(w) && TopoOk(w.topo) && AllTimely(w, es, o)
    ensures
      var v := Run(w, es, o);
      MustWait(v.topo, l) && l in v.past.lacking ==>
        var r := R(v, v.topo.links[l].from);
        r.state == Stopped || r.state == Stopping || (r.state == Starting && r.waitingForDeps && l in v.waiting)
  {
    hide Run, TopoOk, AllTimely;
    assert NoneAhead(w);
    RunUnhurried(w, es, o);
    assert !Rushed(Run(w, es, o), l);
  }

  /** That reports are timely is needed: a service that is told to be up before it was taken on, and is
      not to stop at once, is ahead of whatever it lacks. */
  lemma UntimelyIsAhead(w: World, s: Id, o: Answers, l: LinkId)
    requires MustWait(w.topo, l) && L(w, l).from == s && l in w.past.lacking && l !in Dpts(w, s)
    requires !R(w, s).startedEmitted && !R(w, s).forceStop && R(w, s).desired != Stopped
    ensures Rushed(Step(w, Ready(s), o), l)
  {
    hide Kept, KeptBut, Quiet, Calm, Reported, Orderly, TopoOk, RushesNone, TellDependents, DoStop, Silence;
    var w0 := Land(w, s);
    var w1 := Set(w0, s, R(w0, s).(startedEmitted := true, state := Started));
    var v := TellDependents(w1, Dpts(w1, s));
    CalmAt(w1, v, s);
    KeptTopo(w1, v);
  }
}
