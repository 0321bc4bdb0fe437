/** Runs after which a service waits for another one that nobody will start. */
module WaitForever {
  import opened Services
  import opened Records
  import opened StopMachine
  import opened StartMachine
  import opened Propagation
  import opened ServiceRuns
  import opened Replay

  /** Service 0 depends on service 1. */
  const PAIR := Topo(map[0 := Link(0, 1, Regular)], map[0 := [0]], map[1 := [0]])

  const MARKED := NEW_REC.(markedDown := true)
  const MANUAL := NEW_REC.(manual := true)

  /** Nothing is running; the record of service 1 is `r`. */
  function Fresh0(r: Rec): World {
    World(PAIR, Books(map[], {}, {}), map[1 := r], {}, [], [], Past([], multiset{}, {}), 0)
  }

  /** Service 0 was asked to start. */
  function Asked(r: Rec): World {
    World(PAIR, Books(map[0 := 1], {0}, {}), map[1 := r, 0 := ACQUIRING], {0}, [0], [], Past([0], multiset{0}, {0}), 0)
  }

  /** It has acquired service 1. */
  function Acquired(r: Rec, props: seq<Id>): World {
    World(PAIR, Books(map[0 := 1, 1 := 1], {0}, {0}), map[1 := r, 0 := WAITING], {0}, props, [], Past([0], multiset{0}, {0}), 0)
  }

  lemma Asks(r: Rec, o: Answers)
    requires r.state == Stopped
    ensures Step(Fresh0(r), EvStart(0), o) == Asked(r)
  {
    hide Step, InitiateStart;
    StartsNew(Fresh0(r), 0, o);
    var w := Prepared(Fresh0(r), 0);
    InitiatesPair(r, w);
  }

  lemma InitiatesPair(r: Rec, w: World)
    requires r.state == Stopped && w == Prepared(Fresh0(r), 0)
    ensures InitiateStart(w, 0) == Asked(r)
  {
    hide KeptBut, Kept, InitiateStart, HoldBack, WaitForDeps, DepsSettled, BeginStart;
    var a := Asked(r).(waiting := {});
    BeginsNew(w, 0);
    assert BeginStart(w, 0) == a;
    InitiateIs(w, 0, a);
    WaitsPair(r, a);
  }

  lemma WaitsPair(r: Rec, a: World)
    requires r.state == Stopped && a == Asked(r).(waiting := {})
    ensures HoldBack(WaitForDeps(a, Deps(a, 0)), Dpts(a, 0)) == Asked(r) && !DepsSettled(a, Deps(a, 0))
  {
    assert [0][1..] == [] && 0 in [0];
    assert WaitForDeps(a, [0]) == a.(waiting := {0});
  }

  // ----- a service that the operator has to start -----

  lemma AcquiresManual(o: Answers)
    ensures Step(Asked(MANUAL), Propagate, o) == Acquired(MANUAL, [])
  {
    hide Step, DoPropagation, PhaseRequire, Kept, KeptBut, Owed, Overdrawn, Acquire, Lower, AcquireAll, Calm;
    var w := Asked(MANUAL);
    var p := w.(recs := w.recs[0 := WAITING.(flags := {FRequire})], props := []);
    assert Popped(w) == p;
    PropagateIs(w, 0, o);
    var b := Acquired(MANUAL, []).(recs := p.recs);
    ManualHolds(p, b);
    LowerOnly(b, 0, FRequire);
    assert Lower(b, 0, FRequire) == Acquired(MANUAL, []);
    RequireIs(p, 0, b);
    OnlyRequire(p, 0, o);
  }

  lemma ManualHolds(p: World, b: World)
    requires p == Asked(MANUAL).(recs := map[1 := MANUAL, 0 := WAITING.(flags := {FRequire})], props := [])
    requires b == Acquired(MANUAL, []).(recs := p.recs)
    ensures AcquireAll(p, Deps(p, 0)) == b
  {
    hide Kept, Owed, Overdrawn;
    assert [0][1..] == [];
    assert Acquire(p, 0) == b;
    assert AcquireAll(b, []) == b;
    assert AcquireAll(p, [0]) == b;
  }

  /** The service waits for the one it depends on, and there is nothing left to do. */
  ghost predicate WaitsInVain(v: World) {
    && v.props == [] && v.transitions == [] && R(v, 0).state == Starting && R(v, 0).waitingForDeps
    && 0 in Deps(v, 0) && 0 in v.waiting && 0 in v.books.holding && R(v, 1).state == Stopped && R(v, 1).flags == {}
  }

  lemma PairIsOk()
    ensures TopoOk(PAIR)
  {
    assert [0][0] == 0;
    assert ListedTwice(PAIR, 0);
  }

  /** A service that only the operator may start is acquired and not started: its dependent, asked to
      start in a new service set, waits although no work is left. */
  lemma ManualIsWaitedFor(o: Answers)
    ensures Initial(Fresh0(MANUAL)) && TopoOk(Fresh0(MANUAL).topo) && WaitsInVain(Run(Fresh0(MANUAL), [EvStart(0), Propagate], o))
  {
    hide Step, TopoOk;
    PairIsOk();
    Asks(MANUAL, o);
    AcquiresManual(o);
    assert [EvStart(0), Propagate][1..] == [Propagate] && [Propagate][1..] == [];
    assert Run(Acquired(MANUAL, []), [], o) == Acquired(MANUAL, []);
    assert Run(Asked(MANUAL), [Propagate], o) == Acquired(MANUAL, []);
  }

  // ----- a service with a down marker -----

  const FLAGGED := MARKED.(flags := {FStart}, inProp := true)

  lemma AcquiresMarked(o: Answers)
    ensures Step(Asked(MARKED), Propagate, o) == Acquired(FLAGGED, [1])
  {
    hide Step, DoPropagation, PhaseRequire, Kept, KeptBut, Owed, Overdrawn, Acquire, Lower, AcquireAll, Calm;
    var w := Asked(MARKED);
    var p := w.(recs := w.recs[0 := WAITING.(flags := {FRequire})], props := []);
    assert Popped(w) == p;
    PropagateIs(w, 0, o);
    var b := Acquired(FLAGGED, [1]).(recs := map[1 := FLAGGED, 0 := WAITING.(flags := {FRequire})]);
    MarkedHolds(p, b);
    LowerOnly(b, 0, FRequire);
    assert Lower(b, 0, FRequire) == Acquired(FLAGGED, [1]);
    RequireIs(p, 0, b);
    OnlyRequire(p, 0, o);
  }

  lemma MarkedHolds(p: World, b: World)
    requires p == Asked(MARKED).(recs := map[1 := MARKED, 0 := WAITING.(flags := {FRequire})], props := [])
    requires b == Acquired(FLAGGED, [1]).(recs := map[1 := FLAGGED, 0 := WAITING.(flags := {FRequire})])
    ensures AcquireAll(p, Deps(p, 0)) == b
  {
    hide Kept, Owed, Overdrawn, Acquire;
    assert [0][1..] == [];
    AcquireFresh(p, 0);
    assert Acquire(p, 0) == b;
    assert AcquireAll(b, []) == b;
    assert AcquireAll(p, [0]) == b;
  }

  lemma StartsMarked(o: Answers)
    ensures Step(Acquired(FLAGGED, [1]), Propagate, o) == Acquired(MARKED, [])
  {
    hide Step, DoPropagation, DoStart, Kept, KeptBut, Lower, Calm, Asleep;
    var w := Acquired(FLAGGED, [1]);
    PropagateIs(w, 1, o);
    var p, w0 := Popped(w), Acquired(MARKED, []);
    PopsMarked(p);
    MarkerStops(w0);
    OnlyStart(p, 1, o);
  }

  lemma PopsMarked(p: World)
    requires p == Popped(Acquired(FLAGGED, [1]))
    ensures R(p, 1).flags == {FStart} && Lower(p, 1, FStart) == Acquired(MARKED, []) && R(Acquired(MARKED, []), 1).flags == {}
  {
    hide Lower, Kept, KeptBut, Calm;
    assert [1][1..] == [];
    assert p == Acquired(MARKED.(flags := {FStart}), []);
    LowerOnly(p, 1, FStart);
    assert MARKED.(flags := {FStart}).(flags := {}) == MARKED;
  }

  lemma MarkerStops(w: World)
    requires w == Acquired(MARKED, [])
    ensures DoStart(w, 1) == w
  {
    hide Kept, KeptBut, Calm, Asleep, Fail, Launch;
    assert SetDesired(w, 1, Stopped) == w by {
      assert R(w, 1).(desired := Stopped) == MARKED;
      assert w.recs[1 := MARKED] == w.recs;
    }
  }

  /** So is a service with a down marker, for its dependent: it is flagged for a start, and the marker
      ends that without a word. */
  lemma MarkedIsWaitedFor(o: Answers)
    ensures Initial(Fresh0(MARKED)) && TopoOk(Fresh0(MARKED).topo)
    ensures WaitsInVain(Run(Fresh0(MARKED), [EvStart(0), Propagate, Propagate], o))
  {
    hide Step, TopoOk;
    PairIsOk();
    Asks(MARKED, o);
    AcquiresMarked(o);
    StartsMarked(o);
    var es1, es2 := [Propagate, Propagate], [Propagate];
    assert [EvStart(0), Propagate, Propagate][1..] == es1 && es1[1..] == es2 && es2[1..] == [];
    assert Run(Acquired(MARKED, []), [], o) == Acquired(MARKED, []);
    assert Run(Acquired(FLAGGED, [1]), es2, o) == Acquired(MARKED, []);
    assert Run(Asked(MARKED), es1, o) == Acquired(MARKED, []);
  }
}
