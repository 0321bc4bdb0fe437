/** A run in which a service ends up with an acquisition that nothing will release. */
module DoubleAcquisition {
  import opened Services
  import opened Records
  import opened StopMachine
  import opened StartMachine
  import opened Propagation
  import opened ServiceRuns
  import opened Replay

  /** Service 0 depends on services 1 and 2, and service 1 waits for service 2. */
  const NET := Topo(
    map[0 := Link(0, 1, Regular), 1 := Link(0, 2, Regular), 2 := Link(1, 2, WaitsFor)],
    map[0 := [0, 1], 1 := [2]],
    map[1 := [0], 2 := [1, 2]])

  /** Nothing is running. */
  const W0 := World(NET, Books(map[], {}, {}), map[], {}, [], [], Past([], multiset{}, {}), 0)
  /** Service 0 was asked to start. */
  const W1 := World(NET, Books(map[0 := 1], {0}, {}), map[0 := ACQUIRING], {0, 1}, [0], [],
                    Past([0], multiset{0}, {0, 1}), 0)
  /** It has acquired 1 and 2. */
  const W2 := World(NET, Books(map[0 := 1, 1 := 1, 2 := 1], {0}, {0, 1}),
                    map[0 := WAITING, 1 := WANTED, 2 := WANTED], {0, 1}, [1, 2], [],
                    Past([0], multiset{0}, {0, 1}), 0)
  /** 1 is starting and is queued to acquire 2. */
  const W3 := World(NET, Books(map[0 := 1, 1 := 1, 2 := 1], {0}, {0, 1}),
                    map[0 := WAITING, 1 := ACQUIRING, 2 := WANTED], {0, 1, 2}, [2, 1], [],
                    Past([0, 1], multiset{0, 1}, {0, 1}), 0)
  /** 2 is starting and has been re-attached to 1, which is up. */
  const W4 := World(NET, Books(map[0 := 1, 1 := 1, 2 := 2], {0}, {0, 1, 2}),
                    map[0 := WAITING, 1 := ACQUIRING, 2 := ACQUIRING.(inTransition := true)],
                    {0, 1, 2}, [1, 2], [2], Past([0, 1, 2], multiset{0, 1, 2}, {0, 1}), 0)

  // ----- the steps -----

  lemma First(o: Answers)
    ensures Step(W0, EvStart(0), o) == W1
  {
    hide Step, InitiateStart;
    StartsNew(W0, 0, o);
    var w4 := World(NET, Books(map[0 := 1], {0}, {}), map[0 := NEW_REC.(desired := Started, flags := {FRequire}, inProp := true)],
                    {}, [0], [], Past([0], multiset{}, {}), 0);
    assert Prepared(W0, 0) == w4;
    InitiateFirst(w4);
  }

  lemma InitiateFirst(w4: World)
    requires w4 == World(NET, Books(map[0 := 1], {0}, {}),
                         map[0 := NEW_REC.(desired := Started, flags := {FRequire}, inProp := true)], {}, [0], [], Past([0], multiset{}, {}), 0)
    ensures InitiateStart(w4, 0) == W1
  {
    hide KeptBut, Kept;
    var a := w4.(recs := map[0 := ACQUIRING], past := W1.past);
    assert BeginStart(w4, 0) == a;
    assert [0, 1][1..] == [1] && [1][1..] == [];
    assert WaitForDeps(a, [0, 1]) == a.(waiting := {0, 1});
    assert HoldBack(a.(waiting := {0, 1}), []) == a.(waiting := {0, 1});
    assert !DepsSettled(a, [0, 1]) by { assert 0 in [0, 1]; }
  }

  lemma Second(o: Answers)
    ensures Step(W1, Propagate, o) == W2
  {
    hide Step, DoPropagation, PhaseRequire, Kept, Owed, Overdrawn, Acquire, Lower, AcquireAll;
    var p := W1.(recs := map[0 := WAITING.(flags := {FRequire})], props := []);
    assert Popped(W1) == p;
    PropagateIs(W1, 0, o);
    var b := W2.(recs := W2.recs[0 := WAITING.(flags := {FRequire})]);
    SecondAcquires(p, b);
    SecondLowers(b);
    RequireIs(p, 0, b);
    OnlyRequire(p, 0, o);
  }

  lemma SecondLowers(b: World)
    requires b == W2.(recs := W2.recs[0 := WAITING.(flags := {FRequire})])
    ensures Lower(b, 0, FRequire) == W2
  {
    hide Lower;
    LowerOnly(b, 0, FRequire);
  }

  lemma SecondAcquires(p: World, b: World)
    requires p == W1.(recs := map[0 := WAITING.(flags := {FRequire})], props := [])
    requires b == W2.(recs := W2.recs[0 := WAITING.(flags := {FRequire})])
    ensures AcquireAll(p, Deps(p, 0)) == b
  {
    hide Kept, Owed, Overdrawn, Acquire;
    AcquireFresh(p, 0);
    var a := Acquire(p, 0);
    AcquireFresh(a, 1);
    assert Acquire(a, 1) == b;
    assert [0, 1][1..] == [1] && [1][1..] == [];
    assert AcquireAll(b, []) == b;
    assert AcquireAll(a, [1]) == b;
    assert AcquireAll(p, [0, 1]) == b;
  }

  lemma Third(o: Answers)
    ensures Step(W2, Propagate, o) == W3
  {
    hide Step, DoPropagation, DoStart, Kept, KeptBut, Calm, Still, Lower, Overdrawn, Lost, Begun, HasPinnedDependent, Engages;
    var p := W2.(recs := W2.recs[1 := NEW_REC.(flags := {FStart})], props := [2]);
    assert W2.props[1..] == [2];
    assert Popped(W2) == p;
    PropagateIs(W2, 1, o);
    var w0 := p.(recs := p.recs[1 := NEW_REC]);
    LowerOnly(p, 1, FStart);
    assert Lower(p, 1, FStart) == w0;
    ThirdStarts(w0);
    OnlyStart(p, 1, o);
  }

  lemma ThirdStarts(w0: World)
    requires w0 == W2.(recs := W2.recs[1 := NEW_REC], props := [2])
    ensures DoStart(w0, 1) == W3
  {
    hide DoStart, Activate, InitiateStart, AttachSoft, Kept, KeptBut, SetDesired, BeginStart, HoldBack, WaitForDeps, DepsSettled, AwaitsAll,
      BegunPast, TopoOk, Engages;
    DoStartFresh(w0, 1);
    var w1 := w0.(recs := w0.recs[1 := NEW_REC.(desired := Started)]);
    NewWanted(w0, 1);
    var w2 := w1.(past := Past([0, 1], multiset{0}, {0, 1}), recs := w1.recs[1 := NEW_REC.(desired := Started, flags := {FRequire}, inProp := true)], props := [2, 1]);
    ThirdActivates(w1, w2);
    ThirdInitiates(w2);
  }

  lemma ThirdInitiates(w2: World)
    requires w2 == W3.(past := Past([0, 1], multiset{0}, {0, 1}), waiting := {0, 1},
                       recs := W3.recs[1 := NEW_REC.(desired := Started, flags := {FRequire}, inProp := true)])
    ensures InitiateStart(w2, 1) == W3
  {
    hide InitiateStart, BeginStart, HoldBack, WaitForDeps, DepsSettled, BegunPast, AwaitsAll, TopoOk, KeptBut;
    var a := W3.(waiting := {0, 1});
    BeginsWith(w2, 1, W3.past);
    InitiateIs(w2, 1, a);
    InitiateThird(a);
  }

  /** Neither service 1 nor service 2 needs another one to be up first. */
  lemma BeginsWith(w: World, s: Id, h: History)
    requires w.topo == NET && (s == 1 || s == 2) && R(w, s) == NEW_REC.(desired := Started, flags := {FRequire}, inProp := true)
    requires w.past == Past(h.starts, w.past.begun, {0, 1}) && h == Past(h.starts, w.past.begun + multiset{s}, {0, 1})
    ensures BeginStart(w, s) == w.(recs := w.recs[s := ACQUIRING], past := h)
  {
    assert Lacking(w, s) == {};
    hide Lacking;
    assert BegunPast(w, s) == h;
    hide BegunPast;
    BeginsNew(w, s);
  }

  lemma ThirdActivates(w1: World, w2: World)
    requires w1 == W2.(recs := W2.recs[1 := NEW_REC.(desired := Started)], props := [2])
    requires w2 == w1.(past := Past([0, 1], multiset{0}, {0, 1}), recs := w1.recs[1 := NEW_REC.(desired := Started, flags := {FRequire}, inProp := true)], props := [2, 1])
    ensures Activate(w1, 1) == w2
  {
    hide Activate, Kept, KeptBut, PinsKept, Attached;
    assert [0][1..] == [];
    var w1' := w1.(past := Past([0, 1], multiset{0}, {0, 1}));
    assert Logs(w1, 1) == w1';
    NoneLeft(w1');
    SkipHard(w1', [0]);
    ActivateFrom(w1, w1', 1);
  }

  lemma InitiateThird(a: World)
    requires a == W3.(waiting := {0, 1})
    ensures HoldBack(WaitForDeps(a, Deps(a, 1)), Dpts(a, 1)) == W3 && !DepsSettled(a, Deps(a, 1))
  {
    assert [2][1..] == [] && [0][1..] == [];
    assert WaitForDeps(a, [2]) == a.(waiting := {0, 1, 2});
    assert HoldBack(W3, [0]) == HoldBack(W3, []);
    assert 2 in [2];
  }

  lemma Fourth(o: Answers)
    ensures Step(W3, Propagate, o) == W4
  {
    hide Step, DoPropagation, DoStart, Kept, KeptBut, Calm, Still, Lower, Overdrawn, Lost, Begun, HasPinnedDependent, Engages;
    var p := W3.(recs := W3.recs[2 := NEW_REC.(flags := {FStart})], props := [1]);
    assert W3.props[1..] == [1];
    assert Popped(W3) == p;
    PropagateIs(W3, 2, o);
    var w0 := p.(recs := p.recs[2 := NEW_REC]);
    LowerOnly(p, 2, FStart);
    assert Lower(p, 2, FStart) == w0;
    FourthStarts(w0);
    OnlyStart(p, 2, o);
  }

  lemma FourthStarts(w0: World)
    requires w0 == W3.(recs := W3.recs[2 := NEW_REC], props := [1])
    ensures DoStart(w0, 2) == W4
  {
    hide DoStart, Activate, InitiateStart, AttachSoft, Kept, KeptBut, SetDesired, BeginStart, HoldBack, WaitForDeps, DepsSettled, AwaitsAll,
      BegunPast, TopoOk, Engages;
    DoStartFresh(w0, 2);
    var w1 := w0.(recs := w0.recs[2 := NEW_REC.(desired := Started)]);
    NewWanted(w0, 2);
    var w3 := w1.(past := Past([0, 1, 2], multiset{0, 1}, {0, 1}), books := W4.books,
                  recs := w1.recs[2 := NEW_REC.(desired := Started, flags := {FRequire}, inProp := true)], props := [1, 2]);
    FourthActivates(w1, w3);
    FourthInitiates(w3);
  }

  lemma FourthInitiates(w3: World)
    requires w3 == W4.(past := Past([0, 1, 2], multiset{0, 1}, {0, 1}), transitions := [],
                       recs := W4.recs[2 := NEW_REC.(desired := Started, flags := {FRequire}, inProp := true)])
    ensures InitiateStart(w3, 2) == W4
  {
    hide InitiateStart, BeginStart, HoldBack, WaitForDeps, DepsSettled, BegunPast, AwaitsAll, TopoOk, KeptBut;
    var a := W4.(recs := W4.recs[2 := ACQUIRING], transitions := []);
    BeginsWith(w3, 2, W4.past);
    InitiateIs(w3, 2, a);
    InitiateFourth(a);
  }

  lemma FourthActivates(w1: World, w3: World)
    requires w1 == W3.(recs := W3.recs[2 := NEW_REC.(desired := Started)], props := [1])
    requires w3 == w1.(past := Past([0, 1, 2], multiset{0, 1}, {0, 1}), books := W4.books,
                  recs := w1.recs[2 := NEW_REC.(desired := Started, flags := {FRequire}, inProp := true)], props := [1, 2])
    ensures Activate(w1, 2) == w3
  {
    hide Activate, AttachSoft, Kept, Attached;
    var w1' := w1.(past := Past([0, 1, 2], multiset{0, 1}, {0, 1}));
    assert Logs(w1, 2) == w1';
    var w2 := w1'.(books := W4.books);
    Reattach(w1', w2);
    ActivateFrom(w1, w2, 2);
  }

  /** The waits-for link of service 1, which is up, takes hold of service 2. */
  lemma Reattach(w1: World, w2: World)
    requires w1.topo == NET && w1.books == W3.books && w2 == w1.(books := W4.books) && R(w1, 1) == ACQUIRING && w1.past.asked == {}
    ensures AttachSoft(w1, Dpts(w1, 2)) == w2
  {
    AttachWaiter(w1, w2);
    hide Attach;
    assert [1, 2][1..] == [2] && [2][1..] == [];
    SkipHard(w1, [1, 2]);
    TakeSoft(w1, [2]);
    NoneLeft(w2);
  }

  lemma SkipHard(w: World, ls: seq<LinkId>)
    requires ls != [] && IsHard(w, ls[0])
    ensures AttachSoft(w, ls) == AttachSoft(w, ls[1..])
  {
    hide IsHard, Attached, Up, R;
  }

  lemma TakeSoft(w: World, ls: seq<LinkId>)
    requires ls != [] && !IsHard(w, ls[0]) && ls[0] !in w.books.holding && Up(R(w, L(w, ls[0]).from))
    ensures AttachSoft(w, ls) == AttachSoft(Attach(w, ls[0]), ls[1..])
  {
    hide IsHard, Attached, Attach, Up, R;
  }

  lemma NoneLeft(w: World)
    ensures AttachSoft(w, []) == w
  {
    hide Attached;
  }

  lemma AttachWaiter(w1: World, w2: World)
    requires w1.topo == NET && w1.books == W3.books && w2 == w1.(books := W4.books) && w1.past.asked == {}
    ensures Attach(w1, 2) == w2
  {
    hide Kept, Attached;
    assert Acquires(w1.past, 1) == w1.past;
  }

  lemma InitiateFourth(a: World)
    requires a == W4.(recs := W4.recs[2 := ACQUIRING], transitions := [])
    ensures HoldBack(WaitForDeps(a, Deps(a, 2)), Dpts(a, 2)) == a && DepsSettled(a, Deps(a, 2))
    ensures AddTransition(a, 2) == W4
  {
    hide Kept, KeptBut, PinsKept, Calm;
    FourthQueued(a);
    hide AddTransition;
    assert [1, 2][1..] == [2] && [2][1..] == [];
    assert HoldBack(a, [2]) == HoldBack(a, []);
    assert HoldBack(a, [1, 2]) == HoldBack(a, [2]);
  }

  lemma FourthQueued(a: World)
    requires a == W4.(recs := W4.recs[2 := ACQUIRING], transitions := [])
    ensures AddTransition(a, 2) == W4
  {
    hide Kept, KeptBut, PinsKept, Calm;
  }

  const SCRIPT := [EvStart(0), Propagate, Propagate, Propagate, Propagate]

  /** The count of service 2 is that much above what it counts: its activation and its holders. */
  ghost predicate Overcounted(v: World, k: int) {
    Required(v.books, 2) == (if 2 in v.books.explicit then 1 else 0) + |Holders(v.topo, v.books.holding, 2)| + k
  }

  /** Service 1 now acquires service 2 through the link that is holding it already: the count
      of service 2 is one more than what it counts, and stays so. */
  lemma ADoubleAcquisition(o: Answers)
    ensures Initial(W0) && RunDoubled(W0, SCRIPT, o, 2) == 1 && Overcounted(Run(W0, SCRIPT, o), 1)
  {
    hide Step, Overcounted;
    First(o); Second(o); Third(o); Fourth(o);
    var es := SCRIPT;
    var es1 := [Propagate, Propagate, Propagate, Propagate];
    var es2 := [Propagate, Propagate, Propagate];
    var es3 := [Propagate, Propagate];
    var es4 := [Propagate];
    assert es[1..] == es1 && es1[1..] == es2 && es2[1..] == es3 && es3[1..] == es4 && es4[1..] == [];
    OneDoubled(o);
    NoneDoubled();
    hide StepDoubled, Holders;
    assert RunDoubled(W3, es3, o, 2) == 1;
    assert RunDoubled(W2, es2, o, 2) == 1;
    assert RunDoubled(W1, es1, o, 2) == 1;
    assert RunDoubled(W0, es, o, 2) == 1;
    hide Run, RunDoubled;
    Counted(es, o);
  }

  lemma Counted(es: seq<Event>, o: Answers)
    ensures Overcounted(Run(W0, es, o), RunDoubled(W0, es, o, 2))
  {
    hide Run, RunDoubled, Holders;
    assert Initial(W0);
    CountsAreAccountedFor(W0, es, o, 2);
  }

  /** Whatever happens afterwards, the count of service 2 stays above what it counts: the extra
      acquisition is never released. */
  lemma NeverReleased(more: seq<Event>, o: Answers)
    ensures exists k :: k > 0 && Overcounted(Run(W0, SCRIPT + more, o), k)
  {
    hide Run, RunDoubled, Overcounted;
    ADoubleAcquisition(o);
    DoubledForGood(W0, SCRIPT, more, o, 2);
    Counted(SCRIPT + more, o);
  }

  lemma OneDoubled(o: Answers)
    ensures RunDoubled(W4, [Propagate], o, 2) == 1
  {
    hide Step;
    assert [Propagate][1..] == [];
    assert Doubled(NET, {0, 1, 2}, [2], 2) == 1;
    assert StepDoubled(W4, Propagate, 2) == 1;
  }

  lemma NoneDoubled()
    ensures StepDoubled(W0, EvStart(0), 2) == 0 && StepDoubled(W1, Propagate, 2) == 0
    ensures StepDoubled(W2, Propagate, 2) == 0 && StepDoubled(W3, Propagate, 2) == 0
  {
    assert [0, 1][1..] == [1] && [1][1..] == [];
    assert Doubled(NET, {}, [0, 1], 2) == 0;
  }
}
