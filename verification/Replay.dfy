/** What single steps of the service state machine come to on given records, for runs that are
    worked out in full. */
module Replay {
  import opened Services
  import opened Records
  import opened StopMachine
  import opened StartMachine
  import opened Propagation
  import opened ServiceRuns

  const WAITING := NEW_REC.(desired := Started, state := Starting, waitingForDeps := true)
  const ACQUIRING := WAITING.(flags := {FRequire}, inProp := true)
  const WANTED := NEW_REC.(flags := {FStart}, inProp := true)

  /** A history of which only the starts, and what was lacking for them, are known. */
  function Past(starts: seq<Id>, begun: multiset<Id>, lacking: set<LinkId>): History {
    History(starts, begun, {}, {}, {}, {}, lacking)
  }

  lemma OnlyRequire(w: World, s: Id, o: Answers)
    requires FRequire in R(w, s).flags && R(PhaseRequire(w, s), s).flags == {}
    ensures DoPropagation(w, s, o) == PhaseRequire(w, s)
  {
    hide PhaseRequire;
  }

  lemma OnlyStart(w: World, s: Id, o: Answers)
    requires R(w, s).flags == {FStart} && R(DoStart(Lower(w, s, FStart), s), s).flags <= {FRequire}
    ensures DoPropagation(w, s, o) == DoStart(Lower(w, s, FStart), s)
  {
    hide DoStart, Lower, Kept, Overdrawn, Lost, PhaseRequire, PhaseRelease, PhaseFailure, PhaseStop, PhasePin, Still, Clings, Engages,
      HasPinnedDependent, Begun, HeldBy;
  }

  lemma RaiseNew(w: World, s: Id, f: Flag)
    requires R(w, s).flags == {} && !R(w, s).inProp && (f == FRequire || f == FStart)
    ensures Raise(w, s, f) == w.(recs := w.recs[s := R(w, s).(flags := {f}, inProp := true)], props := w.props + [s])
  {
    hide Kept, Excess, QueueKept;
    var q := AddProp(w, s);
    assert q == w.(recs := w.recs[s := R(w, s).(inProp := true)], props := w.props + [s]);
    TwoUpdates(w.recs, s, R(w, s).(inProp := true), R(w, s).(flags := {f}, inProp := true));
    assert R(q, s).flags + {f} == {f};
  }

  lemma TwoUpdates(m: map<Id, Rec>, s: Id, a: Rec, b: Rec)
    ensures m[s := a][s := b] == m[s := b]
  {
  }

  lemma LowerOnly(w: World, s: Id, f: Flag)
    requires R(w, s).flags == {f} && (f == FRequire || f == FStart)
    ensures Lower(w, s, f) == w.(recs := w.recs[s := R(w, s).(flags := {})])
  {
    hide Kept;
    assert {f} - {f} == {};
  }

  /** The history with one more start of a stopped service. */
  function Logs(w: World, s: Id): World {
    w.(past := w.past.(starts := w.past.starts + [s]))
  }

  lemma ActivateFrom(w: World, w1: World, s: Id)
    requires AttachSoft(Logs(w, s), Dpts(w, s)) == w1 && R(w1, s).flags == {} && !R(w1, s).inProp
    ensures Activate(w, s) ==
      w1.(recs := w1.recs[s := R(w1, s).(flags := {FRequire}, inProp := true)], props := w1.props + [s])
  {
    hide Kept, KeptBut, PinsKept, AttachSoft, Attached;
    RaiseNew(w1, s, FRequire);
  }

  /** A new service without dependents, asked to start, up to where it waits for its dependencies. */
  function Prepared(w: World, s: Id): World {
    w.(books := Books(w.books.required[s := 1], w.books.explicit + {s}, w.books.holding),
       recs := w.recs[s := NEW_REC.(desired := Started, flags := {FRequire}, inProp := true)],
       props := w.props + [s], past := w.past.(starts := w.past.starts + [s]))
  }

  lemma StartsNew(w: World, s: Id, o: Answers)
    requires s !in w.recs && s !in w.books.explicit && Required(w.books, s) == 0 && Dpts(w, s) == []
    ensures Step(w, EvStart(s), o) == InitiateStart(Prepared(w, s), s)
  {
    hide Kept, KeptBut, PinsKept, Activate, DoStart, InitiateStart, SetDesired;
    var w2 := w.(recs := w.recs[s := NEW_REC], books := Books(w.books.required[s := 1], w.books.explicit + {s}, w.books.holding));
    NewActivation(w, s, o);
    DoStartFresh(w2, s);
    NewWanted(w2, s);
    var w3 := w2.(recs := w2.recs[s := NEW_REC.(desired := Started)]);
    NewActivates(w3, s);
    TwoUpdates(w.recs, s, NEW_REC, NEW_REC.(desired := Started));
    TwoUpdates(w.recs, s, NEW_REC.(desired := Started), NEW_REC.(desired := Started, flags := {FRequire}, inProp := true));
    hide Step;
    assert Activate(w3, s) == Prepared(w, s);
  }

  lemma NewWanted(w: World, s: Id)
    requires R(w, s) == NEW_REC
    ensures SetDesired(w, s, Started) == w.(recs := w.recs[s := NEW_REC.(desired := Started)])
  {
    hide Kept, KeptBut, Calm;
  }

  lemma NewActivates(w: World, s: Id)
    requires R(w, s) == NEW_REC.(desired := Started) && Dpts(w, s) == []
    ensures Activate(w, s) ==
      Logs(w, s).(recs := w.recs[s := NEW_REC.(desired := Started, flags := {FRequire}, inProp := true)], props := w.props + [s])
  {
    hide Activate, Kept, KeptBut, PinsKept, Attached;
    assert AttachSoft(Logs(w, s), []) == Logs(w, s);
    ActivateFrom(w, Logs(w, s), s);
  }

  lemma NewActivation(w: World, s: Id, o: Answers)
    requires s !in w.recs && s !in w.books.explicit && Required(w.books, s) == 0
    ensures Step(w, EvStart(s), o) ==
      DoStart(w.(recs := w.recs[s := NEW_REC], books := Books(w.books.required[s := 1], w.books.explicit + {s}, w.books.holding)), s)
  {
    hide Kept, KeptBut, PinsKept, DoStart;
    var w1 := w.(recs := w.recs[s := NEW_REC]);
    assert Set(w, s, R(w, s).(markedDown := false)) == w1;
  }

  lemma AcquireFresh(w: World, l: LinkId)
    requires l in w.topo.links && !IsOrdering(w, l) && l !in w.books.holding && Required(w.books, L(w, l).to) == 0
    requires var r := R(w, L(w, l).to); r.state == Stopped && !r.manual && !r.inProp && r.flags == {}
    requires L(w, l).from !in w.past.asked
    ensures Acquire(w, l) == w.(
      books := w.books.(required := w.books.required[L(w, l).to := 1], holding := w.books.holding + {l}),
      recs := w.recs[L(w, l).to := R(w, L(w, l).to).(flags := {FStart}, inProp := true)], props := w.props + [L(w, l).to])
  {
    hide Kept, Owed, MoreFlags, Require;
    assert Acquires(w.past, L(w, l).from) == w.past;
    RequireFresh(w, L(w, l).to);
  }

  lemma RequireFresh(w: World, s: Id)
    requires Required(w.books, s) == 0
    requires var r := R(w, s); r.state == Stopped && !r.manual && !r.inProp && r.flags == {}
    ensures Require(w, s) == w.(
      books := w.books.(required := w.books.required[s := 1]),
      recs := w.recs[s := R(w, s).(flags := {FStart}, inProp := true)], props := w.props + [s])
  {
    hide Kept, Owed, MoreFlags, Raise, Calm;
    RaiseNew(Credit(w, s), s, FStart);
  }

  lemma PropagateIs(w: World, s: Id, o: Answers)
    requires w.props != [] && w.props[0] == s
    ensures Step(w, Propagate, o) == DoPropagation(Popped(w), s, o)
  {
    hide DoPropagation, Popped;
  }

  lemma DoStartFresh(w: World, s: Id)
    requires R(w, s) == NEW_REC
    ensures DoStart(w, s) == InitiateStart(Activate(SetDesired(w, s, Started), s), s)
  {
    hide Activate, InitiateStart, Kept;
  }

  lemma RequireIs(w: World, s: Id, b: World)
    requires FRequire in R(w, s).flags && AcquireAll(w, Deps(w, s)) == b
    ensures PhaseRequire(w, s) == Lower(b, s, FRequire)
  {
    hide AcquireAll, Lower, Overdrawn, Lost;
  }

  lemma BeginsNew(w: World, s: Id)
    requires R(w, s) == NEW_REC.(desired := Started, flags := {FRequire}, inProp := true)
    ensures BeginStart(w, s) == w.(recs := w.recs[s := ACQUIRING], past := BegunPast(w, s))
  {
  }

  lemma InitiateIs(w: World, s: Id, a: World)
    requires BeginStart(w, s) == a
    ensures
      var b := HoldBack(WaitForDeps(a, Deps(a, s)), Dpts(a, s));
      InitiateStart(w, s) == if DepsSettled(a, Deps(a, s)) then AddTransition(b, s) else b
  {
    hide BeginStart, HoldBack, WaitForDeps, DepsSettled, AddTransition, KeptBut, Kept;
  }
}
