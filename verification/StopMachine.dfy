/** The stopping half of the service state machine: releasing acquisitions, stopping a service
    and taking its dependents down with it. */
module StopMachine {
  import opened Services
  import opened Records

  /** How a service answers the calls the state machine makes on it. */
  datatype Answer = Answer(
    wantsRestart: bool, mayRestart: bool, canInterrupt: bool, interrupted: bool,
    slotFree: bool, up: BringUpResult, downAtOnce: bool, chain: Next)

  /** The service to start when this one has finished, if any. */
  datatype Next = Nobody | Next(id: Id)

  datatype BringUpResult = Fails | Pending | AtOnce

  type Answers = nat -> Answer

  // ----- the books, one entry at a time -----

  function Charge(w: World, s: Id): (v: World)
    ensures Owed(w, v, s, -1) && v == w.(books := v.books)
    ensures v.books == w.books.(required := w.books.required[s := Required(w.books, s) - 1])
  {
    var v := w.(books := w.books.(required := w.books.required[s := Required(w.books, s) - 1]));
    BooksOnly(w, v, s, -1);
    hide Owed;
    v
  }

  /** Whatever changes nothing but entries of the books, and lets no count grow, owes what it shifts. */
  lemma BooksOnly(w: World, v: World, s: Id, k: int)
    requires v == w.(books := v.books) && v.books.holding <= w.books.holding && Shifted(w, v, s, k)
    requires forall t :: Required(v.books, t) <= Required(w.books, t)
    ensures Owed(w, v, s, k)
  {
    hide Shifted;
    StillOrderly(w, v);
    FlowsStill(w, v);
    StillDutiful(w, v);
    hide Orderly, Flows, Dutiful;
  }

  /** The count goes down; at zero the service is no longer wanted. */
  function Drop(w: World, s: Id): (v: World)
    ensures Owed(w, v, s, -1) && Entries(v.books) == Entries(w.books) && Calm(w, v)
    ensures v.books == w.books.(required := w.books.required[s := Required(w.books, s) - 1])
    ensures Required(w.books, s) == 1 ==> LetDown(R(w, s), R(v, s))
  {
    hide Kept, Owed, Calm;
    var w1 := Charge(w, s);
    SameRecsCalm(w, w1);
    SameRecAt(w, w1, s);
    if Required(w1.books, s) == 0 then
      var v := Unwanted(w1, s);
      OwedKept(w, w1, v, s, -1);
      CalmTrans(w, w1, v);
      v
    else w1
  }

  /** The service is no longer wanted; and unless it is pinned, it is to release what it holds, or had
      not acquired anything yet. */
  ghost predicate LetDown(a: Rec, b: Rec) {
    b.desired == Stopped && (StartPinned(a) || FRequire in a.flags || FRelease in b.flags)
  }

  lemma SameRecAt(w: World, v: World, s: Id)
    requires v.recs == w.recs
    ensures R(v, s) == R(w, s)
  {
  }

  /** The last acquisition is gone: unless the service is pinned, its own acquisitions are to
      be released, or not to be made at all. */
  function Unwanted(w: World, s: Id): (v: World)
    requires Required(w.books, s) == 0
    ensures Kept(w, v) && v.books == w.books && Calm(w, v) && LetDown(R(w, s), R(v, s))
  {
    hide *;
    var w1 := Dismiss(w, s);
    LetsDown(R(w, s), R(w1, s));
    if StartPinned(R(w1, s)) then w1
    else
      var v := AskRelease(w1, s);
      LetsDown(R(w, s), R(v, s));
      KeptTrans(w, w1, v);
      CalmTrans(w, w1, v);
      v
  }

  lemma LetsDown(a: Rec, b: Rec)
    ensures b.desired == Stopped && (StartPinned(a) || FRequire in a.flags || FRelease in b.flags) ==> LetDown(a, b)
  {
  }

  /** The service is no longer wanted, since nobody requires it. */
  function Dismiss(w: World, s: Id): (v: World)
    requires Required(w.books, s) == 0
    ensures Kept(w, v) && v.books == w.books && Calm(w, v)
    ensures R(v, s).desired == Stopped && StartPinned(R(v, s)) == StartPinned(R(w, s)) && R(v, s).flags == R(w, s).flags
  {
    hide Kept, Calm, Excused;
    UnneededIsExcused(w, s);
    SetDesired(w, s, Stopped)
  }

  /** Its own acquisitions are to be released, or not to be made at all. */
  function AskRelease(w: World, s: Id): (v: World)
    ensures Kept(w, v) && v.books == w.books && Calm(w, v)
    ensures R(v, s).desired == R(w, s).desired && FRequire !in R(v, s).flags && (FRelease in R(v, s).flags <==> FRequire !in R(w, s).flags)
  {
    hide Kept, Calm;
    if FRequire in R(w, s).flags then LowerBoth(w, s) else Raise(w, s, FRelease)
  }

  lemma UnneededIsExcused(w: World, s: Id)
    requires Required(w.books, s) <= 0
    ensures Excused(w, s)
  {
  }

  function Unexplicit(w: World, s: Id): (v: World)
    requires s in w.books.explicit
    ensures Owed(w, v, s, 1) && v == w.(books := v.books) && Still(w, v)
    ensures v.books == w.books.(explicit := w.books.explicit - {s})
    ensures Entries(v.books) == Entries(w.books) - 1
  {
    var v := w.(books := w.books.(explicit := w.books.explicit - {s}));
    BooksOnly(w, v, s, 1);
    hide Owed;
    v
  }

  /** Takes back an explicit activation. */
  function ClearExplicit(w: World, s: Id): (v: World)
    ensures Kept(w, v) && Entries(v.books) <= Entries(w.books) && Calm(w, v)
    ensures v.books.explicit == w.books.explicit - {s} && v.books.holding == w.books.holding
  {
    hide *;
    KeptRefl(w);
    CalmRefl(w);
    if s in w.books.explicit then
      var w1 := Unexplicit(w, s);
      var v := Drop(w1, s);
      OwedPaid(w, w1, v, s, 1);
      SameRecsCalm(w, w1);
      CalmTrans(w, w1, v);
      v
    else w
  }

  function Unhold(w: World, l: LinkId): (v: World)
    requires l in w.books.holding && l in w.topo.links
    ensures Owed(w, v, L(w, l).to, 1) && v == w.(books := v.books) && Still(w, v)
    ensures v.books == w.books.(holding := w.books.holding - {l})
    ensures Entries(v.books) == Entries(w.books) - 1
  {
    assert forall s :: |Holders(w.topo, w.books.holding - {l}, s)|
             == |Holders(w.topo, w.books.holding, s)| - if L(w, l).to == s then 1 else 0 by {
      forall s ensures |Holders(w.topo, w.books.holding - {l}, s)|
             == |Holders(w.topo, w.books.holding, s)| - if L(w, l).to == s then 1 else 0 {
        HoldersDrop(w.topo, w.books.holding, l, s);
      }
    }
    var v := w.(books := w.books.(holding := w.books.holding - {l}));
    BooksOnly(w, v, L(w, l).to, 1);
    hide Owed;
    v
  }

  /** Breaks a link: its target loses the acquisition the link was holding. */
  function LetGo(w: World, l: LinkId): (v: World)
    ensures Kept(w, v) && Entries(v.books) <= Entries(w.books) && Calm(w, v)
    ensures v.books.holding == if l in w.topo.links then w.books.holding - {l} else w.books.holding
    ensures v.books.explicit == w.books.explicit
  {
    hide *;
    KeptRefl(w);
    CalmRefl(w);
    if l in w.books.holding && l in w.topo.links then
      var w1 := Unhold(w, l);
      var v := Drop(w1, L(w, l).to);
      OwedPaid(w, w1, v, L(w, l).to, 1);
      SameRecsCalm(w, w1);
      CalmTrans(w, w1, v);
      v
    else w
  }

  // ----- stopping -----

  function ForcedStop(w: World, s: Id): (v: World)
    ensures Kept(w, v) && v.books == w.books && Calm(w, v)
    ensures Excused(v, s) && (R(w, s).state != Stopped ==> Forced(R(v, s)))
  {
    hide Kept, Calm, R, Excused, StartPinned;
    KeptRefl(w);
    CalmRefl(w);
    if R(w, s).state == Stopped then
      StoppedIsExcused(w, s);
      w
    else
      var w1 := MarkForced(w, s);
      if StartPinned(R(w1, s)) then
        PinnedIsExcused(w1, s);
        w1
      else
        var v := Raise(w1, s, FStop);
        FlaggedOnly(R(w1, s), FStop);
        KeptTrans(w, w1, v);
        CalmTrans(w, w1, v);
        FlaggedIsExcused(v, s);
        v
  }

  lemma StoppedIsExcused(w: World, s: Id)
    requires R(w, s).state == Stopped
    ensures Excused(w, s)
  {
  }

  lemma PinnedIsExcused(w: World, s: Id)
    requires StartPinned(R(w, s))
    ensures Excused(w, s)
  {
  }

  lemma FlaggedIsExcused(w: World, s: Id)
    requires FStop in R(w, s).flags
    ensures Excused(w, s)
  {
  }

  function MarkForced(w: World, s: Id): (v: World)
    ensures Kept(w, v) && v.books == w.books && Calm(w, v) && R(v, s).forceStop
  {
    hide Kept, Calm, KeptBut, Orderly;
    var v := Set(w, s, R(w, s).(forceStop := true));
    OneCalm(w, v, s);
    v
  }

  /** The service at the near end cannot start yet because of the link. */
  predicate Needs(w: World, l: LinkId) {
    MustWait(w.topo, l) && l in w.past.lacking && l in w.waiting
  }

  /** A link that was waited for no longer is; its service may be able to go on. */
  function StopWaiting(w: World, l: LinkId): (v: World)
    requires !Needs(w, l)
    ensures Kept(w, v) && v.books == w.books && v.past == w.past && Calm(w, v)
    ensures v.waiting == (if l in w.topo.links then w.waiting - {l} else w.waiting)
  {
    hide Kept, Calm;
    KeptRefl(w);
    CalmRefl(w);
    if l in w.waiting && l in w.topo.links then
      StopWaitingKeeps(w, l);
      SameRecsCalm(w, w.(waiting := w.waiting - {l}));
      CalmTrans(w, w.(waiting := w.waiting - {l}), DependencyStarted(w.(waiting := w.waiting - {l}), L(w, l).from));
      DependencyStarted(w.(waiting := w.waiting - {l}), L(w, l).from)
    else w
  }

  lemma StopWaitingKeeps(w: World, l: LinkId)
    requires l in w.waiting && l in w.topo.links && !Needs(w, l)
    ensures Kept(w, DependencyStarted(w.(waiting := w.waiting - {l}), L(w, l).from))
  {
    var f, mid := L(w, l).from, w.(waiting := w.waiting - {l});
    var v := DependencyStarted(mid, f);
    WaitingOnly(w, mid);
    WaitingFlows(w, l, v);
    WaitingOrderly(w, l, v);
    hide Flows, Orderly, Even, PinsKept, DependencyStarted;
    EvenPins(w, mid, v, f);
  }

  lemma WaitingOnly(w: World, v: World)
    requires v.topo == w.topo && v.books == w.books && v.recs == w.recs && v.props == w.props && v.past == w.past
    ensures Even(w, v) && PinsKept(w, v)
  {
    SameBooks(w, v);
    StillDutiful(w, v);
    hide Balanced, Dutiful;
  }

  lemma EvenPins(u: World, v: World, w: World, s: Id)
    requires Even(u, v) && PinsKept(u, v) && KeptBut(v, w, s) && PinsKept(v, w) && Flows(u, w) && Orderly(u, w)
    ensures Kept(u, w)
  {
    hide Flows, Orderly, OrderlyBut, Dutiful;
    DutifulTrans(u, v, w);
  }

  /** A stuck service has nothing that it waits for. */
  lemma WaitingOrderly(w: World, l: LinkId, v: World)
    requires l in w.waiting && l in w.topo.links && !Needs(w, l) && v == DependencyStarted(w.(waiting := w.waiting - {l}), L(w, l).from)
    ensures Orderly(w, v)
  {
    hide Kept, KeptBut, Calm, PinsKept, Abandoned;
    var f, mid := L(w, l).from, w.(waiting := w.waiting - {l});
    assert R(v, f).state == R(w, f).state && R(v, f).flags == R(w, f).flags && R(v, f).manual == R(w, f).manual && R(v, f).markedDown == R(w, f).markedDown;
    assert forall t :: t in v.transitions ==> t in w.transitions || t == f;
    hide DependencyStarted;
    if TopoOk(w.topo) {
      WaitingStays(w, l, v);
      hide TopoOk;
      forall t | Asleep(v, t) ensures Asleep(w, t) {}
    }
  }

  lemma WaitingStays(w: World, l: LinkId, v: World)
    requires TopoOk(w.topo) && l in w.waiting && l in w.topo.links && v.topo == w.topo && v.waiting <= w.waiting
    requires forall t :: t != L(w, l).from ==> R(v, t) == R(w, t)
    requires forall t :: t in v.transitions ==> t in w.transitions || t == L(w, l).from
    ensures forall t :: StaysStuck(w, v, t)
  {
    assert ListedTwice(w.topo, l);
    hide TopoOk;
    forall t ensures StaysStuck(w, v, t) { assert Deps(v, t) == Deps(w, t); }
  }

  /** A service with nothing left to wait for is taken on. */
  lemma WaitingFlows(w: World, l: LinkId, v: World)
    requires v == DependencyStarted(w.(waiting := w.waiting - {l}), L(w, l).from)
    ensures Flows(w, v)
  {
    hide Kept;
    var f := L(w, l).from;
    if TopoOk(w.topo) {
      forall t | Stuck(v, t) ensures Stuck(w, t) {
        if t != f {
          forall m | m in Deps(w, t) ensures m !in w.waiting { assert m in Deps(v, t) && m != l; }
        }
      }
    }
  }

  function DependencyStarted(w: World, s: Id): (v: World)
    ensures KeptBut(w, v, s) && PinsKept(w, v) && v.books == w.books && Calm(w, v)
    ensures v == w.(recs := v.recs, transitions := v.transitions)
    ensures forall t :: t != s ==> R(v, t) == R(w, t)
  {
    hide Kept, KeptBut, Calm, PinsKept, Stuck, R;
    KeptRefl(w);
    KeptIsBut(w, w, s);
    KeptPins(w, w);
    CalmRefl(w);
    if Up(R(w, s)) && R(w, s).waitingForDeps then AddTransition(w, s) else w
  }

  /** Breaks a soft link for good. */
  function BreakSoft(w: World, l: LinkId): (v: World)
    requires !IsHard(w, l)
    ensures Kept(w, v) && Entries(v.books) <= Entries(w.books) && Calm(w, v)
    ensures (l in w.topo.links ==> l !in v.books.holding && l !in v.waiting) && v.books.explicit == w.books.explicit
  {
    hide Kept, Calm;
    var w1 := StopWaiting(w, l);
    var v := LetGo(w1, l);
    KeptTrans(w, w1, v);
    CalmTrans(w, w1, v);
    SameLinksKept(w, w1);
    CalmIsStill(w1, v);
    v
  }

  lemma CalmIsStill(w: World, v: World)
    requires Calm(w, v)
    ensures Still(w, v)
  {
  }

  /** The service is up and will stop when told to: it need not be interrupted in its start. */
  predicate Stoppable(r: Rec) {
    r.state == Started || (r.state == Starting && r.waitingForDeps)
  }

  /** Releases one acquisition of `s`; without any left, an unpinned service that is up stops. */
  function Release(w: World, s: Id, o: Answers): (v: World)
    ensures Owed(w, v, s, -1) && Entries(v.books) <= Entries(w.books) && Quiet(w, v) && Exhausts(w, v)
    ensures Required(w.books, s) == 1 ==> LetDown(R(w, s), R(v, s))
    ensures Required(w.books, s) == 1 && !StartPinned(R(w, s)) && Stoppable(R(w, s)) ==> R(v, s).state == Stopping
    ensures Required(w.books, s) != 1 || StartPinned(R(w, s)) || !Up(R(w, s)) ==> Calm(w, v)
    decreases Entries(w.books), 2, 0
  {
    hide Kept, Owed, Calm, Quiet, LetDown, Exhausts, Dealt, Notified, WillRestart, Restarts;
    var w1 := Drop(w, s);
    CalmIsQuiet(w, w1);
    CalmExhausts(w, w1);
    CalmAt(w, w1, s);
    if Required(w1.books, s) == 0 && !StartPinned(R(w1, s)) && Up(R(w1, s)) then
      var v := DoStop(w1, s, false, o);
      OwedKept(w, w1, v, s, -1);
      QuietTrans(w, w1, v);
      LetDownWanted(R(w, s), R(w1, s));
      ExhaustsTrans(w, w1, v);
      StaysDown(w, w1, v, s);
      v
    else w1
  }

  /** A service whose restarts are used up stays so, or is not wanted any more; the same holds for one
      that is explicitly active. */
  ghost predicate Exhausts(w: World, v: World) {
    forall t :: (R(w, t).limitExhausted ==> R(v, t).limitExhausted || R(v, t).desired == Stopped) && StaysActive(w, v, t)
  }

  /** A service keeps its explicit activation, or is not wanted any more. */
  ghost predicate StaysActive(w: World, v: World, s: Id) {
    s in w.books.explicit ==> s in v.books.explicit || R(v, s).desired == Stopped
  }

  lemma CalmExhausts(w: World, v: World)
    requires Calm(w, v) && v.books.explicit == w.books.explicit
    ensures Exhausts(w, v)
  {
  }

  lemma ExhaustsTrans(u: World, v: World, w: World)
    requires Exhausts(u, v) && Exhausts(v, w) && Quiet(v, w)
    ensures Exhausts(u, w)
  {
    forall t ensures (R(u, t).limitExhausted ==> R(w, t).limitExhausted || R(w, t).desired == Stopped) && StaysActive(u, w, t) {
      QuietAt(v, w, t);
      assert StaysActive(u, v, t) && StaysActive(v, w, t);
    }
  }

  lemma LetDownWanted(a: Rec, b: Rec)
    requires LetDown(a, b)
    ensures b.desired == Stopped
  {
  }

  lemma StaysDown(w: World, w1: World, v: World, s: Id)
    requires LetDown(R(w, s), R(w1, s)) && Calm(w, w1) && Quiet(w1, v)
    ensures LetDown(R(w, s), R(v, s))
  {
    CalmAt(w, w1, s);
    QuietAt(w1, v, s);
  }

  lemma CalmAt(w: World, v: World, s: Id)
    requires Calm(w, v)
    ensures CalmRec(R(w, s), R(v, s))
  {
  }

  lemma QuietAt(w: World, v: World, s: Id)
    requires Quiet(w, v)
    ensures QuietRec(R(w, s), R(v, s))
  {
  }

  /** The dependent has stopped, or is no longer wanted up. */
  ghost predicate Told(r: Rec) {
    r.state == Stopped || r.desired == Stopped
  }

  /** The dependent is told so, and if that is news to it, it is queued for a stop, or has a reason to
      stay: it is pinned, stopping or stopped already, or nobody required it any more. */
  ghost predicate Notified(w: World, v: World, f: Id) {
    Told(R(v, f)) && (R(w, f).state != Stopped && R(w, f).desired != Stopped ==> Excused(v, f))
  }

  predicate AlwaysHard(w: World, l: LinkId) {
    L(w, l).kind == Regular || L(w, l).kind == PreparedBy
  }

  predicate NeverHard(w: World, l: LinkId) {
    l in w.topo.links && !AlwaysHard(w, l) && L(w, l).kind != Milestone
  }

  /** What comes to the service at the near end of `l` when `s` stops: a hard dependent of a service that
      is to stay down is notified, one that is to restart too is flagged for it or stops already, a forced
      stop is passed on, and a soft link of a service that does not restart is broken. */
  ghost predicate Dealt(w: World, v: World, s: Id, l: LinkId, forRestart: bool, restartDeps: bool) {
    var f := L(w, l).from;
    && (AlwaysHard(w, l) && R(w, s).desired == Stopped ==> Told(R(v, f)))
    && (AlwaysHard(w, l) && restartDeps && Up(R(w, f)) ==> FStop in R(v, f).flags || R(v, f).state == Stopping || Told(R(v, f)))
    && (AlwaysHard(w, l) && R(w, s).forceStop && R(w, f).state != Stopped ==> Forced(R(v, f)))
    && (NeverHard(w, l) && !forRestart ==> l !in v.books.holding && l !in v.waiting)
  }

  /** The stop is forced: nothing but a pin keeps it from being carried out. */
  ghost predicate Forced(r: Rec) {
    r.forceStop && (StartPinned(r) || FStop in r.flags)
  }

  /** What is dealt stays dealt. */
  lemma DealtStays(w: World, v: World, v': World, s: Id, l: LinkId, forRestart: bool, restartDeps: bool)
    requires Dealt(w, v, s, l, forRestart, restartDeps) && Quiet(v, v')
    ensures Dealt(w, v', s, l, forRestart, restartDeps)
  {
    QuietAt(v, v', L(w, l).from);
  }

  /** It does not matter whether the stop has already got under way. */
  lemma DealtEarlier(u: World, w: World, v: World, s: Id, l: LinkId, forRestart: bool, restartDeps: bool)
    requires Dealt(w, v, s, l, forRestart, restartDeps) && w.topo == u.topo && Quiet(u, w) && Quiet(w, v)
    ensures Dealt(u, v, s, l, forRestart, restartDeps)
  {
    QuietAt(u, w, s);
    QuietAt(u, w, L(u, l).from);
    QuietAt(w, v, L(u, l).from);
    SameHard(u, w, l);
  }

  /** Starts to stop a service, or to restart it.  A pinned service is left alone; one that is up
      and need not be interrupted is stopping afterwards; and whatever depends hard on a service that
      is to stay down is told so. */
  function DoStop(w: World, s: Id, withRestart: bool, o: Answers): (v: World)
    ensures Kept(w, v) && Entries(v.books) <= Entries(w.books) && Quiet(w, v)
    ensures R(w, s).pinnedStarted || R(w, s).deptPinned ==> v == w
    ensures !StartPinned(R(w, s)) && Stoppable(R(w, s)) ==> R(v, s).state == Stopping && Underway(v, s)
    ensures !StartPinned(R(w, s)) && GivesUp(w, s, withRestart, o) ==> !WillRestart(R(v, s))
    ensures R(w, s).desired == Stopped ==> Exhausts(w, v)
    ensures Restarts(w, s, withRestart, o) ==> StaysActive(w, v, s)
    ensures !StartPinned(R(w, s)) ==>
      forall l :: l in Dpts(w, s) ==> Dealt(w, v, s, l, Restarts(w, s, withRestart, o), withRestart && !R(w, s).directRestart)
    ensures !StartPinned(R(w, s)) && R(w, s).desired == Stopped ==>
      forall l :: l in Dpts(w, s) && AlwaysHard(w, l) ==> Notified(w, v, L(w, l).from)
    ensures !StartPinned(R(w, s)) && !Restarts(w, s, withRestart, o) ==> s !in v.books.explicit
    decreases Entries(w.books), 1, 0
  {
    hide *;
    PinnedIs(R(w, s));
    if StartPinned(R(w, s)) then
      KeptRefl(w);
      CalmRefl(w);
      CalmExhausts(w, w);
      ActiveIs(w, w, s);
      w
    else
      var a := o(w.tick);
      var wanted := !withRestart && R(w, s).desired == Started && a.wantsRestart;
      var forRestart := withRestart || (wanted && a.mayRestart);
      RestartsIs(w, s, withRestart, o);
      var w1 := MarkStop(w, s, withRestart, wanted && !forRestart);
      var w2 := if forRestart then w1 else ClearExplicit(w1, s);
      var (w3, allStopped) :=
        StopDependents(w2, s, Dpts(w2, s), forRestart, withRestart && !R(w, s).directRestart, o);
      var v := EnterStopping(w3, s, allStopped, a);
      KeptRefl(w1);
      CalmRefl(w1);
      KeptTrans(w, w1, w2);
      KeptTrans(w, w2, w3);
      StopsUnpinned(w, w3, v, s);
      CalmIsQuiet(w1, w2);
      QuietTrans(w, w1, w2);
      QuietTrans(w, w2, w3);
      SameLinksKept(w, w2);
      SameLinksKept(w, w3);
      StopUnderway(w2, w3, v, s, allStopped);
      StaysUnpinned(w, w3, s);
      EntersQuietly(w, w3, v, s);
      StopExhausts(w, w1, w2, w3, v, s, forRestart);
      GivesUpIs(w, s, withRestart, o);
      AllDealt(w, w2, w3, v, s, forRestart, withRestart && !R(w, s).directRestart);
      AllNotified(w, v, s, forRestart, withRestart && !R(w, s).directRestart);
      QuietStill(w2, w3);
      StillIs(w2, w3);
      StillIs(w3, v);
      v
  }

  /** Whether the service is to start again once it has stopped. */
  predicate Restarts(w: World, s: Id, withRestart: bool, o: Answers) {
    withRestart || (R(w, s).desired == Started && o(w.tick).wantsRestart && o(w.tick).mayRestart)
  }

  /** A restart is wanted, but the limit on restarts does not allow it. */
  predicate GivesUp(w: World, s: Id, withRestart: bool, o: Answers) {
    !withRestart && R(w, s).desired == Started && o(w.tick).wantsRestart && !o(w.tick).mayRestart
  }

  lemma GivesUpIs(w: World, s: Id, withRestart: bool, o: Answers)
    ensures GivesUp(w, s, withRestart, o) <==>
      !withRestart && R(w, s).desired == Started && o(w.tick).wantsRestart && !(withRestart || (R(w, s).desired == Started && o(w.tick).wantsRestart && o(w.tick).mayRestart))
  {
  }

  /** A stopped service starts again if that is wanted and allowed. */
  predicate WillRestart(r: Rec) {
    r.desired == Started && !r.pinnedStopped && !r.limitExhausted
  }

  lemma StopExhausts(w: World, w1: World, w2: World, w3: World, v: World, s: Id, forRestart: bool)
    requires R(w1, s).desired == R(w, s).desired && w1.books == w.books && (forall t :: t != s ==> R(w1, t) == R(w, t))
    requires Calm(w1, w2) && w2.books.explicit == (if forRestart then w1.books.explicit else w1.books.explicit - {s})
    requires Exhausts(w2, w3) && Quiet(w2, w3) && v.books == w3.books
    requires R(v, s).limitExhausted == R(w3, s).limitExhausted && R(v, s).desired == R(w3, s).desired && forall t :: t != s ==> R(v, t) == R(w3, t)
    ensures R(w, s).desired == Stopped ==> Exhausts(w, v)
    ensures R(w1, s).limitExhausted ==> !WillRestart(R(v, s))
    ensures forRestart ==> StaysActive(w, v, s)
  {
    CalmAt(w1, w2, s);
    QuietAt(w2, w3, s);
    assert StaysActive(w2, w3, s);
    forall t | R(w, s).desired == Stopped
      ensures (R(w, t).limitExhausted ==> R(v, t).limitExhausted || R(v, t).desired == Stopped) && StaysActive(w, v, t)
    {
      if t != s {
        assert R(w1, t) == R(w, t) && R(v, t) == R(w3, t) && StaysActive(w2, w3, t);
        CalmAt(w1, w2, t);
      }
    }
  }

  lemma PinnedIs(r: Rec)
    ensures StartPinned(r) <==> r.pinnedStarted || r.deptPinned
  {
  }

  lemma ActiveIs(w: World, v: World, s: Id)
    ensures v.books.explicit == w.books.explicit ==> StaysActive(w, v, s)
  {
  }

  lemma RestartsIs(w: World, s: Id, withRestart: bool, o: Answers)
    ensures Restarts(w, s, withRestart, o) <==>
      withRestart || (!withRestart && R(w, s).desired == Started && o(w.tick).wantsRestart && o(w.tick).mayRestart)
  {
  }

  lemma StillIs(w: World, v: World)
    requires Still(w, v)
    ensures v.books.explicit <= w.books.explicit && v.books.holding <= w.books.holding && v.waiting <= w.waiting
  {
  }

  /** Only a service that is not pinned up starts to stop. */
  lemma StopsUnpinned(w: World, w1: World, v: World, s: Id)
    requires Kept(w, w1) && KeptBut(w1, v, s) && !StartPinned(R(w, s)) && (!Up(R(w1, s)) ==> v == w1)
    requires v == w1 || R(v, s).state == Stopping
    ensures Kept(w, v)
  {
    KeptIsBut(w, w1, s);
    ButTrans(w, w1, v, s);
    if Held(R(w, s)) {
      assert Holds(R(w, s), R(w1, s));
    } else {
      ButFree(w, v, s);
    }
  }

  /** The stop is under way, whether it waits for dependents or not. */
  lemma StopUnderway(w: World, w3: World, v: World, s: Id, allStopped: bool)
    requires w3.topo == w.topo && v.topo == w.topo && (forall t :: t != s ==> R(v, t) == R(w3, t))
    requires !allStopped ==> exists l :: l in Dpts(w, s) && Awaited(w3, l)
    requires v == w3 || (R(v, s).state == Stopping && R(v, s).waitingForDeps == !allStopped && (allStopped ==> R(v, s).inTransition))
    ensures v == w3 || Underway(v, s)
  {
    if v != w3 && !allStopped {
      var l :| l in Dpts(w, s) && Awaited(w3, l);
      assert l in Dpts(v, s) && Awaited(v, l);
    }
  }

  /** Stopping is entered from being up, without a pin. */
  lemma EntersQuietly(w: World, w1: World, v: World, s: Id)
    requires Quiet(w, w1) && Still(w1, v) && !StartPinned(R(w, s)) && !StartPinned(R(w1, s)) && R(v, s).desired == R(w1, s).desired && (forall t :: t != s ==> R(v, t) == R(w1, t))
    requires v == w1 || (Up(R(w1, s)) && R(v, s).state == Stopping && SamePins(R(w1, s), R(v, s)))
    requires Stoppable(R(w1, s)) ==> R(v, s).state == Stopping
    requires v == w1 || Underway(v, s)
    ensures Quiet(w, v) && Quiet(w1, v)
    ensures Stoppable(R(w, s)) ==> R(v, s).state == Stopping && Underway(v, s)
  {
    QuietAt(w, w1, s);
    EntersAlone(w1, v, s);
    hide Quiet, Underway;
    QuietTrans(w, w1, v);
    if Stoppable(R(w, s)) { QuietProceeds(w, v, s); }
  }

  lemma QuietProceeds(w: World, v: World, s: Id)
    requires Quiet(w, v)
    ensures Proceeds(w, v, s)
  {
  }

  /** What the dependents were told holds on. */
  lemma AllDealt(w: World, w2: World, w3: World, v: World, s: Id, forRestart: bool, restartDeps: bool)
    requires Kept(w, w2) && Quiet(w, w2) && Quiet(w2, w3) && Quiet(w3, v)
    requires forall l :: l in Dpts(w2, s) ==> Dealt(w2, w3, s, l, forRestart, restartDeps)
    ensures forall l :: l in Dpts(w, s) ==> Dealt(w, v, s, l, forRestart, restartDeps)
  {
    hide Quiet, Kept, Dealt;
    SameLinksKept(w, w2);
    forall l | l in Dpts(w, s) ensures Dealt(w, v, s, l, forRestart, restartDeps) {
      assert l in Dpts(w2, s);
      DealtEarlier(w, w2, w3, s, l, forRestart, restartDeps);
      DealtStays(w, w3, v, s, l, forRestart, restartDeps);
    }
  }

  lemma AllNotified(w: World, v: World, s: Id, forRestart: bool, restartDeps: bool)
    requires Quiet(w, v) && forall l :: l in Dpts(w, s) ==> Dealt(w, v, s, l, forRestart, restartDeps)
    ensures R(w, s).desired == Stopped ==> forall l :: l in Dpts(w, s) && AlwaysHard(w, l) ==> Notified(w, v, L(w, l).from)
  {
    forall l | R(w, s).desired == Stopped && l in Dpts(w, s) && AlwaysHard(w, l) ensures Notified(w, v, L(w, l).from) {
      assert Dealt(w, v, s, l, forRestart, restartDeps);
      assert Meant(w, v, L(w, l).from);
    }
  }

  /** Only the service itself has changed: it is stopping. */
  lemma EntersAlone(w: World, v: World, s: Id)
    requires Still(w, v) && (forall t :: t != s ==> R(v, t) == R(w, t))
    requires v == w || (R(v, s).state == Stopping && Up(R(w, s)) && SamePins(R(w, s), R(v, s)) && Underway(v, s))
    requires R(v, s).desired == R(w, s).desired
    ensures !StartPinned(R(w, s)) ==> Quiet(w, v)
  {
    hide Underway;
  }

  lemma StaysUnpinned(w: World, v: World, s: Id)
    requires Quiet(w, v) && !StartPinned(R(w, s))
    ensures !StartPinned(R(v, s))
  {
    QuietAt(w, v, s);
  }

  lemma SameHard(w: World, v: World, l: LinkId)
    requires v.topo == w.topo
    ensures (AlwaysHard(v, l) <==> AlwaysHard(w, l)) && L(v, l) == L(w, l)
  {
  }

  function MarkStop(w: World, s: Id, withRestart: bool, exhausted: bool): (v: World)
    ensures Kept(w, v) && v.books == w.books && Quiet(w, v) && !R(v, s).inUserRestart
    ensures R(v, s).limitExhausted == if withRestart then R(w, s).limitExhausted else exhausted
    ensures R(v, s).desired == R(w, s).desired && forall t :: t != s ==> R(v, t) == R(w, t)
  {
    hide Kept, Quiet, KeptBut, Orderly;
    var r := R(w, s);
    var v := Set(Tick(w), s, r.(inUserRestart := false, limitExhausted := if withRestart then r.limitExhausted else exhausted));
    KeptTrans(w, Tick(w), v);
    OneQuiet(w, v, s);
    v
  }

  lemma OneQuiet(w: World, v: World, s: Id)
    requires Still(w, v) && SameRec(R(w, s), R(v, s)) && R(v, s).desired == R(w, s).desired && forall t :: t != s ==> R(v, t) == R(w, t)
    ensures Quiet(w, v)
  {
  }

  function Tick(w: World): (v: World)
    ensures Kept(w, v) && v == w.(tick := v.tick)
  {
    TickKeeps(w);
    hide Kept;
    w.(tick := w.tick + 1)
  }

  lemma TickKeeps(w: World)
    ensures Kept(w, w.(tick := w.tick + 1))
  {
    var v := w.(tick := w.tick + 1);
    SameBooks(w, v);
    FlowsStill(w, v);
    StillOrderly(w, v);
    StillDutiful(w, v);
    hide Flows, Balanced, Orderly, Dutiful;
  }

  function EnterStopping(w: World, s: Id, allStopped: bool, a: Answer): (v: World)
    ensures KeptBut(w, v, s) && v.books == w.books && Still(w, v)
    ensures v == w || (Up(R(w, s)) && R(v, s).state == Stopping && SamePins(R(w, s), R(v, s)) && R(v, s).waitingForDeps == !allStopped)
    ensures v == w || (allStopped ==> R(v, s).inTransition)
    ensures v == w <==> !Up(R(w, s)) || (!Stoppable(R(w, s)) && !(a.canInterrupt && a.interrupted))
    ensures v.topo == w.topo && R(v, s).desired == R(w, s).desired && R(v, s).limitExhausted == R(w, s).limitExhausted
    ensures forall t :: t != s ==> R(v, t) == R(w, t)
    ensures Stoppable(R(w, s)) ==> R(v, s).state == Stopping
  {
    hide *;
    KeptRefl(w);
    KeptIsBut(w, w, s);
    CalmRefl(w);
    CalmIsStill(w, w);
    var r := R(w, s);
    EnterCases(r);
    if r.state == Starting && !r.waitingForDeps && !(a.canInterrupt && a.interrupted) then w
    else if !Up(r) then w
    else
      var w1 := BeginStop(w, s, !allStopped);
      KeptRefl(w1);
      var v := if allStopped then AddTransition(w1, s) else w1;
      KeptIsBut(w1, v, s);
      ButTrans(w, w1, v, s);
      MarkKeepsPins(r, R(w1, s));
      CalmRefl(w1);
      CalmIsStill(w1, v);
      StillThen(w, w1, v);
      v
  }

  lemma EnterCases(r: Rec)
    ensures Up(r) <==> r.state == Starting || r.state == Started
    ensures Stoppable(r) <==> r.state == Started || (r.state == Starting && r.waitingForDeps)
  {
  }

  lemma StillThen(u: World, v: World, w: World)
    requires Still(u, v) && Still(v, w)
    ensures Still(u, w)
  {
  }

  function BeginStop(w: World, s: Id, waiting: bool): (v: World)
    ensures KeptBut(w, v, s) && !Stuck(v, s) && Still(w, v) && v == w.(recs := v.recs) && forall t :: t != s ==> R(v, t) == R(w, t)
    ensures R(v, s).state == Stopping && SamePins(R(w, s), R(v, s)) && R(v, s).waitingForDeps == waiting
    ensures R(v, s).desired == R(w, s).desired && R(v, s).limitExhausted == R(w, s).limitExhausted
  {
    hide Kept, KeptBut;
    Set(w, s, R(w, s).(state := Stopping, waitingForDeps := waiting))
  }

  lemma MarkKeepsPins(r: Rec, r1: Rec)
    requires SamePins(r, r1)
    ensures SamePins(r, r1.(inTransition := true)) && r1.(inTransition := true).state == r1.state
    ensures r1.(inTransition := true).waitingForDeps == r1.waitingForDeps && r1.(inTransition := true).inTransition
    ensures r1.(inTransition := true).desired == r1.desired && r1.(inTransition := true).limitExhausted == r1.limitExhausted
  {
  }

  /** Takes the dependents down, or restarts them: whatever depends hard on a service that is to
      stay down is told so, and soft links are broken for good. */
  function StopDependents(w: World, s: Id, ls: seq<LinkId>, forRestart: bool, restartDeps: bool, o: Answers): (r: (World, bool))
    ensures Kept(w, r.0) && Entries(r.0.books) <= Entries(w.books) && Quiet(w, r.0) && Exhausts(w, r.0)
    ensures !r.1 ==> exists l :: l in ls && Awaited(r.0, l)
    ensures forall l :: l in ls ==> Dealt(w, r.0, s, l, forRestart, restartDeps)
    ensures r.1 ==> forall l :: l in ls && AlwaysHard(w, l) ==> !Awaited(w, l)
    decreases Entries(w.books), 0, |ls| + 1
  {
    hide *;
    CalmRefl(w);
    CalmExhausts(w, w);
    if ls == [] then KeptRefl(w); (w, true)
    else if IsHard(w, ls[0]) then
      var f := L(w, ls[0]).from;
      var w1 := Force(w, s, f);
      var w2 := StopHard(w1, s, f, restartDeps, o);
      var (v, rest) := StopDependents(w2, s, ls[1..], forRestart, restartDeps, o);
      KeptTrans(w, w1, w2);
      KeptTrans(w, w2, v);
      CalmIsQuiet(w, w1);
      QuietTrans(w, w1, w2);
      QuietTrans(w, w2, v);
      DealtHard(w, w1, w2, s, ls[0], forRestart, restartDeps);
      DealtAll(w, w2, v, s, ls, forRestart, restartDeps);
      StoppedAll(w, w2, ls);
      CalmExhausts(w, w1);
      ExhaustsTrans(w, w1, w2);
      ExhaustsTrans(w, w2, v);
      SomeAwaited(w, w2, v, ls, rest);
      (v, FundamentallyStopped(R(w, f)) && rest)
    else
      KeptRefl(w);
      var w1 := if forRestart then w else BreakSoft(w, ls[0]);
      var r := StopDependents(w1, s, ls[1..], forRestart, restartDeps, o);
      KeptTrans(w, w1, r.0);
      CalmIsQuiet(w, w1);
      QuietTrans(w, w1, r.0);
      DealtSoft(w, w1, s, ls[0], forRestart, restartDeps);
      DealtAll(w, w1, r.0, s, ls, forRestart, restartDeps);
      StoppedAll(w, w1, ls);
      NotAlwaysHard(w, ls[0]);
      CalmExhausts(w, w1);
      ExhaustsTrans(w, w1, r.0);
      r
  }

  /** Whoever was not down when told is not down afterwards. */
  lemma SomeAwaited(w: World, w1: World, v: World, ls: seq<LinkId>, rest: bool)
    requires ls != [] && IsHard(w, ls[0]) && Quiet(w, w1) && Quiet(w1, v)
    requires !rest ==> exists l :: l in ls[1..] && Awaited(v, l)
    ensures !(FundamentallyStopped(R(w, L(w, ls[0]).from)) && rest) ==> exists l :: l in ls && Awaited(v, l)
  {
    hide Quiet;
    QuietTrans(w, w1, v);
    QuietStill(w, v);
    QuietAt(w, v, L(w, ls[0]).from);
    if !rest {
      var l :| l in ls[1..] && Awaited(v, l);
      assert l in ls;
    } else if !FundamentallyStopped(R(w, L(w, ls[0]).from)) {
      assert ls[0] in ls && Awaited(v, ls[0]);
    }
  }

  lemma DealtAll(w: World, w1: World, v: World, s: Id, ls: seq<LinkId>, forRestart: bool, restartDeps: bool)
    requires ls != [] && Kept(w, w1) && Quiet(w, w1) && Quiet(w1, v) && Dealt(w, w1, s, ls[0], forRestart, restartDeps)
    requires forall l :: l in ls[1..] ==> Dealt(w1, v, s, l, forRestart, restartDeps)
    ensures forall l :: l in ls ==> Dealt(w, v, s, l, forRestart, restartDeps)
  {
    hide Kept, Quiet, Dealt;
    SameLinksKept(w, w1);
    forall l | l in ls ensures Dealt(w, v, s, l, forRestart, restartDeps) {
      if l == ls[0] { DealtStays(w, w1, v, s, l, forRestart, restartDeps); }
      else { assert l in ls[1..]; DealtEarlier(w, w1, v, s, l, forRestart, restartDeps); }
    }
  }

  lemma DealtHard(w: World, w1: World, w2: World, s: Id, l: LinkId, forRestart: bool, restartDeps: bool)
    requires Kept(w, w1) && Calm(w, w1) && IsHard(w, l)
    requires
      var f := L(w, l).from;
      && (R(w1, s).desired == Stopped ==> Told(R(w2, f)))
      && (R(w1, s).desired != Stopped && restartDeps && Up(R(w1, f)) ==> FStop in R(w2, f).flags)
      && (R(w, s).forceStop && R(w, f).state != Stopped ==> Forced(R(w1, f)))
    requires Quiet(w1, w2)
    ensures Dealt(w, w2, s, l, forRestart, restartDeps)
  {
    hide Flows, Even, PinsKept, Orderly;
    CalmAt(w, w1, s);
    CalmAt(w, w1, L(w, l).from);
    QuietAt(w1, w2, L(w, l).from);
  }

  lemma DealtSoft(w: World, w1: World, s: Id, l: LinkId, forRestart: bool, restartDeps: bool)
    requires !IsHard(w, l) && (!forRestart && l in w.topo.links ==> l !in w1.books.holding && l !in w1.waiting)
    ensures Dealt(w, w1, s, l, forRestart, restartDeps)
  {
  }

  lemma NotAlwaysHard(w: World, l: LinkId)
    requires !IsHard(w, l)
    ensures !AlwaysHard(w, l)
  {
  }

  /** A service that is down, or waits to start, was so before the stop got under way. */
  lemma StoppedAll(w: World, w1: World, ls: seq<LinkId>)
    requires ls != [] && Kept(w, w1) && Quiet(w, w1)
    ensures (forall l :: l in ls[1..] && AlwaysHard(w1, l) ==> !Awaited(w1, l)) ==> forall l :: l in ls[1..] && AlwaysHard(w, l) ==> !Awaited(w, l)
    ensures FundamentallyStopped(R(w, L(w, ls[0]).from)) ==> !Awaited(w, ls[0])
  {
    hide Kept, Quiet;
    SameLinksKept(w, w1);
    forall l ensures AlwaysHard(w1, l) == AlwaysHard(w, l) && L(w1, l) == L(w, l) { SameHard(w, w1, l); }
    forall l | Awaited(w, l) ensures Awaited(w1, l) { QuietAt(w, w1, L(w, l).from); }
  }

  lemma SameLinksKept(w: World, v: World)
    requires Kept(w, v)
    ensures v.topo == w.topo
  {
  }

  /** Takes back the explicit activation of a dependent, which may stop it. */
  function Withdraw(w: World, f: Id, o: Answers): (v: World)
    ensures Kept(w, v) && Entries(v.books) <= Entries(w.books) && Quiet(w, v) && f !in v.books.explicit
    ensures R(w, f).desired == Stopped ==> Exhausts(w, v)
    decreases Entries(w.books), 0, 0
  {
    hide Kept, Owed, Calm, Quiet, Exhausts, LetDown;
    KeptRefl(w);
    CalmRefl(w);
    CalmExhausts(w, w);
    if f in w.books.explicit then
      var w1 := Unexplicit(w, f);
      var v := Release(w1, f, o);
      OwedPaid(w, w1, v, f, 1);
      SameRecsCalm(w, w1);
      CalmIsQuiet(w, w1);
      WithdrawnExhausts(w, w1, v, f);
      QuietTrans(w, w1, v);
      QuietStill(w1, v);
      v
    else w
  }

  /** A service that is not wanted any more may lose its activation. */
  lemma WithdrawnExhausts(w: World, w1: World, v: World, f: Id)
    requires w1.recs == w.recs && w1.books.explicit == w.books.explicit - {f} && Exhausts(w1, v) && Quiet(w1, v)
    ensures R(w, f).desired == Stopped ==> Exhausts(w, v)
  {
    QuietAt(w1, v, f);
    forall t | R(w, f).desired == Stopped
      ensures (R(w, t).limitExhausted ==> R(v, t).limitExhausted || R(v, t).desired == Stopped) && StaysActive(w, v, t)
    {
      assert StaysActive(w1, v, t) && R(w1, t) == R(w, t) && R(w1, f) == R(w, f);
    }
  }

  lemma QuietStill(w: World, v: World)
    requires Quiet(w, v)
    ensures Still(w, v)
  {
  }

  /** A forced stop is passed on to the dependent. */
  function Force(w: World, s: Id, f: Id): (v: World)
    ensures Kept(w, v) && v.books == w.books && Calm(w, v)
    ensures R(w, s).forceStop && R(w, f).state != Stopped ==> Forced(R(v, f))
  {
    hide Kept, Calm;
    KeptRefl(w);
    CalmRefl(w);
    if !R(w, s).forceStop then w
    else if R(w, s).desired == Stopped then
      var w1 := SetDesired(w, f, Stopped);
      var v := ForcedStop(w1, f);
      KeptTrans(w, w1, v);
      ForcedCalm(w, w1, v, f);
      v
    else ForcedStop(w, f)
  }

  /** A service that is no longer wanted, and has a reason to stay for now. */
  lemma ForcedCalm(w: World, w1: World, v: World, f: Id)
    requires w1 == w.(recs := w1.recs) && R(w1, f) == R(w, f).(desired := Stopped) && (forall t :: t != f ==> R(w1, t) == R(w, t))
    requires Calm(w1, v) && Excused(v, f)
    ensures Calm(w, v)
  {
    forall t ensures CalmRec(R(w, t), R(v, t)) && Meant(w, v, t) {
      assert CalmRec(R(w1, t), R(v, t)) && Meant(w1, v, t);
      if t != f { assert R(w1, t) == R(w, t); }
    }
  }

  function MarkUserRestart(w: World, f: Id): (v: World)
    ensures Kept(w, v) && v.books == w.books && Calm(w, v) && R(v, f).inUserRestart
  {
    hide Kept, Calm;
    var v := Set(w, f, R(w, f).(inUserRestart := true));
    OneCalm(w, v, f);
    v
  }

  /** Tells a hard dependent to stop, or to restart.  If that is news to it, it is flagged for a stop
      and queued. */
  function StopHard(w: World, s: Id, f: Id, restartDeps: bool, o: Answers): (v: World)
    ensures Kept(w, v) && Entries(v.books) <= Entries(w.books) && Quiet(w, v) && Exhausts(w, v)
    ensures R(w, s).desired == Stopped ==> Told(R(v, f))
    ensures R(w, s).desired == Stopped && R(w, f).state != Stopped && R(w, f).desired != Stopped ==>
      FStop in R(v, f).flags && R(v, f).inProp && f in v.past.told && f !in v.books.explicit
    ensures R(w, s).desired != Stopped && restartDeps && Up(R(w, f)) ==> FStop in R(v, f).flags && R(v, f).inProp && R(v, f).inUserRestart
    decreases Entries(w.books), 0, 1
  {
    hide *;
    KeptRefl(w);
    CalmRefl(w);
    CalmExhausts(w, w);
    ToldIs(R(w, f));
    UpIs(R(w, f));
    if R(w, f).state == Stopped then w
    else if R(w, s).desired == Stopped then
      if R(w, f).desired == Stopped then w
      else
        var w1 := SetDesired(w, f, Stopped);
        var w2 := Withdraw(w1, f, o);
        var v := Raise(w2, f, FStop);
        StopNoted(w2.past, f);
        KeptTrans(w, w1, w2);
        KeptTrans(w, w2, v);
        CalmIsQuiet(w2, v);
        QuietTrans(w1, w2, v);
        ToldNow(w1, v, f);
        CalmExhausts(w2, v);
        ExhaustsTrans(w1, w2, v);
        WantedExhausts(w, w1, v, f);
        FlaggedQuiet(w, w1, v, f);
        v
    else if restartDeps && R(w, f).state != Stopping then
      var w1 := MarkUserRestart(w, f);
      var v := Raise(w1, f, FStop);
      FlaggedOnly(R(w1, f), FStop);
      KeptTrans(w, w1, v);
      CalmTrans(w, w1, v);
      CalmIsQuiet(w, v);
      CalmExhausts(w, v);
      v
    else w
  }

  lemma WantedExhausts(w: World, w1: World, v: World, f: Id)
    requires R(w1, f) == R(w, f).(desired := Stopped) && (forall t :: t != f ==> R(w1, t) == R(w, t)) && w1.books == w.books && Exhausts(w1, v)
    ensures Exhausts(w, v)
  {
    forall t ensures (R(w, t).limitExhausted ==> R(v, t).limitExhausted || R(v, t).desired == Stopped) && StaysActive(w, v, t) {
      assert StaysActive(w1, v, t);
      assert R(w1, t).limitExhausted == R(w, t).limitExhausted by { if t != f { assert R(w1, t) == R(w, t); } }
    }
  }

  lemma StopNoted(h: History, f: Id)
    ensures f in Noted(h, f, FStop).told
  {
  }

  lemma FlaggedQuiet(w: World, w1: World, v: World, f: Id)
    requires w1 == w.(recs := w1.recs) && R(w1, f) == R(w, f).(desired := Stopped) && (forall t :: t != f ==> R(w1, t) == R(w, t))
    requires Quiet(w1, v) && FStop in R(v, f).flags
    ensures Quiet(w, v)
  {
    forall t ensures QuietRec(R(w, t), R(v, t)) && Meant(w, v, t) && Proceeds(w, v, t) {
      assert QuietRec(R(w1, t), R(v, t)) && Meant(w1, v, t) && Proceeds(w1, v, t);
      if t != f { assert R(w1, t) == R(w, t); }
    }
  }

  lemma UpIs(r: Rec)
    ensures Up(r) ==> r.state != Stopped && r.state != Stopping
  {
  }

  lemma FlaggedOnly(r: Rec, f: Flag)
    ensures r.(flags := r.flags + {f}, inProp := true).inUserRestart == r.inUserRestart
    ensures r.(flags := r.flags + {f}, inProp := true).forceStop == r.forceStop
  {
  }

  lemma ToldIs(r: Rec)
    ensures Told(r) <==> r.state == Stopped || r.desired == Stopped
  {
  }

  lemma ToldNow(w: World, v: World, f: Id)
    requires R(w, f).desired == Stopped && Quiet(w, v)
    ensures Told(R(v, f))
  {
    QuietAt(w, v, f);
  }
}
