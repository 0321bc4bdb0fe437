/** The service records: states, links, reference counts and propagation flags, and the
    primitive updates on them. */
module Records {
  import opened Sequences
  import opened Services

  type Id = nat
  type LinkId = nat

  datatype RunState = Stopped | Starting | Started | Stopping

  datatype Link = Link(from: Id, to: Id, kind: DepType)

  /** The work a record has queued for the next propagation pass. */
  datatype Flag = FRequire | FRelease | FFailure | FStart | FStop | FPin

  datatype Rec = Rec(
    state: RunState, desired: RunState,
    pinnedStarted: bool, pinnedStopped: bool, deptPinned: bool, markedDown: bool,
    waitingForDeps: bool, waitingForSlot: bool, forceStop: bool,
    startFailed: bool, startedEmitted: bool, inUserRestart: bool, limitExhausted: bool,
    flags: set<Flag>, inProp: bool, inTransition: bool,
    manual: bool, stopWhenUnneeded: bool, directRestart: bool)

  const NEW_REC := Rec(Stopped, Stopped, false, false, false, false, false, false, false,
                      false, false, false, false, {}, false, false, false, false, false)

  /** The reference counts and what they count: explicit activations and the links that hold
      an acquisition of their target. */
  datatype Books = Books(required: map<Id, int>, explicit: set<Id>, holding: set<LinkId>)

  datatype Topo = Topo(links: map<LinkId, Link>, deps: map<Id, seq<LinkId>>, dpts: map<Id, seq<LinkId>>)

  /** What has happened: the stopped services that were started, in order; how often each service began
      to start, restarts included; the services that, since they last did, came up without telling
      anybody, and those that stopped or failed while they still counted as required; the services that,
      since they last did, were flagged for a stop; and those that were flagged for a release of their
      acquisitions, since they last acquired; and the links whose target was not up when their service
      last began to start, and has not come up since. */
  datatype History = History(
    starts: seq<Id>, begun: multiset<Id>, mute: set<Id>, spent: set<Id>, told: set<Id>, asked: set<Id>, lacking: set<LinkId>)

  /** The service set, with its history; `tick` numbers the calls whose result the services
      themselves decide. */
  datatype World = World(
    topo: Topo, books: Books, recs: map<Id, Rec>, waiting: set<LinkId>,
    props: seq<Id>, transitions: seq<Id>, past: History, tick: nat)

  // ----- reading -----

  function R(w: World, s: Id): Rec {
    if s in w.recs then w.recs[s] else NEW_REC
  }

  function L(w: World, l: LinkId): Link {
    if l in w.topo.links then w.topo.links[l] else Link(0, 0, Regular)
  }

  function Deps(w: World, s: Id): seq<LinkId> {
    if s in w.topo.deps then w.topo.deps[s] else []
  }

  function Dpts(w: World, s: Id): seq<LinkId> {
    if s in w.topo.dpts then w.topo.dpts[s] else []
  }

  function Required(b: Books, s: Id): int {
    if s in b.required then b.required[s] else 0
  }

  /** A hard link: regular, prepared-by, or a milestone that is still waited for. */
  predicate IsHard(w: World, l: LinkId) {
    var k := L(w, l).kind;
    k == Regular || k == PreparedBy || (k == Milestone && l in w.waiting)
  }

  predicate IsOrdering(w: World, l: LinkId) {
    IsOnlyOrdering(L(w, l).kind)
  }

  predicate StartPinned(r: Rec) {
    r.pinnedStarted || r.deptPinned
  }

  predicate Up(r: Rec) {
    r.state == Started || r.state == Starting
  }

  predicate FundamentallyStopped(r: Rec) {
    r.state == Stopped || (r.state == Starting && r.waitingForDeps)
  }

  // ----- the books -----

  ghost function Holders(t: Topo, holding: set<LinkId>, s: Id): set<LinkId> {
    set l | l in holding && l in t.links && t.links[l].to == s
  }

  /** What the count of `s` shows beyond its explicit activation and its holders. */
  ghost function Excess(t: Topo, b: Books, s: Id): int {
    Required(b, s) - (if s in b.explicit then 1 else 0) - |Holders(t, b.holding, s)|
  }

  /** No count moves against what it counts, except that of `s`, by `k`. */
  ghost predicate Shifted(w: World, v: World, s: Id, k: int) {
    v.topo == w.topo && forall t :: Excess(v.topo, v.books, t) == Excess(w.topo, w.books, t) + if t == s then k else 0
  }

  ghost predicate Balanced(w: World, v: World) {
    v.topo == w.topo && forall t :: Excess(v.topo, v.books, t) == Excess(w.topo, w.books, t)
  }

  /** The books stay balanced, no queued work gets lost, and nothing goes unheeded. */
  ghost predicate Even(w: World, v: World) {
    Balanced(w, v) && QueueKept(w, v) && Dutiful(w, v)
  }

  // ----- stops and releases that were asked for -----

  /** The service was flagged for a stop and is up all the same, without a pin and without the flag. */
  ghost predicate Ignored(w: World, s: Id) {
    s in w.past.told && R(w, s).state == Started && !StartPinned(R(w, s)) && FStop !in R(w, s).flags
  }

  /** One of its dependencies is held by the service. */
  ghost predicate Clings(w: World, s: Id) {
    exists l :: l in Deps(w, s) && l in w.topo.links && l in w.books.holding
  }

  /** The service was flagged for a release and holds a dependency all the same, without the flag. */
  ghost predicate Withheld(w: World, s: Id) {
    s in w.past.asked && FRelease !in R(w, s).flags && Clings(w, s)
  }

  /** No stop and no release that was asked for goes unheeded. */
  ghost predicate Dutiful(w: World, v: World) {
    && v.topo == w.topo
    && (forall s :: Ignored(v, s) ==> Ignored(w, s))
    && (TopoOk(w.topo) ==> forall s :: Withheld(v, s) ==> Withheld(w, s))
  }

  lemma DutifulRefl(w: World)
    ensures Dutiful(w, w)
  {
  }

  lemma DutifulTrans(u: World, v: World, w: World)
    requires Dutiful(u, v) && Dutiful(v, w)
    ensures Dutiful(u, w)
  {
    hide Ignored, Withheld, TopoOk;
  }

  /** What a record may do without leaving a stop or a release unheeded: it comes up, loses its pins or
      the flag for a stop only if it was not flagged, and the flag for a release only if not for that. */
  ghost predicate Heeds(h: History, s: Id, a: Rec, b: Rec) {
    && (s in h.told ==> b.state != Started || (a.state == Started && (StartPinned(a) ==> StartPinned(b)) && (FStop in a.flags ==> FStop in b.flags)))
    && (s in h.asked ==> FRelease in a.flags ==> FRelease in b.flags)
  }

  lemma StillDutiful(w: World, v: World)
    requires v.topo == w.topo && v.past.told <= w.past.told && v.past.asked <= w.past.asked && v.books.holding <= w.books.holding
    requires forall s :: Heeds(v.past, s, R(w, s), R(v, s))
    ensures Dutiful(w, v)
  {
    hide TopoOk;
    forall s | Ignored(v, s) ensures Ignored(w, s) { assert Heeds(v.past, s, R(w, s), R(v, s)); }
    forall s | Withheld(v, s) ensures Withheld(w, s) {
      assert Heeds(v.past, s, R(w, s), R(v, s)) && Deps(v, s) == Deps(w, s);
    }
  }

  /** The same where only one record has changed. */
  lemma OneDutiful(w: World, v: World, s: Id)
    requires v.topo == w.topo && v.past.told <= w.past.told && v.past.asked <= w.past.asked && v.books.holding <= w.books.holding
    requires Heeds(v.past, s, R(w, s), R(v, s)) && forall t :: t != s ==> R(v, t) == R(w, t)
    ensures Dutiful(w, v)
  {
    hide Dutiful;
    forall t ensures Heeds(v.past, t, R(w, t), R(v, t)) { if t != s { assert R(v, t) == R(w, t); } }
    StillDutiful(w, v);
  }

  /** A flag is set, and the history says so. */
  lemma RaisedDutiful(w: World, v: World, s: Id, f: Flag)
    requires v.topo == w.topo && v.books == w.books && v.past == Noted(w.past, s, f)
    requires R(v, s) == R(w, s).(flags := R(w, s).flags + {f}) && forall t :: t != s ==> R(v, t) == R(w, t)
    ensures Dutiful(w, v)
  {
    hide TopoOk;
    forall t | Ignored(v, t) ensures Ignored(w, t) { if t != s { assert R(v, t) == R(w, t); } }
    forall t | Withheld(v, t) ensures Withheld(w, t) { assert Deps(v, t) == Deps(w, t); if t != s { assert R(v, t) == R(w, t); } }
  }

  /** The history once the service is flagged. */
  function Noted(h: History, s: Id, f: Flag): History {
    match f
    case FStop => h.(told := h.told + {s})
    case FRelease => h.(asked := h.asked + {s})
    case _ => h
  }

  /** The service sits where it is pinned, and no failure is on its way to it. */
  ghost predicate Held(r: Rec) {
    FFailure !in r.flags && ((r.state == Started && r.pinnedStarted) || (r.state == Stopped && r.pinnedStopped))
  }

  ghost predicate Holds(a: Rec, b: Rec) {
    Held(a) ==> Held(b) && b.state == a.state
  }

  ghost predicate PinsKept(w: World, v: World) {
    forall t :: Holds(R(w, t), R(v, t))
  }

  /** What every operation keeps: the books, the queued work, the flow of starts, and the pinned
      services. */
  ghost predicate Kept(w: World, v: World) {
    Even(w, v) && Flows(w, v) && Orderly(w, v) && PinsKept(w, v)
  }

  /** The same, but for `s`, whose own start, stop or failure this is. */
  ghost predicate KeptBut(w: World, v: World, s: Id) {
    Even(w, v) && Flows(w, v) && OrderlyBut(w, v, s) && forall t :: t != s ==> Holds(R(w, t), R(v, t))
  }

  // ----- the flow of starts -----

  /** Every listed link is a link of the record that lists it, once. */
  ghost predicate TopoOk(t: Topo) {
    && (forall s :: s in t.deps ==> Distinct(t.deps[s]))
    && (forall s :: s in t.dpts ==> Distinct(t.dpts[s]))
    && (forall s, l :: s in t.deps && l in t.deps[s] ==> l in t.links && t.links[l].from == s)
    && (forall s, l :: s in t.dpts && l in t.dpts[s] ==> l in t.links && t.links[l].to == s)
    && (forall l :: l in t.links ==> ListedTwice(t, l))
  }

  /** The link is listed at both ends. */
  ghost predicate ListedTwice(t: Topo, l: LinkId)
    requires l in t.links
  {
    && t.links[l].from in t.deps && l in t.deps[t.links[l].from]
    && t.links[l].to in t.dpts && l in t.dpts[t.links[l].to]
  }

  predicate OrderingLink(t: Topo, l: LinkId) {
    l in t.links && IsOnlyOrdering(t.links[l].kind)
  }

  /** Ordering links that have come to hold their target did so because it was started. */
  ghost predicate Logged(w: World, v: World) {
    && |w.past.starts| <= |v.past.starts| && v.past.starts[..|w.past.starts|] == w.past.starts
    && (TopoOk(w.topo) ==>
          forall l :: l in v.books.holding && l !in w.books.holding && OrderingLink(w.topo, l) ==>
            w.topo.links[l].to in v.past.starts[|w.past.starts|..])
  }

  predicate NoDepWaited(w: World, s: Id) {
    forall l :: l in Deps(w, s) ==> l !in w.waiting
  }

  /** The service is starting and has nothing left to wait for, and nobody will take it on. */
  ghost predicate Stuck(w: World, s: Id) {
    R(w, s).state == Starting && R(w, s).waitingForDeps && !R(w, s).inTransition && NoDepWaited(w, s)
  }

  /** A record is marked for a transition exactly when it is in the transition queue, once. */
  ghost predicate InTransit(w: World, s: Id) {
    multiset(w.transitions)[s] == if R(w, s).inTransition then 1 else 0
  }

  ghost predicate Flows(w: World, v: World) {
    && Logged(w, v)
    && (TopoOk(w.topo) ==> forall s :: Stuck(v, s) ==> Stuck(w, s))
    && (forall s :: InTransit(w, s) ==> InTransit(v, s))
  }

  lemma FlowsRefl(w: World)
    ensures Flows(w, w)
  {
  }

  lemma LoggedTrans(u: World, v: World, w: World)
    requires Logged(u, v) && Logged(v, w) && v.topo == u.topo
    ensures Logged(u, w)
  {
    var n, m := |u.past.starts|, |v.past.starts|;
    assert w.past.starts[..n] == w.past.starts[..m][..n];
    if TopoOk(u.topo) {
      forall l | l in w.books.holding && l !in u.books.holding && OrderingLink(u.topo, l)
        ensures u.topo.links[l].to in w.past.starts[n..]
      {
        var t := u.topo.links[l].to;
        if l in v.books.holding {
          var i :| 0 <= i < |v.past.starts[n..]| && v.past.starts[n..][i] == t;
          assert w.past.starts[..m][n + i] == t;
          assert w.past.starts[n..][i] == t;
        } else {
          var i :| 0 <= i < |w.past.starts[m..]| && w.past.starts[m..][i] == t;
          assert w.past.starts[n..][m - n + i] == t;
        }
      }
    }
  }

  lemma FlowsTrans(u: World, v: World, w: World)
    requires Flows(u, v) && Flows(v, w) && v.topo == u.topo
    ensures Flows(u, w)
  {
    hide Stuck, InTransit, TopoOk;
    LoggedTrans(u, v, w);
    hide Logged;
  }

  /** Whatever leaves the links, the books' holders, the waiting links and the states alone. */
  lemma FlowsStill(w: World, v: World)
    requires v.topo == w.topo && v.past.starts == w.past.starts && v.waiting == w.waiting && v.transitions == w.transitions
    requires v.books.holding <= w.books.holding
    requires forall s :: R(v, s).inTransition == R(w, s).inTransition
    requires forall s :: R(v, s).state == Starting && R(v, s).waitingForDeps ==> R(w, s).state == Starting && R(w, s).waitingForDeps
    ensures Flows(w, v)
  {
  }

  // ----- services that are not started, or not heard of -----

  /** The service is required and stopped and nobody will start it, though neither a marker nor the
      operator keeps it down. */
  ghost predicate Asleep(w: World, s: Id) {
    var r := R(w, s);
    && r.state == Stopped && FStart !in r.flags && Required(w.books, s) > 0
    && !r.manual && !r.markedDown && s !in w.past.spent
  }

  /** The link is waited for although its target has come up and told its dependents. */
  ghost predicate Untold(w: World, l: LinkId) {
    l in w.waiting && l in w.topo.links && R(w, w.topo.links[l].to).state == Started && w.topo.links[l].to !in w.past.mute
  }

  /** An ordering link is waited for although its target is not even starting. */
  ghost predicate Overtaken(w: World, l: LinkId) {
    l in w.waiting && OrderingLink(w.topo, l) && R(w, w.topo.links[l].to).state == Stopped
  }

  /** A link to a service without which its own service cannot start. */
  predicate MustWait(t: Topo, l: LinkId) {
    l in t.links && (t.links[l].kind == Regular || t.links[l].kind == PreparedBy || t.links[l].kind == Milestone)
  }

  /** The service is up, or coming up, or no longer waits for the link, although the service that it
      needs has not come up. */
  ghost predicate Rushed(w: World, l: LinkId) {
    MustWait(w.topo, l) && l in w.past.lacking &&
    var r := R(w, w.topo.links[l].from);
    r.state == Started || (r.state == Starting && (!r.waitingForDeps || l !in w.waiting))
  }

  /** The service itself has not been rushed. */
  ghost predicate NotRushed(w: World, s: Id) {
    forall l :: l in w.topo.links && w.topo.links[l].from == s ==> !Rushed(w, l)
  }

  /** The service has begun to start in between. */
  ghost predicate Begun(w: World, v: World, s: Id) {
    w.past.begun[s] < v.past.begun[s]
  }

  /** An ordering link of the service leads to one that has begun to start in between. */
  ghost predicate Ordered(w: World, v: World, s: Id) {
    exists l :: OrderingLink(w.topo, l) && w.topo.links[l].from == s && Begun(w, v, w.topo.links[l].to)
  }

  /** The service is stuck, and not queued in spite of its marks either. */
  ghost predicate Abandoned(w: World, s: Id) {
    Stuck(w, s) && s !in w.transitions
  }

  /** Such a service stays so until it is stopped or started afresh, or an ordering link comes into
      play. */
  ghost predicate StaysStuck(w: World, v: World, s: Id) {
    Abandoned(w, s) && R(v, s).state == Starting && !Begun(w, v, s) && !Ordered(w, v, s) ==> Abandoned(v, s)
  }

  /** A service is starting only if it was, or has begun to. */
  ghost predicate Chronicled(w: World, v: World) {
    && v.topo == w.topo && w.past.begun <= v.past.begun
    && forall s :: R(v, s).state == Starting ==> R(w, s).state == Starting || Begun(w, v, s)
  }

  /** The step puts no service to sleep, leaves no dependent untold, and moves no stuck service. */
  ghost predicate Orderly(w: World, v: World) {
    && Chronicled(w, v)
    && (TopoOk(w.topo) ==>
        && (forall s :: Asleep(v, s) ==> Asleep(w, s))
        && (forall l :: Untold(v, l) ==> Untold(w, l))
        && (forall l :: Overtaken(v, l) ==> Overtaken(w, l))
        && (forall l :: Rushed(v, l) ==> Rushed(w, l))
        && (forall s :: StaysStuck(w, v, s)))
  }

  /** The same for all services but `s`. */
  ghost predicate OrderlyBut(w: World, v: World, s: Id) {
    && Chronicled(w, v)
    && (TopoOk(w.topo) ==>
        && (forall t :: t != s && Asleep(v, t) ==> Asleep(w, t))
        && (forall l :: l in w.topo.links && w.topo.links[l].to != s && Untold(v, l) ==> Untold(w, l))
        && (forall l :: l in w.topo.links && w.topo.links[l].to != s && Overtaken(v, l) ==> Overtaken(w, l))
        && (forall l :: l in w.topo.links && w.topo.links[l].from != s && Rushed(v, l) ==> Rushed(w, l))
        && (forall t :: t != s ==> StaysStuck(w, v, t)))
  }

  /** What `s` itself lacks for that. */
  ghost predicate OrderlyAt(w: World, v: World, s: Id) {
    TopoOk(w.topo) ==>
      && (Asleep(v, s) ==> Asleep(w, s))
      && (forall l :: l in w.topo.links && w.topo.links[l].to == s && Untold(v, l) ==> Untold(w, l))
      && (forall l :: l in w.topo.links && w.topo.links[l].to == s && Overtaken(v, l) ==> Overtaken(w, l))
      && RushesNone(w, v, s)
      && StaysStuck(w, v, s)
  }

  ghost predicate RushesNone(w: World, v: World, s: Id) {
    forall l :: l in w.topo.links && w.topo.links[l].from == s && Rushed(v, l) ==> Rushed(w, l)
  }

  lemma OrderlyRefl(w: World)
    ensures Orderly(w, w)
  {
  }

  lemma ChronicledTrans(u: World, v: World, w: World)
    requires Chronicled(u, v) && Chronicled(v, w)
    ensures Chronicled(u, w)
  {
  }

  lemma StuckTrans(u: World, v: World, w: World, s: Id)
    requires Chronicled(u, v) && Chronicled(v, w) && StaysStuck(u, v, s) && StaysStuck(v, w, s)
    ensures StaysStuck(u, w, s)
  {
    hide Abandoned;
    if Abandoned(u, s) && R(w, s).state == Starting && !Begun(u, w, s) && !Ordered(u, w, s) {
      forall l | OrderingLink(u.topo, l) && u.topo.links[l].from == s
        ensures !Begun(u, v, u.topo.links[l].to) && !Begun(v, w, u.topo.links[l].to)
      {
        assert !Begun(u, w, u.topo.links[l].to);
      }
    }
  }

  lemma OrderlyTrans(u: World, v: World, w: World)
    requires Orderly(u, v) && Orderly(v, w)
    ensures Orderly(u, w)
  {
    hide Asleep, Untold, Overtaken, Rushed, StaysStuck, TopoOk;
    ChronicledTrans(u, v, w);
    forall s | TopoOk(u.topo) ensures StaysStuck(u, w, s) { StuckTrans(u, v, w, s); }
  }

  lemma OrderlyButTrans(u: World, v: World, w: World, s: Id)
    requires OrderlyBut(u, v, s) && OrderlyBut(v, w, s)
    ensures OrderlyBut(u, w, s)
  {
    hide Asleep, Untold, Overtaken, Rushed, StaysStuck, TopoOk;
    ChronicledTrans(u, v, w);
    forall t | TopoOk(u.topo) && t != s ensures StaysStuck(u, w, t) { StuckTrans(u, v, w, t); }
  }

  lemma OrderlySplit(w: World, v: World, s: Id)
    ensures Orderly(w, v) <==> OrderlyBut(w, v, s) && OrderlyAt(w, v, s)
  {
    hide Asleep, StaysStuck, TopoOk;
    if OrderlyBut(w, v, s) && OrderlyAt(w, v, s) && TopoOk(w.topo) {
      forall l | Untold(v, l) ensures Untold(w, l) { assert l in w.topo.links; }
      forall l | Overtaken(v, l) ensures Overtaken(w, l) { assert l in w.topo.links; }
      forall l | Rushed(v, l) ensures Rushed(w, l) { assert l in w.topo.links; }
    }
  }

  /** A service that is stopping, or has just begun to start, lacks nothing. */
  lemma MovingIsOrderly(w: World, v: World, s: Id)
    requires v.topo == w.topo && (R(v, s).state == Stopping || (R(v, s).state == Starting && Begun(w, v, s)))
    requires TopoOk(v.topo) ==> NotRushed(v, s)
    ensures OrderlyAt(w, v, s)
  {
    hide Stuck;
  }

  /** The histories agree on what began to start and what became of it. */
  ghost predicate SameComings(a: History, b: History) {
    b.begun == a.begun && b.mute == a.mute && b.spent == a.spent && b.lacking == a.lacking
  }

  /** Whatever leaves states, marks, histories and waiting links alone, and takes no flag for a start
      away, is orderly as long as no count grows. */
  lemma StillOrderly(w: World, v: World)
    requires v.topo == w.topo && SameComings(w.past, v.past) && v.waiting == w.waiting && v.transitions == w.transitions
    requires forall s :: Required(v.books, s) <= Required(w.books, s)
    requires forall s :: Unmoved(R(w, s), R(v, s))
    ensures Orderly(w, v)
  {
    hide TopoOk;
    forall s ensures StaysStuck(w, v, s) { assert Deps(v, s) == Deps(w, s) && Unmoved(R(w, s), R(v, s)); }
    forall s | Asleep(v, s) ensures Asleep(w, s) { assert Unmoved(R(w, s), R(v, s)); }
    forall l | Untold(v, l) ensures Untold(w, l) { assert Unmoved(R(w, v.topo.links[l].to), R(v, v.topo.links[l].to)); }
    forall l | Overtaken(v, l) ensures Overtaken(w, l) { assert Unmoved(R(w, v.topo.links[l].to), R(v, v.topo.links[l].to)); }
    forall l | Rushed(v, l) ensures Rushed(w, l) { assert Unmoved(R(w, v.topo.links[l].from), R(v, v.topo.links[l].from)); }
    forall s | R(v, s).state == Starting ensures R(w, s).state == Starting { assert Unmoved(R(w, s), R(v, s)); }
  }

  /** The same where one record has moved. */
  lemma StillOrderlyBut(w: World, v: World, s: Id)
    requires v.topo == w.topo && SameComings(w.past, v.past) && v.waiting == w.waiting
    requires forall t :: t != s && t in v.transitions ==> t in w.transitions
    requires forall t :: t != s ==> Required(v.books, t) <= Required(w.books, t)
    requires forall t :: t != s ==> Unmoved(R(w, t), R(v, t))
    requires R(v, s).state == Starting ==> R(w, s).state == Starting
    ensures OrderlyBut(w, v, s)
  {
    hide TopoOk;
    forall t | t != s ensures StaysStuck(w, v, t) { assert Deps(v, t) == Deps(w, t) && Unmoved(R(w, t), R(v, t)); }
    forall t | t != s && Asleep(v, t) ensures Asleep(w, t) { assert Unmoved(R(w, t), R(v, t)); }
    forall l | l in w.topo.links && w.topo.links[l].to != s && Untold(v, l) ensures Untold(w, l) {
      assert Unmoved(R(w, v.topo.links[l].to), R(v, v.topo.links[l].to));
    }
    forall l | l in w.topo.links && w.topo.links[l].to != s && Overtaken(v, l) ensures Overtaken(w, l) {
      assert Unmoved(R(w, v.topo.links[l].to), R(v, v.topo.links[l].to));
    }
    forall l | l in w.topo.links && w.topo.links[l].from != s && Rushed(v, l) ensures Rushed(w, l) {
      assert Unmoved(R(w, v.topo.links[l].from), R(v, v.topo.links[l].from));
    }
    forall t | R(v, t).state == Starting ensures R(w, t).state == Starting { if t != s { assert Unmoved(R(w, t), R(v, t)); } }
  }

  /** A record in the same state, with the same marks, that has not lost its flag for a start. */
  ghost predicate Unmoved(a: Rec, b: Rec) {
    && b.state == a.state && (b.waitingForDeps == a.waitingForDeps || a.state != Starting)
    && (b.inTransition == a.inTransition || a.state != Starting)
    && b.manual == a.manual && b.markedDown == a.markedDown && (FStart in a.flags ==> FStart in b.flags)
  }

  /** A flag that is set on a record outside the propagation queue would never be acted on. */
  ghost predicate Lost(w: World, s: Id, f: Flag) {
    f in R(w, s).flags && !R(w, s).inProp
  }

  /** A record is marked as queued exactly when it is in the queue, once. */
  ghost predicate InStep(w: World, s: Id) {
    multiset(w.props)[s] == if R(w, s).inProp then 1 else 0
  }

  /** No flag is lost that was not lost before, and queue membership stays in step. */
  ghost predicate QueueKept(w: World, v: World) {
    && (forall s, f :: Lost(v, s, f) ==> Lost(w, s, f))
    && (forall s :: InStep(w, s) ==> InStep(v, s))
  }

  /** The size of the books: explicit activations and held links. */
  ghost function Entries(b: Books): nat {
    |b.explicit| + |b.holding|
  }

  lemma HoldersDrop(t: Topo, holding: set<LinkId>, l: LinkId, s: Id)
    requires l in holding && l in t.links
    ensures |Holders(t, holding - {l}, s)| == |Holders(t, holding, s)| - if t.links[l].to == s then 1 else 0
  {
    if t.links[l].to == s {
      assert Holders(t, holding, s) == Holders(t, holding - {l}, s) + {l};
    } else {
      assert Holders(t, holding, s) == Holders(t, holding - {l}, s);
    }
  }

  lemma HoldersAdd(t: Topo, holding: set<LinkId>, l: LinkId, s: Id)
    requires l !in holding && l in t.links
    ensures |Holders(t, holding + {l}, s)| == |Holders(t, holding, s)| + if t.links[l].to == s then 1 else 0
  {
    HoldersDrop(t, holding + {l}, l, s);
    assert holding + {l} - {l} == holding;
  }

  /** Kept, but for the count of `s`, which is off by `k` more than before. */
  ghost predicate Owed(w: World, v: World, s: Id, k: int) {
    Shifted(w, v, s, k) && QueueKept(w, v) && Dutiful(w, v) && Flows(w, v) && Orderly(w, v) && PinsKept(w, v)
  }

  lemma KeptRefl(w: World)
    ensures Kept(w, w)
  {
    FlowsRefl(w);
    OrderlyRefl(w);
    DutifulRefl(w);
    hide Flows, Orderly, Dutiful;
  }

  lemma KeptTrans(u: World, v: World, w: World)
    requires Kept(u, v) && Kept(v, w)
    ensures Kept(u, w)
  {
    hide Flows, Orderly, Dutiful;
    FlowsTrans(u, v, w);
    OrderlyTrans(u, v, w);
    DutifulTrans(u, v, w);
  }

  lemma ButTrans(u: World, v: World, w: World, s: Id)
    requires KeptBut(u, v, s) && KeptBut(v, w, s)
    ensures KeptBut(u, w, s)
  {
    hide Flows, OrderlyBut, Dutiful;
    FlowsTrans(u, v, w);
    OrderlyButTrans(u, v, w, s);
    DutifulTrans(u, v, w);
  }

  lemma KeptIsBut(w: World, v: World, s: Id)
    requires Kept(w, v)
    ensures KeptBut(w, v, s)
  {
    hide Flows, Orderly, OrderlyBut, Dutiful;
    OrderlySplit(w, v, s);
  }

  lemma KeptPins(w: World, v: World)
    requires Kept(w, v)
    ensures PinsKept(w, v)
  {
  }

  lemma KeptOrderly(w: World, v: World)
    requires Kept(w, v)
    ensures Orderly(w, v)
  {
  }

  lemma KeptAt(w: World, v: World, s: Id)
    requires Kept(w, v)
    ensures OrderlyAt(w, v, s)
  {
    hide Flows, Orderly, OrderlyAt;
    OrderlySplit(w, v, s);
  }

  /** A service that is not held and lacks nothing needs no exception. */
  lemma ButFree(w: World, v: World, s: Id)
    requires KeptBut(w, v, s) && Holds(R(w, s), R(v, s)) && OrderlyAt(w, v, s)
    ensures Kept(w, v)
  {
    hide Flows, Orderly, OrderlyBut, OrderlyAt, Dutiful;
    OrderlySplit(w, v, s);
  }

  lemma OwedKept(u: World, v: World, w: World, s: Id, k: int)
    requires Owed(u, v, s, k) && Kept(v, w)
    ensures Owed(u, w, s, k)
  {
    hide Flows, Orderly, Dutiful;
    FlowsTrans(u, v, w);
    OrderlyTrans(u, v, w);
    DutifulTrans(u, v, w);
  }

  lemma OwedPaid(u: World, v: World, w: World, s: Id, k: int)
    requires Owed(u, v, s, k) && Owed(v, w, s, -k)
    ensures Kept(u, w)
  {
    hide Flows, Orderly, Dutiful;
    FlowsTrans(u, v, w);
    OrderlyTrans(u, v, w);
    DutifulTrans(u, v, w);
  }

  // ----- what happens to states -----

  /** The pins have not changed, and nothing is wanted or to be acquired that was not. */
  ghost predicate SamePins(a: Rec, b: Rec) {
    && b.pinnedStarted == a.pinnedStarted && b.pinnedStopped == a.pinnedStopped && b.deptPinned == a.deptPinned
    && b.markedDown == a.markedDown && (b.desired == a.desired || b.desired == Stopped)
    && (FRequire in b.flags ==> FRequire in a.flags)
    && (FStop in a.flags ==> FStop in b.flags) && (FFailure in a.flags ==> FFailure in b.flags)
    && (FRelease in a.flags && FRequire !in a.flags ==> FRelease in b.flags) && (FPin in a.flags ==> FPin in b.flags)
    && (a.inTransition ==> b.inTransition) && (a.forceStop ==> b.forceStop) && b.startFailed == a.startFailed
  }

  /** Nor has the state. */
  ghost predicate SameRec(a: Rec, b: Rec) {
    SamePins(a, b) && b.state == a.state && b.waitingForDeps == a.waitingForDeps
  }

  /** Nor whether its restarts are used up. */
  ghost predicate CalmRec(a: Rec, b: Rec) {
    SameRec(a, b) && b.limitExhausted == a.limitExhausted
  }

  /** Or the service has started to stop: it was up and not pinned there. */
  ghost predicate QuietRec(a: Rec, b: Rec) {
    SameRec(a, b) || (SamePins(a, b) && Up(a) && !StartPinned(a) && b.state == Stopping)
  }

  /** Nothing has begun to start, no link waits or holds that did not, and no count has grown. */
  ghost predicate Still(w: World, v: World) {
    && v.topo == w.topo && v.past.begun == w.past.begun && v.waiting <= w.waiting && v.books.holding <= w.books.holding
    && v.books.explicit <= w.books.explicit && forall t :: Required(v.books, t) <= Required(w.books, t)
  }

  /** There is a reason for the service not to be wanted and yet to stay: it is flagged for a stop, or
      nobody requires it any more, or it is pinned, or it is stopping or stopped already. */
  ghost predicate Excused(w: World, s: Id) {
    var r := R(w, s);
    FStop in r.flags || Required(w.books, s) <= 0 || StartPinned(r) || r.state == Stopped || r.state == Stopping
  }

  /** No service is unwanted now that was not, but for such a reason. */
  ghost predicate Meant(w: World, v: World, s: Id) {
    R(v, s).desired == R(w, s).desired || Excused(v, s)
  }

  ghost predicate Calm(w: World, v: World) {
    Still(w, v) && forall t :: CalmRec(R(w, t), R(v, t)) && Meant(w, v, t)
  }

  ghost predicate Quiet(w: World, v: World) {
    Still(w, v) && forall t :: QuietRec(R(w, t), R(v, t)) && Meant(w, v, t) && Proceeds(w, v, t)
  }

  /** The service waits for a dependent that is not down yet, or is queued to be brought down. */
  ghost predicate Underway(w: World, s: Id) {
    if R(w, s).waitingForDeps then exists l :: l in Dpts(w, s) && Awaited(w, l) else R(w, s).inTransition
  }

  /** The link comes from a dependent that has to be down first and is not. */
  ghost predicate Awaited(w: World, l: LinkId) {
    && (L(w, l).kind == Regular || L(w, l).kind == PreparedBy || L(w, l).kind == Milestone)
    && var r := R(w, L(w, l).from); r.state != Stopped && (r.state == Starting ==> !r.waitingForDeps)
  }

  /** A service that has started to stop is on its way. */
  ghost predicate Proceeds(w: World, v: World, s: Id) {
    R(v, s).state == Stopping && R(w, s).state != Stopping ==> Underway(v, s)
  }

  lemma UnderwayStays(w: World, v: World, s: Id)
    requires Underway(w, s) && R(w, s).state == Stopping && v.topo == w.topo && forall t :: QuietRec(R(w, t), R(v, t))
    ensures Underway(v, s)
  {
    assert QuietRec(R(w, s), R(v, s));
    if R(w, s).waitingForDeps {
      var l :| l in Dpts(w, s) && Awaited(w, l);
      assert QuietRec(R(w, L(w, l).from), R(v, L(w, l).from));
      assert l in Dpts(v, s) && Awaited(v, l);
    }
  }

  ghost predicate SameStates(w: World, v: World) {
    forall t :: R(v, t).state == R(w, t).state
  }

  lemma CalmIsSame(w: World, v: World)
    requires Calm(w, v)
    ensures SameStates(w, v)
  {
    forall t ensures R(v, t).state == R(w, t).state { assert CalmRec(R(w, t), R(v, t)); }
  }

  lemma CalmRefl(w: World)
    ensures Calm(w, w) && Quiet(w, w)
  {
  }

  lemma CalmTrans(u: World, v: World, w: World)
    requires Calm(u, v) && Calm(v, w)
    ensures Calm(u, w)
  {
  }

  lemma QuietTrans(u: World, v: World, w: World)
    requires Quiet(u, v) && Quiet(v, w)
    ensures Quiet(u, w)
  {
    forall t ensures QuietRec(R(u, t), R(w, t)) && Meant(u, w, t) {
      assert QuietRec(R(u, t), R(v, t)) && QuietRec(R(v, t), R(w, t)) && Meant(u, v, t) && Meant(v, w, t);
    }
    forall t ensures Proceeds(u, w, t) {
      assert QuietRec(R(v, t), R(w, t)) && Proceeds(u, v, t) && Proceeds(v, w, t);
      if R(w, t).state == Stopping && R(u, t).state != Stopping && R(v, t).state == Stopping { UnderwayStays(v, w, t); }
    }
  }

  lemma CalmIsQuiet(w: World, v: World)
    requires Calm(w, v)
    ensures Quiet(w, v)
  {
  }

  lemma SameRecsCalm(w: World, v: World)
    requires v.recs == w.recs && Still(w, v)
    ensures Calm(w, v)
  {
  }

  lemma OneCalm(w: World, v: World, s: Id)
    requires Still(w, v) && CalmRec(R(w, s), R(v, s)) && Meant(w, v, s) && forall t :: t != s ==> R(v, t) == R(w, t)
    ensures Calm(w, v)
  {
  }

  /** Only flags and queue marks have changed. */
  lemma OnlyMarks(w: World, v: World, s: Id)
    requires R(v, s) == R(w, s).(flags := R(v, s).flags, inProp := R(v, s).inProp, inTransition := R(v, s).inTransition)
    requires FRequire in R(v, s).flags ==> FRequire in R(w, s).flags
    requires (FStop in R(w, s).flags ==> FStop in R(v, s).flags) && (FFailure in R(w, s).flags ==> FFailure in R(v, s).flags)
    requires FRelease in R(w, s).flags && FRequire !in R(w, s).flags ==> FRelease in R(v, s).flags
    requires FPin in R(w, s).flags ==> FPin in R(v, s).flags
    requires R(w, s).inTransition ==> R(v, s).inTransition
    requires Still(w, v) && forall t :: t != s ==> R(v, t) == R(w, t)
    ensures Calm(w, v)
  {
  }

  // ----- updates that leave the books alone -----

  /** A record with the same flags and queue marks, that has not just begun to wait for others. */
  predicate Replaces(r: Rec, was: Rec) {
    && r.flags == was.flags && r.inProp == was.inProp && r.inTransition == was.inTransition
    && (r.state == Starting ==> was.state == Starting && (r.waitingForDeps ==> was.waitingForDeps))
  }

  /** Replaces a record by such a one. */
  function Set(w: World, s: Id, r: Rec): (v: World)
    requires Replaces(r, R(w, s)) && Heeds(w.past, s, R(w, s), r)
    ensures KeptBut(w, v, s) && (Holds(R(w, s), r) && Unmoved(R(w, s), r) ==> Kept(w, v))
    ensures Unmoved(R(w, s), r) ==> Orderly(w, v)
    ensures v == w.(recs := w.recs[s := r]) && R(v, s) == r
    ensures forall t :: t != s ==> R(v, t) == R(w, t)
  {
    var v := w.(recs := w.recs[s := r]);
    SetKeeps(w, s, r, v);
    hide Kept, KeptBut, Holds, Unmoved, Orderly, Heeds;
    v
  }

  lemma SameBooks(w: World, v: World)
    requires v.topo == w.topo && v.books == w.books
    ensures Balanced(w, v)
  {
  }

  lemma SetKeeps(w: World, s: Id, r: Rec, v: World)
    requires Replaces(r, R(w, s)) && Heeds(w.past, s, R(w, s), r) && v == w.(recs := w.recs[s := r])
    ensures KeptBut(w, v, s) && (Holds(R(w, s), r) && Unmoved(R(w, s), r) ==> Kept(w, v)) && (Unmoved(R(w, s), r) ==> Orderly(w, v))
  {
    SameBooks(w, v);
    FlowsStill(w, v);
    SetOrderly(w, s, r, v);
    OneDutiful(w, v, s);
    hide Flows, Balanced, Held, Orderly, OrderlyBut, Unmoved, Dutiful;
  }

  lemma SetOrderly(w: World, s: Id, r: Rec, v: World)
    requires Replaces(r, R(w, s)) && v == w.(recs := w.recs[s := r])
    ensures OrderlyBut(w, v, s) && (Unmoved(R(w, s), r) ==> Orderly(w, v))
  {
    hide Orderly, OrderlyBut;
    StillOrderlyBut(w, v, s);
    if Unmoved(R(w, s), r) { StillOrderly(w, v); }
  }

  function SetDesired(w: World, s: Id, d: RunState): (v: World)
    ensures Kept(w, v) && v.books == w.books && v == w.(recs := v.recs) && (d == Stopped && Excused(w, s) ==> Calm(w, v))
    ensures R(v, s) == R(w, s).(desired := d) && forall t :: t != s ==> R(v, t) == R(w, t)
  {
    var v := Set(w, s, R(w, s).(desired := d));
    DesiredCalm(w, s, d, v);
    v
  }

  lemma DesiredCalm(w: World, s: Id, d: RunState, v: World)
    requires v == w.(recs := v.recs) && R(v, s) == R(w, s).(desired := d) && forall t :: t != s ==> R(v, t) == R(w, t)
    ensures d == Stopped && Excused(w, s) ==> Calm(w, v)
  {
    if d == Stopped && Excused(w, s) { OneCalm(w, v, s); }
  }

  function AddProp(w: World, s: Id): (v: World)
    ensures Kept(w, v) && v.books == w.books
    ensures R(v, s) == R(w, s).(inProp := true) && v == w.(recs := v.recs, props := v.props)
    ensures forall t :: t != s ==> R(v, t) == R(w, t)
  {
    var v := if R(w, s).inProp then w
             else w.(recs := w.recs[s := R(w, s).(inProp := true)], props := w.props + [s]);
    PropKeeps(w, s, v);
    hide Kept;
    if R(w, s).inProp then AlreadyQueued(R(w, s)); v else v
  }

  lemma AlreadyQueued(r: Rec)
    requires r.inProp
    ensures r.(inProp := true) == r
  {
  }

  /** Sets a flag and queues the record for it.  Only a service that is starting is told of a
      failure. */
  function Raise(w: World, s: Id, f: Flag): (v: World)
    requires f == FFailure ==> R(w, s).state == Starting
    ensures Kept(w, v) && v.books == w.books && (f != FRequire ==> Calm(w, v))
    ensures R(v, s) == R(w, s).(flags := R(w, s).flags + {f}, inProp := true)
    ensures (forall t :: t != s ==> R(v, t) == R(w, t)) && v == w.(recs := v.recs, props := v.props, past := Noted(w.past, s, f))
  {
    hide *;
    QueuedRec(R(w, s), f);
    var q := AddProp(w, s);
    var v := SetFlag(q, s, f);
    KeptTrans(w, q, v);
    NotedStill(w, v, s, f);
    RaiseCalm(w, s, f, v);
    v
  }

  lemma QueuedRec(r: Rec, f: Flag)
    ensures
      var q := r.(inProp := true);
      && q.inProp && q.state == r.state && q.flags == r.flags
      && q.(flags := r.flags + {f}) == r.(flags := r.flags + {f}, inProp := true)
  {
  }

  lemma NotedStill(w: World, v: World, s: Id, f: Flag)
    requires v == w.(recs := v.recs, props := v.props, past := Noted(w.past, s, f))
    ensures Still(w, v)
  {
  }

  /** Sets a flag of a record that is queued. */
  function SetFlag(w: World, s: Id, f: Flag): (v: World)
    requires R(w, s).inProp && (f == FFailure ==> R(w, s).state == Starting)
    ensures Kept(w, v) && v == w.(recs := v.recs, past := Noted(w.past, s, f))
    ensures R(v, s) == R(w, s).(flags := R(w, s).flags + {f}) && forall t :: t != s ==> R(v, t) == R(w, t)
  {
    var v := w.(recs := w.recs[s := R(w, s).(flags := R(w, s).flags + {f})], past := Noted(w.past, s, f));
    RaisedDutiful(w, v, s, f);
    FlagKeeps(w, s, R(w, s).flags + {f}, v);
    hide Kept, KeptBut, Dutiful;
    v
  }

  lemma RaiseCalm(w: World, s: Id, f: Flag, v: World)
    requires R(v, s) == R(w, s).(flags := R(w, s).flags + {f}, inProp := true)
    requires Still(w, v) && forall t :: t != s ==> R(v, t) == R(w, t)
    ensures f != FRequire ==> Calm(w, v)
  {
    if f != FRequire { OnlyMarks(w, v, s); }
  }

  /** Takes a flag off: that for a release only if what was asked for is done, or none was. */
  function Lower(w: World, s: Id, f: Flag): (v: World)
    requires f != FStop && (f == FRelease ==> s !in w.past.asked || !Clings(w, s))
    ensures KeptBut(w, v, s) && (f != FStart ==> Kept(w, v)) && v.books == w.books && Still(w, v)
    ensures f != FFailure && f != FPin && (f == FRelease ==> FRequire in R(w, s).flags) ==> Calm(w, v)
    ensures (forall t :: t != s ==> R(v, t) == R(w, t)) && v == w.(recs := v.recs)
    ensures R(v, s) == R(w, s).(flags := R(w, s).flags - {f})
  {
    var v := w.(recs := w.recs[s := R(w, s).(flags := R(w, s).flags - {f})]);
    LowerDutiful(w, s, f, v);
    FlagKeeps(w, s, R(w, s).flags - {f}, v);
    LowerCalm(w, s, f, v);
    hide Kept, KeptBut, Calm, Dutiful;
    v
  }

  lemma LowerDutiful(w: World, s: Id, f: Flag, v: World)
    requires f != FStop && (f == FRelease ==> s !in w.past.asked || !Clings(w, s))
    requires v == w.(recs := w.recs[s := R(w, s).(flags := R(w, s).flags - {f})])
    ensures Dutiful(w, v)
  {
    hide TopoOk;
    forall t ensures (Ignored(v, t) ==> Ignored(w, t)) && (Withheld(v, t) ==> Withheld(w, t)) {
      assert Clings(v, t) == Clings(w, t) by { assert Deps(v, t) == Deps(w, t); }
      hide Clings;
      if t != s { assert R(v, t) == R(w, t); }
    }
  }

  /** Takes the flag for a stop off; it is still to be heeded. */
  function Unflag(w: World, s: Id): (v: World)
    ensures Unflagged(w, v, s) && v.books == w.books && Still(w, v) && (forall t :: t != s ==> R(v, t) == R(w, t))
    ensures R(v, s) == R(w, s).(flags := R(w, s).flags - {FStop})
  {
    hide Unflagged;
    var v := w.(recs := w.recs[s := R(w, s).(flags := R(w, s).flags - {FStop})]);
    UnflagOpen(w, s, v);
    v
  }

  /** Kept, but for what `s` was told. */
  ghost predicate Unflagged(w: World, v: World, s: Id) {
    && Balanced(w, v) && QueueKept(w, v) && Flows(w, v) && Orderly(w, v) && PinsKept(w, v)
    && (forall t :: t != s && Ignored(v, t) ==> Ignored(w, t))
    && (TopoOk(w.topo) ==> forall t :: Withheld(v, t) ==> Withheld(w, t))
  }

  lemma UnflagOpen(w: World, s: Id, v: World)
    requires v == w.(recs := w.recs[s := R(w, s).(flags := R(w, s).flags - {FStop})])
    ensures Unflagged(w, v, s)
  {
    FlagOrderly(w, s, R(w, s).flags - {FStop}, v);
    FlowsStill(w, v);
    SameBooks(w, v);
    UnflagDuties(w, s, v);
    hide Orderly, OrderlyBut, Flows, Balanced, Ignored, Withheld;
  }

  lemma UnflagDuties(w: World, s: Id, v: World)
    requires v == w.(recs := w.recs[s := R(w, s).(flags := R(w, s).flags - {FStop})])
    ensures forall t :: (t != s && Ignored(v, t) ==> Ignored(w, t)) && (Withheld(v, t) ==> Withheld(w, t))
  {
    forall t ensures (t != s && Ignored(v, t) ==> Ignored(w, t)) && (Withheld(v, t) ==> Withheld(w, t)) {
      assert Clings(v, t) == Clings(w, t) by { assert Deps(v, t) == Deps(w, t); }
      hide Clings;
      if t != s { assert R(v, t) == R(w, t); }
    }
  }

  /** A stop that is heeded in the end leaves nothing open. */
  lemma Acquit(w: World, w1: World, v: World, s: Id)
    requires Unflagged(w, w1, s) && Kept(w1, v) && !Ignored(v, s)
    ensures Kept(w, v)
  {
    hide Flows, Orderly, Ignored, Withheld, TopoOk;
    FlowsTrans(w, w1, v);
    OrderlyTrans(w, w1, v);
  }

  /** A release that was asked for is called off. */
  function Waive(w: World, s: Id): (v: World)
    ensures Kept(w, v) && v == w.(past := w.past.(asked := w.past.asked - {s})) && Still(w, v)
  {
    var v := w.(past := w.past.(asked := w.past.asked - {s}));
    WaiveKeeps(w, v);
    hide Kept;
    v
  }

  lemma WaiveKeeps(w: World, v: World)
    requires v == w.(past := w.past.(asked := v.past.asked)) && v.past.asked <= w.past.asked
    ensures Kept(w, v)
  {
    SameBooks(w, v);
    FlowsStill(w, v);
    StillOrderly(w, v);
    StillDutiful(w, v);
    hide Flows, Balanced, Orderly, Dutiful;
  }

  lemma LowerCalm(w: World, s: Id, f: Flag, v: World)
    requires R(v, s) == R(w, s).(flags := R(w, s).flags - {f})
    requires Still(w, v) && forall t :: t != s ==> R(v, t) == R(w, t)
    ensures f != FStop && f != FFailure && f != FPin && (f == FRelease ==> FRequire in R(w, s).flags) ==> Calm(w, v)
  {
    if f != FStop && f != FFailure && f != FPin && (f == FRelease ==> FRequire in R(w, s).flags) { OnlyMarks(w, v, s); }
  }

  /** Queues the record for a transition. */
  function AddTransition(w: World, s: Id): (v: World)
    ensures KeptBut(w, v, s) && (!Stuck(w, s) ==> Kept(w, v)) && PinsKept(w, v) && v.books == w.books && Calm(w, v)
    ensures v == w.(recs := v.recs, transitions := v.transitions)
    ensures R(v, s) == R(w, s).(inTransition := true) && forall t :: t != s ==> R(v, t) == R(w, t)
  {
    hide Kept, KeptBut, Calm, Stuck, PinsKept;
    if R(w, s).inTransition then
      KeptRefl(w);
      KeptPins(w, w);
      KeptIsBut(w, w, s);
      CalmRefl(w);
      AlreadyMarked(R(w, s));
      w
    else
      var v := w.(recs := w.recs[s := R(w, s).(inTransition := true)], transitions := w.transitions + [s]);
      QueuedKeeps(w, s, v);
      OnlyMarks(w, v, s);
      v
  }

  lemma AlreadyMarked(r: Rec)
    requires r.inTransition
    ensures r.(inTransition := true) == r
  {
  }

  lemma PropKeeps(w: World, s: Id, v: World)
    requires v == if R(w, s).inProp then w
                  else w.(recs := w.recs[s := R(w, s).(inProp := true)], props := w.props + [s])
    ensures Kept(w, v)
  {
    SameBooks(w, v);
    FlowsStill(w, v);
    PropOrderly(w, s, v);
    OneDutiful(w, v, s);
    hide Flows, Balanced, Orderly, Dutiful;
  }

  lemma PropOrderly(w: World, s: Id, v: World)
    requires v == if R(w, s).inProp then w
                  else w.(recs := w.recs[s := R(w, s).(inProp := true)], props := w.props + [s])
    ensures Orderly(w, v)
  {
    hide Orderly;
    StillOrderly(w, v);
  }

  /** Flags may go, and may come while the record is queued. */
  lemma FlagKeeps(w: World, s: Id, flags: set<Flag>, v: World)
    requires v == w.(recs := w.recs[s := R(w, s).(flags := flags)], past := v.past) && SameComings(w.past, v.past) && Dutiful(w, v)
    requires v.past.starts == w.past.starts
    requires flags <= R(w, s).flags || R(w, s).inProp
    requires FFailure in flags ==> FFailure in R(w, s).flags || R(w, s).state == Starting
    ensures KeptBut(w, v, s) && ((FStart in R(w, s).flags ==> FStart in flags) ==> Kept(w, v))
  {
    SameBooks(w, v);
    FlowsStill(w, v);
    FlagOrderly(w, s, flags, v);
    hide Flows, Balanced, Orderly, OrderlyBut, Dutiful;
  }

  lemma FlagOrderly(w: World, s: Id, flags: set<Flag>, v: World)
    requires v == w.(recs := w.recs[s := R(w, s).(flags := flags)], past := v.past) && SameComings(w.past, v.past)
    ensures OrderlyBut(w, v, s) && ((FStart in R(w, s).flags ==> FStart in flags) ==> Orderly(w, v))
  {
    hide Orderly, OrderlyBut;
    StillOrderlyBut(w, v, s);
    if FStart in R(w, s).flags ==> FStart in flags { StillOrderly(w, v); }
  }

  lemma QueuedKeeps(w: World, s: Id, v: World)
    requires v == if R(w, s).inTransition then w
                  else w.(recs := w.recs[s := R(w, s).(inTransition := true)], transitions := w.transitions + [s])
    ensures KeptBut(w, v, s) && (!Stuck(w, s) ==> Kept(w, v)) && PinsKept(w, v)
  {
    SameBooks(w, v);
    QueuedFlows(w, s, v);
    QueuedOrderly(w, s, v);
    OneDutiful(w, v, s);
    hide Flows, Balanced, Orderly, OrderlyBut, Dutiful;
  }

  lemma QueuedOrderly(w: World, s: Id, v: World)
    requires v == if R(w, s).inTransition then w
                  else w.(recs := w.recs[s := R(w, s).(inTransition := true)], transitions := w.transitions + [s])
    ensures OrderlyBut(w, v, s) && (!Stuck(w, s) ==> Orderly(w, v))
  {
    hide TopoOk;
    StillOrderlyBut(w, v, s);
    hide OrderlyBut, Orderly;
    OrderlySplit(w, v, s);
    hide Stuck;
  }

  lemma QueuedFlows(w: World, s: Id, v: World)
    requires v == if R(w, s).inTransition then w
                  else w.(recs := w.recs[s := R(w, s).(inTransition := true)], transitions := w.transitions + [s])
    ensures Flows(w, v)
  {
  }

  function LowerBoth(w: World, s: Id): (v: World)
    ensures Kept(w, v) && v.books == w.books && (FRequire in R(w, s).flags ==> Calm(w, v))
    ensures R(v, s) == R(w, s).(flags := R(w, s).flags - {FRelease} - {FRequire}) && forall t :: t != s ==> R(v, t) == R(w, t)
  {
    hide Kept, Calm, Still;
    var w0 := Waive(w, s);
    var w1 := Lower(w0, s, FRelease);
    var v := Lower(w1, s, FRequire);
    KeptTrans(w, w0, w1);
    KeptTrans(w, w1, v);
    if FRequire in R(w, s).flags then
      SameRecsCalm(w, w0);
      CalmTrans(w, w0, w1);
      CalmTrans(w, w1, v);
      v
    else v
  }
}
