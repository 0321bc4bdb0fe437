/** What holds in every run of the supervisor: one daemon at a time, and when it can give up. */
module SupervisorSafety {
  import opened Respawn
  import opened Supervisor

  // ----- one daemon at a time -----

  /** Between daemons: none runs, and every exit has been received. */
  ghost predicate Between(s: State) {
    s.alive == {} && s.exited == {} && s.spawned == s.received
  }

  /** One daemon has been started and its exit has not been received. */
  ghost predicate Running(s: State, p: Pid) {
    && s.spawned == s.received + [p]
    && s.alive <= {p} && s.exited <= {p} && s.alive !! s.exited
  }

  ghost predicate OneDaemon(s: State) {
    match s.phase
    case Spawning => Between(s)
    case Resting(_) => Between(s)
    case Watching(p) => Running(s, p)
    case AfterHup(p) => Running(s, p)
    case Escalating(p, _) => Running(s, p)
    case Awaiting(p, _, _) => Running(s, p)
    case Returned(ShutDown, failed) => s.spawned != [] && Running(s, s.spawned[|s.spawned| - 1]) && (!failed ==> s.alive == {})
    case Returned(_, failed) => Between(s) && !failed
  }

  lemma NextKeepsOneDaemon(o: Options, s: State, e: Event)
    requires OneDaemon(s) && Enabled(o, s, e)
    ensures OneDaemon(Next(o, s, e))
  {
    hide BackoffDelay, Counted, Recent;
    match e
    case TakeExit =>
      assert s.received + [s.phase.pid] == s.spawned;
    case Spawn(p) =>
      assert s.alive + {p} == {p};
    case _ =>
  }

  lemma {:induction false} RunKeepsOneDaemon(o: Options, ss: seq<State>, es: seq<Event>, i: nat)
    requires IsRun(o, ss, es) && i < |ss|
    ensures OneDaemon(ss[i])
    decreases i
  {
    if i > 0 {
      RunKeepsOneDaemon(o, ss, es, i - 1);
      assert Moves(o, ss, es, i - 1);
      NextKeepsOneDaemon(o, ss[i - 1], es[i - 1]);
    }
  }

  /** In every interleaving at most one daemon is alive; a daemon is started only when the
      exits of all earlier ones have been received; and when the supervisor has returned, no
      daemon is alive unless stopping it failed. */
  lemma OneDaemonAlways(o: Options, s: State)
    requires Reachable(o, s)
    ensures |s.alive| <= 1
    ensures forall p :: Enabled(o, s, Spawn(p)) ==> s.alive == {} && s.received == s.spawned
    ensures s.phase.Returned? && !s.phase.stopFailed ==> s.alive == {}
    ensures s.phase.Returned? && s.phase.stopFailed ==> s.phase.ending == ShutDown
  {
    var ss, es :| IsRun(o, ss, es) && ss[|ss| - 1] == s;
    RunKeepsOneDaemon(o, ss, es, |ss| - 1);
    if s.alive != {} {
      var p :| p in s.alive;
      assert s.alive == {p};
    }
  }

  // ----- the stop schedule -----

  /** What a stop has sent so far: the signals of the schedule in order, up to the current step. */
  function Signals(steps: seq<RetryStep>, pid: Pid): seq<(Pid, nat)> {
    if steps == [] then []
    else Signals(steps[..|steps| - 1], pid)
         + if steps[|steps| - 1].signal != 0 then [(pid, steps[|steps| - 1].signal)] else []
  }

  /** No step before `i` waits for ever. */
  ghost predicate AllTimed(steps: seq<RetryStep>, i: int) {
    forall k :: 0 <= k < i && k < |steps| ==> steps[k].timeout != 0
  }

  ghost predicate HupsBefore(sent: seq<(Pid, nat)>, tail: seq<(Pid, nat)>) {
    exists hups :: sent == hups + tail && forall x :: x in hups ==> x.1 == 1
  }

  ghost predicate Scheduled(o: Options, s: State) {
    match s.phase
    case Escalating(p, i) =>
      o.schedule.Steps? && i <= |o.schedule.steps| && AllTimed(o.schedule.steps, i)
      && HupsBefore(s.sent, Signals(o.schedule.steps[..i], p))
    case Awaiting(p, i, _) =>
      o.schedule.Steps? && i < |o.schedule.steps| && AllTimed(o.schedule.steps, i)
      && HupsBefore(s.sent, Signals(o.schedule.steps[..i + 1], p))
    case Returned(ShutDown, failed) =>
      s.spawned != [] &&
      var p := s.spawned[|s.spawned| - 1];
      if o.schedule.BadSpec? then failed && HupsBefore(s.sent, [])
      else if failed then
        AllTimed(o.schedule.steps, |o.schedule.steps|) && HupsBefore(s.sent, Signals(o.schedule.steps, p))
      else
        exists i :: 0 < i <= |o.schedule.steps| && AllTimed(o.schedule.steps, i - 1)
                    && HupsBefore(s.sent, Signals(o.schedule.steps[..i], p))
    case _ => HupsBefore(s.sent, [])
  }

  lemma SendHup(sent: seq<(Pid, nat)>, p: Pid)
    requires HupsBefore(sent, [])
    ensures HupsBefore(sent + [(p, 1)], [])
  {
    var hups :| sent == hups + [] && forall x :: x in hups ==> x.1 == 1;
    assert sent + [(p, 1)] == hups + [(p, 1)] + [];
  }

  lemma SendStep(sent: seq<(Pid, nat)>, steps: seq<RetryStep>, i: nat, p: Pid)
    requires i < |steps| && HupsBefore(sent, Signals(steps[..i], p))
    ensures HupsBefore(if steps[i].signal != 0 then sent + [(p, steps[i].signal)] else sent, Signals(steps[..i + 1], p))
  {
    var hups :| sent == hups + Signals(steps[..i], p) && forall x :: x in hups ==> x.1 == 1;
    assert steps[..i + 1][..i] == steps[..i];
    var tail := if steps[i].signal != 0 then [(p, steps[i].signal)] else [];
    assert hups + Signals(steps[..i], p) + tail == hups + Signals(steps[..i + 1], p);
  }

  lemma NextKeepsScheduled(o: Options, s: State, e: Event)
    requires OneDaemon(s) && Scheduled(o, s) && Enabled(o, s, e)
    ensures Scheduled(o, Next(o, s, e))
  {
    hide BackoffDelay, Counted, HupsBefore, Signals;
    match e
    case TakeSignal =>
      if s.phase.Watching? && s.pending[0] == Hup {
        SendHup(s.sent, s.phase.pid);
      }
      if s.phase.Watching? && o.schedule.Steps? {
        NoSignals(o.schedule.steps, s.phase.pid);
      }
    case Escalate =>
      if s.phase.next < |o.schedule.steps| {
        SendStep(s.sent, o.schedule.steps, s.phase.next, s.phase.pid);
      } else {
        assert o.schedule.steps[..s.phase.next] == o.schedule.steps;
      }
    case Poll =>
      assert 0 < s.phase.next + 1 <= |o.schedule.steps|;
    case _ =>
  }

  lemma NoSignals(steps: seq<RetryStep>, p: Pid)
    ensures Signals(steps[..0], p) == []
  {
  }

  lemma {:induction false} RunKeepsScheduled(o: Options, ss: seq<State>, es: seq<Event>, i: nat)
    requires IsRun(o, ss, es) && i < |ss|
    ensures Scheduled(o, ss[i])
    decreases i
  {
    if i > 0 {
      RunKeepsScheduled(o, ss, es, i - 1);
      RunKeepsOneDaemon(o, ss, es, i - 1);
      assert Moves(o, ss, es, i - 1);
      NextKeepsScheduled(o, ss[i - 1], es[i - 1]);
    } else {
      assert ss[0].sent == [] + [];
    }
  }

  /** However a shutdown ends, the daemon got a prefix of the schedule's signals, in order; no
      signal follows a step that waits for ever; and a failed stop of a valid schedule has gone
      through all of it. */
  lemma ShutdownFollowsSchedule(o: Options, s: State)
    requires Reachable(o, s) && s.phase.Returned? && s.phase.ending == ShutDown && o.schedule.Steps?
    ensures s.spawned != []
    ensures
      var p := s.spawned[|s.spawned| - 1];
      exists i :: 0 <= i <= |o.schedule.steps| && AllTimed(o.schedule.steps, i - 1)
                  && HupsBefore(s.sent, Signals(o.schedule.steps[..i], p))
                  && (s.phase.stopFailed ==> i == |o.schedule.steps| && AllTimed(o.schedule.steps, i))
  {
    hide HupsBefore, Signals;
    var ss, es :| IsRun(o, ss, es) && ss[|ss| - 1] == s;
    RunKeepsScheduled(o, ss, es, |ss| - 1);
    var steps := o.schedule.steps;
    if s.phase.stopFailed {
      assert steps[..|steps|] == steps;
      assert AllTimed(steps, |steps| - 1);
    }
  }

  // ----- how long a shutdown takes -----

  /** The step of the schedule that the stop is at has been given its time, if it is over. */
  ghost predicate GivenTime(s: State, i: nat, deadline: int) {
    match s.phase
    case Awaiting(_, j, d) => if j == i then d == deadline else j > i && s.clock >= deadline
    case Escalating(_, j) => j > i && s.clock >= deadline
    case Returned(_, failed) => failed ==> s.clock >= deadline
    case _ => false
  }

  lemma {:induction false} RunGivesTime(o: Options, ss: seq<State>, es: seq<Event>, a: nat, b: nat, i: nat)
    requires IsRun(o, ss, es) && a < b < |ss| && o.schedule.Steps? && i < |o.schedule.steps|
    requires es[a] == Escalate && ss[a].phase.Escalating? && ss[a].phase.next == i
    ensures GivenTime(ss[b], i, ss[a].clock + o.schedule.steps[i].timeout)
    decreases b
  {
    hide BackoffDelay;
    if b > a + 1 { RunGivesTime(o, ss, es, a, b - 1, i); }
    assert Moves(o, ss, es, b - 1);
  }

  /** The supervisor goes on to a later step of the schedule only when the time of the step before is
      over. */
  lemma StepsTakeTheirTime(o: Options, ss: seq<State>, es: seq<Event>, a: nat, b: nat)
    requires IsRun(o, ss, es) && a < b < |es| && o.schedule.Steps?
    requires es[a] == Escalate && es[b] == Escalate && ss[a].phase.Escalating? && ss[a].phase.next < |o.schedule.steps|
    ensures ss[b].phase.Escalating? && ss[b].phase.next > ss[a].phase.next
    ensures ss[b].clock - ss[a].clock >= o.schedule.steps[ss[a].phase.next].timeout
  {
    assert Moves(o, ss, es, a) && Moves(o, ss, es, b);
    RunGivesTime(o, ss, es, a, b, ss[a].phase.next);
  }

  ghost function Timeouts(steps: seq<RetryStep>): int {
    if steps == [] then 0 else Timeouts(steps[..|steps| - 1]) + steps[|steps| - 1].timeout
  }

  /** The time since the stop began covers the steps that are over; the deadline, the present one too. */
  ghost predicate Elapsed(o: Options, s: State, start: int)
    requires o.schedule.Steps?
  {
    var steps := o.schedule.steps;
    match s.phase
    case Escalating(_, i) => i <= |steps| && s.clock - start >= Timeouts(steps[..i])
    case Awaiting(_, i, d) => i < |steps| && d - start >= Timeouts(steps[..i + 1])
    case Returned(_, failed) => failed ==> s.clock - start >= Timeouts(steps)
    case _ => false
  }

  lemma {:induction false} RunElapses(o: Options, ss: seq<State>, es: seq<Event>, a: nat, b: nat)
    requires IsRun(o, ss, es) && a <= b < |ss| && o.schedule.Steps? && ss[a].phase.Escalating? && ss[a].phase.next == 0
    ensures Elapsed(o, ss[b], ss[a].clock)
    decreases b
  {
    hide BackoffDelay;
    var steps := o.schedule.steps;
    assert steps[..0] == [] && steps[..|steps|] == steps;
    if b > a {
      RunElapses(o, ss, es, a, b - 1);
      assert Moves(o, ss, es, b - 1);
      if es[b - 1].Escalate? && ss[b - 1].phase.next < |steps| {
        var i := ss[b - 1].phase.next;
        assert steps[..i + 1][..i] == steps[..i];
      }
    }
  }

  /** A stop that fails has waited for at least the whole schedule. */
  lemma FailedStopTakesAll(o: Options, ss: seq<State>, es: seq<Event>, a: nat, b: nat)
    requires IsRun(o, ss, es) && a <= b < |ss| && o.schedule.Steps? && ss[a].phase.Escalating? && ss[a].phase.next == 0
    requires ss[b].phase.Returned? && ss[b].phase.stopFailed
    ensures ss[b].clock - ss[a].clock >= Timeouts(o.schedule.steps)
  {
    RunElapses(o, ss, es, a, b);
  }

  /** A daemon that outlives the first `i` steps, each polled the moment its time is over. */
  lemma {:induction false} OutlivesSteps(o: Options, i: nat) returns (ss: seq<State>, es: seq<Event>)
    requires o.schedule.Steps? && i <= |o.schedule.steps| && forall j :: 0 <= j < i ==> o.schedule.steps[j].timeout > 0
    ensures IsRun(o, ss, es) && |ss| > 3 && ss[3].phase == Escalating(0, 0) && ss[3].clock == 0
    ensures
      var s := ss[|ss| - 1];
      s.phase == Escalating(0, i) && 0 in s.alive && s.clock == Timeouts(o.schedule.steps[..i])
  {
    hide BackoffDelay;
    var steps := o.schedule.steps;
    if i == 0 {
      ss, es := [Init(0)], [];
      ss, es := Append(o, ss, es, Spawn(0));
      ss, es := Append(o, ss, es, Signalled(Term));
      ss, es := Append(o, ss, es, TakeSignal);
    } else {
      ss, es := OutlivesSteps(o, i - 1);
      assert steps[..i][..i - 1] == steps[..i - 1];
      ss, es := Append(o, ss, es, Escalate);
      ss, es := Append(o, ss, es, Elapse(steps[i - 1].timeout));
      ss, es := Append(o, ss, es, Poll);
    }
  }

  /** And it need not wait for more: a stop can fail when exactly that time has passed. */
  lemma FailedStopCanBeExact(o: Options) returns (ss: seq<State>, es: seq<Event>)
    requires o.schedule.Steps? && forall j :: 0 <= j < |o.schedule.steps| ==> o.schedule.steps[j].timeout > 0
    ensures IsRun(o, ss, es) && |ss| > 3 && ss[3].phase == Escalating(0, 0)
    ensures ss[|ss| - 1].phase == Returned(ShutDown, true) && ss[|ss| - 1].clock - ss[3].clock == Timeouts(o.schedule.steps)
  {
    hide BackoffDelay;
    ss, es := OutlivesSteps(o, |o.schedule.steps|);
    assert o.schedule.steps[..|o.schedule.steps|] == o.schedule.steps;
    ss, es := Append(o, ss, es, Escalate);
  }

  /** However many signals come, no more than four wait to be taken. */
  lemma {:induction false} SignalsWaiting(o: Options, ss: seq<State>, es: seq<Event>, i: nat)
    requires IsRun(o, ss, es) && i < |ss|
    ensures |ss[i].pending| <= 4
    decreases i
  {
    hide BackoffDelay;
    if i > 0 {
      SignalsWaiting(o, ss, es, i - 1);
      assert Moves(o, ss, es, i - 1);
    }
  }

  // ----- after a hang-up signal -----

  /** A supervisor that has taken a hang-up has passed it on to the daemon it watches, and nothing since. */
  lemma {:induction false} HangUpIsPassedOn(o: Options, ss: seq<State>, es: seq<Event>, i: nat)
    requires IsRun(o, ss, es) && i < |ss|
    ensures ss[i].phase.AfterHup? ==> ss[i].sent != [] && ss[i].sent[|ss[i].sent| - 1] == (ss[i].phase.pid, 1)
    decreases i
  {
    hide BackoffDelay;
    if i > 0 {
      HangUpIsPassedOn(o, ss, es, i - 1);
      assert Moves(o, ss, es, i - 1);
    }
  }

  /** Once it has passed a hang-up on, the supervisor waits for the daemon to exit and for nothing
      else: as long as the daemon lives it takes no signal, a request to shut down included. */
  lemma {:induction false} DeafAfterHup(o: Options, ss: seq<State>, es: seq<Event>, i: nat, j: nat, p: Pid)
    requires IsRun(o, ss, es) && i <= j < |ss| && ss[i].phase == AfterHup(p) && p !in ss[i].exited
    requires forall k :: i <= k < j ==> es[k] != Dies(p)
    ensures ss[j].phase == AfterHup(p) && p !in ss[j].exited
    ensures !Enabled(o, ss[j], TakeSignal)
    decreases j
  {
    if i < j {
      DeafAfterHup(o, ss, es, i, j - 1, p);
      assert Moves(o, ss, es, j - 1);
      assert es[j - 1] != Dies(p);
    }
  }

  /** The exits that came after a hang-up had been passed on, among the first `n` events. */
  ghost function ExitsAfterHup(ss: seq<State>, es: seq<Event>, n: nat): nat
    requires n <= |es| < |ss|
  {
    if n == 0 then 0
    else ExitsAfterHup(ss, es, n - 1) + if es[n - 1].TakeExit? && ss[n - 1].phase.AfterHup? then 1 else 0
  }

  /** An exit is counted as a crash, and delays the next start, unless a hang-up had been passed on
      to the daemon. */
  lemma {:induction false} ExitsAreCounted(o: Options, ss: seq<State>, es: seq<Event>, i: nat)
    requires IsRun(o, ss, es) && i < |ss|
    ensures |ss[i].received| == |ss[i].crashes| + ExitsAfterHup(ss, es, i)
    ensures ss[i].respawn <= |ss[i].crashes| <= ss[i].respawn + if ss[i].phase.Returned? then 1 else 0
    decreases i
  {
    hide BackoffDelay, Counted;
    if i > 0 {
      ExitsAreCounted(o, ss, es, i - 1);
      assert Moves(o, ss, es, i - 1);
    }
  }

  /** So a daemon that exits after every hang-up is restarted any number of times at once: no limit
      applies and no delay. */
  lemma {:induction false} HangUpsOutrunLimit(o: Options, n: nat) returns (ss: seq<State>, es: seq<Event>)
    ensures IsRun(o, ss, es)
    ensures
      var s := ss[|ss| - 1];
      && s.phase.Spawning? && |s.received| == n && s.crashes == [] && s.clock == 0 && s.respawn == 0
      && s.pending == [] && (forall p :: p in s.spawned ==> p < n)
  {
    if n == 0 {
      ss, es := [Init(0)], [];
    } else {
      ss, es := HangUpsOutrunLimit(o, n - 1);
      var p := n - 1;
      ss, es := Append(o, ss, es, Spawn(p));
      ss, es := Append(o, ss, es, Signalled(Hup));
      ss, es := Append(o, ss, es, TakeSignal);
      ss, es := Append(o, ss, es, Dies(p));
      ss, es := Append(o, ss, es, TakeExit);
    }
  }

  /** One more event. */
  lemma Append(o: Options, ss: seq<State>, es: seq<Event>, e: Event) returns (ss': seq<State>, es': seq<Event>)
    requires IsRun(o, ss, es) && Enabled(o, ss[|ss| - 1], e)
    ensures IsRun(o, ss', es') && ss' == ss + [Next(o, ss[|ss| - 1], e)] && es' == es + [e]
  {
    hide Enabled, Next;
    ss', es' := ss + [Next(o, ss[|ss| - 1], e)], es + [e];
    forall i | 0 <= i < |es'| ensures Moves(o, ss', es', i) {
      if i < |es| { assert Moves(o, ss, es, i); }
    }
  }

  ghost predicate OnlyHangUps(es: seq<Event>) {
    forall e :: e in es && e.Signalled? ==> e.sig == Hup
  }

  /** Hang-ups alone never make the supervisor stop its daemon. */
  lemma {:induction false} HangUpsStopNoDaemon(o: Options, ss: seq<State>, es: seq<Event>, i: nat)
    requires IsRun(o, ss, es) && OnlyHangUps(es) && i < |ss|
    ensures forall sig :: sig in ss[i].pending ==> sig == Hup
    ensures !ss[i].phase.Escalating? && !ss[i].phase.Awaiting? && (ss[i].phase.Returned? ==> ss[i].phase.ending != ShutDown)
    decreases i
  {
    hide BackoffDelay;
    if i > 0 {
      HangUpsStopNoDaemon(o, ss, es, i - 1);
      assert Moves(o, ss, es, i - 1);
      assert es[i - 1] in es;
      var was := ss[i - 1].pending;
      if es[i - 1].TakeSignal? {
        assert was[0] in was && ss[i].pending == was[1..];
        forall sig | sig in was[1..] ensures sig in was {}
      }
    }
  }

  /** But one that comes while the supervisor waits before a restart ends the supervisor, with no
      daemon running. */
  lemma HangUpEndsBackoff(o: Options) returns (ss: seq<State>, es: seq<Event>)
    requires BackoffDelay(o.respawn, 1) > 0
    ensures IsRun(o, ss, es) && OnlyHangUps(es)
    ensures ss[|ss| - 1].phase == Returned(ShutDownInBackoff, false) && ss[|ss| - 1].alive == {}
  {
    hide BackoffDelay;
    ss, es := [Init(0)], [];
    ss, es := Append(o, ss, es, Spawn(0));
    ss, es := Append(o, ss, es, Dies(0));
    ss, es := Append(o, ss, es, TakeExit);
    assert ss[|ss| - 1].phase.Resting? by { NoneRecent(0 - o.respawn.period); }
    ss, es := Append(o, ss, es, Signalled(Hup));
    ss, es := Append(o, ss, es, TakeSignal);
  }

  lemma NoneRecent(cutoff: int)
    ensures Recent([], cutoff) == []
  {
  }
}
