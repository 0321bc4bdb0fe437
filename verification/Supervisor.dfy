/** The daemon supervisor as a machine that takes one step at a time, against a daemon, signals
    and a clock that do as they please. */
module Supervisor {
  import opened Respawn

  type Pid = nat

  datatype Signal = Hup | Term | Int

  /** One step of the stop schedule: a signal to send (none for 0) and how long to wait; zero
      waits for ever. */
  datatype RetryStep = RetryStep(signal: nat, timeout: int)

  /** `schedule` is the parsed `--retry` specification, or an error. */
  datatype Schedule = Steps(steps: seq<RetryStep>) | BadSpec

  datatype Options = Options(respawn: Config, schedule: Schedule)

  /** Why the supervisor returned. */
  datatype Ending = SpawnFailed | GaveUp | ShutDown | ShutDownInBackoff

  datatype Phase =
    | Spawning
    | Watching(pid: Pid)
    | AfterHup(pid: Pid)
    | Resting(until: int)
    | Escalating(pid: Pid, next: nat)
    | Awaiting(pid: Pid, next: nat, deadline: int)
    | Returned(ending: Ending, stopFailed: bool)

  /** `alive` holds the daemons that run, `exited` those whose exit is waiting to be received.
      `spawned`, `received`, `crashes` and `sent` are the supervisor's history. */
  datatype State = State(
    phase: Phase, alive: set<Pid>, exited: set<Pid>, clock: int, pending: seq<Signal>,
    window: seq<int>, respawn: nat,
    spawned: seq<Pid>, received: seq<Pid>, crashes: seq<int>, sent: seq<(Pid, nat)>)

  /** `Elapse`, `Dies` and `Signalled` come from outside; the others are the supervisor's moves. */
  datatype Event =
    | Elapse(dt: nat) | Dies(pid: Pid) | Signalled(sig: Signal)
    | Spawn(pid: Pid) | SpawnError | TakeExit | TakeSignal | TimerFires | Escalate | Poll

  /** The signal channel holds four signals; more are dropped. */
  const CHANNEL_SIZE := 4

  function Init(start: int): State {
    State(Spawning, {}, {}, start, [], [], 0, [], [], [], [])
  }

  /** The window after a crash now. */
  function Counted(c: Config, s: State): seq<int> {
    if c.max <= 0 then s.window else Recent(s.window, s.clock - c.period) + [s.clock]
  }

  /** The daemon's exit was received: give up, rest before the next start, or start at once. */
  function AfterCrash(o: Options, s: State): State {
    var window := Counted(o.respawn, s);
    var s1 := s.(window := window, crashes := s.crashes + [s.clock]);
    if o.respawn.max > 0 && |window| > o.respawn.max then s1.(phase := Returned(GaveUp, false))
    else
      var delay := BackoffDelay(o.respawn, s.respawn + 1);
      s1.(respawn := s.respawn + 1, phase := if delay > 0 then Resting(s.clock + delay) else Spawning)
  }

  function Receive(s: State, pid: Pid): State {
    s.(exited := s.exited - {pid}, received := s.received + [pid])
  }

  function OnSignal(o: Options, s: State, sig: Signal): State
    requires s.phase.Watching?
  {
    match sig
    case Hup => s.(phase := AfterHup(s.phase.pid), sent := s.sent + [(s.phase.pid, 1)])
    case _ =>
      if o.schedule.BadSpec? then s.(phase := Returned(ShutDown, true))
      else s.(phase := Escalating(s.phase.pid, 0))
  }

  /** Whether an event can happen. */
  predicate Enabled(o: Options, s: State, e: Event) {
    match e
    case Elapse(_) => true
    case Dies(p) => p in s.alive
    case Signalled(_) => true
    case Spawn(p) => s.phase.Spawning? && p !in s.spawned
    case SpawnError => s.phase.Spawning?
    case TakeExit => (s.phase.Watching? || s.phase.AfterHup?) && s.phase.pid in s.exited
    case TakeSignal => (s.phase.Watching? || s.phase.Resting?) && s.pending != []
    case TimerFires => s.phase.Resting? && s.clock >= s.phase.until
    case Escalate => s.phase.Escalating? && o.schedule.Steps?
    case Poll => s.phase.Awaiting? && o.schedule.Steps? && s.phase.next < |o.schedule.steps|
  }

  function Next(o: Options, s: State, e: Event): (r: State)
    requires Enabled(o, s, e)
  {
    match e
    case Elapse(dt) => s.(clock := s.clock + dt)
    case Dies(p) => s.(alive := s.alive - {p}, exited := s.exited + {p})
    case Signalled(sig) => if |s.pending| < CHANNEL_SIZE then s.(pending := s.pending + [sig]) else s
    case Spawn(p) => s.(phase := Watching(p), alive := s.alive + {p}, spawned := s.spawned + [p])
    case SpawnError => s.(phase := Returned(SpawnFailed, false))
    case TakeExit =>
      var s1 := Receive(s, s.phase.pid);
      if s.phase.Watching? then AfterCrash(o, s1) else s1.(phase := Spawning)
    case TakeSignal =>
      var s1 := s.(pending := s.pending[1..]);
      if s.phase.Resting? then s1.(phase := Returned(ShutDownInBackoff, false)) else OnSignal(o, s1, s.pending[0])
    case TimerFires => s.(phase := Spawning)
    case Escalate =>
      var p, i := s.phase.pid, s.phase.next;
      if i >= |o.schedule.steps| then s.(phase := Returned(ShutDown, true))
      else
        var step := o.schedule.steps[i];
        s.(phase := Awaiting(p, i, s.clock + step.timeout), sent := if step.signal != 0 then s.sent + [(p, step.signal)] else s.sent)
    case Poll =>
      var p, i := s.phase.pid, s.phase.next;
      if p !in s.alive then s.(phase := Returned(ShutDown, false))
      else if o.schedule.steps[i].timeout != 0 && s.clock >= s.phase.deadline then s.(phase := Escalating(p, i + 1))
      else s
  }

  /** The states the supervisor can get into. */
  ghost predicate IsRun(o: Options, ss: seq<State>, es: seq<Event>) {
    && |ss| == |es| + 1
    && (exists start :: ss[0] == Init(start))
    && forall i :: 0 <= i < |es| ==> Moves(o, ss, es, i)
  }

  ghost predicate Moves(o: Options, ss: seq<State>, es: seq<Event>, i: nat)
    requires i < |es| && |ss| == |es| + 1
  {
    Enabled(o, ss[i], es[i]) && ss[i + 1] == Next(o, ss[i], es[i])
  }

  ghost predicate Reachable(o: Options, s: State) {
    exists ss, es :: IsRun(o, ss, es) && ss[|ss| - 1] == s
  }
}
