/** When the supervisor can give up: exactly at the crashes that the delays leave possible. */
module GiveUp {
  import opened Respawn
  import opened Supervisor

  /** The times of crashes between which the supervisor has waited as long as it must. */
  ghost predicate Gap(c: Config, ts: seq<int>, k: nat)
    requires 0 < k < |ts|
  {
    ts[k] >= ts[k - 1] + Wait(c, k)
  }

  ghost predicate Gapped(c: Config, ts: seq<int>) {
    forall k: nat :: 0 < k < |ts| ==> Gap(c, ts, k)
  }

  /** The limiter lets crash number `k` pass. */
  ghost predicate Passes(c: Config, ts: seq<int>, k: nat)
    requires 0 < k <= |ts|
  {
    Allowed(c, ts[..k])
  }

  ghost predicate AllAllowed(c: Config, ts: seq<int>) {
    forall k: nat :: 0 < k <= |ts| ==> Passes(c, ts, k)
  }

  /** The limiter lets every crash but the last one pass. */
  ghost predicate GivesUpAfter(c: Config, ts: seq<int>) {
    ts != [] && !Allowed(c, ts) && AllAllowed(c, ts[..|ts| - 1])
  }

  // ----- every run keeps the gaps -----

  ghost predicate Rested(c: Config, s: State) {
    s.crashes != [] ==> s.clock >= s.crashes[|s.crashes| - 1] + Wait(c, |s.crashes|)
  }

  ghost predicate Going(c: Config, s: State) {
    AllAllowed(c, s.crashes) && s.respawn == |s.crashes|
  }

  ghost predicate InPhase(c: Config, s: State) {
    match s.phase
    case Resting(until) => Going(c, s) && s.crashes != [] && until == s.crashes[|s.crashes| - 1] + Wait(c, |s.crashes|)
    case Returned(GaveUp, _) => GivesUpAfter(c, s.crashes)
    case Returned(_, _) => true
    case _ => Going(c, s) && Rested(c, s)
  }

  ghost predicate Timed(c: Config, s: State) {
    && Nondecreasing(s.crashes) && Gapped(c, s.crashes) && (forall t :: t in s.crashes ==> t <= s.clock)
    && (c.max > 0 ==> s.window == Kept(c, s.crashes))
    && InPhase(c, s)
  }

  lemma GappedSnoc(c: Config, ts: seq<int>, t: int)
    requires Gapped(c, ts) && Nondecreasing(ts) && (ts != [] ==> t >= ts[|ts| - 1] + Wait(c, |ts|))
    ensures Gapped(c, ts + [t]) && Nondecreasing(ts + [t])
  {
    hide Wait;
    forall k: nat | 0 < k < |ts| + 1 ensures Gap(c, ts + [t], k) {
      if k < |ts| { assert Gap(c, ts, k); }
    }
  }

  lemma AllowedSnoc(c: Config, ts: seq<int>, t: int)
    requires AllAllowed(c, ts)
    ensures if Allowed(c, ts + [t]) then AllAllowed(c, ts + [t]) else GivesUpAfter(c, ts + [t])
  {
    hide Allowed;
    var us := ts + [t];
    assert us[..|ts|] == ts && us[..|us|] == us;
    if Allowed(c, us) {
      forall k: nat | 0 < k <= |us| ensures Passes(c, us, k) {
        if k <= |ts| {
          assert Passes(c, ts, k);
          assert us[..k] == ts[..k];
        }
      }
    }
  }

  lemma WindowSnoc(c: Config, ts: seq<int>, window: seq<int>, t: int)
    requires c.max > 0 ==> window == Kept(c, ts)
    requires Nondecreasing(ts + [t])
    ensures
      var w := if c.max <= 0 then window else Recent(window, t - c.period) + [t];
      (c.max > 0 ==> w == Kept(c, ts + [t])) && (Allowed(c, ts + [t]) <==> c.max <= 0 || |w| <= c.max)
  {
    hide Recent;
    assert (ts + [t])[..|ts|] == ts;
    if c.max > 0 {
      PruningIsExact(c, ts + [t]);
    }
  }

  lemma CrashKeepsTimed(o: Options, s: State)
    requires Timed(o.respawn, s) && s.phase.Watching?
    ensures Timed(o.respawn, AfterCrash(o, s))
  {
    hide BackoffDelay, Recent, Allowed, AllAllowed, Gapped, Nondecreasing, Kept, GivesUpAfter;
    GappedSnoc(o.respawn, s.crashes, s.clock);
    WindowSnoc(o.respawn, s.crashes, s.window, s.clock);
    AllowedSnoc(o.respawn, s.crashes, s.clock);
  }

  lemma NextKeepsTimed(o: Options, s: State, e: Event)
    requires Timed(o.respawn, s) && Enabled(o, s, e)
    ensures Timed(o.respawn, Next(o, s, e))
  {
    hide BackoffDelay, Recent, Allowed, Gapped, Nondecreasing, AfterCrash;
    if e.TakeExit? && s.phase.Watching? {
      CrashKeepsTimed(o, Receive(s, s.phase.pid));
    }
  }

  lemma {:induction false} RunKeepsTimed(o: Options, ss: seq<State>, es: seq<Event>, i: nat)
    requires IsRun(o, ss, es) && i < |ss|
    ensures Timed(o.respawn, ss[i])
    decreases i
  {
    hide Next, Enabled;
    if i > 0 {
      RunKeepsTimed(o, ss, es, i - 1);
      assert Moves(o, ss, es, i - 1);
      NextKeepsTimed(o, ss[i - 1], es[i - 1]);
    }
  }

  // ----- when giving up is possible -----

  lemma {:induction false} RecentIsSuffix(ts: seq<int>, cutoff: int, k: nat)
    requires Nondecreasing(ts) && k > 0
    ensures |Recent(ts, cutoff)| >= k <==> k <= |ts| && ts[|ts| - k] >= cutoff
    decreases |ts|
  {
    if ts != [] {
      var n := |ts| - 1;
      if k > 1 {
        RecentIsSuffix(ts[..n], cutoff, k - 1);
      }
      if ts[n] < cutoff {
        if n > 0 {
          RecentIsSuffix(ts[..n], cutoff, 1);
        }
        assert |Recent(ts[..n], cutoff)| < 1;
      }
    }
  }

  lemma {:induction false} GapsAddUp(c: Config, ts: seq<int>, i: nat, k: nat)
    requires Gapped(c, ts) && i + k < |ts|
    ensures ts[i + k] - ts[i] >= WaitSum(c, i + 1, k)
    decreases k
  {
    if k > 0 {
      GapsAddUp(c, ts, i, k - 1);
      assert Gap(c, ts, i + k);
    }
  }

  /** If the limiter stops crash number `n`, the `max` waits before it fit into the period. */
  lemma GiveUpNeeds(c: Config, ts: seq<int>)
    requires Nondecreasing(ts) && Gapped(c, ts) && GivesUpAfter(c, ts)
    ensures c.max > 0 && |ts| > c.max && WaitSum(c, |ts| - c.max, c.max) <= c.period
  {
    hide Wait, Recent, AllAllowed;
    var n := |ts| - 1;
    RecentIsSuffix(ts[..n], ts[n] - c.period, c.max);
    GapsAddUp(c, ts, n - c.max, c.max);
  }

  /** Crash times that make the limiter stop crash number `n`: the first crashes are far apart,
      the last `max + 1` as close together as the waits allow. */
  function Worst(c: Config, n: nat, k: nat): int
    requires c.max > 0
  {
    if k == 0 then 0
    else Worst(c, n, k - 1) + Wait(c, k) + if k <= n - 1 - c.max then c.period + 1 else 0
  }

  lemma {:induction false} WorstGrows(c: Config, n: nat, i: nat, j: nat)
    requires c.max > 0 && c.period >= 0 && i <= j
    ensures Worst(c, n, i) <= Worst(c, n, j)
    ensures i < j <= n - 1 - c.max ==> Worst(c, n, i) + c.period < Worst(c, n, j)
    decreases j
  {
    if i < j {
      WorstGrows(c, n, i, j - 1);
    }
  }

  lemma {:induction false} WorstTail(c: Config, n: nat, i: nat, k: nat)
    requires c.max > 0 && n - 1 - c.max <= i
    ensures Worst(c, n, i + k) - Worst(c, n, i) == WaitSum(c, i + 1, k)
    decreases k
  {
    if k > 0 {
      WorstTail(c, n, i, k - 1);
    }
  }

  ghost function WorstTimes(c: Config, n: nat): seq<int>
    requires c.max > 0
  {
    seq(n, k requires 0 <= k => Worst(c, n, k))
  }

  lemma GiveUpPossible(c: Config, n: nat)
    requires c.max > 0 && n > c.max && WaitSum(c, n - c.max, c.max) <= c.period
    ensures
      var ts := WorstTimes(c, n);
      |ts| == n && Nondecreasing(ts) && Gapped(c, ts) && GivesUpAfter(c, ts)
  {
    hide Wait;
    var ts := WorstTimes(c, n);
    forall i, j | 0 <= i < j < n ensures ts[i] <= ts[j] {
      WorstGrows(c, n, i, j);
    }
    forall k: nat | 0 < k < n ensures Gap(c, ts, k) {}
    RecentIsSuffix(ts[..n - 1], ts[n - 1] - c.period, c.max);
    WorstTail(c, n, n - 1 - c.max, c.max);
    assert !Allowed(c, ts);
    var before := ts[..n - 1];
    forall k: nat | 0 < k <= |before| ensures Passes(c, before, k) {
      WorstAllowed(c, n, k);
      assert before[..k] == ts[..k];
    }
  }

  lemma WorstAllowed(c: Config, n: nat, k: nat)
    requires c.max > 0 && c.period >= 0 && c.max < n && 0 < k < n
    requires Nondecreasing(WorstTimes(c, n))
    ensures Allowed(c, WorstTimes(c, n)[..k])
  {
    hide Wait, Recent;
    var ts := WorstTimes(c, n);
    var cutoff := ts[k - 1] - c.period;
    var before := ts[..k - 1];
    assert ts[..k][..k - 1] == before;
    var first := n - 1 - c.max;
    if k - 1 >= c.max {
      RecentIsSuffix(before, cutoff, c.max);
      // the crash that would have to be in the window is before the last wide gap
      var i := k - 1 - c.max;
      assert i < first;
      WorstGrows(c, n, i, if k - 1 < first then k - 1 else first);
      if k - 1 > first { WorstGrows(c, n, first, k - 1); }
    } else {
      RecentIsSuffix(before, cutoff, c.max);
    }
  }

  // ----- every such series of crashes happens in some run -----

  lemma ReachableNext(o: Options, s: State, e: Event)
    requires Reachable(o, s) && Enabled(o, s, e)
    ensures Reachable(o, Next(o, s, e))
  {
    hide Next, Enabled;
    var ss, es :| IsRun(o, ss, es) && ss[|ss| - 1] == s;
    var ss', es' := ss + [Next(o, s, e)], es + [e];
    forall i | 0 <= i < |es'| ensures Moves(o, ss', es', i) {
      if i < |es| { assert Moves(o, ss, es, i); }
    }
    assert IsRun(o, ss', es');
  }

  lemma ReachableInit(o: Options, start: int)
    ensures Reachable(o, Init(start))
  {
    assert IsRun(o, [Init(start)], []);
  }

  ghost predicate FreshPid(s: State, p: Pid) {
    forall q :: q in s.spawned ==> q < p
  }

  /** From a state ready to spawn, a daemon that crashes at once brings the next crash. */
  lemma CrashNow(o: Options, s: State, p: Pid) returns (r: State)
    requires Reachable(o, s) && s.phase.Spawning? && FreshPid(s, p)
    ensures Reachable(o, r) && r.clock == s.clock && r.crashes == s.crashes + [s.clock] && FreshPid(r, p + 1)
    ensures r.phase == AfterCrash(o, s).phase
  {
    hide BackoffDelay, Recent;
    var a := Next(o, s, Spawn(p));
    ReachableNext(o, s, Spawn(p));
    var b := Next(o, a, Dies(p));
    ReachableNext(o, a, Dies(p));
    r := Next(o, b, TakeExit);
    ReachableNext(o, b, TakeExit);
  }

  /** From a state that rests or spawns, time passes until `t` and the next daemon may start. */
  lemma RestUntil(o: Options, s: State, t: int) returns (r: State)
    requires Reachable(o, s) && t >= s.clock && (s.phase.Spawning? || (s.phase.Resting? && t >= s.phase.until))
    ensures Reachable(o, r) && r == s.(clock := t, phase := Spawning)
  {
    hide BackoffDelay, Counted;
    ReachableNext(o, s, Elapse(t - s.clock));
    r := Next(o, s, Elapse(t - s.clock));
    if r.phase.Resting? {
      ReachableNext(o, r, TimerFires);
      r := Next(o, r, TimerFires);
    }
  }

  lemma {:induction false} Realize(o: Options, ts: seq<int>, k: nat) returns (s: State)
    requires Gapped(o.respawn, ts) && Nondecreasing(ts) && k < |ts| && AllAllowed(o.respawn, ts[..k])
    ensures Reachable(o, s) && s.crashes == ts[..k] && s.phase.Spawning? && s.clock == ts[k] && FreshPid(s, k)
    decreases k
  {
    hide BackoffDelay, Recent, Allowed, Kept;
    var c := o.respawn;
    if k == 0 {
      ReachableInit(o, ts[0]);
      s := Init(ts[0]);
    } else {
      PrefixAllowed(c, ts, k);
      var a := Realize(o, ts, k - 1);
      var b := CrashNow(o, a, k - 1);
      assert ts[..k - 1] + [ts[k - 1]] == ts[..k];
      assert Gap(c, ts, k);
      PassedCrash(o, a, ts, k);
      ReachableIsTimed(o, b);
      s := RestUntil(o, b, ts[k]);
    }
  }

  lemma PrefixAllowed(c: Config, ts: seq<int>, k: nat)
    requires 0 < k <= |ts| && AllAllowed(c, ts[..k])
    ensures AllAllowed(c, ts[..k - 1]) && Allowed(c, ts[..k])
  {
    hide Allowed;
    var before := ts[..k - 1];
    forall i: nat | 0 < i <= |before| ensures Passes(c, before, i) {
      assert Passes(c, ts[..k], i);
      assert before[..i] == ts[..k][..i];
    }
    assert Passes(c, ts[..k], k) && ts[..k][..k] == ts[..k];
  }

  lemma ReachableIsTimed(o: Options, s: State)
    requires Reachable(o, s)
    ensures Timed(o.respawn, s)
  {
    hide Timed;
    var ss, es :| IsRun(o, ss, es) && ss[|ss| - 1] == s;
    RunKeepsTimed(o, ss, es, |ss| - 1);
  }

  lemma PassedCrash(o: Options, a: State, ts: seq<int>, k: nat)
    requires 0 < k <= |ts| && Reachable(o, a) && a.phase.Spawning? && a.crashes == ts[..k - 1] && a.clock == ts[k - 1]
    requires Nondecreasing(ts) && Allowed(o.respawn, ts[..k])
    ensures var p := AfterCrash(o, a).phase; p.Spawning? || p.Resting?
  {
    hide BackoffDelay, Recent, Allowed, Kept;
    ReachableIsTimed(o, a);
    assert ts[..k - 1] + [ts[k - 1]] == ts[..k];
    assert Nondecreasing(ts[..k]);
    WindowSnoc(o.respawn, a.crashes, a.window, a.clock);
  }

  /** The supervisor can give up at counted crash number `n` exactly when `n` is more than the
      limit and the `max` waits before it fit into the period. */
  lemma GiveUpIff(o: Options, n: nat)
    ensures (exists s :: Reachable(o, s) && s.phase == Returned(GaveUp, false) && |s.crashes| == n) <==>
            o.respawn.max > 0 && n > o.respawn.max && WaitSum(o.respawn, n - o.respawn.max, o.respawn.max) <= o.respawn.period
  {
    hide Reachable, WaitSum;
    var c := o.respawn;
    forall s | Reachable(o, s) && s.phase == Returned(GaveUp, false) && |s.crashes| == n
      ensures c.max > 0 && n > c.max && WaitSum(c, n - c.max, c.max) <= c.period
    {
      ReachableIsTimed(o, s);
      GiveUpNeeds(c, s.crashes);
    }
    if c.max > 0 && n > c.max && WaitSum(c, n - c.max, c.max) <= c.period {
      var s := GiveUpRun(o, n);
    }
  }

  lemma GiveUpRun(o: Options, n: nat) returns (s: State)
    requires o.respawn.max > 0 && n > o.respawn.max && WaitSum(o.respawn, n - o.respawn.max, o.respawn.max) <= o.respawn.period
    ensures Reachable(o, s) && s.phase == Returned(GaveUp, false) && |s.crashes| == n
  {
    hide BackoffDelay, Recent, Allowed, Kept, WorstTimes;
    var ts := WorstTimes(o.respawn, n);
    GiveUpPossible(o.respawn, n);
    var a := Realize(o, ts, n - 1);
    s := CrashNow(o, a, n - 1);
    ReachableIsTimed(o, a);
    assert ts[..n - 1] + [ts[n - 1]] == ts;
    WindowSnoc(o.respawn, a.crashes, a.window, a.clock);
  }

  /** Once `max` waits in a row, the first before respawn `i`, exceed the period, the supervisor
      cannot give up at crash number `i + max` or any later one. */
  lemma NoLateGiveUp(o: Options, s: State, i: nat)
    requires Reachable(o, s) && s.phase == Returned(GaveUp, false)
    requires o.respawn.max > 0 && WaitSum(o.respawn, i, o.respawn.max) > o.respawn.period
    requires InRange(o.respawn, |s.crashes|)
    ensures |s.crashes| < i + o.respawn.max
  {
    hide WaitSum, Reachable;
    var c := o.respawn;
    GiveUpIff(o, |s.crashes|);
    if |s.crashes| >= i + c.max {
      WaitSumGrows(c, i, |s.crashes| - c.max, c.max);
    }
  }

  // ----- with the default options -----

  lemma DefaultWait(n: nat)
    requires n <= 234
    ensures Wait(DEFAULTS, n) == n * DEFAULTS.step
  {
    hide Wrap;
    DelayInRange(DEFAULTS, n);
  }

  lemma {:induction false} DefaultSum(i: nat, k: nat)
    requires i + k <= 235
    ensures 2 * WaitSum(DEFAULTS, i, k) == DEFAULTS.step * (2 * k * i + k * (k - 1))
    decreases k
  {
    hide Wait;
    if k > 0 {
      DefaultSum(i, k - 1);
      DefaultWait(i + k - 1);
    }
  }

  /** The number of respawns whose default delay is computed without overflow. */
  const DEFAULT_LIMIT: nat := 72_057_594_037

  /** By default the supervisor can give up at counted crash 11, 12, 13 or 14 and at no other. */
  lemma DefaultGiveUps(schedule: Schedule, n: nat)
    requires n <= DEFAULT_LIMIT
    ensures (exists s :: Reachable(Options(DEFAULTS, schedule), s) && s.phase == Returned(GaveUp, false) && |s.crashes| == n)
            <==> 11 <= n <= 14
  {
    hide Reachable, WaitSum;
    GiveUpIff(Options(DEFAULTS, schedule), n);
    DefaultSum(5, 10);
    if n > 14 {
      WaitSumGrows(DEFAULTS, 5, n - 10, 10);
    } else if n > 10 {
      DefaultSum(n - 10, 10);
    }
  }

  /** One respawn later the delay wraps around to a negative duration: nothing is waited for. */
  lemma DefaultOverflow()
    ensures BackoffDelay(DEFAULTS, DEFAULT_LIMIT + 1) < 0 && Wait(DEFAULTS, DEFAULT_LIMIT + 1) == 0
  {
    var total := (DEFAULT_LIMIT + 1) * DEFAULTS.step;
    assert total + MAX_INT64 + 1 == 2 * (MAX_INT64 + 1) + (total - MAX_INT64 - 1);
    assert 0 <= total - MAX_INT64 - 1 < 2 * (MAX_INT64 + 1);
    assert Wrap(total) == total - 2 * (MAX_INT64 + 1);
    WrapSmall(Wrap(total));
  }

  /** So, if the supervisor lives that long, it can give up again. */
  lemma DefaultLateGiveUp(schedule: Schedule)
    ensures exists s :: Reachable(Options(DEFAULTS, schedule), s) && s.phase == Returned(GaveUp, false) && |s.crashes| == DEFAULT_LIMIT + 11
  {
    hide Reachable;
    DefaultNoWaits(10);
    GiveUpIff(Options(DEFAULTS, schedule), DEFAULT_LIMIT + 11);
  }

  lemma {:induction false} DefaultNoWaits(k: nat)
    requires k <= 10
    ensures WaitSum(DEFAULTS, DEFAULT_LIMIT + 1, k) == 0
    decreases k
  {
    if k > 0 {
      DefaultNoWaits(k - 1);
      var n := DEFAULT_LIMIT + k;
      var total := n * DEFAULTS.step;
      assert Wrap(total) == total - 2 * (MAX_INT64 + 1);
      WrapSmall(Wrap(total));
    }
  }

  // ----- an overflow within the hour -----

  /** Steps of an hour, capped at a millisecond, and no limit on respawns. */
  const HOURLY := Config(0, 0, 0, 3600 * SECOND, MILLISECOND)

  /** The respawn whose delay is the first to wrap around. */
  const HOURLY_WRAP: nat := 2_562_048

  lemma HourlyWaits(n: nat)
    ensures Wait(HOURLY, n) <= MILLISECOND
  {
    hide Wrap;
  }

  lemma HourlyReaches(schedule: Schedule, n: nat) returns (s: State)
    ensures Reachable(Options(HOURLY, schedule), s) && s.respawn == n
  {
    hide Reachable, BackoffDelay;
    var o := Options(HOURLY, schedule);
    var ts := seq(n + 1, k requires 0 <= k => k * MILLISECOND);
    forall k: nat | 0 < k < |ts| ensures Gap(HOURLY, ts, k) { HourlyWaits(k); }
    assert AllAllowed(HOURLY, ts[..n]) by {
      forall k: nat | 0 < k <= n ensures Passes(HOURLY, ts[..n], k) {}
    }
    s := Realize(o, ts, n);
    ReachableIsTimed(o, s);
  }

  /** After that many respawns, a millisecond apart, a run comes to a delay that is not the one
      meant: the supervisor does not wait at all. */
  lemma HourlyOverflow(schedule: Schedule)
    ensures BackoffDelay(HOURLY, HOURLY_WRAP) < 0 && MeantDelay(HOURLY, HOURLY_WRAP) == MILLISECOND
    ensures exists s :: Reachable(Options(HOURLY, schedule), s) && s.respawn == HOURLY_WRAP
  {
    var total := HOURLY_WRAP * HOURLY.step;
    assert Wrap(total) == total - 2 * (MAX_INT64 + 1);
    WrapSmall(Wrap(total));
    hide Reachable;
    var s := HourlyReaches(schedule, HOURLY_WRAP);
  }
}
