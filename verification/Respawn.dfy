/** The supervisor's crash limiter and its stepped delay.  Times and durations are in
    nanoseconds. */
module Respawn {

  /** The respawn options of the supervisor. */
  datatype Config = Config(max: int, period: int, delay: int, step: int, cap: int)

  const MILLISECOND := 1_000_000
  const SECOND := 1_000 * MILLISECOND

  const DEFAULTS := Config(10, 12 * SECOND, 0, 128 * MILLISECOND, 30 * SECOND)

  // ----- the delay -----

  const MAX_INT64 := 0x7fff_ffff_ffff_ffff

  /** Durations are 64-bit: arithmetic on them wraps around. */
  function Wrap(x: int): int {
    (x + MAX_INT64 + 1) % (2 * (MAX_INT64 + 1)) - MAX_INT64 - 1
  }

  /** The wait before respawn number `n`. */
  function BackoffDelay(c: Config, n: nat): int {
    if c.step <= 0 then c.delay
    else
      var total := Wrap(c.delay + Wrap(n * c.step));
      if c.cap > 0 && total > c.cap then c.cap else total
  }

  /** The time a run of the supervisor really waits. */
  function Wait(c: Config, n: nat): (d: nat) {
    if BackoffDelay(c, n) > 0 then BackoffDelay(c, n) else 0
  }

  /** The first `n` delays are computed without overflow. */
  ghost predicate InRange(c: Config, n: nat) {
    && -MAX_INT64 - 1 <= c.delay <= MAX_INT64
    && (c.step > 0 ==> n * c.step <= MAX_INT64 && c.delay + n * c.step <= MAX_INT64)
  }

  lemma WrapSmall(x: int)
    requires -MAX_INT64 - 1 <= x <= MAX_INT64
    ensures Wrap(x) == x
  {
    var y, m := x + MAX_INT64 + 1, 2 * (MAX_INT64 + 1);
    assert 0 <= y < m;
    assert y % m == y;
  }

  /** Without overflow the delay is the base plus `n` steps, up to the cap. */
  lemma DelayInRange(c: Config, n: nat)
    requires InRange(c, n)
    ensures c.step > 0 ==>
      var total := c.delay + n * c.step;
      BackoffDelay(c, n) == if c.cap > 0 && total > c.cap then c.cap else total
    ensures c.step <= 0 ==> BackoffDelay(c, n) == c.delay
  {
    hide Wrap;
    if c.step > 0 {
      assert n * c.step >= 0;
      WrapSmall(n * c.step);
      WrapSmall(c.delay + n * c.step);
    }
  }

  /** The delay as it is meant: the base plus `n` steps, up to the cap. */
  function MeantDelay(c: Config, n: nat): int {
    var total := c.delay + n * c.step;
    if c.cap > 0 && total > c.cap then c.cap else total
  }

  ghost predicate IsDuration(x: int) {
    -MAX_INT64 - 1 <= x <= MAX_INT64
  }

  lemma WrapShift(x: int, k: int)
    ensures Wrap(x + k * 0x1_0000_0000_0000_0000) == Wrap(x)
  {
  }

  /** Wrapping around once or twice makes no difference. */
  lemma WrapInside(a: int, b: int)
    ensures Wrap(a + Wrap(b)) == Wrap(a + b)
  {
    var k := (b + MAX_INT64 + 1) / 0x1_0000_0000_0000_0000;
    assert Wrap(b) == b + -k * 0x1_0000_0000_0000_0000;
    WrapShift(a + b, -k);
  }

  /** The delay is the one meant exactly when the sum does not wrap around, or comes out at the cap
      or above it although it does. */
  lemma DelayRightIff(c: Config, n: nat)
    requires c.step > 0 && IsDuration(c.cap)
    ensures
      var total := c.delay + n * c.step;
      BackoffDelay(c, n) == MeantDelay(c, n) <==> Wrap(total) == total || (c.cap > 0 && total > c.cap && Wrap(total) >= c.cap)
  {
    var total := c.delay + n * c.step;
    WrapInside(c.delay, n * c.step);
    if c.cap > 0 && total == c.cap { WrapSmall(total); }
    hide Wrap;
  }

  lemma WaitGrows(c: Config, m: nat, n: nat)
    requires m <= n && InRange(c, n)
    ensures Wait(c, m) <= Wait(c, n)
  {
    hide Wrap, InRange, BackoffDelay;
    InRangeBelow(c, m, n);
    DelayInRange(c, m);
    DelayInRange(c, n);
    if c.step > 0 { MoreSteps(m, n, c.step); }
  }

  lemma MoreSteps(m: nat, n: nat, step: nat)
    requires m <= n
    ensures m * step <= n * step
  {
  }

  /** The sum of `k` consecutive waits, the first of them before respawn number `i`. */
  function WaitSum(c: Config, i: nat, k: nat): (s: nat) {
    if k == 0 then 0 else WaitSum(c, i, k - 1) + Wait(c, i + k - 1)
  }

  lemma {:induction false} WaitSumGrows(c: Config, i: nat, j: nat, k: nat)
    requires i <= j && InRange(c, j + k)
    ensures WaitSum(c, i, k) <= WaitSum(c, j, k)
    decreases k
  {
    if k > 0 {
      InRangeBelow(c, j + k - 1, j + k);
      WaitSumGrows(c, i, j, k - 1);
      WaitGrows(c, i + k - 1, j + k - 1);
    }
  }

  lemma InRangeBelow(c: Config, m: nat, n: nat)
    requires m <= n && InRange(c, n)
    ensures InRange(c, m)
  {
    if c.step > 0 { MoreSteps(m, n, c.step); }
  }

  // ----- the limiter -----

  /** The times that are not before the cutoff, in order. */
  function Recent(times: seq<int>, cutoff: int): (r: seq<int>) {
    if times == [] then []
    else Recent(times[..|times| - 1], cutoff) + if times[|times| - 1] >= cutoff then [times[|times| - 1]] else []
  }

  /** A limiter with the whole history before it: may the supervisor go on after the last crash? */
  ghost predicate Allowed(c: Config, crashes: seq<int>)
    requires crashes != []
  {
    var n := |crashes| - 1;
    c.max <= 0 || |Recent(crashes[..n], crashes[n] - c.period)| + 1 <= c.max
  }

  /** The window the pruning limiter has kept after a series of crashes. */
  ghost function Kept(c: Config, crashes: seq<int>): seq<int> {
    if c.max <= 0 || crashes == [] then []
    else Recent(Kept(c, crashes[..|crashes| - 1]), crashes[|crashes| - 1] - c.period) + [crashes[|crashes| - 1]]
  }

  ghost predicate Nondecreasing(ts: seq<int>) {
    forall i, j :: 0 <= i < j < |ts| ==> ts[i] <= ts[j]
  }

  lemma {:induction false} RecentConcat(a: seq<int>, b: seq<int>, cutoff: int)
    ensures Recent(a + b, cutoff) == Recent(a, cutoff) + Recent(b, cutoff)
  {
    if b == [] {
      assert a + b == a;
    } else {
      var n := |b| - 1;
      assert (a + b)[..|a + b| - 1] == a + b[..n];
      RecentConcat(a, b[..n], cutoff);
    }
  }

  lemma {:induction false} RecentTwice(ts: seq<int>, low: int, high: int)
    requires low <= high
    ensures Recent(Recent(ts, low), high) == Recent(ts, high)
  {
    if ts != [] {
      var n := |ts| - 1;
      RecentTwice(ts[..n], low, high);
      var last := if ts[n] >= low then [ts[n]] else [];
      RecentConcat(Recent(ts[..n], low), last, high);
      assert Recent([ts[n]], high) == if ts[n] >= high then [ts[n]] else [] by { assert [ts[n]][..0] == []; }
    }
  }

  /** Pruning loses nothing: after crashes in order, the limiter has kept exactly the crashes
      of the whole history that lie in the window. */
  lemma {:induction false} PruningIsExact(c: Config, crashes: seq<int>)
    requires c.max > 0 && crashes != [] && Nondecreasing(crashes)
    ensures
      var n := |crashes| - 1;
      Kept(c, crashes) == Recent(crashes[..n], crashes[n] - c.period) + [crashes[n]]
    decreases |crashes|
  {
    hide Recent;
    var n := |crashes| - 1;
    if n > 0 {
      var before := crashes[..n];
      PruningIsExact(c, before);
      assert before[..n - 1] == crashes[..n - 1];
      var low, high := crashes[n - 1] - c.period, crashes[n] - c.period;
      RecentConcat(Recent(before[..n - 1], low), [crashes[n - 1]], high);
      RecentTwice(before[..n - 1], low, high);
      RecentConcat(before[..n - 1], [crashes[n - 1]], high);
      assert before == before[..n - 1] + [crashes[n - 1]];
    } else {
      assert Kept(c, crashes[..0]) == [] && crashes[..0] == [];
    }
  }

  /** The limiter.  `times` lives in the first `len` places of a buffer and is compacted in
      place before the new crash is appended. */
  class RespawnLimiter {
    const c: Config
    var buf: array<int>
    var len: nat
    var count: nat

    ghost predicate Valid()
      reads this
    {
      len <= buf.Length
    }

    ghost function Times(): seq<int>
      requires Valid()
      reads this, buf
    {
      buf[..len]
    }

    constructor (c: Config)
      ensures Valid() && fresh(buf) && this.c == c && Times() == [] && count == 0
    {
      this.c := c;
      buf := new int[0];
      len, count := 0, 0;
    }

    /** Records a crash at `now`; the supervisor may try again while the window holds at most
        `max` crashes. */
    method AllowRespawn(now: int) returns (ok: bool)
      requires Valid()
      modifies this, buf
      ensures Valid() && (buf == old(buf) || fresh(buf))
      ensures c.max <= 0 ==> ok && Times() == old(Times()) && count == old(count)
      ensures c.max > 0 ==> Times() == Recent(old(Times()), now - c.period) + [now]
      ensures c.max > 0 ==> count == |Times()| && ok == (count <= c.max)
    {
      if c.max <= 0 {
        return true;
      }
      var cutoff := now - c.period;
      var kept := Compact(cutoff);
      if kept == buf.Length {
        Grow(kept);
      }
      buf[kept] := now;
      len, count := kept + 1, kept + 1;
      ok := kept + 1 <= c.max;
    }

    /** Moves the times that are not before the cutoff to the front of the buffer. */
    method Compact(cutoff: int) returns (kept: nat)
      requires Valid()
      modifies buf
      ensures kept <= len && buf[..kept] == Recent(old(Times()), cutoff)
    {
      kept := 0;
      ghost var was := Times();
      for i := 0 to len
        invariant kept <= i && buf[..kept] == Recent(was[..i], cutoff)
        invariant forall k :: i <= k < len ==> buf[k] == was[k]
      {
        assert was[..i + 1][..i] == was[..i];
        if buf[i] >= cutoff {
          buf[kept] := buf[i];
          kept := kept + 1;
        }
      }
      assert was[..len] == was;
    }

    /** Makes room for one more entry, as appending to a full slice does. */
    method Grow(kept: nat)
      requires kept == buf.Length
      modifies this
      ensures fresh(buf) && buf.Length > kept && buf[..kept] == old(buf[..kept])
      ensures len == old(len) && count == old(count)
    {
      var bigger := new int[2 * kept + 1];
      for i := 0 to kept
        modifies bigger
        invariant bigger[..i] == buf[..i]
      {
        bigger[i] := buf[i];
      }
      buf := bigger;
    }
  }

  /** Fed with crashes in order, the limiter decides like one that keeps the whole history. */
  method Feed(c: Config, crashes: seq<int>) returns (decisions: seq<bool>)
    requires Nondecreasing(crashes)
    ensures |decisions| == |crashes|
    ensures forall i :: 0 <= i < |crashes| ==> decisions[i] == Allowed(c, crashes[..i + 1])
  {
    decisions := [];
    var limiter := new RespawnLimiter(c);
    for i := 0 to |crashes|
      invariant limiter.Valid() && limiter.c == c && fresh(limiter) && fresh(limiter.buf)
      invariant limiter.Times() == Kept(c, crashes[..i])
      invariant |decisions| == i && forall k :: 0 <= k < i ==> decisions[k] == Allowed(c, crashes[..k + 1])
    {
      var ok := limiter.AllowRespawn(crashes[i]);
      decisions := decisions + [ok];
      assert crashes[..i + 1][..i] == crashes[..i];
      if c.max > 0 {
        PruningIsExact(c, crashes[..i + 1]);
      }
    }
  }
}
