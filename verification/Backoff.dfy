/** The pauses between submission attempts (pkg/orchestrator/controller.go), in nanoseconds. */
module Backoff {
  const SECOND := 1_000_000_000
  const MAX_BACKOFF := 10 * SECOND

  /** The base of the n-th pause, n from 0. */
  function Base(n: nat): int {
    if n == 0 then SECOND else Doubled(Base(n - 1))
  }

  function Doubled(backoff: int): int {
    if 2 * backoff > MAX_BACKOFF then MAX_BACKOFF else 2 * backoff
  }

  function PauseFor(backoff: int, jitter: int): int {
    if backoff + jitter > MAX_BACKOFF then MAX_BACKOFF else backoff + jitter
  }

  ghost predicate IsPause(n: nat, pause: int) {
    exists jitter :: 0 <= jitter < Base(n) && pause == PauseFor(Base(n), jitter)
  }

  /** The pauses of one goroutine, whatever jitter was drawn each time. */
  ghost predicate IsSchedule(pauses: seq<int>) {
    forall n :: 0 <= n < |pauses| ==> IsPause(n, pauses[n])
  }

  function Pow2(n: nat): nat {
    if n == 0 then 1 else 2 * Pow2(n - 1)
  }

  /** The bases double up to ten seconds: min(2^n, 10). They are never zero. */
  lemma {:induction false} BaseIsCappedPower(n: nat)
    ensures Base(n) == (if Pow2(n) <= 10 then Pow2(n) else 10) * 1_000_000_000
    ensures Base(n) >= SECOND && Pow2(n) >= 1
  {
    if n > 0 { BaseIsCappedPower(n - 1); }
  }

  /** No intermediate value leaves the signed 64-bit range. */
  lemma NoOverflow(n: nat, jitter: int)
    requires 0 <= jitter < Base(n)
    ensures 0 < Base(n) + jitter < 0x8000_0000_0000_0000 && 0 < 2 * Base(n) < 0x8000_0000_0000_0000
  {
    BaseIsCappedPower(n);
  }

  /** The pauses that can occur are exactly those from the base up to, but not including, twice the
      base, cut off at ten seconds. */
  lemma PauseRange(n: nat, pause: int)
    ensures IsPause(n, pause) <==> Base(n) <= pause <= 10_000_000_000 && pause < 2 * Base(n)
  {
    BaseIsCappedPower(n);
    if Base(n) <= pause <= MAX_BACKOFF && pause < 2 * Base(n) {
      assert 0 <= pause - Base(n) < Base(n) && pause == PauseFor(Base(n), pause - Base(n));
    }
  }

  lemma BaseStep(n: nat)
    ensures Base(n + 1) == Doubled(Base(n))
    ensures Base(n) <= Base(n + 1) <= MAX_BACKOFF
  {
    BaseIsCappedPower(n);
    BaseIsCappedPower(n + 1);
  }

  /** Pauses never shrink, whatever the jitter. */
  lemma PausesNeverShrink(pauses: seq<int>, n: nat)
    requires IsSchedule(pauses) && n + 1 < |pauses|
    ensures pauses[n] <= pauses[n + 1]
  {
    PauseRange(n, pauses[n]);
    PauseRange(n + 1, pauses[n + 1]);
    BaseStep(n);
  }

  lemma {:induction false} BaseFromFifth(n: nat)
    requires n >= 4
    ensures Base(n) == MAX_BACKOFF
  {
    if n == 4 {
      BaseStep(0);
      BaseStep(1);
      BaseStep(2);
      BaseStep(3);
    } else {
      BaseFromFifth(n - 1);
      BaseStep(n - 1);
    }
  }

  /** From the fifth failure on, every pause is exactly ten seconds. */
  lemma FifthPauseIsMaximal(pauses: seq<int>, n: nat)
    requires IsSchedule(pauses) && 4 <= n < |pauses|
    ensures pauses[n] == 10_000_000_000
  {
    BaseFromFifth(n);
    PauseRange(n, pauses[n]);
  }

  function Sum(s: seq<int>): int {
    if s == [] then 0 else Sum(s[..|s| - 1]) + s[|s| - 1]
  }

  /** After n >= 4 failures the goroutine has paused for at least 10n-25 and less than 10n-16 seconds. */
  lemma {:induction false} TotalPause(pauses: seq<int>)
    requires IsSchedule(pauses) && |pauses| >= 4
    ensures (10 * |pauses| - 25) * 1_000_000_000 <= Sum(pauses) < (10 * |pauses| - 16) * 1_000_000_000
  {
    var init := pauses[..|pauses| - 1];
    forall n | 0 <= n < |init| ensures IsPause(n, init[n]) { assert init[n] == pauses[n]; }
    if |pauses| == 4 {
      FirstFour(pauses);
    } else {
      TotalPause(init);
      FifthPauseIsMaximal(pauses, |pauses| - 1);
    }
  }

  lemma FirstFour(pauses: seq<int>)
    requires IsSchedule(pauses) && |pauses| == 4
    ensures 15 * SECOND <= Sum(pauses) < 24 * SECOND
  {
    BaseStep(0);
    BaseStep(1);
    BaseStep(2);
    forall n | 0 <= n < 4 ensures Base(n) <= pauses[n] <= MAX_BACKOFF && pauses[n] < 2 * Base(n) {
      assert IsPause(n, pauses[n]);
      PauseRange(n, pauses[n]);
    }
    assert Base(3) == 8 * SECOND;
    var three := pauses[..3];
    var two := three[..2];
    var one := two[..1];
    assert Sum(one) == Sum(one[..0]) + pauses[0] == pauses[0];
    assert Sum(two) == pauses[0] + pauses[1];
    assert Sum(three) == pauses[0] + pauses[1] + pauses[2];
  }
}
