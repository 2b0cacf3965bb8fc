/** When a device is polled next: failure backoff, jitter, and the boost and hot windows. */
module Timing {
  import opened Prelude

  const STABLE_INTERVAL_MS := 45_000
  const HOT_INTERVAL_MS := 12_000
  const BOOST_INTERVAL_MS := 8_000
  const TELEMETRY_INTERVAL_MS := 10_000
  const HOT_WINDOW_MS := 120_000
  const BOOST_WINDOW_MS := 30_000
  const SYNC_HOSTS_EVERY_MS := 5_000
  const RESOLVE_COOLDOWN_MS := 300_000
  const FAILURE_BACKOFF_SEQUENCE_MS: seq<int> := [30_000, 60_000, 120_000, 300_000]

  /** The shortest and the longest time from the start of a completed poll to the next due time. */
  const SHORTEST_INTERVAL_MS := 7_200
  const LONGEST_INTERVAL_MS := 300_000

  function FailureBackoffMs(failureCount: int): int {
    if failureCount <= 0 then 0
    else FAILURE_BACKOFF_SEQUENCE_MS[Min(|FAILURE_BACKOFF_SEQUENCE_MS| - 1, failureCount - 1)]
  }

  /** The backoff never shrinks as failures pile up, and stays within its table. */
  lemma BackoffGrows(a: int, b: int)
    requires a <= b
    ensures FailureBackoffMs(a) <= FailureBackoffMs(b)
    ensures a > 0 ==> 30_000 <= FailureBackoffMs(a) <= 300_000
    ensures a >= 4 ==> FailureBackoffMs(a) == 300_000
  {
  }

  function Clamp(x: real): real { if x < 0.0 then 0.0 else if x > 1.0 then 1.0 else x }

  function WithJitterMs(baseMs: int, percent: real, randomValue: real): int {
    var delta := baseMs as real * Clamp(percent);
    var centered := (Clamp(randomValue) * 2.0 - 1.0) * delta;
    Max(1000, Round(baseMs as real + centered))
  }

  lemma RoundWithin(x: real, low: int, high: int)
    requires low as real <= x <= high as real
    ensures low <= Round(x) <= high
  {
  }

  lemma Product(x: real, y: real)
    requires x >= 0.0 && y >= 0.0
    ensures x * y >= 0.0
  {
  }

  lemma Distributes(base: real, c: real)
    ensures base * (1.0 - c) == base - base * c && base * (1.0 + c) == base + base * c
  {
  }

  /** A share between -1 and 1 of `delta`. */
  lemma ShareWithin(share: real, delta: real) returns (shift: real)
    requires -1.0 <= share <= 1.0 && delta >= 0.0
    ensures shift == share * delta && -delta <= shift <= delta
  {
    shift := share * delta;
    Product(1.0 - share, delta);
    Product(1.0 + share, delta);
    assert (1.0 - share) * delta == delta - shift;
    assert (1.0 + share) * delta == delta + shift;
  }

  lemma Jittered(base: real, shift: real, delta: real, low: int, high: int)
    requires -delta <= shift <= delta
    requires low as real <= base - delta && base + delta <= high as real
    ensures low <= Round(base + shift) <= high
  {
    RoundWithin(base + shift, low, high);
  }

  lemma ClampIs(x: real)
    ensures 0.0 <= Clamp(x) <= 1.0
  {
  }

  /** Jitter stays within its share of the base, for any random value. */
  lemma {:induction false} JitterWithin(baseMs: int, percent: real, randomValue: real, low: int, high: int)
    requires baseMs >= 0 && 1000 <= low
    requires low as real <= baseMs as real * (1.0 - Clamp(percent)) && baseMs as real * (1.0 + Clamp(percent)) <= high as real
    ensures low <= WithJitterMs(baseMs, percent, randomValue) <= high
  {
    var base, c := baseMs as real, Clamp(percent);
    var delta := base * c;
    var share := Clamp(randomValue) * 2.0 - 1.0;
    ClampIs(percent);
    ClampIs(randomValue);
    hide Clamp;
    Distributes(base, c);
    Product(base, c);
    var shift := ShareWithin(share, delta);
    Jittered(base, shift, delta, low, high);
  }

  /** The bookkeeping kept per device. A missing time is `None`; the code tests it for truth, so zero counts as
      missing too. */
  datatype PollMeta = PollMeta(
    nextDueAt: int,
    failureCount: nat,
    lastSuccessAt: Option<int>,
    lastChangeAt: Option<int>,
    lastResolveAttemptAt: Option<int>,
    boostUntilAt: Option<int>,
    telemetryNextDueAt: int,
    telemetryFailureCount: nat,
    telemetryLastSuccessAt: Option<int>)

  function CreateMeta(now: int): PollMeta { PollMeta(now, 0, None, None, None, None, now, 0, None) }

  predicate IsSet(t: Option<int>) { t.Some? && t.value != 0 }

  function NextIntervalMs(meta: PollMeta, now: int, randomValue: real): int {
    if meta.failureCount > 0 then FailureBackoffMs(meta.failureCount)
    else if IsSet(meta.boostUntilAt) && now < meta.boostUntilAt.value then WithJitterMs(BOOST_INTERVAL_MS, 0.1, randomValue)
    else if IsSet(meta.lastChangeAt) && now - meta.lastChangeAt.value < HOT_WINDOW_MS then
      WithJitterMs(HOT_INTERVAL_MS, 0.15, randomValue)
    else WithJitterMs(STABLE_INTERVAL_MS, 0.15, randomValue)
  }

  /** Every completed poll puts the next one 7.2 seconds to five minutes after its own start: by the backoff table
      after a failure, around 8 seconds later while boosted, around 12 seconds later within two minutes of a change,
      and around 45 seconds later otherwise. */
  lemma IntervalBounds(meta: PollMeta, now: int, randomValue: real)
    ensures var r := NextIntervalMs(meta, now, randomValue);
      var boosted := IsSet(meta.boostUntilAt) && now < meta.boostUntilAt.value;
      var hot := IsSet(meta.lastChangeAt) && now - meta.lastChangeAt.value < 120_000;
      && SHORTEST_INTERVAL_MS <= r <= LONGEST_INTERVAL_MS
      && (meta.failureCount > 0 ==> r == FailureBackoffMs(meta.failureCount) >= 30_000)
      && (meta.failureCount <= 0 && boosted ==> 7200 <= r <= 8800)
      && (meta.failureCount <= 0 && !boosted && hot ==> 10_200 <= r <= 13_800)
      && (meta.failureCount <= 0 && !boosted && !hot ==> 38_250 <= r <= 51_750)
  {
    hide WithJitterMs;
    JitterWithin(BOOST_INTERVAL_MS, 0.1, randomValue, 7200, 8800);
    JitterWithin(HOT_INTERVAL_MS, 0.15, randomValue, 10_200, 13_800);
    JitterWithin(STABLE_INTERVAL_MS, 0.15, randomValue, 38_250, 51_750);
  }
}
