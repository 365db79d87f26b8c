/**
 The counters of the source are Java `int` values: `count + 1` on the largest `int`
 wraps around to the smallest. This module states that behaviour and what it does to
 the blacklist decision, next to the unbounded increment the rest of the model uses.
 */
module Int32Counter {
  import opened FailureTracker
  import opened BlacklistPolicy

  newtype Int32 = x: int | -0x8000_0000 <= x < 0x8000_0000

  const MaxInt32: Int32 := 0x7fff_ffff
  const MinInt32: Int32 := -0x8000_0000

  /** Java's `count + 1` on an `int`. */
  function JavaIncrement(count: Int32): (r: Int32)
    ensures count < MaxInt32 ==> r as int == count as int + 1
    ensures count == MaxInt32 ==> r == MinInt32
  {
    if count == MaxInt32 then MinInt32 else count + 1
  }

  /** Below the largest `int` the Java increment is the unbounded one. */
  lemma JavaIncrementAgreesBelowMax(count: Int32)
    requires count < MaxInt32
    ensures JavaIncrement(count) as int == Increment(count as int)
  {
  }

  /** One more failure of an endpoint that has failed 2^31 - 1 times in a row turns its
      counter negative, and maintenance then takes it off the blacklist although it has
      never come back. */
  lemma WrapUnblacklistsFailingEndpoint(threshold: int)
    requires threshold <= MaxInt32 as int
    ensures Decide(MaxInt32 as int, threshold) == Add
    ensures JavaIncrement(MaxInt32) as int < 0
    ensures Decide(JavaIncrement(MaxInt32) as int, threshold) == Remove
  {
  }

  /** With the unbounded increment a further failure never lowers a counter, so an
      endpoint that has reached the threshold stays due for the blacklist while it fails. */
  lemma IncrementKeepsBlacklisted(count: int, threshold: int)
    requires 0 < count && threshold <= count
    ensures Increment(count) > count
    ensures Decide(Increment(count), threshold) == Add
  {
  }
}
