/**
 * The round-trip summary printed after the loop when at least one reply came
 * back: LINQ's `Min`, `Max` and `Average` over the recorded round-trip times.
 * The average is stated over exact rationals; the program's `double` rounding
 * and the mean deviation are not modelled.
 */
module Statistics {
  import opened Wrappers

  /** C#'s `long`, the type of `PingReply.RoundtripTime`. */
  newtype int64 = x: int | -0x8000_0000_0000_0000 <= x < 0x8000_0000_0000_0000

  /** `Min()`: an element of the list that no element is below. */
  function Min(s: seq<int64>): (m: int64)
    requires |s| > 0
    ensures m in s
    ensures forall i :: 0 <= i < |s| ==> m <= s[i]
  {
    if |s| == 1 then s[0]
    else
      var rest := Min(s[1..]);
      if s[0] <= rest then s[0] else rest
  }

  /** `Max()`: an element of the list that no element is above. */
  function Max(s: seq<int64>): (m: int64)
    requires |s| > 0
    ensures m in s
    ensures forall i :: 0 <= i < |s| ==> s[i] <= m
  {
    if |s| == 1 then s[0]
    else
      var rest := Max(s[1..]);
      if s[0] >= rest then s[0] else rest
  }

  /** The exact sum of the list, free of 64-bit overflow. Times are never
      negative, and neither is their sum. */
  function Sum(s: seq<int64>): (r: int)
    ensures (forall i :: 0 <= i < |s| ==> 0 <= s[i]) ==> 0 <= r
  {
    if s == [] then 0 else s[0] as int + Sum(s[1..])
  }

  /** Adding the values one by one from the front, as `Average()` does, gives
      the same total: the sum of a list is the sum of all but its last value
      plus that value. */
  lemma {:induction false} SumSnoc(s: seq<int64>)
    requires s != []
    ensures Sum(s) == Sum(s[..|s| - 1]) + s[|s| - 1] as int
  {
    if |s| > 1 {
      assert s[1..][..|s| - 2] == s[..|s| - 1][1..];
      SumSnoc(s[1..]);
    }
  }

  /** The sum of `n` values lies between `n` times the least and `n` times the greatest. */
  lemma {:induction false} SumBounds(s: seq<int64>, lo: int, hi: int)
    requires forall i :: 0 <= i < |s| ==> lo <= s[i] as int <= hi
    ensures |s| * lo <= Sum(s) <= |s| * hi
  {
    if s != [] {
      SumBounds(s[1..], lo, hi);
      assert |s| * lo == lo + (|s| - 1) * lo;
      assert |s| * hi == hi + (|s| - 1) * hi;
    }
  }

  /** Dividing bounds of the form `n * lo <= total <= n * hi` by `n`. */
  lemma QuotientBounds(total: int, n: nat, lo: int, hi: int)
    requires n > 0 && n * lo <= total <= n * hi
    ensures lo as real <= total as real / n as real <= hi as real
  {
    var q := total as real / n as real;
    assert q * n as real == total as real;
    assert (n * lo) as real == n as real * lo as real;
    assert (n * hi) as real == n as real * hi as real;
  }

  /** `Average()` in exact arithmetic. */
  function Mean(s: seq<int64>): (a: real)
    requires |s| > 0
    ensures Min(s) as real <= a <= Max(s) as real
  {
    SumBounds(s, Min(s) as int, Max(s) as int);
    QuotientBounds(Sum(s), |s|, Min(s) as int, Max(s) as int);
    Sum(s) as real / |s| as real
  }

  datatype RttSummary = RttSummary(min: int64, avg: real, max: int64)

  /** The summary line's numbers, present exactly when some reply was recorded
      (the `received > 0` guard); then min <= avg <= max and every recorded
      time lies between min and max. */
  function Summarize(rtts: seq<int64>): (r: Option<RttSummary>)
    ensures r.Some? <==> |rtts| > 0
    ensures r.Some? ==> r.value.min as real <= r.value.avg <= r.value.max as real
    ensures r.Some? ==> r.value.min in rtts && r.value.max in rtts
    ensures r.Some? ==> forall i :: 0 <= i < |rtts| ==> r.value.min <= rtts[i] <= r.value.max
  {
    if |rtts| == 0 then None else Some(RttSummary(Min(rtts), Mean(rtts), Max(rtts)))
  }
}
