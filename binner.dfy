/** The colour binner of the map: rates are scaled to integers, the population's
    extremes give an interval of a tenth of the range (rounded the way `Math.round`
    rounds), and a cascade of strict comparisons against `highest - interval * k`
    picks one of the ten palette entries. Bucket 0 is `colors.one` (lowest),
    bucket 9 is `colors.ten` (highest). */
module Binner {
  import opened Basics

  /** Number of palette entries (`colors.one` … `colors.ten`). */
  const ColourCount := 10

  /** Factor applied to every rate before binning. */
  const ColourMultiplier := 10000

  type Colour = string

  type Palette = p: seq<Colour> | |p| == ColourCount
    witness ["", "", "", "", "", "", "", "", "", ""]

  /** `parseInt(rate * colorMultiplier)`. */
  function Scale(rate: real): (n: int)
    ensures 0.0 <= rate ==> 0 <= n && n as real <= rate * 10000.0 < n as real + 1.0
  {
    Trunc(rate * ColourMultiplier as real)
  }

  lemma ScaleMonotone(a: real, b: real)
    requires 0.0 <= a <= b
    ensures Scale(a) <= Scale(b)
  {
    TruncMonotone(a * 10000.0, b * 10000.0);
  }

  /** `Math.round(range / colourCount)`: JavaScript rounds to the nearest integer,
      halves upward, i.e. floor(x + 1/2). */
  function Interval(range: int): (interval: int)
    ensures interval == (range + 5) / 10
    ensures 0 <= range ==> 0 <= interval
    ensures interval == 0 <==> -5 <= range < 5
  {
    var q := (range + 5) / 10;
    var r := (range + 5) % 10;
    assert (range as real) / 10.0 + 0.5 == q as real + (r as real) / 10.0;
    ((range as real) / (ColourCount as real) + 0.5).Floor
  }

  /** `interval` of a population with the given extremes. */
  function Width(lowest: int, highest: int): int
  {
    Interval(highest - lowest)
  }

  /** The k-th threshold `heighest - interval * k` of the cascade. */
  function Threshold(highest: int, interval: int, k: int): int
  {
    highest - interval * k
  }

  /** The `switch (true)` cascade from case k on: the first case k with
      `value > Threshold(k)` picks bucket 10 - k; when none of the nine cases
      holds, the default picks bucket 0 (see CascadeFirstMatch). */
  function Cascade(value: int, highest: int, interval: int, k: int): (bucket: nat)
    requires 1 <= k <= ColourCount
    decreases ColourCount - k
    ensures bucket <= ColourCount - k
  {
    if k == ColourCount then 0
    else if value > Threshold(highest, interval, k) then ColourCount - k
    else Cascade(value, highest, interval, k + 1)
  }

  /** The cascade from case k picks bucket b exactly by the first-match rule:
      b > 0 only when the value is strictly above threshold 10 - b, and the value
      is at or below every threshold tested before it. */
  lemma {:induction false} CascadeFirstMatch(value: int, highest: int, interval: int, k: int)
    requires 1 <= k <= ColourCount
    decreases ColourCount - k
    ensures var bucket := Cascade(value, highest, interval, k);
            && (bucket > 0 ==> value > Threshold(highest, interval, ColourCount - bucket))
            && forall j :: k <= j < ColourCount - bucket ==> value <= Threshold(highest, interval, j)
  {
    if k < ColourCount && value <= Threshold(highest, interval, k) {
      CascadeFirstMatch(value, highest, interval, k + 1);
    }
  }

  /** Palette index of a scaled value, given the population's lowest and highest
      scaled values: the whole cascade. */
  function Bucket(value: int, lowest: int, highest: int): (bucket: nat)
    ensures bucket < ColourCount
  {
    Cascade(value, highest, Width(lowest, highest), 1)
  }

  /** The bucket follows the first-match rule of the cascade: either bucket
      b > 0 with the value strictly above threshold 10 - b and at or below every
      earlier threshold, or bucket 0 with the value at or below all nine. */
  lemma BucketFirstMatch(value: int, lowest: int, highest: int)
    ensures var bucket := Bucket(value, lowest, highest);
            && (bucket > 0 ==> value > Threshold(highest, Width(lowest, highest), ColourCount - bucket))
            && forall k :: 1 <= k < ColourCount - bucket ==> value <= Threshold(highest, Width(lowest, highest), k)
  {
    CascadeFirstMatch(value, highest, Width(lowest, highest), 1);
  }

  /** The style colour of a scaled value. */
  function ColourOf(palette: Palette, value: int, lowest: int, highest: int): Colour
  {
    palette[Bucket(value, lowest, highest)]
  }

  /** Colouring is monotone in the value, for any population. */
  lemma BucketMonotone(v1: int, v2: int, lowest: int, highest: int)
    requires v2 <= v1
    ensures Bucket(v2, lowest, highest) <= Bucket(v1, lowest, highest)
  {
    BucketFirstMatch(v1, lowest, highest);
    BucketFirstMatch(v2, lowest, highest);
  }

  /** A value exactly on threshold k (with a positive interval) is not in bucket
      10 - k but in the bucket just below it: the tests are strict. */
  lemma OnThresholdFallsBelow(value: int, lowest: int, highest: int, k: int)
    requires 1 <= k < ColourCount
    requires Width(lowest, highest) > 0
    requires value == Threshold(highest, Width(lowest, highest), k)
    ensures Bucket(value, lowest, highest) == ColourCount - 1 - k
  {
    BucketFirstMatch(value, lowest, highest);
  }

  /** When the range is below 5 the interval rounds to 0 and every value of the
      population (at most the highest) gets `colors.one`. */
  lemma DegenerateRangeGivesLowest(value: int, lowest: int, highest: int)
    requires 0 <= highest - lowest < 5
    requires value <= highest
    ensures Bucket(value, lowest, highest) == 0
  {
    BucketFirstMatch(value, lowest, highest);
  }

  /** A one-value population is coloured `colors.one`. */
  lemma SingleValueGivesLowest(value: int)
    ensures Bucket(value, value, value) == 0
  {
    DegenerateRangeGivesLowest(value, value, value);
  }

  /** With a positive interval, the highest value gets `colors.ten`. */
  lemma HighestGetsTop(lowest: int, highest: int)
    requires highest - lowest >= 5
    ensures Bucket(highest, lowest, highest) == ColourCount - 1
  {
    assert highest > Threshold(highest, Width(lowest, highest), 1);
    BucketFirstMatch(highest, lowest, highest);
  }

  /** Min/max by scanning once; the source sorts the population in place and
      takes the first and last entries, which are the same values
      (see SortedEnds). */
  method Extremes(values: seq<int>) returns (lowest: int, highest: int)
    requires |values| > 0
    ensures lowest in values && highest in values
    ensures forall i :: 0 <= i < |values| ==> lowest <= values[i] <= highest
    ensures lowest == Min(values) && highest == Max(values)
  {
    lowest, highest := values[0], values[0];
    var i := 1;
    while i < |values|
      invariant 1 <= i <= |values|
      invariant lowest in values[..i] && highest in values[..i]
      invariant forall j :: 0 <= j < i ==> lowest <= values[j] <= highest
    {
      if values[i] < lowest {
        lowest := values[i];
      }
      if values[i] > highest {
        highest := values[i];
      }
      i := i + 1;
    }
    assert values[..i] == values;
  }

  ghost predicate SortedAscending(s: seq<int>)
  {
    forall i, j :: 0 <= i < j < |s| ==> s[i] <= s[j]
  }

  /** `rates.sort((a, b) => a - b)[0]` and `[rates.length - 1]` are the minimum
      and maximum: this holds for every ascending permutation. */
  lemma SortedEnds(values: seq<int>, sorted: seq<int>)
    requires |values| > 0
    requires multiset(sorted) == multiset(values)
    requires SortedAscending(sorted)
    ensures |sorted| == |values|
    ensures sorted[0] == Min(values) && sorted[|sorted| - 1] == Max(values)
  {
    assert |sorted| == |multiset(sorted)| == |values|;
    assert Min(values) in multiset(sorted);
    assert Max(values) in multiset(sorted);
    assert sorted[0] in multiset(values);
    assert sorted[|sorted| - 1] in multiset(values);
  }

  /** Extremes, and hence every bucket, depend only on the multiset of values:
      permuting the population changes no colour. */
  lemma PermutedExtremes(a: seq<int>, b: seq<int>)
    requires |a| > 0
    requires multiset(a) == multiset(b)
    ensures |b| > 0
    ensures Min(a) == Min(b) && Max(a) == Max(b)
  {
    assert |a| == |multiset(a)| == |b|;
    assert Min(a) in multiset(b) && Max(a) in multiset(b);
    assert Min(b) in multiset(a) && Max(b) in multiset(a);
  }
}
