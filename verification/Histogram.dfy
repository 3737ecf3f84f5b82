/** The duration histogram: bucket counters that are not cumulative in memory and become so when rendered. */
module Histogram {
  import opened Text

  /** Upper bounds in milliseconds. */
  const BOUNDS: seq<nat> := [1, 5, 10, 25, 50, 100, 250, 500, 1000, 5000, 30000, 300000]

  predicate Increasing(bounds: seq<nat>) {
    forall i, j | 0 <= i < j < |bounds| :: bounds[i] < bounds[j]
  }

  lemma BoundsIncrease()
    ensures Increasing(BOUNDS)
  {
  }

  /** The bucket an observation lands in; `|bounds|` when it is above all of them. */
  function BucketOf(bounds: seq<nat>, millis: nat): (b: nat)
    ensures b <= |bounds| && (forall i | 0 <= i < b :: bounds[i] < millis) && (b < |bounds| ==> millis <= bounds[b])
  {
    BucketFrom(bounds, millis, 0)
  }

  function BucketFrom(bounds: seq<nat>, millis: nat, from: nat): (b: nat)
    requires from <= |bounds| && forall i | 0 <= i < from :: bounds[i] < millis
    ensures from <= b <= |bounds| && (forall i | 0 <= i < b :: bounds[i] < millis)
            && (b < |bounds| ==> millis <= bounds[b])
    decreases |bounds| - from
  {
    if from == |bounds| || millis <= bounds[from] then from else BucketFrom(bounds, millis, from + 1)
  }

  /** How many observations are at most `bound`. */
  function AtMost(observed: seq<nat>, bound: nat): nat {
    if observed == [] then 0
    else AtMost(observed[..|observed| - 1], bound) + (if observed[|observed| - 1] <= bound then 1 else 0)
  }

  function InBucket(bounds: seq<nat>, observed: seq<nat>, b: nat): nat {
    if observed == [] then 0
    else InBucket(bounds, observed[..|observed| - 1], b)
         + (if BucketOf(bounds, observed[|observed| - 1]) == b then 1 else 0)
  }

  function Total(micros: seq<nat>): nat {
    if micros == [] then 0 else Total(micros[..|micros| - 1]) + micros[|micros| - 1]
  }

  class Histogram {
    const bounds: seq<nat>
    var buckets: array<nat>
    var count: nat
    var sumMicros: nat
    /** Everything observed so far, in microseconds. */
    ghost var micros: seq<nat>

    ghost predicate Valid()
      reads this, buckets
    {
      && Increasing(bounds) && buckets.Length == |bounds|
      && (forall b | 0 <= b < |bounds| :: buckets[b] == InBucket(bounds, Millis(micros), b))
      && count == |micros|
      && sumMicros == Total(micros)
    }

    constructor ()
      ensures Valid() && bounds == BOUNDS && micros == [] && fresh(buckets)
    {
      BoundsIncrease();
      bounds := BOUNDS;
      buckets := new nat[|BOUNDS|](_ => 0);
      count, sumMicros, micros := 0, 0, [];
    }

    method Observe(duration: nat)
      requires Valid()
      modifies this, buckets
      ensures Valid() && micros == old(micros) + [duration] && buckets == old(buckets)
    {
      var millis := duration / 1000;
      var index := 0;
      while index < |bounds| && millis > bounds[index]
        invariant index <= |bounds| && forall i | 0 <= i < index :: bounds[i] < millis
      {
        index := index + 1;
      }
      MillisAppends(bounds, micros, duration);
      assert BucketOf(bounds, millis) == index;
      if index < |bounds| {
        buckets[index] := buckets[index] + 1;
      }
      count := count + 1;
      sumMicros := sumMicros + duration;
      micros := micros + [duration];
      assert micros[..|micros| - 1] == old(micros);
    }

    /** What is rendered for each bound is the number of observations not above it, and `+Inf` and `_count` are all. */
    method Render() returns (cumulative: seq<nat>, infinity: nat, total: nat)
      requires Valid()
      ensures |cumulative| == |bounds|
      ensures forall b | 0 <= b < |bounds| :: cumulative[b] == AtMost(Millis(micros), bounds[b])
      ensures infinity == |micros| && total == Total(micros)
      ensures forall b, c | 0 <= b < c < |bounds| :: cumulative[b] <= cumulative[c] <= infinity
    {
      cumulative := [];
      var running := 0;
      for b := 0 to |bounds|
        invariant |cumulative| == b
        invariant running == if b == 0 then 0 else AtMost(Millis(micros), bounds[b - 1])
        invariant forall c | 0 <= c < b :: cumulative[c] == AtMost(Millis(micros), bounds[c])
      {
        NextBucket(bounds, Millis(micros), b);
        running := running + buckets[b];
        cumulative := cumulative + [running];
      }
      infinity, total := count, sumMicros;
      forall b, c | 0 <= b < c < |bounds| ensures cumulative[b] <= cumulative[c] <= infinity {
        AtMostMonotone(Millis(micros), bounds[b], bounds[c]);
      }
    }
  }

  /** `as_millis` drops the fraction. */
  function Millis(micros: seq<nat>): (millis: seq<nat>)
    ensures |millis| == |micros|
  {
    if micros == [] then [] else Millis(micros[..|micros| - 1]) + [micros[|micros| - 1] / 1000]
  }

  lemma MillisAppends(bounds: seq<nat>, micros: seq<nat>, duration: nat)
    ensures Millis(micros + [duration]) == Millis(micros) + [duration / 1000]
    ensures forall b ::
            InBucket(bounds, Millis(micros + [duration]), b) ==
            InBucket(bounds, Millis(micros), b) + (if BucketOf(bounds, duration / 1000) == b then 1 else 0)
  {
    assert (micros + [duration])[..|micros|] == micros;
    var all := Millis(micros) + [duration / 1000];
    assert all[..|all| - 1] == Millis(micros);
  }

  /** An observation is not above a bound exactly when its bucket is not after the bound's. */
  lemma BucketBelow(bounds: seq<nat>, millis: nat, b: nat)
    requires Increasing(bounds) && b < |bounds|
    ensures BucketOf(bounds, millis) <= b <==> millis <= bounds[b]
  {
  }

  /** Adding the next bucket turns the count for one bound into the count for the next. */
  lemma {:induction false} NextBucket(bounds: seq<nat>, observed: seq<nat>, b: nat)
    requires Increasing(bounds) && b < |bounds|
    ensures AtMost(observed, bounds[b]) ==
            (if b == 0 then 0 else AtMost(observed, bounds[b - 1])) + InBucket(bounds, observed, b)
  {
    if observed == [] {
    } else {
      var x := observed[|observed| - 1];
      NextBucket(bounds, observed[..|observed| - 1], b);
      BucketBelow(bounds, x, b);
      if b > 0 {
        BucketBelow(bounds, x, b - 1);
      }
    }
  }

  lemma {:induction false} AtMostMonotone(observed: seq<nat>, low: nat, high: nat)
    requires low <= high
    ensures AtMost(observed, low) <= AtMost(observed, high) <= |observed|
  {
    if observed == [] {
    } else {
      AtMostMonotone(observed[..|observed| - 1], low, high);
    }
  }

  // ---------------------------------------------------------------------------------------------
  // Bounds in seconds
  // ---------------------------------------------------------------------------------------------

  function ThreeDigits(n: nat): string
    requires n < 1000
  {
    [DigitChar(n / 100), DigitChar(n / 10 % 10), DigitChar(n % 10)]
  }

  /** Whole seconds without a fraction, others with three digits of it. */
  function SecondsString(millis: nat): string {
    if millis % 1000 == 0 then Decimal(millis / 1000)
    else Decimal(millis / 1000) + "." + ThreeDigits(millis % 1000)
  }

  /** The labels under which the buckets are exported: fractions of a second, ... */
  lemma FractionLabels()
    ensures |BOUNDS| == 12
    ensures SecondsString(BOUNDS[0]) == "0.001" && SecondsString(BOUNDS[1]) == "0.005"
    ensures SecondsString(BOUNDS[2]) == "0.010" && SecondsString(BOUNDS[3]) == "0.025"
    ensures SecondsString(BOUNDS[4]) == "0.050" && SecondsString(BOUNDS[5]) == "0.100"
    ensures SecondsString(BOUNDS[6]) == "0.250" && SecondsString(BOUNDS[7]) == "0.500"
  {
    FractionLabel(BOUNDS[0], 0, 0, 1, "0.001");
    FractionLabel(BOUNDS[1], 0, 0, 5, "0.005");
    FractionLabel(BOUNDS[2], 0, 1, 0, "0.010");
    FractionLabel(BOUNDS[3], 0, 2, 5, "0.025");
    FractionLabel(BOUNDS[4], 0, 5, 0, "0.050");
    FractionLabel(BOUNDS[5], 1, 0, 0, "0.100");
    FractionLabel(BOUNDS[6], 2, 5, 0, "0.250");
    FractionLabel(BOUNDS[7], 5, 0, 0, "0.500");
  }

  lemma FractionLabel(millis: nat, a: nat, b: nat, c: nat, text: string)
    requires a < 10 && b < 10 && c < 10 && 0 < millis == 100 * a + 10 * b + c
    requires text == "0." + [DigitChar(a), DigitChar(b), DigitChar(c)]
    ensures SecondsString(millis) == text
  {
    assert millis / 100 == a && millis / 10 % 10 == b && millis % 10 == c;
    assert Decimal(0) == "0";
  }

  /** ... and whole seconds. */
  lemma WholeLabels()
    ensures |BOUNDS| == 12
    ensures SecondsString(BOUNDS[8]) == "1" && SecondsString(BOUNDS[9]) == "5"
    ensures SecondsString(BOUNDS[10]) == "30" && SecondsString(BOUNDS[11]) == "300"
  {
    assert Decimal(1) == "1" && Decimal(5) == "5" && Decimal(3) == "3";
    assert Decimal(30) == "3" + "0" && Decimal(300) == "30" + "0";
  }

  lemma DigitsOf(n: nat)
    requires n < 1000
    ensures n == 100 * (n / 100) + 10 * (n / 10 % 10) + n % 10
  {
    assert n / 10 == 10 * (n / 100) + n / 10 % 10;
  }

  lemma DigitCharInjective(d: nat, e: nat)
    requires d < 10 && e < 10 && DigitChar(d) == DigitChar(e)
    ensures d == e
  {
  }

  lemma ThreeDigitsInjective(a: nat, b: nat)
    requires a < 1000 && b < 1000 && ThreeDigits(a) == ThreeDigits(b)
    ensures a == b
  {
    DigitsOf(a);
    DigitsOf(b);
    var s, t := ThreeDigits(a), ThreeDigits(b);
    assert s[0] == t[0] && s[1] == t[1] && s[2] == t[2];
    DigitCharInjective(a / 100, b / 100);
    DigitCharInjective(a / 10 % 10, b / 10 % 10);
    DigitCharInjective(a % 10, b % 10);
  }

  lemma PointIffFraction(millis: nat)
    ensures '.' in SecondsString(millis) <==> millis % 1000 != 0
  {
    assert '.' !in Decimal(millis / 1000);
    if millis % 1000 != 0 {
      assert SecondsString(millis)[|Decimal(millis / 1000)|] == '.';
    }
  }

  /** Different bounds have different labels. */
  lemma SecondsStringInjective(a: nat, b: nat)
    requires SecondsString(a) == SecondsString(b)
    ensures a == b
  {
    PointIffFraction(a);
    PointIffFraction(b);
    if a % 1000 == 0 {
      DecimalInjective(a / 1000, b / 1000);
    } else {
      SameFraction(SecondsString(a), a / 1000, a % 1000, b / 1000, b % 1000);
    }
  }

  lemma SameFraction(s: string, a: nat, m: nat, b: nat, n: nat)
    requires m < 1000 && n < 1000
    requires s == Decimal(a) + "." + ThreeDigits(m) == Decimal(b) + "." + ThreeDigits(n)
    ensures a == b && m == n
  {
    FindAt(Decimal(a), '.', ThreeDigits(m));
    FindAt(Decimal(b), '.', ThreeDigits(n));
    assert Decimal(a) == s[..|Decimal(a)|] == Decimal(b);
    assert ThreeDigits(m) == s[|Decimal(a)| + 1..] == ThreeDigits(n);
    DecimalInjective(a, b);
    ThreeDigitsInjective(m, n);
  }
}
