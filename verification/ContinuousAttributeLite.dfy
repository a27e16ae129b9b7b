/** The piecewise-linear sampler of trademgen/basic/ContinuousAttributeLite.hpp.
    A distribution is a list of knots (value, cumulative probability) in increasing order of
    value; the sampler inverts the cumulative distribution by a search and an interpolation. */
module ContinuousAttributeLite {
  import opened RealArithmetic
  import opened Search

  /** One entry of the map that the sampler is built from. */
  datatype Knot = Knot(value: real, cumulative: real)

  /** The two parallel arrays of the sampler. */
  datatype Distribution = Distribution(values: seq<real>, cumulatives: seq<real>)

  /** What a non-empty std::map gives: as many cumulatives as values, values strictly increasing.
      Nothing is known of the cumulatives. */
  ghost predicate IsDistribution(d: Distribution) {
    0 < |d.values| == |d.cumulatives| && StrictlyIncreasing(d.values)
  }

  ghost predicate IsMonotone(d: Distribution) {
    IsDistribution(d) && NonDecreasing(d.cumulatives)
  }

  function Last(s: seq<real>): real
    requires s != []
  {
    s[|s| - 1]
  }

  /** The inverse cumulative distribution, with the branches of the C++ lookup. */
  function Quantile(d: Distribution, p: real): real
    requires IsDistribution(d)
  {
    var idx := FirstAbove(d.cumulatives, p);
    if idx == 0 then d.values[0]
    else if idx == |d.values| then d.values[idx - 1]
    else if d.cumulatives[idx - 1] == d.cumulatives[idx] then d.values[idx - 1]
    else Interpolate(d.values[idx - 1], d.values[idx], d.cumulatives[idx - 1], d.cumulatives[idx], p)
  }

  /** The cumulative distribution itself: the reference that Quantile inverts. */
  ghost function Cdf(d: Distribution, x: real): real
    requires IsDistribution(d)
  {
    var idx := FirstAbove(d.values, x);
    if idx == 0 then d.cumulatives[0]
    else if idx == |d.values| then d.cumulatives[idx - 1]
    else Interpolate(d.cumulatives[idx - 1], d.cumulatives[idx], d.values[idx - 1], d.values[idx], x)
  }

  /** x lies on some segment: the two index assertions of the derivative and bound lookups. */
  ghost predicate OnSegment(d: Distribution, x: real) {
    IsDistribution(d) && d.values[0] <= x < Last(d.values)
  }

  function UpperBound(d: Distribution, x: real): real
    requires OnSegment(d, x)
  {
    d.values[FirstAbove(d.values, x)]
  }

  /** The slope of the line through (v0, c0) and (v1, c1). */
  function Rise(v0: real, v1: real, c0: real, c1: real): real
    requires v0 != v1
  {
    (c1 - c0) / (v1 - v0)
  }

  function Slope(d: Distribution, x: real): real
    requires OnSegment(d, x)
  {
    var idx := FirstAbove(d.values, x);
    Rise(d.values[idx - 1], d.values[idx], d.cumulatives[idx - 1], d.cumulatives[idx])
  }

  // ---------------------------------------------------------------- Facts about the search

  lemma SegmentIndex(d: Distribution, x: real)
    requires OnSegment(d, x)
    ensures 0 < FirstAbove(d.values, x) < |d.values|
  {
    assert d.values[|d.values| - 1] > x;
  }

  /** Where the search stops strictly inside the array the two cumulatives differ, whatever
      their order: the branch for equal cumulatives is never taken. */
  lemma EqualCumulativesUnreachable(d: Distribution, p: real)
    requires IsDistribution(d)
    ensures var idx := FirstAbove(d.cumulatives, p);
            0 < idx < |d.values| ==>
              && d.cumulatives[idx - 1] <= p < d.cumulatives[idx]
              && Quantile(d, p) == Interpolate(d.values[idx - 1], d.values[idx],
                                               d.cumulatives[idx - 1], d.cumulatives[idx], p)
  {
    var idx := FirstAbove(d.cumulatives, p);
    assert 0 < idx ==> d.cumulatives[idx - 1] <= p;
  }

  // ---------------------------------------------------------------- The quantile function

  /** A value found inside the array lies in the half-open segment that the search selects. */
  lemma QuantileInSegment(d: Distribution, p: real)
    requires IsDistribution(d)
    ensures var idx := FirstAbove(d.cumulatives, p);
            0 < idx < |d.values| ==> d.values[idx - 1] <= Quantile(d, p) < d.values[idx]
  {
    var idx := FirstAbove(d.cumulatives, p);
    if 0 < idx < |d.values| {
      EqualCumulativesUnreachable(d, p);
      InterpolateBetween(d.values[idx - 1], d.values[idx], d.cumulatives[idx - 1], d.cumulatives[idx], p);
    }
  }

  /** Results stay between the end knots; below the first cumulative and from the largest
      cumulative on they are exactly the end knots. */
  lemma QuantileClamped(d: Distribution, p: real)
    requires IsDistribution(d)
    ensures d.values[0] <= Quantile(d, p) <= Last(d.values)
    ensures p < d.cumulatives[0] ==> Quantile(d, p) == d.values[0]
    ensures (forall c :: c in d.cumulatives ==> c <= p) ==> Quantile(d, p) == Last(d.values)
  {
    QuantileInSegment(d, p);
    var idx := FirstAbove(d.cumulatives, p);
    if 0 < idx < |d.values| {
      assert d.values[0] <= d.values[idx - 1] && d.values[idx] <= Last(d.values);
      assert d.cumulatives[idx] in d.cumulatives;
    } else if idx == 0 {
      assert d.cumulatives[0] in d.cumulatives;
    } else {
      assert d.cumulatives[0] <= p;
    }
  }

  /** The lookup is monotone in the probability, even for unsorted cumulatives. */
  lemma QuantileMonotone(d: Distribution, p: real, q: real)
    requires IsDistribution(d) && p <= q
    ensures Quantile(d, p) <= Quantile(d, q)
  {
    hide Quantile, Interpolate, FirstAbove;
    var i, j := FirstAbove(d.cumulatives, p), FirstAbove(d.cumulatives, q);
    FirstAboveMonotone(d.cumulatives, p, q);
    QuantileClamped(d, p);
    QuantileClamped(d, q);
    QuantileInSegment(d, p);
    QuantileInSegment(d, q);
    if 0 < i == j < |d.values| {
      EqualCumulativesUnreachable(d, p);
      EqualCumulativesUnreachable(d, q);
      InterpolateMonotone(d.values[i - 1], d.values[i], d.cumulatives[i - 1], d.cumulatives[i], p, q);
    } else if 0 < i < j < |d.values| {
      assert d.values[i] <= d.values[j - 1];
    }
  }

  // ---------------------------------------------------------------- Quantile inverts Cdf

  lemma CdfInSegment(d: Distribution, x: real)
    requires IsMonotone(d)
    ensures var idx := FirstAbove(d.values, x);
            0 < idx < |d.values| ==> d.cumulatives[idx - 1] <= Cdf(d, x) <= d.cumulatives[idx]
  {
    var idx := FirstAbove(d.values, x);
    if 0 < idx < |d.values| {
      assert d.values[idx - 1] <= x;
      InterpolateBetween(d.cumulatives[idx - 1], d.cumulatives[idx], d.values[idx - 1], d.values[idx], x);
    }
  }

  lemma CdfBySearch(d: Distribution, x: real)
    requires IsDistribution(d)
    ensures var idx := FirstAbove(d.values, x);
            && (0 < idx < |d.values| ==>
                  Cdf(d, x) == Interpolate(d.cumulatives[idx - 1], d.cumulatives[idx],
                                           d.values[idx - 1], d.values[idx], x))
            && (idx == |d.values| ==> Cdf(d, x) == d.cumulatives[idx - 1])
  {
  }

  /** Two lines that invert one another order their points alike. */
  lemma SegmentGalois(v0: real, v1: real, c0: real, c1: real, x: real, p: real)
    requires v0 < v1 && c0 < c1
    ensures Interpolate(c0, c1, v0, v1, x) <= p <==> x <= Interpolate(v0, v1, c0, c1, p)
  {
    var q := Interpolate(v0, v1, c0, c1, p);
    InterpolateInverse(v0, v1, c0, c1, p);
    if x <= q { InterpolateMonotone(c0, c1, v0, v1, x, q); }
    if q < x { InterpolateMonotone(c0, c1, v0, v1, q, x); }
  }

  /** The lookup is the right generalised inverse of the cumulative distribution: Quantile(p) is
      the largest value whose cumulative probability does not exceed p. */
  lemma QuantileIsRightInverse(d: Distribution, x: real, p: real)
    requires IsMonotone(d) && d.values[0] <= x <= Last(d.values) && d.cumulatives[0] <= p
    ensures Cdf(d, x) <= p <==> x <= Quantile(d, p)
  {
    hide Cdf, Quantile, Interpolate, FirstAbove;
    var n, i, j := |d.values|, FirstAbove(d.cumulatives, p), FirstAbove(d.values, x);
    assert 0 < i && 0 < j;
    CdfInSegment(d, x);
    CdfBySearch(d, x);
    QuantileInSegment(d, p);
    QuantileClamped(d, p);
    EqualCumulativesUnreachable(d, p);
    if i == n {
      assert d.cumulatives[n - 1] <= p;
      assert j < n ==> d.cumulatives[j] <= d.cumulatives[n - 1];
      assert forall c :: c in d.cumulatives ==> c <= p;
    } else if j < i {
      assert d.values[j] <= d.values[i - 1] && d.cumulatives[j] <= d.cumulatives[i - 1];
    } else if i < j {
      assert d.values[i] <= d.values[j - 1] <= x && d.cumulatives[i] <= d.cumulatives[j - 1];
    } else {
      SegmentGalois(d.values[i - 1], d.values[i], d.cumulatives[i - 1], d.cumulatives[i], x, p);
    }
  }

  /** First round trip: every probability that the distribution covers is recovered. */
  lemma CdfOfQuantile(d: Distribution, p: real)
    requires IsMonotone(d) && d.cumulatives[0] <= p <= Last(d.cumulatives)
    ensures Cdf(d, Quantile(d, p)) == p
  {
    var n, i := |d.values|, FirstAbove(d.cumulatives, p);
    assert 0 < i;
    if i == n {
      assert d.cumulatives[n - 1] <= p;
      FirstAboveIsUnique(d.values, Last(d.values), n);
    } else {
      EqualCumulativesUnreachable(d, p);
      QuantileInSegment(d, p);
      var v := Quantile(d, p);
      assert forall k :: 0 <= k < i ==> d.values[k] <= d.values[i - 1] <= v;
      FirstAboveIsUnique(d.values, v, i);
      InterpolateInverse(d.values[i - 1], d.values[i], d.cumulatives[i - 1], d.cumulatives[i], p);
    }
  }

  /** Second round trip: without plateaus every value is recovered. */
  lemma QuantileOfCdf(d: Distribution, x: real)
    requires IsDistribution(d) && StrictlyIncreasing(d.cumulatives)
    requires d.values[0] <= x <= Last(d.values)
    ensures Quantile(d, Cdf(d, x)) == x
  {
    var n, j := |d.values|, FirstAbove(d.values, x);
    assert 0 < j;
    if j == n {
      FirstAboveIsUnique(d.cumulatives, Last(d.cumulatives), n);
    } else {
      var c := Cdf(d, x);
      InterpolateBetween(d.cumulatives[j - 1], d.cumulatives[j], d.values[j - 1], d.values[j], x);
      assert forall k :: 0 <= k < j ==> d.cumulatives[k] <= d.cumulatives[j - 1] <= c;
      FirstAboveIsUnique(d.cumulatives, c, j);
      InterpolateInverse(d.cumulatives[j - 1], d.cumulatives[j], d.values[j - 1], d.values[j], x);
    }
  }

  /** At the cumulative of a knot the lookup gives the value of the knot. */
  lemma QuantileOfKnot(d: Distribution, i: nat)
    requires IsDistribution(d) && StrictlyIncreasing(d.cumulatives) && i < |d.values|
    ensures Quantile(d, d.cumulatives[i]) == d.values[i]
  {
    hide Interpolate;
    FirstAboveIsUnique(d.cumulatives, d.cumulatives[i], i + 1);
    if i + 1 < |d.values| {
      InterpolateEnds(d.values[i], d.values[i + 1], d.cumulatives[i], d.cumulatives[i + 1]);
    }
  }

  // ---------------------------------------------------------------- Slope and upper bound

  lemma UpperBoundIsKnot(d: Distribution, x: real)
    requires OnSegment(d, x)
    ensures x < UpperBound(d, x) <= Last(d.values)
    ensures UpperBound(d, x) in d.values
    ensures FirstAbove(d.values, x) < FirstAbove(d.values, UpperBound(d, x))
    ensures forall v :: v in d.values && x < v ==> UpperBound(d, x) <= v
  {
    SegmentIndex(d, x);
    var idx := FirstAbove(d.values, x);
    FirstAboveMonotone(d.values, x, d.values[idx]);
  }

  /** Up to its upper bound, included, x's segment decides the cumulative distribution. */
  lemma CdfOnSegment(d: Distribution, x: real, y: real)
    requires OnSegment(d, x) && x <= y <= UpperBound(d, x)
    ensures 0 < FirstAbove(d.values, x) < |d.values|
    ensures var i := FirstAbove(d.values, x);
            Cdf(d, y) == Interpolate(d.cumulatives[i - 1], d.cumulatives[i], d.values[i - 1], d.values[i], y)
  {
    SegmentIndex(d, x);
    var i := FirstAbove(d.values, x);
    if y < d.values[i] {
      FirstAboveIsUnique(d.values, y, i);
    } else {
      InterpolateEnds(d.cumulatives[i - 1], d.cumulatives[i], d.values[i - 1], d.values[i]);
      assert i + 1 < |d.values| ==> y < d.values[i + 1];
      FirstAboveIsUnique(d.values, y, i + 1);
      if i + 1 < |d.values| {
        InterpolateEnds(d.cumulatives[i], d.cumulatives[i + 1], d.values[i], d.values[i + 1]);
      }
    }
  }

  lemma LinearSegment(c0: real, c1: real, v0: real, v1: real, x: real, y: real)
    requires v0 < v1
    ensures Interpolate(c0, c1, v0, v1, y) - Interpolate(c0, c1, v0, v1, x)
            == (c1 - c0) / (v1 - v0) * (y - x)
  {
    SlopeForm(c1 - c0, v1 - v0, x - v0);
    SlopeForm(c1 - c0, v1 - v0, y - v0);
    var s := (c1 - c0) / (v1 - v0);
    assert s * (y - v0) - s * (x - v0) == s * (y - x);
  }

  /** Slope and upper bound belong to the same segment: the slope at x is the exact rate of the
      distribution from x up to the upper bound of x, both ends included. */
  lemma SlopeUpToUpperBound(d: Distribution, x: real, y: real)
    requires OnSegment(d, x) && x <= y <= UpperBound(d, x)
    ensures Cdf(d, y) - Cdf(d, x) == Slope(d, x) * (y - x)
  {
    hide Interpolate, Cdf;
    SegmentIndex(d, x);
    var i := FirstAbove(d.values, x);
    var v0, v1, c0, c1 := d.values[i - 1], d.values[i], d.cumulatives[i - 1], d.cumulatives[i];
    CdfOnSegment(d, x, x);
    CdfOnSegment(d, x, y);
    LinearSegment(c0, c1, v0, v1, x, y);
    assert Slope(d, x) == (c1 - c0) / (v1 - v0);
  }

  lemma SlopePositive(d: Distribution, x: real)
    requires OnSegment(d, x) && StrictlyIncreasing(d.cumulatives)
    ensures 0.0 < Slope(d, x)
  {
    SegmentIndex(d, x);
    var i := FirstAbove(d.values, x);
    PositiveQuotient(d.cumulatives[i] - d.cumulatives[i - 1], d.values[i] - d.values[i - 1]);
  }

  // ---------------------------------------------------------------- The class

  /** The arrays that the constructor builds from the map. */
  function FromKnots(knots: seq<Knot>): Distribution {
    Distribution(seq(|knots|, i requires 0 <= i < |knots| => knots[i].value),
                 seq(|knots|, i requires 0 <= i < |knots| => knots[i].cumulative))
  }

  class ContinuousAttributeLite {
    const size: nat
    const cumulativeDistribution: seq<real>
    const valueArray: seq<real>

    ghost predicate Valid() {
      IsDistribution(Contents()) && size == |valueArray|
    }

    function Contents(): Distribution {
      Distribution(valueArray, cumulativeDistribution)
    }

    /** Browses the map, in its iteration order, and fills the two arrays.  An empty map gives empty
        arrays, on which nothing can be looked up. */
    constructor (knots: seq<Knot>)
      requires forall i, j :: 0 <= i < j < |knots| ==> knots[i].value < knots[j].value
      ensures Contents() == FromKnots(knots) && size == |knots|
      ensures knots != [] ==> Valid()
    {
      var cumulatives: seq<real>, values: seq<real> := [], [];
      for i := 0 to |knots|
        invariant |cumulatives| == |values| == i
        invariant forall k :: 0 <= k < i ==> values[k] == knots[k].value
        invariant forall k :: 0 <= k < i ==> cumulatives[k] == knots[k].cumulative
      {
        cumulatives := cumulatives + [knots[i].cumulative];
        values := values + [knots[i].value];
      }
      size, cumulativeDistribution, valueArray := |knots|, cumulatives, values;
    }

    method GetValue(p: real) returns (v: real)
      requires Valid()
      ensures v == Quantile(Contents(), p)
    {
      var idx := 0;
      while idx < size
        invariant idx <= size
        invariant forall k :: 0 <= k < idx ==> cumulativeDistribution[k] <= p
      {
        if cumulativeDistribution[idx] > p { break; }
        idx := idx + 1;
      }
      FirstAboveIsUnique(cumulativeDistribution, p, idx);
      if idx == 0 { return valueArray[idx]; }
      if idx == size { return valueArray[idx - 1]; }
      var current, previous := cumulativeDistribution[idx], cumulativeDistribution[idx - 1];
      var valueCurrent, valuePrevious := valueArray[idx], valueArray[idx - 1];
      v := if previous == current then valuePrevious
           else Interpolate(valuePrevious, valueCurrent, previous, current, p);
    }

    method GetDerivativeValue(x: real) returns (slope: real)
      requires Valid() && OnSegment(Contents(), x)
      ensures slope == Slope(Contents(), x)
    {
      hide Rise;
      var idx := 0;
      while idx < size
        invariant idx <= size
        invariant forall k :: 0 <= k < idx ==> valueArray[k] <= x
      {
        if valueArray[idx] > x { break; }
        idx := idx + 1;
      }
      FirstAboveIsUnique(valueArray, x, idx);
      SegmentIndex(Contents(), x);
      assert idx != 0 && idx != size && valueArray[idx] != valueArray[idx - 1];
      slope := Rise(valueArray[idx - 1], valueArray[idx], cumulativeDistribution[idx - 1], cumulativeDistribution[idx]);
    }

    method GetUpperBound(x: real) returns (bound: real)
      requires Valid() && OnSegment(Contents(), x)
      ensures bound == UpperBound(Contents(), x)
    {
      var idx := 0;
      while idx < size
        invariant idx <= size
        invariant forall k :: 0 <= k < idx ==> valueArray[k] <= x
      {
        if valueArray[idx] > x { break; }
        idx := idx + 1;
      }
      FirstAboveIsUnique(valueArray, x, idx);
      SegmentIndex(Contents(), x);
      assert idx != 0 && idx != size;
      bound := valueArray[idx];
    }
  }
}
