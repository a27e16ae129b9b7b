/** The older sampler of trademgen/basic/ContinuousAttribute.hpp: it turns the distribution into
    a multimap from cumulative probability to value and looks probabilities up there.  The module
    compares it with the sampler that replaced it. */
module ContinuousAttribute {
  import opened RealArithmetic
  import opened Search
  import opened ContinuousAttributeLite

  /** An entry of the inverse multimap: the key comes first. */
  datatype Entry = Entry(key: real, value: real)

  function Keys(m: seq<Entry>): seq<real> {
    seq(|m|, i requires 0 <= i < |m| => m[i].key)
  }

  /** A multimap keeps a new entry behind the entries of the same key. */
  function Insert(m: seq<Entry>, e: Entry): seq<Entry> {
    var at := FirstAbove(Keys(m), e.key);
    m[..at] + [e] + m[at..]
  }

  /** The lookup; past the last key the C++ code would dereference the end iterator. */
  function OldQuantile(m: seq<Entry>, p: real): real
    requires m != [] && NonDecreasing(Keys(m)) && p <= m[|m| - 1].key
  {
    var next := LowerBound(Keys(m), p);
    assert Keys(m)[|m| - 1] == m[|m| - 1].key;
    if next == 0 then m[0].value
    else if m[next].key == m[next - 1].key then m[next - 1].value
    else Interpolate(m[next - 1].value, m[next].value, m[next - 1].key, m[next].key, p)
  }

  /** The knots with key and value exchanged, in the order of the values. */
  function Swapped(d: Distribution): seq<Entry>
    requires |d.values| == |d.cumulatives|
  {
    seq(|d.values|, i requires 0 <= i < |d.values| => Entry(d.cumulatives[i], d.values[i]))
  }

  lemma InsertKeepsOrder(m: seq<Entry>, e: Entry)
    requires NonDecreasing(Keys(m))
    ensures NonDecreasing(Keys(Insert(m, e)))
  {
    var keys, at := Keys(m), FirstAbove(Keys(m), e.key);
    assert Keys(Insert(m, e)) == keys[..at] + [e.key] + keys[at..];
    KeysStaySorted(keys, e.key, at);
  }

  lemma KeysStaySorted(keys: seq<real>, key: real, at: nat)
    requires NonDecreasing(keys) && at <= |keys|
    requires forall k :: 0 <= k < at ==> keys[k] <= key
    requires at < |keys| ==> key < keys[at]
    ensures NonDecreasing(keys[..at] + [key] + keys[at..])
  {
    assert forall k :: at <= k < |keys| ==> key <= keys[k];
  }

  lemma InsertAddsOne(m: seq<Entry>, e: Entry)
    ensures multiset(Insert(m, e)) == multiset(m) + multiset{e}
  {
    var at := FirstAbove(Keys(m), e.key);
    assert m == m[..at] + m[at..];
  }

  lemma InsertAtEnd(m: seq<Entry>, e: Entry)
    requires forall k :: 0 <= k < |m| ==> m[k].key <= e.key
    ensures Insert(m, e) == m + [e]
  {
    FirstAboveIsUnique(Keys(m), e.key, |m|);
  }

  /** m is the inverse multimap of the first i knots of d: ordered by cumulative probability and,
      for a monotone distribution, in the order of the values. */
  ghost predicate Inverts(m: seq<Entry>, d: Distribution, i: nat)
    requires i <= |d.values| == |d.cumulatives|
  {
    && NonDecreasing(Keys(m))
    && multiset(m) == multiset(Swapped(d)[..i])
    && (NonDecreasing(d.cumulatives) ==> m == Swapped(d)[..i])
  }

  lemma InsertInverts(m: seq<Entry>, d: Distribution, i: nat)
    requires i < |d.values| == |d.cumulatives|
    requires Inverts(m, d, i)
    ensures Inverts(Insert(m, Entry(d.cumulatives[i], d.values[i])), d, i + 1)
  {
    var e := Entry(d.cumulatives[i], d.values[i]);
    InsertKeepsOrder(m, e);
    InsertAddsOne(m, e);
    assert Swapped(d)[..i + 1] == Swapped(d)[..i] + [e];
    if NonDecreasing(d.cumulatives) {
      InsertAtEnd(m, e);
    }
  }

  class ContinuousAttribute {
    const cumulativeDistribution: Distribution
    var inverseCumulativeDistribution: seq<Entry>

    /** The distribution is a multimap too: it may be empty or repeat a value. */
    constructor (knots: seq<Knot>)
      ensures cumulativeDistribution == FromKnots(knots)
      ensures IsInverse()
    {
      cumulativeDistribution := FromKnots(knots);
      inverseCumulativeDistribution := [];
      new;
      DetermineInverseCumulativeDistributionFromCumulativeDistribution();
    }

    /** The multimap holds exactly the exchanged knots. */
    ghost predicate IsInverse()
      reads this
    {
      && |cumulativeDistribution.values| == |cumulativeDistribution.cumulatives|
      && Inverts(inverseCumulativeDistribution, cumulativeDistribution, |cumulativeDistribution.values|)
    }

    method DetermineInverseCumulativeDistributionFromCumulativeDistribution()
      requires |cumulativeDistribution.values| == |cumulativeDistribution.cumulatives|
      requires inverseCumulativeDistribution == []
      modifies this
      ensures IsInverse()
    {
      for i := 0 to |cumulativeDistribution.values|
        invariant Inverts(inverseCumulativeDistribution, cumulativeDistribution, i)
      {
        InsertInverts(inverseCumulativeDistribution, cumulativeDistribution, i);
        inverseCumulativeDistribution :=
          Insert(inverseCumulativeDistribution,
                 Entry(cumulativeDistribution.cumulatives[i], cumulativeDistribution.values[i]));
      }
    }

    method GetValue(p: real) returns (v: real)
      requires IsInverse() && inverseCumulativeDistribution != []
      requires p <= inverseCumulativeDistribution[|inverseCumulativeDistribution| - 1].key
      ensures v == OldQuantile(inverseCumulativeDistribution, p)
      ensures NonDecreasing(cumulativeDistribution.cumulatives) ==>
                inverseCumulativeDistribution == Swapped(cumulativeDistribution)
    {
      var m := inverseCumulativeDistribution;
      assert Swapped(cumulativeDistribution)[..|cumulativeDistribution.values|] == Swapped(cumulativeDistribution);
      assert Keys(m)[|m| - 1] == m[|m| - 1].key;
      var it := LowerBound(Keys(m), p);
      var next, valueNext := m[it].key, m[it].value;
      if it == 0 { return valueNext; }
      it := it - 1;
      var previous, valuePrevious := m[it].key, m[it].value;
      if next == previous { return valuePrevious; }
      v := valuePrevious + (valueNext - valuePrevious) * (p - previous) / (next - previous);
    }
  }

  /** p is the height of a plateau: two neighbouring knots carry it. */
  ghost predicate OnPlateau(d: Distribution, p: real)
    requires IsDistribution(d)
  {
    exists k :: 0 <= k < |d.values| - 1 && d.cumulatives[k] == p && d.cumulatives[k + 1] == p
  }

  lemma SwappedIsSorted(d: Distribution)
    requires IsMonotone(d)
    ensures Keys(Swapped(d)) == d.cumulatives
  {
  }

  /** On the height of a knot the older lookup returns the first knot that carries it; elsewhere
      it returns what the newer lookup does. */
  lemma OldQuantileValue(d: Distribution, p: real)
    requires IsMonotone(d) && p <= Last(d.cumulatives)
    ensures NonDecreasing(Keys(Swapped(d))) && LowerBound(d.cumulatives, p) < |d.values|
    ensures OldQuantile(Swapped(d), p) == if p == d.cumulatives[LowerBound(d.cumulatives, p)]
                                          then d.values[LowerBound(d.cumulatives, p)]
                                          else Quantile(d, p)
  {
    SwappedIsSorted(d);
    var j := LowerBound(d.cumulatives, p);
    assert Last(d.cumulatives) == d.cumulatives[|d.values| - 1];
    if p == d.cumulatives[j] {
      if 0 < j { InterpolateEnds(d.values[j - 1], d.values[j], d.cumulatives[j - 1], d.cumulatives[j]); }
    } else {
      FirstAboveIsUnique(d.cumulatives, p, j);
      EqualCumulativesUnreachable(d, p);
    }
  }

  /** The newer lookup stops on the last knot that carries p. */
  lemma QuantileAtKnot(d: Distribution, p: real)
    requires IsMonotone(d) && p in d.cumulatives
    ensures var i := FirstAbove(d.cumulatives, p);
            0 < i && d.cumulatives[i - 1] == p && Quantile(d, p) == d.values[i - 1]
  {
    var i := FirstAbove(d.cumulatives, p);
    var k :| 0 <= k < |d.cumulatives| && d.cumulatives[k] == p;
    assert k < i && d.cumulatives[k] <= d.cumulatives[i - 1] <= p;
    if i < |d.values| {
      InterpolateEnds(d.values[i - 1], d.values[i], d.cumulatives[i - 1], d.cumulatives[i]);
    }
  }

  /** A plateau is what the two searches disagree on by more than one knot. */
  lemma PlateauSpan(d: Distribution, p: real)
    requires IsMonotone(d)
    ensures OnPlateau(d, p) <==> LowerBound(d.cumulatives, p) + 1 < FirstAbove(d.cumulatives, p)
  {
    var j, i := LowerBound(d.cumulatives, p), FirstAbove(d.cumulatives, p);
    if j + 1 < i {
      assert d.cumulatives[j] <= d.cumulatives[j + 1] <= p;
    }
  }

  /** The two lookups agree unless p is the height of a plateau; there the older one returns the
      left end of the plateau and the newer one its right end, so the older one is smaller. */
  lemma OldAgreesExactlyOffPlateaus(d: Distribution, p: real)
    requires IsMonotone(d) && p <= Last(d.cumulatives)
    ensures NonDecreasing(Keys(Swapped(d)))
    ensures OldQuantile(Swapped(d), p) <= Quantile(d, p)
    ensures OldQuantile(Swapped(d), p) == Quantile(d, p) <==> !OnPlateau(d, p)
    ensures OnPlateau(d, p) ==>
              && OldQuantile(Swapped(d), p) == d.values[LowerBound(d.cumulatives, p)]
              && Quantile(d, p) == d.values[FirstAbove(d.cumulatives, p) - 1]
  {
    OldQuantileValue(d, p);
    PlateauSpan(d, p);
    var j, i := LowerBound(d.cumulatives, p), FirstAbove(d.cumulatives, p);
    if p == d.cumulatives[j] {
      QuantileAtKnot(d, p);
    }
  }
}
