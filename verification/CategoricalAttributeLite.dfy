/** The sampler of trademgen/basic/CategoricalAttributeLite.hpp: it accumulates the positive
    masses of a probability mass function and looks values up by cumulative probability. */
module CategoricalAttributeLite {
  import opened Options
  import opened Search

  /** One entry of the probability mass function, a std::map: values are pairwise distinct. */
  datatype Mass<T> = Mass(value: T, mass: real)

  ghost predicate IsMassFunction<T>(m: seq<Mass<T>>) {
    forall i, j :: 0 <= i < j < |m| ==> m[i].value != m[j].value
  }

  /** The two parallel arrays. */
  datatype Categories<T> = Categories(values: seq<T>, cumulatives: seq<real>)

  /** The sum of the positive masses. */
  function TotalMass<T>(m: seq<Mass<T>>): real {
    if m == [] then 0.0
    else
      var e := m[|m| - 1];
      TotalMass(m[..|m| - 1]) + if e.mass > 0.0 then e.mass else 0.0
  }

  /** The arrays built from the mass function: one running sum per positive mass. */
  function Build<T>(m: seq<Mass<T>>): Categories<T> {
    if m == [] then Categories([], [])
    else
      var d, e := Build(m[..|m| - 1]), m[|m| - 1];
      if e.mass > 0.0 then Categories(d.values + [e.value], d.cumulatives + [TotalMass(m)]) else d
  }

  /** The first value whose cumulative probability reaches p; None is the out-of-range exception. */
  function Lookup<T>(d: Categories<T>, p: real): Option<T>
    requires |d.values| == |d.cumulatives|
  {
    var idx := LowerBound(d.cumulatives, p);
    if idx < |d.values| then Some(d.values[idx]) else None
  }

  ghost predicate HasPositiveMass<T>(m: seq<Mass<T>>, v: T) {
    exists i :: 0 <= i < |m| && m[i].value == v && m[i].mass > 0.0
  }

  /** The running sums strictly increase, from above zero up to the total mass. */
  lemma {:induction false} BuildIsStrictlyIncreasing<T>(m: seq<Mass<T>>)
    ensures |Build(m).values| == |Build(m).cumulatives|
    ensures StrictlyIncreasing(Build(m).cumulatives)
    ensures forall c :: c in Build(m).cumulatives ==> 0.0 < c <= TotalMass(m)
    ensures var cs := Build(m).cumulatives;
            if cs == [] then TotalMass(m) == 0.0 else cs[|cs| - 1] == TotalMass(m) > 0.0
  {
    if m != [] {
      BuildIsStrictlyIncreasing(m[..|m| - 1]);
    }
  }

  /** The lookup succeeds exactly up to the total mass.  A probability of zero or less, below every
      running sum, finds the first positive mass if there is one. */
  lemma LookupSucceedsUpToTotalMass<T>(m: seq<Mass<T>>, p: real)
    ensures |Build(m).values| == |Build(m).cumulatives|
    ensures Lookup(Build(m), p).Some? <==> p <= TotalMass(m) && 0.0 < TotalMass(m)
    ensures p <= 0.0 < TotalMass(m) ==> Lookup(Build(m), p) == Some(Build(m).values[0])
  {
    BuildIsStrictlyIncreasing(m);
    var cs := Build(m).cumulatives;
    var idx := LowerBound(cs, p);
    if cs != [] && p <= TotalMass(m) {
      assert cs[|cs| - 1] == TotalMass(m);
      assert cs[0] in cs;
    }
    if idx < |cs| {
      assert cs[idx] in cs;
    }
  }

  /** The lookup answers every draw in [0, 1): it never reports that the draw is out of range. */
  ghost predicate CoversDraws<T(!new)>(d: Categories<T>) {
    |d.values| == |d.cumulatives| && forall p :: 0.0 <= p < 1.0 ==> Lookup(d, p).Some?
  }

  /** It does exactly if the masses sum to one or more. */
  lemma CoversDrawsIff<T(!new)>(m: seq<Mass<T>>)
    ensures CoversDraws(Build(m)) <==> 1.0 <= TotalMass(m)
  {
    hide Lookup, Build, TotalMass;
    LookupSucceedsUpToTotalMass(m, 0.5);
    forall p | 0.0 <= p < 1.0 ensures 1.0 <= TotalMass(m) ==> Lookup(Build(m), p).Some? {
      LookupSucceedsUpToTotalMass(m, p);
    }
    if TotalMass(m) < 1.0 {
      var p := if TotalMass(m) < 0.5 then 0.5 else (TotalMass(m) + 1.0) / 2.0;
      LookupSucceedsUpToTotalMass(m, p);
    }
  }

  /** The value of a draw. */
  function Chosen<T(!new)>(d: Categories<T>, p: real): T
    requires CoversDraws(d) && 0.0 <= p < 1.0
  {
    Lookup(d, p).value
  }

  /** A further mass answers only the probabilities that the masses before it leave unanswered. */
  lemma LookupOfLast<T>(m: seq<Mass<T>>, p: real)
    requires m != []
    ensures |Build(m).values| == |Build(m).cumulatives|
    ensures |Build(m[..|m| - 1]).values| == |Build(m[..|m| - 1]).cumulatives|
    ensures Lookup(Build(m), p) ==
            var before, e := Lookup(Build(m[..|m| - 1]), p), m[|m| - 1];
            if before.Some? then before
            else if e.mass > 0.0 && p <= TotalMass(m) then Some(e.value)
            else None
  {
    var n := |m| - 1;
    BuildIsStrictlyIncreasing(m);
    BuildIsStrictlyIncreasing(m[..n]);
    var d := Build(m[..n]);
    var idx := LowerBound(d.cumulatives, p);
    if m[n].mass > 0.0 {
      if idx < |d.cumulatives| || p <= TotalMass(m) {
        LowerBoundIsUnique(Build(m).cumulatives, p, idx);
      } else {
        LowerBoundIsUnique(Build(m).cumulatives, p, idx + 1);
      }
    }
  }

  /** The sampler preserves mass: the probabilities that select the value of entry i form the
      half-open interval from the mass before it, of length exactly its own mass. */
  lemma {:induction false} LookupSelectsIntervalOfMass<T>(m: seq<Mass<T>>, i: nat, p: real)
    requires IsMassFunction(m) && i < |m| && m[i].mass > 0.0 && 0.0 < p
    ensures |Build(m).values| == |Build(m).cumulatives|
    ensures Lookup(Build(m), p) == Some(m[i].value)
            <==> TotalMass(m[..i]) < p <= TotalMass(m[..i]) + m[i].mass
  {
    hide Lookup, Build;
    var n := |m| - 1;
    LookupOfLast(m, p);
    LookupSucceedsUpToTotalMass(m[..n], p);
    BuildIsStrictlyIncreasing(m[..n]);
    if i < n {
      LookupSelectsIntervalOfMass(m[..n], i, p);
      assert m[..n][..i] == m[..i];
      TotalMassOfPrefix(m, i + 1, n);
      assert m[..i + 1][..i] == m[..i];
    } else if Lookup(Build(m[..n]), p).Some? {
      OnlyPositiveMassesSelected(m[..n], p);
    }
  }

  lemma {:induction false} TotalMassOfPrefix<T>(m: seq<Mass<T>>, i: nat, n: nat)
    requires i <= n <= |m|
    ensures TotalMass(m[..i]) <= TotalMass(m[..n])
    decreases n
  {
    if i < n {
      TotalMassOfPrefix(m, i, n - 1);
      assert m[..n][..n - 1] == m[..n - 1];
    }
  }

  /** A value without positive mass is never returned. */
  lemma {:induction false} OnlyPositiveMassesSelected<T>(m: seq<Mass<T>>, p: real)
    ensures |Build(m).values| == |Build(m).cumulatives|
    ensures Lookup(Build(m), p).Some? ==> HasPositiveMass(m, Lookup(Build(m), p).value)
  {
    if m != [] {
      LookupOfLast(m, p);
      var n := |m| - 1;
      OnlyPositiveMassesSelected(m[..n], p);
      if Lookup(Build(m[..n]), p).Some? {
        var v := Lookup(Build(m[..n]), p).value;
        var i :| 0 <= i < n && m[..n][i].value == v && m[..n][i].mass > 0.0;
        assert m[i].value == v;
      }
    }
  }

  /** Entry i has positive mass and answers the draw: the draw lies above the mass before it, by at most
      its own mass.  A draw of zero or less is answered by the first positive mass. */
  predicate AnswersDraw<T>(m: seq<Mass<T>>, i: nat, u: real) {
    && i < |m| && m[i].mass > 0.0
    && if 0.0 < u then TotalMass(m[..i]) < u <= TotalMass(m[..i]) + m[i].mass else TotalMass(m[..i]) == 0.0
  }

  ghost predicate Selects<T>(m: seq<Mass<T>>, u: real, v: T) {
    exists i: nat :: AnswersDraw(m, i, u) && m[i].value == v
  }

  /** What the lookup finds is the value of an entry that answers the draw. */
  lemma {:induction false} LookupAnswersDraw<T>(m: seq<Mass<T>>, u: real)
    ensures |Build(m).values| == |Build(m).cumulatives|
    ensures Lookup(Build(m), u).Some? ==> Selects(m, u, Lookup(Build(m), u).value)
  {
    hide Lookup, Build;
    BuildIsStrictlyIncreasing(m);
    if m != [] {
      var n := |m| - 1;
      LookupOfLast(m, u);
      LookupAnswersDraw(m[..n], u);
      LookupSucceedsUpToTotalMass(m[..n], u);
      BuildIsStrictlyIncreasing(m[..n]);
      if Lookup(Build(m[..n]), u).Some? {
        var i: nat :| AnswersDraw(m[..n], i, u) && m[..n][i].value == Lookup(Build(m[..n]), u).value;
        assert m[..n][..i] == m[..i];
        assert AnswersDraw(m, i, u);
      } else if Lookup(Build(m), u).Some? {
        MassIsNotNegative(m[..n]);
        assert AnswersDraw(m, n, u);
      }
    } else {
      LookupSucceedsUpToTotalMass(m, u);
    }
  }

  lemma {:induction false} MassIsNotNegative<T>(m: seq<Mass<T>>)
    ensures 0.0 <= TotalMass(m)
  {
    if m != [] { MassIsNotNegative(m[..|m| - 1]); }
  }

  /** The value array holds exactly the values of positive mass. */
  lemma {:induction false} ValuesArePositiveMasses<T>(m: seq<Mass<T>>, v: T)
    ensures v in Build(m).values <==> HasPositiveMass(m, v)
  {
    if m != [] {
      var n := |m| - 1;
      ValuesArePositiveMasses(m[..n], v);
      if HasPositiveMass(m, v) {
        var i :| 0 <= i < |m| && m[i].value == v && m[i].mass > 0.0;
        assert i < n ==> m[..n][i].value == v;
      }
      if HasPositiveMass(m[..n], v) {
        var i :| 0 <= i < n && m[..n][i].value == v && m[..n][i].mass > 0.0;
        assert m[i].value == v;
      }
    }
  }

  class CategoricalAttributeLite<T(==)> {
    const size: nat
    const cumulativeDistribution: seq<real>
    const valueArray: seq<T>

    ghost predicate Valid() {
      size == |valueArray| == |cumulativeDistribution|
    }

    function Contents(): Categories<T> {
      Categories(valueArray, cumulativeDistribution)
    }

    constructor (m: seq<Mass<T>>)
      ensures Valid() && Contents() == Build(m)
    {
      var cumulatives: seq<real>, values: seq<T> := [], [];
      var soFar := 0.0;
      for i := 0 to |m|
        invariant soFar == TotalMass(m[..i])
        invariant Categories(values, cumulatives) == Build(m[..i])
        invariant |values| == |cumulatives|
      {
        assert m[..i + 1][..i] == m[..i];
        if m[i].mass > 0.0 {
          soFar := soFar + m[i].mass;
          cumulatives := cumulatives + [soFar];
          values := values + [m[i].value];
        }
      }
      assert m[..|m|] == m;
      size, cumulativeDistribution, valueArray := |values|, cumulatives, values;
    }

    method GetValue(p: real) returns (r: Option<T>)
      requires Valid()
      ensures r == Lookup(Contents(), p)
    {
      for idx := 0 to size
        invariant forall k :: 0 <= k < idx ==> cumulativeDistribution[k] < p
      {
        if cumulativeDistribution[idx] >= p {
          LowerBoundIsUnique(cumulativeDistribution, p, idx);
          return Some(valueArray[idx]);
        }
      }
      LowerBoundIsUnique(cumulativeDistribution, p, size);
      return None;
    }

    method CheckValue(v: T) returns (found: bool)
      requires Valid()
      ensures found <==> v in Contents().values
    {
      for idx := 0 to size
        invariant v !in valueArray[..idx]
      {
        if valueArray[idx] == v { return true; }
      }
      return false;
    }
  }
}
