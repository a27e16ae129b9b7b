/** What the draws of the demand characteristics mean: every field of a request answers a draw of its
    own, at its own place of the tape. */
module RequestDraws {
  import opened CategoricalAttributeLite
  import opened ContinuousAttributeLite
  import opened DemandStream
  import opened DemandStreamKey
  import opened DemandStreamModel
  import opened OrderStatistics
  import opened PoissonProcess
  import opened RandomGeneration
  import opened RealArithmetic
  import opened RequestRuns
  import opened Search
  import opened StreamRuns

  /** Point of sale, channel, trip type, stay and frequent flyer are selected, each by the mass of its
      value, by five successive draws. */
  ghost predicate IsCustomer(masses: CustomerMasses, e: Engine, k: nat, customer: Customer) {
    && Selects(masses.pointOfSale, e.uniform(k), customer.pointOfSale)
    && Selects(masses.channel, e.uniform(k + 1), customer.channel)
    && Selects(masses.tripType, e.uniform(k + 2), customer.tripType)
    && Selects(masses.stayDuration, e.uniform(k + 3), customer.stayDuration)
    && Selects(masses.frequentFlyer, e.uniform(k + 4), customer.frequentFlyer)
  }

  /** x is what the first knot beyond probability u and the knot before it give u, by the rule of three;
      cumulatives need not be sorted. */
  ghost predicate IsInterpolated(d: Distribution, u: real, x: real)
    requires IsDistribution(d)
  {
    forall i: nat :: IsFirstBeyond(d.cumulatives, u, i) ==>
      if i == 0 then x == d.values[0]
      else if i == |d.values| then x == d.values[i - 1]
      else (x - d.values[i - 1]) * (d.cumulatives[i] - d.cumulatives[i - 1])
           == (u - d.cumulatives[i - 1]) * (d.values[i] - d.values[i - 1])
  }

  ghost predicate IsFirstBeyond(s: seq<real>, u: real, i: nat) {
    i <= |s| && (forall k :: 0 <= k < i ==> s[k] <= u) && (i < |s| ==> u < s[i])
  }

  lemma RuleOfThree(v0: real, v1: real, c0: real, c1: real, u: real)
    requires c0 < c1
    ensures (Interpolate(v0, v1, c0, c1, u) - v0) * (c1 - c0) == (u - c0) * (v1 - v0)
  {
    InterpolateByRatio(v0, v1, c0, c1, u);
    var r, d := (u - c0) / (c1 - c0), c1 - c0;
    assert r * d == u - c0;
    MulEqual(v1 - v0, r * d, u - c0);
    Reassociate(v1 - v0, r, d);
  }

  lemma Reassociate(a: real, b: real, c: real)
    ensures a * b * c == a * (b * c)
  {
  }

  lemma QuantileIsInterpolated(d: Distribution, u: real)
    requires IsDistribution(d)
    ensures IsInterpolated(d, u, Quantile(d, u))
  {
    hide Interpolate;
    forall i: nat | IsFirstBeyond(d.cumulatives, u, i)
      ensures i == FirstAbove(d.cumulatives, u)
    {
      FirstAboveIsUnique(d.cumulatives, u, i);
    }
    var i := FirstAbove(d.cumulatives, u);
    if 0 < i < |d.values| {
      EqualCumulativesUnreachable(d, u);
      RuleOfThree(d.values[i - 1], d.values[i], d.cumulatives[i - 1], d.cumulatives[i], u);
    }
  }

  /** The value has the probability u in the distribution, or is the end knot that u lies beyond. */
  ghost predicate HasProbability(d: Distribution, u: real, x: real)
    requires IsMonotone(d)
  {
    if u < d.cumulatives[0] then x == d.values[0]
    else if Last(d.cumulatives) <= u then x == Last(d.values)
    else Cdf(d, x) == u
  }

  /** n is the last whole value whose probability does not exceed u, or the whole part of the end knot
      that u lies beyond. */
  ghost predicate HasWholeProbability(d: Distribution, u: real, n: int)
    requires IsMonotone(d)
  {
    if u < d.cumulatives[0] then n == d.values[0].Floor
    else if Last(d.cumulatives) <= u then n == Last(d.values).Floor
    else Cdf(d, n as real) <= u < Cdf(d, (n + 1) as real)
  }

  /** The request answers the draws from place k of the engine of the characteristics on. */
  ghost predicate AnswersDraws(c: Configuration, masses: CustomerMasses, k: nat, q: BookingRequest)
    requires IsConfigured(c)
  {
    var e := c.characteristicsEngine;
    && IsCustomer(masses, e, k, q.customer)
    && (q.changeFees <==> e.uniform(k + 5) < c.changeFeeProb)
    && (q.nonRefundable <==> e.uniform(k + 6) < c.nonRefundableProb)
    && (exists x :: IsInterpolated(c.preferredDepartureTime, e.uniform(k + 7), x)
                    && q.preferredDepartureTime == 1000 * Truncate(x))
    && IsInterpolated(c.valueOfTime, e.uniform(k + 8), q.valueOfTime)
    && (IsMonotone(c.preferredDepartureTime) && 0.0 <= c.preferredDepartureTime.values[0] ==>
          && q.preferredDepartureTime % 1000 == 0
          && HasWholeProbability(c.preferredDepartureTime, e.uniform(k + 7), q.preferredDepartureTime / 1000))
    && (IsMonotone(c.valueOfTime) ==> HasProbability(c.valueOfTime, e.uniform(k + 8), q.valueOfTime))
    && q.generatorKey == ToString(c.lib, c.key) && q.departureDate == c.key.date
  }

  lemma BeyondLast(d: Distribution, u: real)
    requires IsMonotone(d) && Last(d.cumulatives) <= u
    ensures forall x :: x in d.cumulatives ==> x <= u
  {
    var n := |d.cumulatives| - 1;
    assert forall i :: 0 <= i <= n ==> d.cumulatives[i] <= d.cumulatives[n];
  }

  lemma QuantileHasProbability(d: Distribution, u: real)
    requires IsMonotone(d)
    ensures HasProbability(d, u, Quantile(d, u))
  {
    hide Quantile, Cdf;
    QuantileClamped(d, u);
    if Last(d.cumulatives) <= u {
      BeyondLast(d, u);
      assert d.cumulatives[0] <= u;
    } else if d.cumulatives[0] <= u {
      CdfOfQuantile(d, u);
    }
  }

  lemma CdfBelow(d: Distribution, x: real)
    requires IsMonotone(d)
    ensures x < d.values[0] ==> Cdf(d, x) == d.cumulatives[0]
    ensures Last(d.values) < x ==> Cdf(d, x) == Last(d.cumulatives)
  {
    if x < d.values[0] { FirstAboveIsUnique(d.values, x, 0); }
    if Last(d.values) < x { FirstAboveIsUnique(d.values, x, |d.values|); }
  }

  lemma WholeQuantileHasProbability(d: Distribution, u: real)
    requires IsMonotone(d) && 0.0 <= d.values[0]
    ensures HasWholeProbability(d, u, Truncate(Quantile(d, u)))
  {
    hide Quantile, Cdf;
    QuantileClamped(d, u);
    var q := Quantile(d, u);
    var n := Truncate(q);
    assert n == q.Floor;
    if Last(d.cumulatives) <= u {
      BeyondLast(d, u);
      assert d.cumulatives[0] <= u;
    } else if d.cumulatives[0] <= u {
      CdfBelow(d, n as real);
      CdfBelow(d, (n + 1) as real);
      if d.values[0] <= n as real { QuantileIsRightInverse(d, n as real, u); }
      if (n + 1) as real <= Last(d.values) { QuantileIsRightInverse(d, (n + 1) as real, u); }
    }
  }

  lemma ChosenIsSelected<T(!new)>(m: seq<Mass<T>>, u: real)
    requires CoversDraws(Build(m)) && 0.0 <= u < 1.0
    ensures Selects(m, u, Chosen(Build(m), u))
  {
    hide Build;
    LookupAnswersDraw(m, u);
  }

  lemma CustomerIsSelected(c: Configuration, masses: CustomerMasses, k: nat)
    requires IsConfigured(c) && c.customers == BuildCustomers(masses)
    ensures 0.0 <= c.characteristicsEngine.uniform(k) < 1.0
    ensures IsCustomer(masses, c.characteristicsEngine, k,
                       CustomerAt(c, c.characteristicsEngine.uniform(k), k + 1))
  {
    hide Chosen, Build, Selects, CoversDraws, IsDistribution, IsLibrary;
    var u := c.characteristicsEngine.uniform;
    assert 0.0 <= u(k) < 1.0 && 0.0 <= u(k + 1) < 1.0 && 0.0 <= u(k + 2) < 1.0 && 0.0 <= u(k + 3) < 1.0;
    assert 0.0 <= u(k + 4) < 1.0;
    ChosenIsSelected(masses.pointOfSale, u(k));
    ChosenIsSelected(masses.channel, u(k + 1));
    ChosenIsSelected(masses.tripType, u(k + 2));
    ChosenIsSelected(masses.stayDuration, u(k + 3));
    ChosenIsSelected(masses.frequentFlyer, u(k + 4));
  }

  lemma HasDistributions(c: Configuration)
    requires IsConfigured(c)
    ensures IsDistribution(c.preferredDepartureTime) && IsDistribution(c.valueOfTime)
  {
  }

  /** A request answers the nine draws from where its stream stands, and the next one the nine after
      them. */
  lemma RequestAnswersDraws(m: Method, c: Configuration, masses: CustomerMasses, s: State, shared: real)
    requires IsReady(m, c, s) && StillHavingRequestsToBeGenerated(m, s) && c.customers == BuildCustomers(masses)
    ensures NextRequest(m, c, s, shared).0.characteristicsPosition == s.characteristicsPosition + 9
    ensures AnswersDraws(c, masses, s.characteristicsPosition, NextRequest(m, c, s, shared).1)
  {
    hide Quantile, NextTime, WTP, IsCustomer, CustomerAt, Truncate, ToString, IsConfigured, Supports, IsConsistent,
         HasProbability, HasWholeProbability, BuildCustomers, IsInterpolated;
    var k := s.characteristicsPosition;
    RequestIsDescribed(m, c, s, shared);
    TimesKeepCharacteristics(m, c, AfterPointOfSale(s));
    CustomerIsSelected(c, masses, k);
    HasDistributions(c);
    QuantileIsInterpolated(c.preferredDepartureTime, c.characteristicsEngine.uniform(k + 7));
    QuantileIsInterpolated(c.valueOfTime, c.characteristicsEngine.uniform(k + 8));
    if IsMonotone(c.preferredDepartureTime) && 0.0 <= c.preferredDepartureTime.values[0] {
      WholeQuantileHasProbability(c.preferredDepartureTime, c.characteristicsEngine.uniform(k + 7));
    }
    if IsMonotone(c.valueOfTime) {
      QuantileHasProbability(c.valueOfTime, c.characteristicsEngine.uniform(k + 8));
    }
  }

  /** Over a run request i answers nine draws of its own. */
  lemma {:induction false} RunAnswersDraws(m: Method, c: Configuration, masses: CustomerMasses, s: State,
                                           shared: seq<real>, i: nat)
    requires IsReady(m, c, s) && c.customers == BuildCustomers(masses) && i < |Calls(m, c, s, shared).1|
    ensures AnswersDraws(c, masses, s.characteristicsPosition + 9 * i, Calls(m, c, s, shared).1[i])
    decreases |shared|
  {
    hide NextRequest, AnswersDraws, IsConfigured, Supports, IsConsistent, BuildCustomers;
    RequestIsTimed(m, c, s, shared[0]);
    RequestAnswersDraws(m, c, masses, s, shared[0]);
    if i > 0 {
      var next := NextRequest(m, c, s, shared[0]).0;
      RunAnswersDraws(m, c, masses, next, shared[1..], i - 1);
      assert next.characteristicsPosition + 9 * (i - 1) == s.characteristicsPosition + 9 * i;
    }
  }

  // ---------------------------------------------------------------- Date-times of a run

  /** The state before call i of a run, as far as date-times go. */
  ghost function BeforeCall(m: Method, c: Configuration, s: State, i: nat): State
    requires IsReady(m, c, s)
  {
    if m.PoissonProcess? then AfterCalls(c, s, i) else AfterRequests(c, s, i)
  }

  lemma {:induction false} StampAtCall(m: Method, c: Configuration, s: State, k: nat, i: nat)
    requires IsReady(m, c, s) && i < |Stamps(m, c, s, k)|
    ensures IsReady(m, c, BeforeCall(m, c, s, i)) && StillHavingRequestsToBeGenerated(m, BeforeCall(m, c, s, i))
    ensures Stamps(m, c, s, k)[i] == NextTime(m, c, BeforeCall(m, c, s, i)).1
    decreases k
  {
    hide NextPoissonTime, NextOrderTime, IsConfigured, IsPoissonPattern, IsConsistent;
    if i > 0 {
      NextTimeOutcome(m, c, s);
      StampAtCall(m, c, NextTime(m, c, s).0, k - 1, i - 1);
    }
  }

  /** Request i of a stream comes from call i of its generator of date-times: RunFollowsTape and
      CallFollowsTape say which draws that call takes, and what they mean. */
  lemma RequestAtCall(m: Method, c: Configuration, s: State, shared: seq<real>, i: nat)
    requires IsReady(m, c, s) && i < |Calls(m, c, s, shared).1|
    ensures IsReady(m, c, BeforeCall(m, c, s, i)) && StillHavingRequestsToBeGenerated(m, BeforeCall(m, c, s, i))
    ensures Calls(m, c, s, shared).1[i].requestDateTime == NextTime(m, c, BeforeCall(m, c, s, i)).1
  {
    hide IsReady, Calls, Stamps, BeforeCall, NextTime;
    RequestsCarryStamps(m, c, s, shared);
    StampAtCall(m, c, s, |shared|, i);
    assert DateTimes(Calls(m, c, s, shared).1)[i] == Calls(m, c, s, shared).1[i].requestDateTime;
  }
}
