/** Properties of the order-statistics generator of request date-times. */
module OrderStatistics {
  import opened ContinuousAttributeLite
  import opened DateTime
  import opened DemandStreamModel
  import opened RandomGeneration
  import opened RealArithmetic

  /** A stream that the order-statistics generator can work on. */
  ghost predicate IsOrdered(c: Configuration, s: State) {
    IsConfigured(c) && IsConsistent(StatisticsOrder, c, s)
  }

  /** The probability mass that lies beyond the last request. */
  function Complement(s: State): real {
    1.0 - s.cumulativeProbabilitySoFar
  }

  /** The factor is the positive root that the formula asks for, and the clamp keeps it below one. */
  lemma FactorIsRoot(c: Configuration, s: State)
    requires IsOrdered(c, s) && Remaining(s) > 0
    ensures var u := c.dateTimeEngine.uniform(s.dateTimePosition);
            Pow(OrderFactor(c, s), Remaining(s)) == 1.0 - u
    ensures 0.0 < OrderFactor(c, s)
    ensures 0.0 < ClampedFactor(OrderFactor(c, s)) <= MAX_FACTOR < 1.0
    ensures Complement(NextOrderTime(c, s).0) == Shrink(Complement(s), ClampedFactor(OrderFactor(c, s)))
  {
    hide Shrink;
    var n: nat := Remaining(s);
    var u := c.dateTimeEngine.uniform(s.dateTimePosition);
    assert 0.0 < c.lib.pow(1.0 - u, Reciprocal(n)) && Pow(c.lib.pow(1.0 - u, Reciprocal(n)), n) == 1.0 - u;
  }

  lemma ShrinkStrictly(x: real, f: real)
    requires 0.0 < x && 0.0 < f <= MAX_FACTOR
    ensures 0.0 < Shrink(x, f) <= Shrink(x, MAX_FACTOR) < x
  {
    MulStrict(x, 0.0, f);
    MulMonotone(x, f, MAX_FACTOR);
    MulStrict(x, MAX_FACTOR, 1.0);
  }

  lemma ShrinkBelow(x: real, f: real)
    requires 0.0 <= f && x <= 1.0
    ensures Shrink(x, f) <= f
  {
    MulMonotone(f, x, 1.0);
  }

  /** One call moves the cumulative probability strictly up, by at least the clamped share of what
      is left (and so past that share of the whole), and never reaches one; the date-time of the
      request does not go back. */
  lemma NextOrderTimeOutcome(c: Configuration, s: State)
    requires IsOrdered(c, s) && Remaining(s) > 0
    ensures var (s', t) := NextOrderTime(c, s);
            && IsOrdered(c, s')
            && s'.totalNumberOfRequestsToBeGenerated == s.totalNumberOfRequestsToBeGenerated
            && s'.numberOfRequestsGeneratedSoFar == s.numberOfRequestsGeneratedSoFar + 1
            && s.cumulativeProbabilitySoFar < s'.cumulativeProbabilitySoFar < 1.0
            && 1.0 - MAX_FACTOR <= s'.cumulativeProbabilitySoFar
            && 0.0 < Complement(s') <= Shrink(Complement(s), MAX_FACTOR)
            && t == RequestDateTime(c.key.date, Quantile(c.arrivalPattern, s'.cumulativeProbabilitySoFar))
            && RequestDateTime(c.key.date, Quantile(c.arrivalPattern, s.cumulativeProbabilitySoFar)) <= t
  {
    hide Shrink, Quantile;
    FactorIsRoot(c, s);
    ShrinkStrictly(Complement(s), ClampedFactor(OrderFactor(c, s)));
    ShrinkBelow(Complement(s), MAX_FACTOR);
    var s' := NextOrderTime(c, s).0;
    QuantileMonotone(c.arrivalPattern, s.cumulativeProbabilitySoFar, s'.cumulativeProbabilitySoFar);
    ConversionMonotone(Quantile(c.arrivalPattern, s.cumulativeProbabilitySoFar),
                       Quantile(c.arrivalPattern, s'.cumulativeProbabilitySoFar));
  }

  // ---------------------------------------------------------------- What a draw means

  /** Given that the last of the requests so far lies at x, the probability that the next of the
      n remaining ones, the smallest of n independent values above x, lies beyond y. */
  function ConditionalSurvival(x: real, y: real, n: nat): real
    requires x < 1.0
  {
    Pow((1.0 - y) / (1.0 - x), n)
  }

  lemma QuotientOfShrink(a: real, b: real)
    requires 0.0 < a
    ensures Shrink(a, b) / a == b
  {
    var q := Shrink(a, b) / a;
    assert a * q == a * b;
    if q < b { MulStrict(a, q, b); }
    if b < q { MulStrict(a, b, q); }
  }

  /** The call inverts the conditional distribution of the next order statistic: the survival
      probability of the new request is 1 - u, cut off at the clamp. */
  lemma NextOrderTimeInvertsConditionalSurvival(c: Configuration, s: State)
    requires IsOrdered(c, s) && Remaining(s) > 0
    ensures var u, n := c.dateTimeEngine.uniform(s.dateTimePosition), Remaining(s);
            var y := NextOrderTime(c, s).0.cumulativeProbabilitySoFar;
            ConditionalSurvival(s.cumulativeProbabilitySoFar, y, n)
            == if 1.0 - u < Pow(MAX_FACTOR, n) then 1.0 - u else Pow(MAX_FACTOR, n)
  {
    hide OrderFactor, Quantile, Shrink, Pow;
    FactorIsRoot(c, s);
    var f := OrderFactor(c, s);
    QuotientOfShrink(Complement(s), ClampedFactor(f));
    PowReflectsOrder(f, MAX_FACTOR, Remaining(s));
    PowReflectsOrder(MAX_FACTOR, f, Remaining(s));
  }

  lemma ShrinkMonotone(x: real, f: real, g: real)
    requires 0.0 <= x && f <= g
    ensures Shrink(x, f) <= Shrink(x, g)
  {
    MulMonotone(x, f, g);
  }

  /** The new cumulative probability is monotone in the draw. */
  lemma NextOrderTimeMonotoneInDraw(c: Configuration, c': Configuration, s: State)
    requires IsOrdered(c, s) && IsOrdered(c', s) && Remaining(s) > 0
    requires c.dateTimeEngine.uniform(s.dateTimePosition) <= c'.dateTimeEngine.uniform(s.dateTimePosition)
    ensures NextOrderTime(c, s).0.cumulativeProbabilitySoFar <= NextOrderTime(c', s).0.cumulativeProbabilitySoFar
  {
    hide Shrink, Quantile, OrderFactor, Pow;
    FactorIsRoot(c, s);
    FactorIsRoot(c', s);
    var f, f' := OrderFactor(c, s), OrderFactor(c', s);
    PowReflectsOrder(f', f, Remaining(s));
    ShrinkMonotone(Complement(s), ClampedFactor(f'), ClampedFactor(f));
  }

  // ---------------------------------------------------------------- Whole runs

  /** The state after at most k calls; the stream is not called again once it is complete. */
  function AfterRequests(c: Configuration, s: State, k: nat): State
    requires IsConfigured(c)
    decreases k
  {
    if k == 0 || !StillHavingRequestsToBeGenerated(StatisticsOrder, s) then s
    else AfterRequests(c, NextOrderTime(c, s).0, k - 1)
  }

  /** The most that k calls leave of a probability. */
  function Thinned(x: real, k: nat): real {
    Pow(MAX_FACTOR, k) * x
  }

  lemma ThinOnce(x: real, x': real, k: nat)
    requires x' <= Shrink(x, MAX_FACTOR)
    ensures Thinned(x', k) <= Thinned(x, k + 1)
  {
    PowPositive(MAX_FACTOR, k);
    ThinStep(Pow(MAX_FACTOR, k), MAX_FACTOR, x, x');
  }

  lemma ThinStep(p: real, f: real, x: real, x': real)
    requires 0.0 < p && x' <= Shrink(x, f)
    ensures p * x' <= f * p * x
  {
    MulMonotone(p, x', x * f);
    Regroup(p, x, f);
  }

  lemma ThinnedByNone(x: real)
    ensures Thinned(x, 0) == x
  {
  }

  /** Along a whole run the cumulative probability stays in [0, 1), strictly above its value before
      any call, and after k calls the probability left is positive but at most 0.999999^k of what
      it was; no call is made once the total is reached, so the counter never passes it. */
  lemma {:induction false} RunThinsOutProbability(c: Configuration, s: State, k: nat)
    requires IsOrdered(c, s) && k <= Remaining(s)
    ensures var r := AfterRequests(c, s, k);
            && IsOrdered(c, r)
            && r.totalNumberOfRequestsToBeGenerated == s.totalNumberOfRequestsToBeGenerated
            && r.numberOfRequestsGeneratedSoFar == s.numberOfRequestsGeneratedSoFar + k
            && (k > 0 ==> s.cumulativeProbabilitySoFar < r.cumulativeProbabilitySoFar)
            && 0.0 < Complement(r) <= Thinned(Complement(s), k)
    decreases k
  {
    hide Shrink, NextOrderTime, Thinned, IsConfigured;
    ThinnedByNone(Complement(s));
    if k > 0 {
      NextOrderTimeOutcome(c, s);
      var s' := NextOrderTime(c, s).0;
      RunThinsOutProbability(c, s', k - 1);
      ThinOnce(Complement(s), Complement(s'), k - 1);
    }
  }

  /** From a fresh stream: 0 < 1 - c_k <= 0.999999^k. */
  lemma FreshRunThinsOutProbability(c: Configuration, s: State, k: nat)
    requires IsConfigured(c) && s.cumulativeProbabilitySoFar == 0.0 && s.numberOfRequestsGeneratedSoFar == 0
    requires k <= s.totalNumberOfRequestsToBeGenerated
    ensures 0.0 < Complement(AfterRequests(c, s, k)) <= Pow(MAX_FACTOR, k)
    ensures StillHavingRequestsToBeGenerated(StatisticsOrder, AfterRequests(c, s, k))
            <==> k < s.totalNumberOfRequestsToBeGenerated
  {
    RunThinsOutProbability(c, s, k);
  }

  // ---------------------------------------------------------------- Draws of a run

  lemma {:induction false} OneMoreRequest(c: Configuration, s: State, k: nat)
    requires IsOrdered(c, s) && k < Remaining(s)
    ensures IsOrdered(c, AfterRequests(c, s, k)) && Remaining(AfterRequests(c, s, k)) == Remaining(s) - k
    ensures AfterRequests(c, s, k + 1) == NextOrderTime(c, AfterRequests(c, s, k)).0
    ensures AfterRequests(c, s, k).dateTimePosition == s.dateTimePosition + k
    decreases k
  {
    hide OrderFactor, ClampedFactor, Shrink, IsConfigured;
    var s' := NextOrderTime(c, s).0;
    if k > 0 {
      NextOrderTimeOutcome(c, s);
      OneMoreRequest(c, s', k - 1);
    } else {
      assert AfterRequests(c, s', 0) == s';
    }
  }

  /** Successive requests of a run take successive draws: request k + 1 inverts the conditional
      distribution, given request k, at the k-th draw counted from the start of the run. */
  lemma RunFollowsTape(c: Configuration, s: State, k: nat)
    requires IsOrdered(c, s) && k < Remaining(s)
    ensures AfterRequests(c, s, k).dateTimePosition == s.dateTimePosition + k
    ensures AfterRequests(c, s, k).cumulativeProbabilitySoFar < 1.0
    ensures var u, n := c.dateTimeEngine.uniform(s.dateTimePosition + k), Remaining(s) - k;
            ConditionalSurvival(AfterRequests(c, s, k).cumulativeProbabilitySoFar,
                                AfterRequests(c, s, k + 1).cumulativeProbabilitySoFar, n)
            == if 1.0 - u < Pow(0.999999, n) then 1.0 - u else Pow(0.999999, n)
  {
    hide AfterRequests, NextOrderTime, ConditionalSurvival, Pow, IsConfigured;
    OneMoreRequest(c, s, k);
    NextOrderTimeInvertsConditionalSurvival(c, AfterRequests(c, s, k));
  }
}
