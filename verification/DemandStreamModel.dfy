/** What trademgen/bom/DemandStream.cpp computes, as functions on values: the state of a stream,
    the two generators of request date-times, and the request itself.  The class of module
    DemandStream is proved against these functions. */
module DemandStreamModel {
  import opened CategoricalAttributeLite
  import opened ContinuousAttributeLite
  import opened DateTime
  import opened DemandStreamKey
  import opened RandomGeneration
  import opened RealArithmetic
  import opened Search

  datatype Method = PoissonProcess | StatisticsOrder

  /** The samplers of what kind of customer makes a request. */
  datatype Customers = Customers(
    pointOfSale: Categories<string>,
    channel: Categories<string>,
    tripType: Categories<string>,
    stayDuration: Categories<int>,
    frequentFlyer: Categories<string>)

  datatype Customer = Customer(
    pointOfSale: string,
    channel: string,
    tripType: string,
    stayDuration: int,
    frequentFlyer: string)

  /** What stays fixed over the life of a stream. */
  datatype Configuration = Configuration(
    key: DemandStreamKey,
    arrivalPattern: Distribution,
    customers: Customers,
    changeFeeProb: real,
    nonRefundableProb: real,
    preferredDepartureTime: Distribution,
    minWTP: real,
    valueOfTime: Distribution,
    mean: real,
    stdDev: real,
    dateTimeEngine: Engine,
    characteristicsEngine: Engine,
    lib: Library)

  /** What the operations of a stream change. */
  datatype State = State(
    totalNumberOfRequestsToBeGenerated: int,
    numberOfRequestsGeneratedSoFar: int,
    cumulativeProbabilitySoFar: real,
    stillHavingRequestsToBeGenerated: bool,
    firstDateTimeRequest: bool,
    dateTimeLastRequest: real,
    dateTimePosition: nat,
    characteristicsPosition: nat)

  datatype BookingRequest = BookingRequest(
    generatorKey: string,
    departureDate: int,
    requestDateTime: int,
    customer: Customer,
    changeFees: bool,
    nonRefundable: bool,
    preferredDepartureTime: int,
    wtp: real,
    valueOfTime: real)

  const DEFAULT_LAST_LOWER_BOUND_ARRIVAL_PATTERN := -1.0

  const DEFAULT_FRAT5_PATTERN := Distribution(
    [1.10, 1.20, 1.30, 1.40, 1.70, 2.00, 2.30, 2.44, 2.50, 2.500000001],
    [-365.0, -63.0, -49.0, -35.0, -23.0, -16.0, -10.0, -5.0, -1.0, 0.0])

  /** The largest factor by which the order-statistics generator may shrink the probability left. */
  const MAX_FACTOR := 0.999999

  // ---------------------------------------------------------------- What the methods need

  /** No draw is out of range of a sampler. */
  ghost predicate AreCovered(d: Customers) {
    && CoversDraws(d.pointOfSale) && CoversDraws(d.channel) && CoversDraws(d.tripType)
    && CoversDraws(d.stayDuration) && CoversDraws(d.frequentFlyer)
  }

  ghost predicate IsConfigured(c: Configuration) {
    && IsEngine(c.dateTimeEngine) && IsEngine(c.characteristicsEngine) && IsLibrary(c.lib)
    && IsDistribution(c.arrivalPattern)
    && IsDistribution(c.preferredDepartureTime) && IsDistribution(c.valueOfTime)
    && AreCovered(c.customers)
  }

  /** An arrival pattern that the Poisson generator can walk: the bound that ends the walk is a
      knot, and every interval has a positive rate. */
  ghost predicate IsPoissonPattern(c: Configuration)
    requires IsConfigured(c)
  {
    && DEFAULT_LAST_LOWER_BOUND_ARRIVAL_PATTERN in c.arrivalPattern.values
    && 0.0 <= c.arrivalPattern.cumulatives[0] && StrictlyIncreasing(c.arrivalPattern.cumulatives)
    && 0.0 < c.mean
  }

  ghost predicate Supports(m: Method, c: Configuration)
    requires IsConfigured(c)
  {
    m.PoissonProcess? ==> IsPoissonPattern(c)
  }

  /** What init and every later operation keep true of the state. */
  ghost predicate IsConsistent(m: Method, c: Configuration, s: State)
    requires IsConfigured(c)
  {
    && 0 <= s.numberOfRequestsGeneratedSoFar
    && 0.0 <= s.cumulativeProbabilitySoFar < 1.0
    && (m.PoissonProcess? && !s.firstDateTimeRequest ==>
          c.arrivalPattern.values[0] <= s.dateTimeLastRequest <= DEFAULT_LAST_LOWER_BOUND_ARRIVAL_PATTERN)
  }

  // ---------------------------------------------------------------- The operations

  /** The number of requests drawn by init: rounded to the nearest integer, possibly negative. */
  function RequestsToBeGenerated(normalDraw: real): (n: int)
    ensures n as real - 0.5 <= normalDraw < n as real + 0.5
  {
    (normalDraw + 0.5).Floor
  }

  function Init(s: State, total: int): State {
    s.(totalNumberOfRequestsToBeGenerated := total,
       stillHavingRequestsToBeGenerated := true,
       firstDateTimeRequest := true)
  }

  function Reset(s: State, total: int): State {
    Init(s.(numberOfRequestsGeneratedSoFar := 0, cumulativeProbabilitySoFar := 0.0), total)
  }

  predicate StillHavingRequestsToBeGenerated(m: Method, s: State) {
    if m.StatisticsOrder? then s.totalNumberOfRequestsToBeGenerated - s.numberOfRequestsGeneratedSoFar > 0
    else s.stillHavingRequestsToBeGenerated
  }

  /** The first call of the Poisson generator starts at the lower bound of the pattern. */
  function PoissonStart(c: Configuration, s: State): State
    requires IsConfigured(c)
  {
    if s.firstDateTimeRequest
    then s.(dateTimeLastRequest := Quantile(c.arrivalPattern, 0.0), firstDateTimeRequest := false)
    else s
  }

  /** The rate of requests per day in the interval that starts at, or contains, the last time. */
  function DailyRate(c: Configuration, last: real): real
    requires OnSegment(c.arrivalPattern, last)
  {
    Scaled(Slope(c.arrivalPattern, last), c.mean)
  }

  function Scaled(x: real, factor: real): real {
    x * factor
  }

  /** The time drawn is kept, as a request, when it is inside the current daily-rate interval;
      otherwise the last time moves to the end of the interval. */
  function Advance(s: State, bound: real, time: real): (State, bool) {
    if time < bound
    then (s.(dateTimeLastRequest := time,
             numberOfRequestsGeneratedSoFar := s.numberOfRequestsGeneratedSoFar + 1), true)
    else (s.(dateTimeLastRequest := bound), false)
  }

  /** One draw of the Poisson generator. */
  function PoissonTick(c: Configuration, s: State): (State, bool)
    requires OnSegment(c.arrivalPattern, s.dateTimeLastRequest)
  {
    Advance(s.(dateTimePosition := s.dateTimePosition + 1),
            UpperBound(c.arrivalPattern, s.dateTimeLastRequest),
            s.dateTimeLastRequest
            + c.dateTimeEngine.exponential(s.dateTimePosition, DailyRate(c, s.dateTimeLastRequest)))
  }

  /** Knots strictly above the last time: what the recursion uses up. */
  ghost function KnotsAbove(c: Configuration, s: State): nat {
    |c.arrivalPattern.values| - FirstAbove(c.arrivalPattern.values, s.dateTimeLastRequest)
  }

  /** generateTimeOfRequestPoissonProcess: the new state and the date-time of the request. */
  function NextPoissonTime(c: Configuration, s: State): (State, int)
    requires IsConfigured(c) && IsPoissonPattern(c) && IsConsistent(PoissonProcess, c, s)
    decreases s.firstDateTimeRequest, KnotsAbove(c, s)
  {
    StartIsConsistent(c, s);
    var s := PoissonStart(c, s);
    if s.dateTimeLastRequest == DEFAULT_LAST_LOWER_BOUND_ARRIVAL_PATTERN then
      (s.(stillHavingRequestsToBeGenerated := false),
       RequestDateTime(c.key.date, -DEFAULT_LAST_LOWER_BOUND_ARRIVAL_PATTERN))
    else
      TickIsConsistent(c, s);
      var (next, isRequest) := PoissonTick(c, s);
      if isRequest then (next, RequestDateTime(c.key.date, next.dateTimeLastRequest))
      else NextPoissonTime(c, next)
  }

  function ClampedFactor(factor: real): real {
    if factor >= MAX_FACTOR then MAX_FACTOR else factor
  }

  /** What a factor leaves of a probability. */
  function Shrink(probability: real, factor: real): real {
    probability * factor
  }

  function Remaining(s: State): int {
    s.totalNumberOfRequestsToBeGenerated - s.numberOfRequestsGeneratedSoFar
  }

  /** (1 - y)^(1/(n - k + 1)) for the next uniform draw y, before it is clamped. */
  function OrderFactor(c: Configuration, s: State): real
    requires Remaining(s) > 0
  {
    c.lib.pow(1.0 - c.dateTimeEngine.uniform(s.dateTimePosition), Reciprocal(Remaining(s)))
  }

  /** generateTimeOfRequestStatisticsOrder: the new state and the date-time of the request. */
  function NextOrderTime(c: Configuration, s: State): (State, int)
    requires IsConfigured(c) && Remaining(s) > 0
  {
    var cumulative := 1.0 - Shrink(1.0 - s.cumulativeProbabilitySoFar, ClampedFactor(OrderFactor(c, s)));
    (s.(dateTimePosition := s.dateTimePosition + 1,
        cumulativeProbabilitySoFar := cumulative,
        numberOfRequestsGeneratedSoFar := s.numberOfRequestsGeneratedSoFar + 1),
     RequestDateTime(c.key.date, Quantile(c.arrivalPattern, cumulative)))
  }

  function NextTime(m: Method, c: Configuration, s: State): (State, int)
    requires IsConfigured(c) && Supports(m, c) && IsConsistent(m, c, s)
    requires StillHavingRequestsToBeGenerated(m, s)
  {
    if m.PoissonProcess? then NextPoissonTime(c, s) else NextOrderTime(c, s)
  }

  /** The fare coefficient for a request made on the date of t. */
  function Frat5Coefficient(departureDate: int, t: int): real {
    Frat5IsDistribution();
    Quantile(DEFAULT_FRAT5_PATTERN, -((departureDate - DateOf(t)) as real))
  }

  function WtpFormula(minWTP: real, coefficient: real, logDraw: real, logHalf: real): real
    requires logHalf != 0.0
  {
    minWTP * (1.0 + (coefficient - 1.0) * logDraw / logHalf)
  }

  /** Willingness to pay for a uniform draw u of the shared generator. */
  function WTP(c: Configuration, t: int, u: real): real
    requires IsLibrary(c.lib)
  {
    assert c.lib.log(0.5) < 0.0;
    WtpFormula(c.minWTP, Frat5Coefficient(c.key.date, t), c.lib.log(u), c.lib.log(0.5))
  }

  /** The customer that a draw for the point of sale and the draws from position k on give. */
  function CustomerAt(c: Configuration, pointOfSale: real, k: nat): Customer
    requires IsConfigured(c) && 0.0 <= pointOfSale < 1.0
  {
    var draw := c.characteristicsEngine.uniform;
    assert 0.0 <= draw(k) < 1.0 && 0.0 <= draw(k + 1) < 1.0 && 0.0 <= draw(k + 2) < 1.0 && 0.0 <= draw(k + 3) < 1.0;
    Customer(Chosen(c.customers.pointOfSale, pointOfSale), Chosen(c.customers.channel, draw(k)),
             Chosen(c.customers.tripType, draw(k + 1)), Chosen(c.customers.stayDuration, draw(k + 2)),
             Chosen(c.customers.frequentFlyer, draw(k + 3)))
  }

  /** The rest of a request, once its point of sale and its date-time are drawn.  The characteristics
      are drawn in the order channel, trip type, stay, frequent flyer, change fee, non-refundable,
      departure time, value of time. */
  function Describe(c: Configuration, s: State, pointOfSale: real, time: int, shared: real): (State, BookingRequest)
    requires IsConfigured(c) && 0.0 <= pointOfSale < 1.0
  {
    var k := s.characteristicsPosition;
    var draw := c.characteristicsEngine.uniform;
    (s.(characteristicsPosition := k + 8),
     BookingRequest(ToString(c.lib, c.key), c.key.date, time,
                    CustomerAt(c, pointOfSale, k),
                    draw(k + 4) < c.changeFeeProb,
                    draw(k + 5) < c.nonRefundableProb,
                    PreferredTime(c, draw(k + 6)),
                    WTP(c, time, shared),
                    Quantile(c.valueOfTime, draw(k + 7))))
  }

  /** The preferred departure time of day, in milliseconds, for a draw. */
  function PreferredTime(c: Configuration, u: real): int
    requires IsConfigured(c)
  {
    MILLISECONDS_IN_ONE_SECOND * Truncate(Quantile(c.preferredDepartureTime, u))
  }

  /** The draw for the point of sale, which comes before the date-time. */
  function AfterPointOfSale(s: State): State {
    s.(characteristicsPosition := s.characteristicsPosition + 1)
  }

  /** DemandStream::generateNextRequest: point of sale, date-time, everything else. */
  function NextRequest(m: Method, c: Configuration, s: State, shared: real): (State, BookingRequest)
    requires IsConfigured(c) && Supports(m, c) && IsConsistent(m, c, s)
    requires StillHavingRequestsToBeGenerated(m, s)
  {
    var pointOfSale := c.characteristicsEngine.uniform(s.characteristicsPosition);
    var (next, time) := NextTime(m, c, AfterPointOfSale(s));
    Describe(c, next, pointOfSale, time, shared)
  }

  // ---------------------------------------------------------------- Well-definedness

  lemma Frat5IsDistribution()
    ensures IsMonotone(DEFAULT_FRAT5_PATTERN)
  {
  }

  /** With cumulatives that start at zero or more and strictly increase, the walk starts at v0. */
  lemma PatternStart(c: Configuration)
    requires IsConfigured(c) && IsPoissonPattern(c)
    ensures Quantile(c.arrivalPattern, 0.0) == c.arrivalPattern.values[0]
    ensures c.arrivalPattern.values[0] <= DEFAULT_LAST_LOWER_BOUND_ARRIVAL_PATTERN <= Last(c.arrivalPattern.values)
  {
    var d := c.arrivalPattern;
    if 0.0 < d.cumulatives[0] {
      QuantileClamped(d, 0.0);
    } else if 1 < |d.values| {
      FirstAboveIsUnique(d.cumulatives, 0.0, 1);
      InterpolateEnds(d.values[0], d.values[1], d.cumulatives[0], d.cumulatives[1]);
    }
  }

  lemma StartIsConsistent(c: Configuration, s: State)
    requires IsConfigured(c) && IsPoissonPattern(c) && IsConsistent(PoissonProcess, c, s)
    ensures IsConsistent(PoissonProcess, c, PoissonStart(c, s))
    ensures var s' := PoissonStart(c, s);
            s'.dateTimeLastRequest != DEFAULT_LAST_LOWER_BOUND_ARRIVAL_PATTERN
            ==> OnSegment(c.arrivalPattern, s'.dateTimeLastRequest)
  {
    PatternStart(c);
  }

  lemma DailyRatePositive(c: Configuration, last: real)
    requires IsConfigured(c) && IsPoissonPattern(c) && OnSegment(c.arrivalPattern, last)
    ensures 0.0 < DailyRate(c, last)
  {
    SlopePositive(c.arrivalPattern, last);
    MulStrict(c.mean, 0.0, Slope(c.arrivalPattern, last));
  }

  /** A draw never moves the last time back nor past the bound that ends the walk; a draw that
      leaves its interval uses up at least one knot. */
  lemma TickIsConsistent(c: Configuration, s: State)
    requires IsConfigured(c) && IsPoissonPattern(c) && IsConsistent(PoissonProcess, c, s)
    requires !s.firstDateTimeRequest && s.dateTimeLastRequest != DEFAULT_LAST_LOWER_BOUND_ARRIVAL_PATTERN
    ensures OnSegment(c.arrivalPattern, s.dateTimeLastRequest)
    ensures var (next, isRequest) := PoissonTick(c, s);
            && IsConsistent(PoissonProcess, c, next) && !next.firstDateTimeRequest
            && s.dateTimeLastRequest <= next.dateTimeLastRequest <= UpperBound(c.arrivalPattern, s.dateTimeLastRequest)
            && (isRequest ==> next.dateTimeLastRequest < DEFAULT_LAST_LOWER_BOUND_ARRIVAL_PATTERN)
            && (!isRequest ==> KnotsAbove(c, next) < KnotsAbove(c, s))
  {
    PatternStart(c);
    DailyRatePositive(c, s.dateTimeLastRequest);
    UpperBoundIsKnot(c.arrivalPattern, s.dateTimeLastRequest);
    hide Slope, DailyRate, Quantile, UpperBound;
  }
}
