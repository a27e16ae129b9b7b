/** The class of trademgen/bom/DemandStream.cpp.  Every operation is proved to compute what the
    functions of DemandStreamModel say. */
module DemandStream {
  import opened CategoricalAttributeLite
  import opened ContinuousAttributeLite
  import opened DateTime
  import opened DemandStreamKey
  import opened DemandStreamModel
  import opened PoissonProcess
  import opened RandomGeneration
  import opened RealArithmetic
  import opened StreamRuns

  /** The probability masses of the kinds of customers. */
  datatype CustomerMasses = CustomerMasses(
    pointOfSale: seq<Mass<string>>,
    channel: seq<Mass<string>>,
    tripType: seq<Mass<string>>,
    stayDuration: seq<Mass<int>>,
    frequentFlyer: seq<Mass<string>>)

  function BuildCustomers(m: CustomerMasses): Customers {
    Customers(Build(m.pointOfSale), Build(m.channel), Build(m.tripType), Build(m.stayDuration), Build(m.frequentFlyer))
  }

  /** The masses sum to one, or more. */
  predicate AreComplete(m: CustomerMasses) {
    && 1.0 <= TotalMass(m.pointOfSale) && 1.0 <= TotalMass(m.channel) && 1.0 <= TotalMass(m.tripType)
    && 1.0 <= TotalMass(m.stayDuration) && 1.0 <= TotalMass(m.frequentFlyer)
  }

  /** No draw is out of range of the customers' samplers exactly if their masses are complete. */
  lemma AreCoveredIffComplete(m: CustomerMasses)
    ensures AreCovered(BuildCustomers(m)) <==> AreComplete(m)
  {
    hide CoversDraws, Build, TotalMass;
    CoversDrawsIff(m.pointOfSale);
    CoversDrawsIff(m.channel);
    CoversDrawsIff(m.tripType);
    CoversDrawsIff(m.stayDuration);
    CoversDrawsIff(m.frequentFlyer);
  }

  /** The maps and numbers of one row of the demand file that a stream keeps. */
  datatype DemandCharacteristics = DemandCharacteristics(
    arrivalPattern: seq<Knot>,
    customers: CustomerMasses,
    changeFeeProb: real,
    nonRefundableProb: real,
    preferredDepartureTime: seq<Knot>,
    minWTP: real,
    valueOfTime: seq<Knot>)

  ghost predicate IsMap(knots: seq<Knot>) {
    0 < |knots| && forall i, j :: 0 <= i < j < |knots| ==> knots[i].value < knots[j].value
  }

  ghost predicate IsCharacteristics(d: DemandCharacteristics) {
    && IsMap(d.arrivalPattern) && IsMap(d.preferredDepartureTime) && IsMap(d.valueOfTime)
    && AreComplete(d.customers)
  }

  function Configure(key: DemandStreamKey, d: DemandCharacteristics, mean: real, stdDev: real,
                     dateTimeEngine: Engine, characteristicsEngine: Engine, lib: Library): Configuration {
    Configuration(key, FromKnots(d.arrivalPattern), BuildCustomers(d.customers), d.changeFeeProb, d.nonRefundableProb,
                  FromKnots(d.preferredDepartureTime), d.minWTP, FromKnots(d.valueOfTime),
                  mean, stdDev, dateTimeEngine, characteristicsEngine, lib)
  }

  lemma ConfigureIsConfigured(key: DemandStreamKey, d: DemandCharacteristics, mean: real, stdDev: real,
                              dateTimeEngine: Engine, characteristicsEngine: Engine, lib: Library)
    requires IsCharacteristics(d)
    requires IsEngine(dateTimeEngine) && IsEngine(characteristicsEngine) && IsLibrary(lib)
    ensures IsConfigured(Configure(key, d, mean, stdDev, dateTimeEngine, characteristicsEngine, lib))
  {
    hide IsEngine, IsLibrary, AreCovered, AreComplete, BuildCustomers;
    AreCoveredIffComplete(d.customers);
  }

  lemma InitIsFresh(s: State, total: int)
    requires s.numberOfRequestsGeneratedSoFar == 0 && s.cumulativeProbabilitySoFar == 0.0
    requires s.dateTimePosition == 0 && s.characteristicsPosition == 0
    ensures DemandStreamModel.Init(s, total) == Fresh(total).(dateTimeLastRequest := s.dateTimeLastRequest)
  {
  }

  function Frat5Knots(): (knots: seq<Knot>)
    ensures IsMap(knots) && FromKnots(knots) == DEFAULT_FRAT5_PATTERN
  {
    [Knot(1.10, -365.0), Knot(1.20, -63.0), Knot(1.30, -49.0), Knot(1.40, -35.0), Knot(1.70, -23.0),
     Knot(2.00, -16.0), Knot(2.30, -10.0), Knot(2.44, -5.0), Knot(2.50, -1.0), Knot(2.500000001, 0.0)]
  }

  lemma AdvanceCases(s: State, bound: real, time: real)
    ensures time < bound ==>
              Advance(s, bound, time)
              == (s.(dateTimeLastRequest := time,
                     numberOfRequestsGeneratedSoFar := s.numberOfRequestsGeneratedSoFar + 1), true)
    ensures bound <= time ==> Advance(s, bound, time) == (s.(dateTimeLastRequest := bound), false)
  {
  }

  /** The samplers of the kinds of customers. */
  class CustomerSamplers {
    const pointOfSale: CategoricalAttributeLite<string>
    const channel: CategoricalAttributeLite<string>
    const tripType: CategoricalAttributeLite<string>
    const stayDuration: CategoricalAttributeLite<int>
    const frequentFlyer: CategoricalAttributeLite<string>

    ghost predicate Valid() {
      && pointOfSale.Valid() && channel.Valid() && tripType.Valid() && stayDuration.Valid() && frequentFlyer.Valid()
      && AreCovered(Contents())
    }

    function Contents(): Customers {
      Customers(pointOfSale.Contents(), channel.Contents(), tripType.Contents(), stayDuration.Contents(),
                frequentFlyer.Contents())
    }

    constructor (m: CustomerMasses)
      requires AreComplete(m)
      ensures Valid() && Contents() == BuildCustomers(m)
    {
      hide AreCovered;
      pointOfSale := new CategoricalAttributeLite(m.pointOfSale);
      channel := new CategoricalAttributeLite(m.channel);
      tripType := new CategoricalAttributeLite(m.tripType);
      stayDuration := new CategoricalAttributeLite(m.stayDuration);
      frequentFlyer := new CategoricalAttributeLite(m.frequentFlyer);
      AreCoveredIffComplete(m);
    }
  }

  /** A lookup of a draw that is not out of range. */
  method Choose<T(!new,==)>(sampler: CategoricalAttributeLite<T>, variate: real) returns (v: T)
    requires sampler.Valid() && CoversDraws(sampler.Contents()) && 0.0 <= variate < 1.0
    ensures v == Chosen(sampler.Contents(), variate)
  {
    var r := sampler.GetValue(variate);
    v := r.value;
  }

  /** What a row gives a stream, with samplers built from its maps. */
  class StreamCharacteristics {
    const arrivalPattern: ContinuousAttributeLite
    const customers: CustomerSamplers
    const changeFeeProb: real
    const nonRefundableProb: real
    const preferredDepartureTime: ContinuousAttributeLite
    const minWTP: real
    const frat5Pattern: ContinuousAttributeLite
    const valueOfTime: ContinuousAttributeLite

    ghost predicate Valid() {
      && arrivalPattern.Valid() && preferredDepartureTime.Valid() && valueOfTime.Valid() && customers.Valid()
      && frat5Pattern.Valid() && frat5Pattern.Contents() == DEFAULT_FRAT5_PATTERN
    }

    /** The characteristics hold what the row says. */
    ghost predicate Holds(d: DemandCharacteristics) {
      && arrivalPattern.Contents() == FromKnots(d.arrivalPattern) && customers.Contents() == BuildCustomers(d.customers)
      && changeFeeProb == d.changeFeeProb && nonRefundableProb == d.nonRefundableProb
      && preferredDepartureTime.Contents() == FromKnots(d.preferredDepartureTime) && minWTP == d.minWTP
      && valueOfTime.Contents() == FromKnots(d.valueOfTime)
    }

    constructor (d: DemandCharacteristics)
      requires IsCharacteristics(d)
      ensures Valid() && Holds(d)
    {
      hide IsDistribution, AreCovered, AreComplete, BuildCustomers, FromKnots, Frat5Knots;
      arrivalPattern := new ContinuousAttributeLite(d.arrivalPattern);
      customers := new CustomerSamplers(d.customers);
      changeFeeProb, nonRefundableProb := d.changeFeeProb, d.nonRefundableProb;
      preferredDepartureTime := new ContinuousAttributeLite(d.preferredDepartureTime);
      minWTP := d.minWTP;
      frat5Pattern := new ContinuousAttributeLite(Frat5Knots());
      valueOfTime := new ContinuousAttributeLite(d.valueOfTime);
    }
  }

  class DemandStream {
    const key: DemandStreamKey
    const demandCharacteristics: StreamCharacteristics
    const meanNumberOfRequests: real
    const stdDevNumberOfRequests: real
    const lib: Library
    const randomGenerationContext: RandomGenerationContext
    const requestDateTimeRandomGenerator: RandomGeneration
    const demandCharacteristicsRandomGenerator: RandomGeneration
    var totalNumberOfRequestsToBeGenerated: int
    var stillHavingRequestsToBeGenerated: bool
    var firstDateTimeRequest: bool
    var dateTimeLastRequest: real

    /** The objects that make up the stream. */
    ghost function Repr(): set<object> {
      {this, randomGenerationContext, requestDateTimeRandomGenerator, demandCharacteristicsRandomGenerator}
    }

    ghost predicate Valid() {
      && requestDateTimeRandomGenerator != demandCharacteristicsRandomGenerator
      && demandCharacteristics.Valid()
      && IsConfigured(Config())
    }

    ghost function Config(): Configuration {
      var d := demandCharacteristics;
      Configuration(key, d.arrivalPattern.Contents(), d.customers.Contents(), d.changeFeeProb, d.nonRefundableProb,
                    d.preferredDepartureTime.Contents(), d.minWTP, d.valueOfTime.Contents(),
                    meanNumberOfRequests, stdDevNumberOfRequests,
                    requestDateTimeRandomGenerator.engine, demandCharacteristicsRandomGenerator.engine, lib)
    }

    ghost function Contents(): State
      reads this, randomGenerationContext, requestDateTimeRandomGenerator, demandCharacteristicsRandomGenerator
    {
      State(totalNumberOfRequestsToBeGenerated,
            randomGenerationContext.numberOfRequestsGeneratedSoFar,
            randomGenerationContext.cumulativeProbabilitySoFar,
            stillHavingRequestsToBeGenerated, firstDateTimeRequest, dateTimeLastRequest,
            requestDateTimeRandomGenerator.position, demandCharacteristicsRandomGenerator.position)
    }

    /** Creation of the stream followed by setAll.  The time of the last request is left as it
        comes. */
    constructor (key: DemandStreamKey, d: DemandCharacteristics, mean: real, stdDev: real,
                 dateTimeEngine: Engine, characteristicsEngine: Engine, lib: Library,
                 shared: RandomGeneration)
      requires IsCharacteristics(d)
      requires IsEngine(dateTimeEngine) && IsEngine(characteristicsEngine) && IsLibrary(lib)
      modifies shared
      ensures Valid() && fresh(Repr())
      ensures Config() == Configure(key, d, mean, stdDev, dateTimeEngine, characteristicsEngine, lib)
      ensures Contents() == Fresh(RequestsToBeGenerated(shared.engine.normal(old(shared.position), mean, stdDev)))
                            .(dateTimeLastRequest := dateTimeLastRequest)
      ensures shared.position == old(shared.position) + 1
    {
      hide IsConfigured, IsEngine, IsLibrary, IsCharacteristics, BuildCustomers, RequestsToBeGenerated, FromKnots;
      this.key, this.lib := key, lib;
      this.demandCharacteristics := new StreamCharacteristics(d);
      this.meanNumberOfRequests, this.stdDevNumberOfRequests := mean, stdDev;
      this.randomGenerationContext := new RandomGenerationContext();
      this.requestDateTimeRandomGenerator := new RandomGeneration(dateTimeEngine);
      this.demandCharacteristicsRandomGenerator := new RandomGeneration(characteristicsEngine);
      this.totalNumberOfRequestsToBeGenerated := 0;
      this.dateTimeLastRequest := *;
      new;
      ConfigureIsConfigured(key, d, mean, stdDev, dateTimeEngine, characteristicsEngine, lib);
      InitIsFresh(Contents(), RequestsToBeGenerated(shared.engine.normal(shared.position, mean, stdDev)));
      hide DemandStreamModel.Init, Fresh, Configure;
      Init(shared);
    }

    method Init(shared: RandomGeneration)
      requires Valid() && shared !in Repr()
      modifies this, shared
      ensures Contents() == DemandStreamModel.Init(old(Contents()),
                RequestsToBeGenerated(shared.engine.normal(old(shared.position),
                                                           meanNumberOfRequests, stdDevNumberOfRequests)))
      ensures shared.position == old(shared.position) + 1
    {
      var number := shared.GenerateNormal(meanNumberOfRequests, stdDevNumberOfRequests);
      totalNumberOfRequestsToBeGenerated := (number + 0.5).Floor;
      stillHavingRequestsToBeGenerated := true;
      firstDateTimeRequest := true;
    }

    method Reset(shared: RandomGeneration)
      requires Valid() && shared !in Repr()
      modifies this, randomGenerationContext, shared
      ensures Contents() == DemandStreamModel.Reset(old(Contents()),
                RequestsToBeGenerated(shared.engine.normal(old(shared.position),
                                                           meanNumberOfRequests, stdDevNumberOfRequests)))
      ensures shared.position == old(shared.position) + 1
    {
      randomGenerationContext.Reset();
      Init(shared);
    }

    method SetBoolFirstDateTimeRequest(first: bool)
      modifies this`firstDateTimeRequest
      ensures Contents() == old(Contents()).(firstDateTimeRequest := first)
    {
      firstDateTimeRequest := first;
    }

    method StillHavingRequestsToBeGenerated(m: Method) returns (still: bool)
      ensures still == DemandStreamModel.StillHavingRequestsToBeGenerated(m, Contents())
    {
      if m == StatisticsOrder {
        still := true;
        var remaining := totalNumberOfRequestsToBeGenerated - randomGenerationContext.numberOfRequestsGeneratedSoFar;
        if remaining <= 0 {
          still := false;
        }
      } else {
        still := stillHavingRequestsToBeGenerated;
      }
    }

    method GenerateTimeOfRequestPoissonProcess() returns (t: int)
      requires Valid() && IsPoisson(Config(), Contents())
      modifies this, randomGenerationContext, requestDateTimeRandomGenerator
      ensures (Contents(), t) == NextPoissonTime(Config(), old(Contents()))
      decreases firstDateTimeRequest, KnotsAbove(Config(), Contents())
    {
      hide Quantile, KnotsAbove, IsConfigured, Advance, PoissonTick, IsPoissonPattern, ConvertFloatIntoDuration;
      StartIsConsistent(Config(), Contents());
      var departure := DepartureDateTime(key.date);
      if firstDateTimeRequest {
        dateTimeLastRequest := demandCharacteristics.arrivalPattern.GetValue(0.0);
        firstDateTimeRequest := false;
      }
      assert Contents() == PoissonStart(Config(), old(Contents()));

      if dateTimeLastRequest == DEFAULT_LAST_LOWER_BOUND_ARRIVAL_PATTERN {
        stillHavingRequestsToBeGenerated := false;
        return departure + ConvertFloatIntoDuration(-DEFAULT_LAST_LOWER_BOUND_ARRIVAL_PATTERN);
      }

      TickIsConsistent(Config(), Contents());
      var upperBound, time := DrawTimeOfRequest();
      AdvanceCases(Contents(), upperBound, time);
      if time < upperBound {
        t := departure + ConvertFloatIntoDuration(time);
        dateTimeLastRequest := time;
        randomGenerationContext.IncrementGeneratedRequestsCounter();
      } else {
        dateTimeLastRequest := upperBound;
        t := GenerateTimeOfRequestPoissonProcess();
      }
    }

    /** The end of the current daily-rate interval, and the last time plus an exponential draw. */
    method DrawTimeOfRequest() returns (upperBound: real, time: real)
      requires Valid() && IsPoissonPattern(Config()) && OnSegment(Config().arrivalPattern, dateTimeLastRequest)
      modifies requestDateTimeRandomGenerator
      ensures PoissonTick(Config(), old(Contents())) == Advance(Contents(), upperBound, time)
    {
      hide Slope, UpperBound, IsConfigured, IsPoissonPattern, Advance, Scaled;
      DailyRatePositive(Config(), dateTimeLastRequest);
      upperBound := demandCharacteristics.arrivalPattern.GetUpperBound(dateTimeLastRequest);
      var dailyRate := demandCharacteristics.arrivalPattern.GetDerivativeValue(dateTimeLastRequest);
      dailyRate := Scaled(dailyRate, meanNumberOfRequests);
      var exponential := requestDateTimeRandomGenerator.GenerateExponential(dailyRate);
      time := dateTimeLastRequest + exponential;
    }

    method GenerateTimeOfRequestStatisticsOrder() returns (t: int)
      requires Valid() && IsReady(StatisticsOrder, Config(), Contents())
      requires Remaining(Contents()) > 0
      modifies this, randomGenerationContext, requestDateTimeRandomGenerator
      ensures (Contents(), t) == NextOrderTime(Config(), old(Contents()))
    {
      hide Quantile, Shrink, AreCovered, IsEngine, IsDistribution, ConvertFloatIntoDuration;
      var soFar := randomGenerationContext.numberOfRequestsGeneratedSoFar;
      var remaining := totalNumberOfRequestsToBeGenerated - soFar;
      assert remaining > 0;
      var remainingRate := Reciprocal(remaining);
      var complement := 1.0 - randomGenerationContext.cumulativeProbabilitySoFar;
      var variate := requestDateTimeRandomGenerator.Draw();
      var factor := lib.pow(1.0 - variate, remainingRate);
      if factor >= 1.0 - 0.000001 {
        factor := 1.0 - 0.000001;
      }
      var cumulative := 1.0 - Shrink(complement, factor);
      var days := demandCharacteristics.arrivalPattern.GetValue(cumulative);
      t := DepartureDateTime(key.date) + ConvertFloatIntoDuration(days);
      randomGenerationContext.SetCumulativeProbabilitySoFar(cumulative);
      randomGenerationContext.IncrementGeneratedRequestsCounter();
    }

    method GenerateTime(m: Method) returns (t: int)
      requires Valid() && IsReady(m, Config(), Contents())
      requires DemandStreamModel.StillHavingRequestsToBeGenerated(m, Contents())
      modifies this, randomGenerationContext, requestDateTimeRandomGenerator
      ensures (Contents(), t) == NextTime(m, Config(), old(Contents()))
    {
      match m
      case PoissonProcess => t := GenerateTimeOfRequestPoissonProcess();
      case StatisticsOrder => t := GenerateTimeOfRequestStatisticsOrder();
    }

    method GenerateWTP(shared: RandomGeneration, t: int) returns (wtp: real)
      requires Valid() && shared !in Repr()
      modifies shared
      ensures wtp == WTP(Config(), t, shared.engine.uniform(old(shared.position)))
      ensures shared.position == old(shared.position) + 1
    {
      var advancePurchase := key.date - DateOf(t);
      var frat5 := demandCharacteristics.frat5Pattern.GetValue(-(advancePurchase as real));
      var u := shared.Draw();
      assert lib.log(0.5) < 0.0;
      wtp := WtpFormula(demandCharacteristics.minWTP, frat5, lib.log(u), lib.log(0.5));
    }

    method GenerateNextRequest(shared: RandomGeneration, m: Method) returns (r: BookingRequest)
      requires Valid() && IsReady(m, Config(), Contents()) && shared !in Repr()
      requires DemandStreamModel.StillHavingRequestsToBeGenerated(m, Contents())
      modifies Repr(), shared
      ensures (Contents(), r)
              == NextRequest(m, Config(), old(Contents()), shared.engine.uniform(old(shared.position)))
      ensures shared.position == old(shared.position) + 1
    {
      hide Describe, NextTime, IsLibrary, IsDistribution, IsPoissonPattern, CoversDraws;
      var variate := demandCharacteristicsRandomGenerator.Draw();
      var pos := Choose(demandCharacteristics.customers.pointOfSale, variate);
      var time := GenerateTime(m);
      r := DescribeRequest(shared, pos, variate, time);
    }

    /** The customer, but for the point of sale. */
    method DrawCustomer(pos: string, ghost posDraw: real) returns (customer: Customer)
      requires Valid() && 0.0 <= posDraw < 1.0
      requires pos == Chosen(demandCharacteristics.customers.pointOfSale.Contents(), posDraw)
      modifies demandCharacteristicsRandomGenerator
      ensures demandCharacteristicsRandomGenerator.position == old(demandCharacteristicsRandomGenerator.position) + 4
      ensures customer == CustomerAt(Config(), posDraw, old(demandCharacteristicsRandomGenerator.position))
    {
      hide IsLibrary, IsDistribution, CoversDraws, Chosen;
      var generator := demandCharacteristicsRandomGenerator;
      var variate := generator.Draw();
      var channel := Choose(demandCharacteristics.customers.channel, variate);
      variate := generator.Draw();
      var tripType := Choose(demandCharacteristics.customers.tripType, variate);
      variate := generator.Draw();
      var stayDuration := Choose(demandCharacteristics.customers.stayDuration, variate);
      variate := generator.Draw();
      var frequentFlyer := Choose(demandCharacteristics.customers.frequentFlyer, variate);
      customer := Customer(pos, channel, tripType, stayDuration, frequentFlyer);
    }

    method DrawPreferences() returns (changeFees: bool, nonRefundable: bool, time: real, value: real)
      requires Valid()
      modifies demandCharacteristicsRandomGenerator
      ensures var k := old(demandCharacteristicsRandomGenerator.position);
              var draw := demandCharacteristicsRandomGenerator.engine.uniform;
              && demandCharacteristicsRandomGenerator.position == k + 4
              && changeFees == (draw(k) < demandCharacteristics.changeFeeProb)
              && nonRefundable == (draw(k + 1) < demandCharacteristics.nonRefundableProb)
              && time == Quantile(demandCharacteristics.preferredDepartureTime.Contents(), draw(k + 2))
              && value == Quantile(demandCharacteristics.valueOfTime.Contents(), draw(k + 3))
    {
      hide Quantile, IsEngine, IsLibrary, IsDistribution, AreCovered;
      var generator := demandCharacteristicsRandomGenerator;
      var variate := generator.Draw();
      changeFees := variate < demandCharacteristics.changeFeeProb;
      variate := generator.Draw();
      nonRefundable := variate < demandCharacteristics.nonRefundableProb;
      variate := generator.Draw();
      time := demandCharacteristics.preferredDepartureTime.GetValue(variate);
      variate := generator.Draw();
      value := demandCharacteristics.valueOfTime.GetValue(variate);
    }

    method DescribeRequest(shared: RandomGeneration, pos: string, ghost posDraw: real, time: int)
      returns (r: BookingRequest)
      requires Valid() && shared !in Repr()
      requires 0.0 <= posDraw < 1.0 && pos == Chosen(demandCharacteristics.customers.pointOfSale.Contents(), posDraw)
      modifies demandCharacteristicsRandomGenerator, shared
      ensures (Contents(), r)
              == Describe(Config(), old(Contents()), posDraw, time, shared.engine.uniform(old(shared.position)))
      ensures shared.position == old(shared.position) + 1
    {
      hide WTP, Quantile, IsEngine, IsLibrary, IsDistribution, Truncate, ToString, CoversDraws, Chosen, CustomerAt;
      var customer := DrawCustomer(pos, posDraw);
      var changeFees, nonRefundable, seconds, value := DrawPreferences();
      var wtp := GenerateWTP(shared, time);
      r := BookingRequest(ToString(lib, key), key.date, time, customer, changeFees, nonRefundable,
                          MILLISECONDS_IN_ONE_SECOND * Truncate(seconds), wtp, value);
    }
  }
}
