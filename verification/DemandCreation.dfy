/** DemandManager::createDemandCharacteristics: the day loop that creates the demand streams of one
    row of the demand file. */
module DemandCreation {
  import opened ContinuousAttributeLite
  import opened DemandStream
  import opened DemandStreamKey
  import opened DemandStreamModel
  import opened DriverModel
  import opened RandomGeneration
  import opened RealArithmetic
  import opened StreamRuns
  import opened TrademgenService

  /** One row of the demand file.  The parser turns the inclusive last day into a date range that ends
      one day later. */
  datatype DemandStruct = DemandStruct(
    firstDay: int,
    lastDay: int,
    dow: seq<bool>,
    origin: string,
    destination: string,
    cabin: string,
    characteristics: DemandCharacteristics,
    mean: real,
    stdDev: real)

  const DAYS_IN_WEEK := 7

  /** Day numbers are counted from a Sunday, the first day of the standard week. */
  function DayOfWeek(day: int): (n: nat)
    ensures n < DAYS_IN_WEEK
  {
    day % DAYS_IN_WEEK
  }

  predicate IsActive(dow: seq<bool>, day: int)
    requires |dow| == DAYS_IN_WEEK
  {
    dow[DayOfWeek(day)]
  }

  /** The active days from first on, up to but not including end. */
  function ActiveDays(dow: seq<bool>, first: int, end: int): seq<int>
    requires |dow| == DAYS_IN_WEEK && first <= end
    decreases end - first
  {
    if first == end then []
    else ActiveDays(dow, first, end - 1) + if IsActive(dow, end - 1) then [end - 1] else []
  }

  /** The active days of the range, each of them once, in increasing order. */
  lemma {:induction false} ActiveDaysAreTheActiveDays(dow: seq<bool>, first: int, end: int)
    requires |dow| == DAYS_IN_WEEK && first <= end
    ensures forall day :: day in ActiveDays(dow, first, end) <==> first <= day < end && IsActive(dow, day)
    ensures forall i, j :: 0 <= i < j < |ActiveDays(dow, first, end)| ==>
              ActiveDays(dow, first, end)[i] < ActiveDays(dow, first, end)[j]
    decreases end - first
  {
    if first < end {
      ActiveDaysAreTheActiveDays(dow, first, end - 1);
      var before := ActiveDays(dow, first, end - 1);
      assert forall i :: 0 <= i < |before| ==> before[i] in before;
    }
  }

  function CountActive(dow: seq<bool>): nat {
    if dow == [] then 0 else CountActive(dow[..|dow| - 1]) + if dow[|dow| - 1] then 1 else 0
  }

  lemma {:induction false} ActiveDaysAdd(dow: seq<bool>, first: int, middle: int, end: int)
    requires |dow| == DAYS_IN_WEEK && first <= middle <= end
    ensures |ActiveDays(dow, first, end)| == |ActiveDays(dow, first, middle)| + |ActiveDays(dow, middle, end)|
    decreases end - middle
  {
    if middle < end {
      ActiveDaysAdd(dow, first, middle, end - 1);
    }
  }

  lemma OneDay(dow: seq<bool>, day: int)
    requires |dow| == DAYS_IN_WEEK
    ensures |ActiveDays(dow, day, day + 1)| == if IsActive(dow, day) then 1 else 0
  {
    assert ActiveDays(dow, day, day) == [];
  }

  /** Moving a week-long window by a day swaps a weekday for itself. */
  lemma WeekMoves(dow: seq<bool>, first: int)
    requires |dow| == DAYS_IN_WEEK
    ensures |ActiveDays(dow, first, first + 7)| == |ActiveDays(dow, first + 1, first + 8)|
  {
    ActiveDaysAdd(dow, first, first + 1, first + 8);
    ActiveDaysAdd(dow, first, first + 7, first + 8);
    OneDay(dow, first);
    OneDay(dow, first + 7);
    assert DayOfWeek(first + 7) == DayOfWeek(first);
  }

  lemma {:induction false} FirstDays(dow: seq<bool>, k: nat)
    requires |dow| == DAYS_IN_WEEK && k <= DAYS_IN_WEEK
    ensures |ActiveDays(dow, 0, k)| == CountActive(dow[..k])
  {
    if k > 0 {
      FirstDays(dow, k - 1);
      assert dow[..k][..k - 1] == dow[..k - 1];
    }
  }

  /** Any seven days in a row hold every weekday once. */
  lemma {:induction false} AnyWeek(dow: seq<bool>, first: int)
    requires |dow| == DAYS_IN_WEEK
    ensures |ActiveDays(dow, first, first + 7)| == CountActive(dow)
    decreases if first < 0 then -first else first
  {
    if first < 0 {
      AnyWeek(dow, first + 1);
      WeekMoves(dow, first);
    } else if first > 0 {
      AnyWeek(dow, first - 1);
      WeekMoves(dow, first - 1);
    } else {
      FirstDays(dow, DAYS_IN_WEEK);
      assert dow[..DAYS_IN_WEEK] == dow;
    }
  }

  /** A range of w weeks has w times the active weekdays of the row. */
  lemma {:induction false} WeeksOfActiveDays(dow: seq<bool>, first: int, weeks: nat)
    requires |dow| == DAYS_IN_WEEK
    ensures |ActiveDays(dow, first, first + 7 * weeks)| == weeks * CountActive(dow)
    decreases weeks
  {
    if weeks > 0 {
      WeeksOfActiveDays(dow, first, weeks - 1);
      ActiveDaysAdd(dow, first, first + 7 * (weeks - 1), first + 7 * weeks);
      AnyWeek(dow, first + 7 * (weeks - 1));
      assert weeks * CountActive(dow) == (weeks - 1) * CountActive(dow) + CountActive(dow);
    }
  }

  // ---------------------------------------------------------------- Keys

  function KeyOf(d: DemandStruct, day: int): DemandStreamKey {
    DemandStreamKey(d.origin, d.destination, day, d.cabin)
  }

  /** The streams of a row have pairwise distinct strings, whatever its airports and cabin are: the
      texts of their days differ. */
  lemma RowStringsAreDistinct(lib: Library, d: DemandStruct, day: int, day': int)
    requires HasDateTexts(lib) && IsDate(day) && IsDate(day') && day != day'
    ensures ToString(lib, KeyOf(d, day)) != ToString(lib, KeyOf(d, day'))
  {
    var head, tail := d.origin + "-" + d.destination + " ", " " + d.cabin;
    var a, b := lib.dateText(day), lib.dateText(day');
    assert ToString(lib, KeyOf(d, day)) == head + (a + tail);
    assert ToString(lib, KeyOf(d, day')) == head + (b + tail);
    if ToString(lib, KeyOf(d, day)) == ToString(lib, KeyOf(d, day')) {
      AppendCancels(head, a + tail, head, b + tail);
      AppendCancels(a, tail, b, tail);
    }
  }

  /** The configurations that are created for a row. */
  ghost predicate AreOfRow(lib: Library, d: DemandStruct, days: seq<int>, cs: seq<Configuration>) {
    |cs| == |days| && forall j :: 0 <= j < |cs| ==> cs[j].key == KeyOf(d, days[j]) && cs[j].lib == lib
  }

  /** Each stream of the row is found under its own string. */
  lemma RowStreamsAreFound(lib: Library, d: DemandStruct, days: seq<int>, cs: seq<Configuration>, j: nat)
    requires HasDateTexts(lib) && AreOfRow(lib, d, days, cs) && j < |cs|
    requires forall i :: 0 <= i < |days| ==> IsDate(days[i])
    requires forall i, k :: 0 <= i < k < |days| ==> days[i] != days[k]
    ensures forall i, k :: 0 <= i < k < |cs| ==> KeyStrings(cs)[i] != KeyStrings(cs)[k]
    ensures KeyStrings(cs)[j] == ToString(lib, KeyOf(d, days[j]))
    ensures KeyStrings(cs)[j] in KeyStrings(cs) && Find(KeyStrings(cs), ToString(lib, KeyOf(d, days[j]))) == j
  {
    var keys := KeyStrings(cs);
    forall i, k | 0 <= i < k < |cs| ensures keys[i] != keys[k] {
      RowStringsAreDistinct(lib, d, days[i], days[k]);
    }
    assert keys[j] == ToString(lib, KeyOf(d, days[j]));
    var found := Find(keys, keys[j]);
    assert keys[found] == keys[j];
  }

  // ---------------------------------------------------------------- The day loop

  /** DemandManager::generateSeed. */
  function Seed(u: real): int {
    Truncate(u * 1_000_000_000.0)
  }

  /** What a row's streams are made from, besides the row: the library, the engine that a seed gives,
      and the shared engine that seeds and totals are drawn from. */
  datatype Sources = Sources(lib: Library, engineOf: int -> Engine, shared: Engine)

  ghost predicate IsSources(w: Sources) {
    IsLibrary(w.lib) && forall seed :: IsEngine(w.engineOf(seed))
  }

  /** The stream created for a day when the shared generator stands at a position: it takes two draws
      for the seeds and one for the total. */
  function ConfigurationFor(w: Sources, d: DemandStruct, position: nat, day: int): Configuration {
    Configure(KeyOf(d, day), d.characteristics, d.mean, d.stdDev,
              w.engineOf(Seed(w.shared.uniform(position))), w.engineOf(Seed(w.shared.uniform(position + 1))), w.lib)
  }

  function TotalFor(w: Sources, d: DemandStruct, position: nat): int {
    RequestsToBeGenerated(w.shared.normal(position + 2, d.mean, d.stdDev))
  }

  /** The seed is the whole part of a billion times the draw. */
  predicate IsSeed(n: int, u: real) {
    n as real <= 1_000_000_000.0 * u < n as real + 1.0
  }

  /** What a stream owes to its row, to its day and to the draws of the shared generator: its key, the
      engine of its date-times from the first draw, that of its characteristics from the second. */
  ghost predicate AnswersRow(c: Configuration, w: Sources, d: DemandStruct, position: nat, day: int) {
    && c.key.origin == d.origin && c.key.destination == d.destination && c.key.date == day && c.key.cabin == d.cabin
    && (exists seed :: IsSeed(seed, w.shared.uniform(position)) && c.dateTimeEngine == w.engineOf(seed))
    && (exists seed :: IsSeed(seed, w.shared.uniform(position + 1)) && c.characteristicsEngine == w.engineOf(seed))
    && c.mean == d.mean && c.stdDev == d.stdDev
    && AreKnotsOf(c.arrivalPattern, d.characteristics.arrivalPattern)
    && AreKnotsOf(c.preferredDepartureTime, d.characteristics.preferredDepartureTime)
    && AreKnotsOf(c.valueOfTime, d.characteristics.valueOfTime)
    && c.customers == BuildCustomers(d.characteristics.customers)
    && c.changeFeeProb == d.characteristics.changeFeeProb && c.nonRefundableProb == d.characteristics.nonRefundableProb
    && c.minWTP == d.characteristics.minWTP && c.lib == w.lib
  }

  ghost predicate AreKnotsOf(d: Distribution, knots: seq<Knot>) {
    && |d.values| == |d.cumulatives| == |knots|
    && forall i :: 0 <= i < |knots| ==> knots[i] == Knot(d.values[i], d.cumulatives[i])
  }

  lemma SeedIsSeed(u: real)
    requires 0.0 <= u
    ensures IsSeed(Seed(u), u)
  {
  }

  /** The stream of a day answers its row; its total is the whole number nearest to the third draw. */
  lemma ConfigurationAnswersRow(w: Sources, d: DemandStruct, position: nat, day: int)
    requires IsEngine(w.shared)
    ensures AnswersRow(ConfigurationFor(w, d, position, day), w, d, position, day)
    ensures var draw, total := w.shared.normal(position + 2, d.mean, d.stdDev), TotalFor(w, d, position);
            total as real - 0.5 <= draw < total as real + 0.5
  {
    hide Seed, BuildCustomers;
    SeedIsSeed(w.shared.uniform(position));
    SeedIsSeed(w.shared.uniform(position + 1));
  }

  /** The j-th stream that a row adds answers the row on its j-th day, at three draws of the shared
      generator for each stream before it. */
  lemma CreatedStreamsAnswerRow(service: TrademgenService, before: seq<DemandStream>, w: Sources, d: DemandStruct,
                                position: nat, days: seq<int>, j: nat)
    requires AreCreated(service, before, w, d, position, days) && j < |days| && IsEngine(w.shared)
    ensures |service.demandStreams| == |before| + |days|
    ensures var s := service.demandStreams[|before| + j];
            var draw := w.shared.normal(position + 3 * j + 2, d.mean, d.stdDev);
            && AnswersRow(s.Config(), w, d, position + 3 * j, days[j])
            && s.totalNumberOfRequestsToBeGenerated as real - 0.5 <= draw
               < s.totalNumberOfRequestsToBeGenerated as real + 0.5
            && s.Contents().numberOfRequestsGeneratedSoFar == 0
            && s.stillHavingRequestsToBeGenerated && s.firstDateTimeRequest
  {
    hide AnswersRow, ConfigurationFor, TotalFor;
    ConfigurationAnswersRow(w, d, position + 3 * j, days[j]);
    assert IsCreated(service.demandStreams[|before| + j], w, d, position + 3 * j, days[j]);
  }

  /** s is a stream just created for a day. */
  ghost predicate IsCreated(s: DemandStream, w: Sources, d: DemandStruct, position: nat, day: int)
    reads s, s.randomGenerationContext, s.requestDateTimeRandomGenerator, s.demandCharacteristicsRandomGenerator
  {
    && s.Valid() && s.Config() == ConfigurationFor(w, d, position, day)
    && s.Contents() == Fresh(TotalFor(w, d, position)).(dateTimeLastRequest := s.dateTimeLastRequest)
  }

  /** generateSeed twice, and createDemandStream without adding the stream to the service. */
  method CreateStream(shared: RandomGeneration, w: Sources, d: DemandStruct, day: int) returns (s: DemandStream)
    requires IsSources(w) && shared.engine == w.shared && IsCharacteristics(d.characteristics)
    modifies shared
    ensures fresh(s.Repr()) && IsCreated(s, w, d, old(shared.position), day)
    ensures s.Valid() && s.meanNumberOfRequests == d.mean
    ensures shared.position == old(shared.position) + 3
  {
    hide IsEngine, IsLibrary, IsCharacteristics;
    var u := shared.Draw();
    var dateTimeSeed := Seed(u);
    u := shared.Draw();
    var characteristicsSeed := Seed(u);
    s := new DemandStream(KeyOf(d, day), d.characteristics, d.mean, d.stdDev,
                          w.engineOf(dateTimeSeed), w.engineOf(characteristicsSeed), w.lib, shared);
  }

  /** To the streams that the service had, the row has added one for each of the days. */
  ghost predicate AreCreated(service: TrademgenService, before: seq<DemandStream>, w: Sources, d: DemandStruct,
                             position: nat, days: seq<int>)
    reads service, service.StreamObjects()
  {
    && |service.demandStreams| == |before| + |days| && before <= service.demandStreams
    && forall j :: 0 <= j < |days| ==>
         var s := service.demandStreams[|before| + j];
         assert s.Repr() <= service.StreamObjects();
         IsCreated(s, w, d, position + 3 * j, days[j])
  }

  /** One active day: the stream is created and added, and the expected total extended. */
  method CreateDay(service: TrademgenService, w: Sources, d: DemandStruct, day: int,
                   ghost before: seq<DemandStream>, ghost position: nat, ghost days: seq<int>)
    requires service.Valid() && IsSources(w) && service.uniformGenerator.engine == w.shared
    requires IsCharacteristics(d.characteristics)
    requires AreCreated(service, before, w, d, position, days)
    requires service.uniformGenerator.position == position + 3 * |days|
    modifies service, service.eventService, service.uniformGenerator
    ensures service.Valid() && AreCreated(service, before, w, d, position, days + [day])
    ensures service.uniformGenerator.position == position + 3 * |days + [day]|
    ensures service.eventService.expectedTotalNumberOfRequests
            == old(service.eventService.expectedTotalNumberOfRequests) + d.mean
    ensures service.eventService.events == old(service.eventService.events)
    ensures fresh(service.StreamObjects() - old(service.StreamObjects()))
  {
    hide ConfigurationFor, TotalFor, IsSources, IsCharacteristics, IsConfigured, Fresh, IsCreated, AreCreated;
    hide TrademgenService.Valid, DemandStream.Valid;
    var s := CreateApart(service, w, d, day, before, position, days);
    AddCreated(service, s, w, d, day, before, position, days);
    var expected := s.meanNumberOfRequests;
    service.eventService.AddRequestStatus(expected);
  }

  /** A new stream, made of new objects. */
  method CreateApart(service: TrademgenService, w: Sources, d: DemandStruct, day: int,
                     ghost before: seq<DemandStream>, ghost position: nat, ghost days: seq<int>)
    returns (s: DemandStream)
    requires service.Valid() && IsSources(w) && service.uniformGenerator.engine == w.shared
    requires IsCharacteristics(d.characteristics)
    requires AreCreated(service, before, w, d, position, days)
    requires service.uniformGenerator.position == position + 3 * |days|
    modifies service.uniformGenerator
    ensures service.Valid() && AreCreated(service, before, w, d, position, days)
    ensures service.uniformGenerator.position == position + 3 * |days| + 3
    ensures fresh(s.Repr()) && s.Repr() !! service.StreamObjects() && service !in s.Repr()
    ensures service.uniformGenerator !in s.Repr() && service.eventService !in s.Repr()
    ensures IsCreated(s, w, d, position + 3 * |days|, day) && s.meanNumberOfRequests == d.mean
  {
    hide *;
    service.ObjectsAreApart();
    service.ObjectsAreAllocated();
    s := CreateStream(service.uniformGenerator, w, d, day);
  }

  /** The stream created for the day after those of the service joins them. */
  method AddCreated(service: TrademgenService, s: DemandStream, ghost w: Sources, ghost d: DemandStruct, ghost day: int,
                    ghost before: seq<DemandStream>, ghost position: nat, ghost days: seq<int>)
    requires service.Valid() && AreCreated(service, before, w, d, position, days)
    requires IsCreated(s, w, d, position + 3 * |days|, day)
    requires s.Repr() !! service.StreamObjects() && service !in s.Repr()
    requires service.uniformGenerator !in s.Repr() && service.eventService !in s.Repr()
    modifies service
    ensures service.Valid() && service.demandStreams == old(service.demandStreams) + [s]
    ensures AreCreated(service, before, w, d, position, days + [day])
    ensures service.StreamObjects() <= old(service.StreamObjects()) + s.Repr()
  {
    hide ConfigurationFor, TotalFor, IsConfigured, Fresh;
    service.AddEventGenerator(s);
    hide IsCreated;
    assert service.demandStreams[|before| + |days|] == s;
  }

  /** The expected total after one more stream for each of n days. */
  function Extended(expected: real, mean: real, n: nat): real {
    expected + mean * n as real
  }

  lemma ExtendedByOne(expected: real, mean: real, n: nat)
    ensures Extended(expected, mean, n + 1) == Extended(expected, mean, n) + mean
    ensures Extended(expected, mean, 0) == expected
  {
  }

  lemma NoneCreated(service: TrademgenService, w: Sources, d: DemandStruct, position: nat)
    ensures AreCreated(service, service.demandStreams, w, d, position, [])
  {
  }

  /** The day loop: exactly one stream for each active day of the range, and as many means added to
      the expected total. */
  method CreateDemandCharacteristics(service: TrademgenService, w: Sources, d: DemandStruct)
    requires service.Valid() && IsSources(w) && service.uniformGenerator.engine == w.shared
    requires IsCharacteristics(d.characteristics)
    requires |d.dow| == DAYS_IN_WEEK && d.firstDay <= d.lastDay + 1
    modifies service, service.eventService, service.uniformGenerator
    ensures service.Valid()
    ensures AreCreated(service, old(service.demandStreams), w, d, old(service.uniformGenerator.position),
                       ActiveDays(d.dow, d.firstDay, d.lastDay + 1))
    ensures service.eventService.expectedTotalNumberOfRequests
            == Extended(old(service.eventService.expectedTotalNumberOfRequests), d.mean,
                        |ActiveDays(d.dow, d.firstDay, d.lastDay + 1)|)
    ensures service.eventService.events == old(service.eventService.events)
    ensures fresh(service.StreamObjects() - old(service.StreamObjects()))
    ensures service.uniformGenerator.position
            == old(service.uniformGenerator.position) + 3 * |ActiveDays(d.dow, d.firstDay, d.lastDay + 1)|
  {
    hide *;
    ghost var before, position := service.demandStreams, service.uniformGenerator.position;
    ghost var expected, objects := service.eventService.expectedTotalNumberOfRequests, service.StreamObjects();
    NoneCreated(service, w, d, position);
    ExtendedByOne(expected, d.mean, 0);
    DayAdds(d.dow, d.firstDay, d.firstDay);
    var day, end := d.firstDay, d.lastDay + 1;
    while day != end
      invariant d.firstDay <= day <= end && service.Valid()
      invariant AreCreated(service, before, w, d, position, ActiveDays(d.dow, d.firstDay, day))
      invariant service.uniformGenerator.position == position + 3 * |ActiveDays(d.dow, d.firstDay, day)|
      invariant service.eventService.expectedTotalNumberOfRequests
                == Extended(expected, d.mean, |ActiveDays(d.dow, d.firstDay, day)|)
      invariant service.eventService.events == old(service.eventService.events)
      invariant forall o :: o in service.StreamObjects() && o !in objects ==> fresh(o)
      decreases end - day
    {
      ghost var days := ActiveDays(d.dow, d.firstDay, day);
      DayAdds(d.dow, d.firstDay, day);
      ExtendedByOne(expected, d.mean, |days|);
      var isActive := d.dow[DayOfWeek(day)];
      ghost var current := service.StreamObjects();
      if isActive {
        CreateDay(service, w, d, day, before, position, days);
        forall o | o in service.StreamObjects() && o !in objects ensures fresh(o) {
          if o !in current {
            assert o in service.StreamObjects() - current;
            assert !old(allocated(o));
          }
        }
      }
      day := day + 1;
    }
  }

  lemma DayAdds(dow: seq<bool>, first: int, day: int)
    requires |dow| == DAYS_IN_WEEK && first <= day
    ensures ActiveDays(dow, first, first) == []
    ensures ActiveDays(dow, first, day + 1)
            == if dow[DayOfWeek(day)] then ActiveDays(dow, first, day) + [day] else ActiveDays(dow, first, day)
  {
  }
}
