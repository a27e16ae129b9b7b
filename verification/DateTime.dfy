/** Dates are day numbers, date-times and durations are counts of milliseconds. */
module DateTime {

  const SECONDS_IN_ONE_DAY := 86_400
  const MILLISECONDS_IN_ONE_SECOND := 1_000
  const DAY := 86_400_000
  /** The hard-coded reference departure time. */
  const EIGHT_HOURS := 28_800_000

  /** The date of a date-time; the division rounds down, also before day zero. */
  function DateOf(t: int): int {
    t / DAY
  }

  function TimeOfDay(t: int): int {
    t % DAY
  }

  /** DemandStream::convertFloatIntoDuration: whole seconds, then whole milliseconds plus one. */
  function ConvertFloatIntoDuration(days: real): int {
    var seconds := days * SECONDS_IN_ONE_DAY as real;
    var wholeSeconds := seconds.Floor;
    var milliseconds := (seconds - wholeSeconds as real) * MILLISECONDS_IN_ONE_SECOND as real;
    wholeSeconds * MILLISECONDS_IN_ONE_SECOND + (milliseconds.Floor + 1)
  }

  /** Rounding in two stages loses nothing: the conversion is the exact number of milliseconds,
      rounded down, plus one, for negative offsets too. */
  lemma ConversionIsFloorPlusOne(days: real)
    ensures ConvertFloatIntoDuration(days) == (DAY as real * days).Floor + 1
  {
    var seconds := days * SECONDS_IN_ONE_DAY as real;
    var whole := seconds.Floor;
    var milliseconds := (seconds - whole as real) * 1000.0;
    assert DAY as real * days == whole as real * 1000.0 + milliseconds;
    assert (whole * 1000 + milliseconds.Floor) as real <= DAY as real * days
           < (whole * 1000 + milliseconds.Floor) as real + 1.0;
  }

  /** The conversion lands strictly after the exact offset, by at most one millisecond. */
  lemma ConversionError(days: real)
    ensures 0.0 < ConvertFloatIntoDuration(days) as real - DAY as real * days <= 1.0
  {
    ConversionIsFloorPlusOne(days);
  }

  lemma ConversionMonotone(a: real, b: real)
    requires a <= b
    ensures ConvertFloatIntoDuration(a) <= ConvertFloatIntoDuration(b)
  {
    ConversionIsFloorPlusOne(a);
    ConversionIsFloorPlusOne(b);
  }

  /** The "+1" does not by itself make a later offset strictly later: it does so exactly when the
      two offsets fall into different milliseconds. */
  lemma StrictlyLaterIffInLaterMillisecond(a: real, b: real)
    ensures ConvertFloatIntoDuration(a) < ConvertFloatIntoDuration(b)
            <==> (DAY as real * a).Floor < (DAY as real * b).Floor
    ensures 1.0 <= DAY as real * (b - a) ==> ConvertFloatIntoDuration(a) < ConvertFloatIntoDuration(b)
  {
    ConversionIsFloorPlusOne(a);
    ConversionIsFloorPlusOne(b);
  }

  /** Two offsets half a millisecond apart that the conversion does not separate. */
  lemma PlusOneDoesNotSeparate()
    ensures ConvertFloatIntoDuration(-2.0) == ConvertFloatIntoDuration(-2.0 + 0.5 / 86_400_000.0)
  {
    ConversionIsFloorPlusOne(-2.0);
    ConversionIsFloorPlusOne(-2.0 + 0.5 / 86_400_000.0);
    assert DAY as real * (-2.0 + 0.5 / 86_400_000.0) == -172_800_000.0 + 0.5;
  }

  lemma DateMonotone(t: int, t': int)
    requires t <= t'
    ensures DateOf(t) <= DateOf(t')
  {
  }

  /** The departure date-time that arrival offsets are added to. */
  function DepartureDateTime(date: int): int {
    date * DAY + EIGHT_HOURS
  }

  /** A request this many days before departure. */
  function RequestDateTime(date: int, days: real): int {
    DepartureDateTime(date) + ConvertFloatIntoDuration(days)
  }

  /** The guard of DemandManager::generateNextRequest. */
  predicate IsBeforeDeparture(departureDate: int, preferredTime: int, t: int) {
    || departureDate > DateOf(t)
    || (departureDate == DateOf(t) && preferredTime > TimeOfDay(t))
  }

  /** A time of day, cut to the day. */
  function Cut(time: int): int {
    if time < 0 then 0 else if time > DAY then DAY else time
  }

  /** The guard compares instants: the request must precede the preferred time of day, cut to the
      departure date. */
  lemma GuardComparesInstants(departureDate: int, preferredTime: int, t: int)
    ensures IsBeforeDeparture(departureDate, preferredTime, t) <==> t < departureDate * DAY + Cut(preferredTime)
  {
    assert t == DateOf(t) * DAY + TimeOfDay(t) && 0 <= TimeOfDay(t) < DAY;
  }

  /** What passes the guard for a preferred time passes it for every later one. */
  lemma GuardIsMonotone(departureDate: int, preferredTime: int, later: int, t: int)
    requires preferredTime <= later && IsBeforeDeparture(departureDate, preferredTime, t)
    ensures IsBeforeDeparture(departureDate, later, t)
  {
  }

  /** The offset of a preferred time from the reference departure time, less the millisecond that the
      conversion adds. */
  function Deadline(preferredTime: int): real {
    (Cut(preferredTime) - EIGHT_HOURS - 1) as real / DAY as real
  }

  /** A request passes the guard exactly if it is drawn before that offset. */
  lemma PassesIffBeforeDeadline(date: int, preferredTime: int, days: real)
    ensures IsBeforeDeparture(date, preferredTime, RequestDateTime(date, days)) <==> days < Deadline(preferredTime)
  {
    ConversionIsFloorPlusOne(days);
    GuardComparesInstants(date, preferredTime, RequestDateTime(date, days));
    var n := Cut(preferredTime) - EIGHT_HOURS - 1;
    assert (DAY as real * days).Floor < n <==> DAY as real * days < n as real;
    assert Deadline(preferredTime) * DAY as real == n as real;
  }

  /** A request passes the guard for every preferred time of day exactly if it is made on an earlier
      date. */
  lemma EarlierDateIffAlwaysBeforeDeparture(departureDate: int, t: int)
    ensures DateOf(t) < departureDate <==>
            forall preferredTime :: IsBeforeDeparture(departureDate, preferredTime, t)
  {
    if departureDate <= DateOf(t) {
      assert !IsBeforeDeparture(departureDate, 0, t);
    }
  }

  /** A request at least one day before the reference departure time passes the guard, whatever
      the preferred time of day; more than one day before, it lies on an earlier date. */
  lemma AtLeastOneDayBeforeDeparture(date: int, days: real, preferredTime: int)
    requires days <= -1.0
    ensures DateOf(RequestDateTime(date, days)) < date
    ensures IsBeforeDeparture(date, preferredTime, RequestDateTime(date, days))
  {
    ConversionIsFloorPlusOne(days);
    var t := RequestDateTime(date, days);
    assert t <= (date - 1) * DAY + EIGHT_HOURS + 1;
    assert t == DateOf(t) * DAY + TimeOfDay(t) && 0 <= TimeOfDay(t) < DAY;
  }

  /** The date-time that ends a Poisson stream, one day after departure, never passes the guard. */
  lemma SentinelIsAfterDeparture(date: int, preferredTime: int)
    ensures RequestDateTime(date, 1.0) == (date + 1) * 86_400_000 + 28_800_001
    ensures !IsBeforeDeparture(date, preferredTime, RequestDateTime(date, 1.0))
  {
    ConversionIsFloorPlusOne(1.0);
    var t := RequestDateTime(date, 1.0);
    assert t == DateOf(t) * DAY + TimeOfDay(t) && 0 <= TimeOfDay(t) < DAY;
  }
}
