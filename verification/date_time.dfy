/** The `DateTime` value object: an instant validated at construction against
    a clock reading, read back through `value`, and handed to the host's date
    formatter by `format`. The clock (`new Date()`) and the string parser of
    `new Date(string)` are parameters. */
module DateTime {
  import opened Wrappers
  import opened Intl

  /** A time value: milliseconds since the epoch, as held by a JavaScript `Date`. */
  type Instant = int

  /** The constructor's optional argument `value?: Date | string`. A `Date`
      carries its time value, `None` for an invalid date (time value `NaN`). */
  datatype Input = NoValue | Text(s: string) | DateVal(ms: Option<Instant>)

  /** The two errors the constructor throws; each names the offending argument. */
  datatype DateTimeError = InvalidFormat(input: Input) | Future(input: Input)

  /** The value object; its `_date` field is readonly. */
  datatype DateTime = DateTime(date: Instant)

  /** JavaScript truthiness of the argument: `undefined` and `''` are falsy,
      every other string and every `Date` object, even an invalid one, is truthy. */
  predicate Truthy(v: Input) {
    match v
    case NoValue => false
    case Text(s) => s != ""
    case DateVal(_) => true
  }

  /** The time value of `new Date(value)` for a supplied argument: a string is
      parsed, a `Date` is copied. */
  function TimeValue(v: Input, parse: string -> Option<Instant>): Option<Instant>
    requires !v.NoValue?
  {
    match v
    case Text(s) => parse(s)
    case DateVal(ms) => ms
  }

  /** When the constructor returns an object: for a falsy argument always, and
      otherwise exactly when the argument denotes a valid instant no later than
      the clock reading. */
  predicate Admissible(v: Input, now: Instant, parse: string -> Option<Instant>) {
    !Truthy(v) || (TimeValue(v, parse).Some? && TimeValue(v, parse).value <= now)
  }

  /** The constructor. `now` is the single clock reading it takes. */
  function Create(v: Input, now: Instant, parse: string -> Option<Instant>): (r: Result<DateTime, DateTimeError>)
    ensures r.Success? <==> Admissible(v, now, parse)
    ensures r.Success? ==> r.value.date <= now
    ensures r.Failure? ==> Truthy(v) && r.error.input == v
    ensures r.Failure? && r.error.Future? ==>
      TimeValue(v, parse).Some? && TimeValue(v, parse).value > now
    ensures r.Failure? && r.error.InvalidFormat? ==> TimeValue(v, parse).None?
  {
    if !Truthy(v) then Success(DateTime(now))
    else
      match TimeValue(v, parse)
      case None => Failure(InvalidFormat(v))
      case Some(t) => if t > now then Failure(Future(v)) else Success(DateTime(t))
  }

  /** The `value` getter: the stored instant, which determines the object. */
  function Value(d: DateTime): (t: Instant)
    ensures DateTime(t) == d
  {
    d.date
  }

  /** Without an argument, or with a falsy one, construction succeeds and stores
      the clock reading, whatever the parser would have made of the text. */
  lemma FalsyInputIsNow(v: Input, now: Instant, parse: string -> Option<Instant>)
    requires !Truthy(v)
    ensures Create(v, now, parse) == Success(DateTime(now))
    ensures Value(Create(v, now, parse).value) == now
  {
  }

  /** `new DateTime('')` defaults to now even when the parser would read the
      empty string as a later instant. */
  lemma EmptyTextIsNow(now: Instant, parse: string -> Option<Instant>)
    ensures Create(Text(""), now, parse) == Success(DateTime(now))
    ensures Create(Text(""), now, parse) == Create(NoValue, now, parse)
  {
  }

  /** A supplied argument with no valid time value is rejected as a format
      error, never as a future date, and yields no object. */
  lemma InvalidTimeIsFormatError(v: Input, now: Instant, parse: string -> Option<Instant>)
    requires Truthy(v) && TimeValue(v, parse).None?
    ensures Create(v, now, parse) == Failure(InvalidFormat(v))
  {
  }

  /** An invalid `Date` object is truthy, so it reaches the `NaN` check. */
  lemma InvalidDateObjectIsFormatError(now: Instant, parse: string -> Option<Instant>)
    ensures Create(DateVal(None), now, parse) == Failure(InvalidFormat(DateVal(None)))
  {
  }

  /** The future check is strict: an instant after the clock reading is
      rejected and one equal to it is stored. */
  lemma FutureBoundary(v: Input, now: Instant, parse: string -> Option<Instant>)
    requires Truthy(v) && TimeValue(v, parse).Some?
    ensures TimeValue(v, parse).value > now ==> Create(v, now, parse) == Failure(Future(v))
    ensures TimeValue(v, parse).value == now ==> Create(v, now, parse) == Success(DateTime(now))
  {
  }

  /** A supplied, valid, non-future argument is stored as its own instant, and
      `value` gives that instant back. */
  lemma ParsedInstantIsStored(v: Input, now: Instant, parse: string -> Option<Instant>)
    requires Truthy(v) && TimeValue(v, parse).Some? && TimeValue(v, parse).value <= now
    ensures Create(v, now, parse).Success?
    ensures Value(Create(v, now, parse).value) == TimeValue(v, parse).value
  {
  }

  /** Round trip through a `Date`: any valid instant not after the clock reading
      survives construction and the `value` getter unchanged. */
  lemma DateRoundTrip(t: Instant, now: Instant, parse: string -> Option<Instant>)
    requires t <= now
    ensures Create(DateVal(Some(t)), now, parse).Success?
    ensures Value(Create(DateVal(Some(t)), now, parse).value) == t
  {
  }

  /** Wrapping an already constructed object again, at any later clock reading,
      yields an equal object. */
  lemma RewrapIsIdentity(v: Input, now: Instant, later: Instant, parse: string -> Option<Instant>)
    requires Create(v, now, parse).Success? && now <= later
    ensures Create(DateVal(Some(Value(Create(v, now, parse).value))), later, parse)
         == Create(v, now, parse)
  {
  }

  /** Acceptance of a supplied argument is monotone in the clock: once accepted,
      the same argument is accepted with the same instant at every later
      reading. */
  lemma AcceptanceIsMonotone(v: Input, now: Instant, later: Instant, parse: string -> Option<Instant>)
    requires Truthy(v) && Create(v, now, parse).Success? && now <= later
    ensures Create(v, later, parse) == Create(v, now, parse)
  {
  }

  /** A future-date rejection is not permanent: the same argument is accepted
      once the clock reaches its instant, while a format rejection holds at
      every reading. */
  lemma FutureRejectionExpires(v: Input, now: Instant, later: Instant, parse: string -> Option<Instant>)
    requires Create(v, now, parse) == Failure(Future(v))
    requires TimeValue(v, parse).Some? && TimeValue(v, parse).value <= later
    ensures Create(v, later, parse) == Success(DateTime(TimeValue(v, parse).value))
  {
  }

  /** A format rejection does not depend on the clock. */
  lemma FormatRejectionIsPermanent(v: Input, now: Instant, later: Instant, parse: string -> Option<Instant>)
    requires Create(v, now, parse) == Failure(InvalidFormat(v))
    ensures Create(v, later, parse) == Failure(InvalidFormat(v))
  {
  }

  /** How `format` asks for one date or time field. */
  datatype FieldStyle = Numeric | TwoDigit

  /** The arguments `format` passes to `Date.prototype.toLocaleDateString`:
      the instant, the locale and the options object. */
  datatype DateFormatRequest = DateFormatRequest(
    instant: Instant,
    locale: string,
    year: FieldStyle,
    month: FieldStyle,
    day: FieldStyle,
    hour: FieldStyle,
    minute: FieldStyle,
    second: FieldStyle)

  /** `format`: builds the request for the host formatter; the formatted text
      is produced by the host. */
  function Format(d: DateTime, locale: Option<string>): (r: DateFormatRequest)
    ensures r.instant == Value(d)
    ensures locale.None? ==> r.locale == DefaultLocale
    ensures locale.Some? ==> r.locale == locale.value
    ensures r.year == Numeric
    ensures r.month == TwoDigit && r.day == TwoDigit
    ensures r.hour == TwoDigit && r.minute == TwoDigit && r.second == TwoDigit
  {
    DateFormatRequest(d.date, ResolveLocale(locale), Numeric, TwoDigit, TwoDigit, TwoDigit, TwoDigit, TwoDigit)
  }

  /** The formatter is only ever asked to render an instant that was not in the
      future when the object was built. */
  lemma FormatNeverShowsFuture(v: Input, now: Instant, parse: string -> Option<Instant>, locale: Option<string>)
    requires Create(v, now, parse).Success?
    ensures Format(Create(v, now, parse).value, locale).instant <= now
  {
  }
}
