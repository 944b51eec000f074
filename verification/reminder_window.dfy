/**
 * Which fetched events a reminder run treats as due: the target instant split into
 * a date and a local hour and minute, and the plus-or-minus five minute filter on
 * the events' start time.
 */
module ReminderWindow {
  import opened Values
  import opened Decimal

  /** Half-width of the window, in minutes. */
  const Tolerance: nat := 5

  type Hour = h: int | 0 <= h < 24
  type Minute = m: int | 0 <= m < 60

  /**
   * The instant `minutes_before` minutes from now, as the function reads it: the
   * UTC calendar date and the local hour and minute. The clock is an input.
   */
  datatype Target = Target(date: string, hour: Hour, minute: Minute)

  /**
   * An event's `hora` column as the filter reads it: missing or empty, not readable
   * as numbers by `split(':').map(Number)` (a `NaN` part), or an hour and a minute.
   */
  datatype Hora = Absent | Unparsable | At(hour: int, minute: int)

  /** One row of the `evento` query. */
  datatype Event = Event(id: int, nombre: string, fecha: string, hora: Hora, ubicacion: Option<string>)

  function MinuteOfDay(hour: int, minute: int): int {
    hour * 60 + minute
  }

  function Abs(x: int): nat {
    if x < 0 then -x else x
  }

  function TargetMinute(t: Target): int {
    MinuteOfDay(t.hour, t.minute)
  }

  /** The filter's test: a readable time whose minute of the day is within the tolerance of the target's. */
  predicate Due(e: Event, t: Target) {
    match e.hora
    case Absent => false
    case Unparsable => false
    case At(h, m) => Abs(MinuteOfDay(h, m) - TargetMinute(t)) <= Tolerance
  }

  /** `a` is `b` with some elements left out, the rest in their order. */
  ghost predicate SubsequenceOf<T>(a: seq<T>, b: seq<T>)
    decreases |b|
  {
    if a == [] then true
    else if b == [] then false
    else (a[0] == b[0] && SubsequenceOf(a[1..], b[1..])) || SubsequenceOf(a, b[1..])
  }

  /** The events the run goes on to remind about (`eventosEnRango`). */
  function InRange(events: seq<Event>, t: Target): (r: seq<Event>)
    ensures |r| <= |events|
    ensures forall e :: e in r <==> e in events && Due(e, t)
    ensures forall e :: multiset(r)[e] == if Due(e, t) then multiset(events)[e] else 0
    ensures SubsequenceOf(r, events)
  {
    if events == [] then []
    else
      assert events == [events[0]] + events[1..];
      if Due(events[0], t) then [events[0]] + InRange(events[1..], t)
      else InRange(events[1..], t)
  }

  /** Filtering a concatenation filters each part and keeps them in order. */
  lemma {:induction false} InRangeAppend(a: seq<Event>, b: seq<Event>, t: Target)
    ensures InRange(a + b, t) == InRange(a, t) + InRange(b, t)
  {
    if a != [] {
      assert (a + b)[1..] == a[1..] + b;
      InRangeAppend(a[1..], b, t);
    } else {
      assert a + b == b;
    }
  }

  /** An event is kept exactly when its time is within five minutes either side: five is in, six is out. */
  lemma ToleranceIsInclusive(e: Event, t: Target, d: int)
    requires e.hora == At(t.hour, t.minute + d)
    ensures Due(e, t) <==> -5 <= d <= 5
    ensures d == 5 || d == -5 ==> Due(e, t)
    ensures d == 6 || d == -6 ==> !Due(e, t)
  {
  }

  /** An event without a readable time is never kept, whatever the target. */
  lemma MissingTimeNeverDue(events: seq<Event>, t: Target)
    ensures forall e :: e in InRange(events, t) ==> e.hora.At?
  {
  }

  /**
   * Minutes of the day are compared without wrapping at midnight: an event at 23:58
   * is not due for a target of 00:02, four clock minutes later.
   */
  lemma NoWrapAtMidnight(e: Event, date: string)
    requires e.hora == At(23, 58)
    ensures !Due(e, Target(date, 0, 2))
  {
  }

  /** The "HH:MM" string the function reports as `checked_time`. */
  function ClockString(t: Target): string {
    PadStart2(DecimalString(t.hour)) + ":" + PadStart2(DecimalString(t.minute))
  }

  /** `checked_time` is five characters, and its two fields read back as the target's hour and minute. */
  lemma ClockStringRoundTrip(t: Target)
    ensures |ClockString(t)| == 5 && ClockString(t)[2] == ':'
    ensures ParseNat(ClockString(t)[..2]) == Some(t.hour as nat)
    ensures ParseNat(ClockString(t)[3..]) == Some(t.minute as nat)
  {
    var s := ClockString(t);
    TwoDigitRoundTrip(t.hour);
    TwoDigitRoundTrip(t.minute);
    assert s[..2] == PadStart2(DecimalString(t.hour));
    assert s[3..] == PadStart2(DecimalString(t.minute));
  }
}
