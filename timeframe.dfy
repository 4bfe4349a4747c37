/**
 * The date-range sheet of components/misc/timeframe.tsx.  A date is a whole
 * number of milliseconds since 1970-01-01T00:00:00Z (negative before it);
 * `setTime` works on the UTC calendar fields of that instant.
 */
module TimeFrame {
  import opened Wrappers

  const SecondMs: int := 1000
  const MinuteMs: int := 60 * SecondMs
  const HourMs: int := 60 * MinuteMs
  const DayMs: int := 24 * HourMs

  // The UTC calendar fields of an instant.  Dafny's `/` and `%` with a positive
  // divisor round toward minus infinity, as the calendar does before 1970.
  function Day(t: int): int { t / DayMs }
  function Hour(t: int): int { (t % DayMs) / HourMs }
  function Minute(t: int): int { (t % HourMs) / MinuteMs }
  function Second(t: int): int { (t % MinuteMs) / SecondMs }
  function Millisecond(t: int): int { t % SecondMs }

  /** The instant with the given UTC day number and time-of-day fields. */
  function Compose(day: int, hour: int, minute: int, second: int, ms: int): int {
    day * DayMs + hour * HourMs + minute * MinuteMs + second * SecondMs + ms
  }

  /** Reading the fields back from a composed instant gives the fields put in. */
  lemma ComposeFields(day: int, hour: int, minute: int, second: int, ms: int)
    requires 0 <= hour < 24 && 0 <= minute < 60 && 0 <= second < 60 && 0 <= ms < 1000
    ensures var t := Compose(day, hour, minute, second, ms);
      Day(t) == day && Hour(t) == hour && Minute(t) == minute && Second(t) == second && Millisecond(t) == ms
  {
    var t := Compose(day, hour, minute, second, ms);
    var inDay := hour * HourMs + minute * MinuteMs + second * SecondMs + ms;
    assert 0 <= inDay < DayMs;
    DivModUnique(t, DayMs, day, inDay);
    var inHour := minute * MinuteMs + second * SecondMs + ms;
    DivModUnique(inDay, HourMs, hour, inHour);
    DivModUnique(t, HourMs, day * 24 + hour, inHour);
    var inMinute := second * SecondMs + ms;
    DivModUnique(inHour, MinuteMs, minute, inMinute);
    DivModUnique(t, MinuteMs, day * 1440 + hour * 60 + minute, inMinute);
    DivModUnique(inMinute, SecondMs, second, ms);
    DivModUnique(t, SecondMs, day * 86400 + hour * 3600 + minute * 60 + second, ms);
  }

  /** Quotient and remainder by a positive divisor are unique. */
  lemma DivModUnique(t: int, d: int, q: int, r: int)
    requires d > 0 && 0 <= r < d && t == q * d + r
    ensures t / d == q && t % d == r
  {
    var q', r' := t / d, t % d;
    assert t == q' * d + r';
    assert (q - q') * d == r' - r;
    if q > q' {
      MulAtLeast(q - q', d);
    } else if q < q' {
      MulAtLeast(q' - q, d);
    }
  }

  lemma {:induction false} MulAtLeast(a: int, d: int)
    requires a >= 1 && d > 0
    ensures a * d >= d
    decreases a
  {
    if a > 1 {
      MulAtLeast(a - 1, d);
      assert a * d == (a - 1) * d + d;
    }
  }

  /** Every instant is its own fields composed again, and the fields are in range. */
  lemma Recompose(t: int)
    ensures 0 <= Hour(t) < 24 && 0 <= Minute(t) < 60 && 0 <= Second(t) < 60 && 0 <= Millisecond(t) < 1000
    ensures t == Compose(Day(t), Hour(t), Minute(t), Second(t), Millisecond(t))
  {
    var inDay := t % DayMs;
    assert t == Day(t) * DayMs + inDay;
    assert inDay % HourMs == t % HourMs by {
      DivModUnique(t, HourMs, Day(t) * 24 + inDay / HourMs, inDay % HourMs);
    }
    var inHour := t % HourMs;
    assert inDay == Hour(t) * HourMs + inHour;
    assert inHour % MinuteMs == t % MinuteMs by {
      DivModUnique(t, MinuteMs, Day(t) * 1440 + Hour(t) * 60 + inHour / MinuteMs, inHour % MinuteMs);
    }
    var inMinute := t % MinuteMs;
    assert inHour == Minute(t) * MinuteMs + inMinute;
    assert inMinute % SecondMs == t % SecondMs by {
      DivModUnique(t, SecondMs,
        Day(t) * 86400 + Hour(t) * 3600 + Minute(t) * 60 + inMinute / SecondMs, inMinute % SecondMs);
    }
    assert inMinute == Second(t) * SecondMs + Millisecond(t);
  }

  /**
   * `setTime`: in UTC, set the hour, minute and second to 23:59:59 when
   * `picker` is "end" and to 00:00:00 for any other `picker`; the calendar
   * day and the milliseconds are kept.
   */
  function SetTime(date: int, picker: string): (r: int)
    ensures Day(r) == Day(date) && Millisecond(r) == Millisecond(date)
    ensures picker == "end" ==> Hour(r) == 23 && Minute(r) == 59 && Second(r) == 59
    ensures picker != "end" ==> Hour(r) == 0 && Minute(r) == 0 && Second(r) == 0
  {
    Recompose(date);
    if picker == "end" then
      ComposeFields(Day(date), 23, 59, 59, Millisecond(date));
      Compose(Day(date), 23, 59, 59, Millisecond(date))
    else
      ComposeFields(Day(date), 0, 0, 0, Millisecond(date));
      Compose(Day(date), 0, 0, 0, Millisecond(date))
  }

  /** Normalising twice is normalising once. */
  lemma SetTimeIdempotent(date: int, picker: string)
    ensures SetTime(SetTime(date, picker), picker) == SetTime(date, picker)
  {
  }

  /** The end of a day lies 86,399 seconds after its start. */
  lemma SetTimeDayLength(date: int, picker: string)
    requires picker != "end"
    ensures SetTime(date, "end") - SetTime(date, picker) == 86_399 * SecondMs
  {
  }

  /** The start of the day is no later, and the end of the day no earlier, than the instant itself. */
  lemma SetTimeBrackets(date: int, picker: string)
    requires picker != "end"
    ensures SetTime(date, picker) <= date <= SetTime(date, "end")
  {
    Recompose(date);
  }

  // ---------------------------------------------------------------------------
  // The sheet's state
  // ---------------------------------------------------------------------------

  /** Which bound a picker edits (`"start" | "end"`). */
  datatype Bound = Start | End

  function PickerName(b: Bound): string {
    match b
    case Start => "start"
    case End => "end"
  }

  datatype Dates = Dates(start: int, end: int)

  /** The `onChange` update: the picked date, normalised for its bound, replaces that bound only. */
  function Pick(dates: Dates, b: Bound, date: int): (r: Dates)
    ensures b == Start ==> Millisecond(r.start) == Millisecond(date)
    ensures b == End ==> Millisecond(r.end) == Millisecond(date)
    ensures b == Start ==> r.end == dates.end && Day(r.start) == Day(date) &&
                           Hour(r.start) == 0 && Minute(r.start) == 0 && Second(r.start) == 0
    ensures b == End ==> r.start == dates.start && Day(r.end) == Day(date) &&
                         Hour(r.end) == 23 && Minute(r.end) == 59 && Second(r.end) == 59
  {
    match b
    case Start => dates.(start := SetTime(date, PickerName(b)))
    case End => dates.(end := SetTime(date, PickerName(b)))
  }

  /** 1 January 2021, the start picker's minimum, at 00:00:00 UTC. */
  const FirstDay: int := 18628 * DayMs

  /** `minimumDate`: the first day for the start picker, the current start for the end picker. */
  function MinimumDate(b: Bound, dates: Dates): int {
    match b
    case Start => FirstDay
    case End => dates.start
  }

  /** A date the picker offers lies between its minimum and `now` (`maximumDate`). */
  predicate Offered(b: Bound, dates: Dates, date: int, now: int) {
    MinimumDate(b, dates) <= date <= now
  }

  /** Picking an end date the picker offers keeps the range ordered and the end on a day up to today. */
  lemma PickEndKeepsOrder(dates: Dates, date: int, now: int)
    requires Offered(End, dates, date, now)
    ensures var r := Pick(dates, End, date); r.start <= r.end && Day(r.end) <= Day(now)
  {
    SetTimeBrackets(date, "start");
  }

  /** Picking a start date the picker offers keeps the start between the first day and now. */
  lemma PickStartInRange(dates: Dates, date: int, now: int)
    requires Offered(Start, dates, date, now)
    ensures var r := Pick(dates, Start, date); FirstDay <= r.start <= now
  {
    SetTimeBrackets(date, "start");
    ComposeFields(18628, 0, 0, 0, 0);
    Recompose(date);
  }

  /** Nothing stops a later start date from passing the chosen end date. */
  lemma StartCanPassEnd()
    ensures var dates := Dates(FirstDay, FirstDay + 23 * HourMs);
      var r := Pick(dates, Start, FirstDay + 3 * DayMs);
      Offered(Start, dates, FirstDay + 3 * DayMs, FirstDay + 10 * DayMs) && r.start > r.end
  {
    ComposeFields(18631, 0, 0, 0, 0);
  }

  class TimeFramePicker {
    /** The bound being edited (`currentPicker`); `None` shows the overview. */
    var currentPicker: Option<Bound>
    var dates: Dates

    /** `useState(null)` and `useState(datesFromParent)`: later prop changes are not seen. */
    constructor (datesFromParent: Dates)
      ensures currentPicker.None? && dates == datesFromParent
    {
      currentPicker := None;
      dates := datesFromParent;
    }

    /** The overview's "Start Date" / "End Date" rows: `setCurrentPicker(b)`. */
    method Choose(b: Bound)
      requires currentPicker.None?
      modifies this
      ensures currentPicker == Some(b) && dates == old(dates)
    {
      currentPicker := Some(b);
    }

    /** The picker's `onChange`, while a picker is shown. */
    method OnChange(date: int)
      requires currentPicker.Some?
      modifies this
      ensures dates == Pick(old(dates), old(currentPicker.value), date)
      ensures currentPicker == old(currentPicker)
    {
      var b := currentPicker.value;
      if b == Start {
        dates := Dates(SetTime(date, PickerName(b)), dates.end);
      } else {
        dates := Dates(dates.start, SetTime(date, PickerName(b)));
      }
    }

    /** "Continue": back to the overview, dates untouched. */
    method Continue()
      modifies this
      ensures currentPicker.None? && dates == old(dates)
    {
      currentPicker := None;
    }

    /** "Finish": hand the current dates to `finish`. */
    method Finish() returns (result: Dates)
      requires currentPicker.None?
      ensures result == dates
    {
      result := dates;
    }
  }
}
