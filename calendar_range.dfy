/**
 * The range-selection rule of the two-month range calendar.
 *
 * A date is a day number with a time of day in milliseconds; the instant it
 * stands for is `day * 86400000 + time`, which is what date comparisons such
 * as "is before" look at. Month arithmetic is abstracted to a month index
 * (`year * 12 + month`) that the calendar library supplies as `monthOf`.
 */
module CalendarRange {
  import opened Options

  type TimeOfDay = t: int | 0 <= t < 86400000

  datatype Date = Date(day: int, time: TimeOfDay)

  /** The `[start, end]` pair of the `value` prop; either bound may be null. */
  datatype Range = Range(start: Option<Date>, end: Option<Date>)

  function Instant(d: Date): int {
    d.day * 86400000 + d.time
  }

  /** Instants order dates by day first and by time of day within a day. */
  lemma InstantOrder(a: Date, b: Date)
    ensures Instant(a) < Instant(b) <==> a.day < b.day || (a.day == b.day && a.time < b.time)
  {
  }

  predicate IsSameDay(a: Date, b: Date) {
    a.day == b.day
  }

  predicate IsBefore(a: Date, b: Date) {
    Instant(a) < Instant(b)
  }

  predicate IsAfter(a: Date, b: Date) {
    Instant(a) > Instant(b)
  }

  function StartOfDay(d: Date): Date {
    Date(d.day, 0)
  }

  function EndOfDay(d: Date): Date {
    Date(d.day, 86399999)
  }

  /** Inclusive interval membership; the library rejects an interval that ends before it starts. */
  predicate IsWithinInterval(d: Date, start: Date, end: Date)
    requires Instant(start) <= Instant(end)
  {
    Instant(start) <= Instant(d) <= Instant(end)
  }

  /** `to`'s day, with the time of day of `from` when `from` is present. */
  function SetTimeEqual(to: Date, from: Option<Date>): (r: Date)
    ensures r.day == to.day
    ensures from.Some? ==> r.time == from.value.time
    ensures from.None? ==> r == to
  {
    match from
    case Some(f) => Date(to.day, f.time)
    case None => to
  }

  /** The bound is present and falls on the same day as `day`. */
  predicate OnDay(bound: Option<Date>, day: Date) {
    bound.Some? && IsSameDay(day, bound.value)
  }

  predicate HasBothBounds(value: Option<Range>) {
    value.Some? && value.value.start.Some? && value.value.end.Some?
  }

  /** When both bounds are present, the start day is not after the end day. */
  predicate Ordered(value: Option<Range>) {
    HasBothBounds(value) ==> value.value.start.value.day <= value.value.end.value.day
  }

  /** A day is selected when both bounds are present and it lies between their days. */
  function GetIsDaySelected(day: Date, value: Option<Range>): (r: bool)
    requires Ordered(value)
    ensures !HasBothBounds(value) ==> !r
    ensures HasBothBounds(value) ==>
      (r <==> value.value.start.value.day <= day.day <= value.value.end.value.day)
  {
    if !HasBothBounds(value) then false
    else IsWithinInterval(day, StartOfDay(value.value.start.value), EndOfDay(value.value.end.value))
  }

  /** The time of day of `bound`, or `fallback` when the bound is missing. */
  function TimeOr(bound: Option<Date>, fallback: TimeOfDay): TimeOfDay {
    if bound.Some? then bound.value.time else fallback
  }

  /** The value a click on `date` asks for. */
  function GetNewValue(value: Option<Range>, date: Date): (r: Range)
    ensures value.None? ==> r == Range(Some(date), None)
    ensures value.Some? ==> var v := value.value;
      && (OnDay(v.start, date) || OnDay(v.end, date) ==>
            r == Range(Some(Date(date.day, TimeOr(v.start, date.time))),
                       Some(Date(date.day, TimeOr(v.end, date.time)))))
      && (!OnDay(v.end, date) && v.start.Some? && date.day < v.start.value.day ==>
            r == Range(Some(Date(date.day, v.start.value.time)), v.end))
      && (!OnDay(v.end, date) && v.start.Some? && date.day > v.start.value.day ==>
            r == Range(v.start, Some(Date(date.day, TimeOr(v.end, date.time)))))
      && (v.start.None? && !OnDay(v.end, date) ==> r == v)
  {
    if value.None? then Range(Some(date), None)
    else
      var start := value.value.start;
      var end := value.value.end;
      if OnDay(start, date) || OnDay(end, date) then
        Range(Some(SetTimeEqual(date, start)), Some(SetTimeEqual(date, end)))
      else if start.Some? && IsBefore(date, start.value) then
        InstantOrder(date, start.value);
        Range(Some(SetTimeEqual(date, start)), end)
      else if start.Some? && IsAfter(date, start.value) then
        Range(start, Some(SetTimeEqual(date, end)))
      else
        value.value
  }

  /** A click never turns an ordered range into a reversed one. */
  lemma NewValueKeepsOrder(value: Option<Range>, date: Date)
    requires Ordered(value)
    ensures Ordered(Some(GetNewValue(value, date)))
  {
  }

  /** One of the range's bounds falls on `day`. */
  function IsDayActive(value: Option<Range>, day: Date): (r: bool)
    ensures r ==> value.Some? && (value.value.start.Some? || value.value.end.Some?)
  {
    value.Some? && (OnDay(value.value.start, day) || OnDay(value.value.end, day))
  }

  /** An active day of a complete range is a selected day. */
  lemma ActiveDayIsSelected(value: Option<Range>, day: Date)
    requires Ordered(value) && HasBothBounds(value)
    ensures IsDayActive(value, day) ==> GetIsDaySelected(day, value)
  {
  }

  /**
   * The clicked day becomes a bound of the new value, except when the value
   * has no start and the click misses its end (the click then changes nothing).
   */
  lemma ClickedDayBecomesActive(value: Option<Range>, date: Date)
    ensures IsDayActive(Some(GetNewValue(value, date)), date)
      <==> value.None? || value.value.start.Some? || OnDay(value.value.end, date)
  {
  }

  /** Hovering after the start previews the range from the start to the hovered day. */
  lemma HintAfterStart(start: Date, end: Option<Date>, date: Date, day: Date)
    requires date.day > start.day && !OnDay(end, date)
    ensures var hinted := Some(GetNewValue(Some(Range(Some(start), end)), date));
      Ordered(hinted) && (GetIsDaySelected(day, hinted) <==> start.day <= day.day <= date.day)
  {
  }

  /** Hovering before the start of a complete range previews it stretched back to the hovered day. */
  lemma HintBeforeStart(start: Date, end: Date, date: Date, day: Date)
    requires start.day <= end.day && date.day < start.day
    ensures var hinted := Some(GetNewValue(Some(Range(Some(start), Some(end))), date));
      Ordered(hinted) && (GetIsDaySelected(day, hinted) <==> date.day <= day.day <= end.day)
  {
  }

  /** The date the first month view starts on: the range's start, or today. */
  function InitialViewDate(value: Option<Range>, now: Date): Date {
    if value.Some? then value.value.start.GetOr(now) else now
  }

  /** The value's end, if any (`value?.[1]`). */
  function EndOf(value: Option<Range>): Option<Date> {
    if value.Some? then value.value.end else None
  }

  /** The component's own state beside the controlled `value` prop. */
  class Picker {
    /** The controlled `value` prop. */
    var value: Option<Range>
    /** The month index of a date, from the calendar library. */
    const monthOf: Date -> int
    /** The month of `viewDate`, the first of the two months shown. */
    var viewMonth: int
    var hintedDate: Option<Range>
    var focusedDay: Option<Date>

    ghost predicate Valid()
      reads this
    {
      Ordered(value) && Ordered(hintedDate)
    }

    constructor (value: Option<Range>, now: Date, monthOf: Date -> int)
      requires Ordered(value)
      ensures Valid()
      ensures this.value == value && this.monthOf == monthOf
      ensures viewMonth == monthOf(InitialViewDate(value, now))
      ensures value.Some? && value.value.start.Some? ==> viewMonth == monthOf(value.value.start.value)
      ensures value.None? || value.value.start.None? ==> viewMonth == monthOf(now)
      ensures hintedDate == None && focusedDay == None
    {
      this.value := value;
      this.monthOf := monthOf;
      viewMonth := monthOf(InitialViewDate(value, now));
      hintedDate := None;
      focusedDay := None;
    }

    /** The second month shown, always the one after `viewDate`'s. */
    function SecondViewMonth(): int
      reads this
    {
      viewMonth + 1
    }

    method SetPrevMonth()
      requires Valid()
      modifies this
      ensures Valid()
      ensures viewMonth == old(viewMonth) - 1 && SecondViewMonth() == old(viewMonth)
      ensures value == old(value) && hintedDate == old(hintedDate) && focusedDay == old(focusedDay)
    {
      viewMonth := viewMonth - 1;
    }

    method SetNextMonth()
      requires Valid()
      modifies this
      ensures Valid()
      ensures viewMonth == old(viewMonth) + 1 && viewMonth == old(SecondViewMonth())
      ensures value == old(value) && hintedDate == old(hintedDate) && focusedDay == old(focusedDay)
    {
      viewMonth := viewMonth + 1;
    }

    /** The headers' month picker sets `viewDate` directly. */
    method SetViewDate(d: Date)
      requires Valid()
      modifies this
      ensures Valid()
      ensures viewMonth == monthOf(d)
      ensures value == old(value) && hintedDate == old(hintedDate) && focusedDay == old(focusedDay)
    {
      viewMonth := monthOf(d);
    }

    /**
     * A key press. `navigate` is the calendar library's date navigation for
     * the pressed key, applied to the focused day or, failing that, the end
     * of the range. The newly focused day is always in one of the two months shown.
     */
    method OnKeyDown(navigate: Option<Date> -> Option<Date>)
      requires Valid()
      modifies this
      ensures Valid()
      ensures focusedDay == navigate(old(focusedDay).OrElse(EndOf(value)))
      ensures focusedDay.Some? ==>
        monthOf(focusedDay.value) == viewMonth || monthOf(focusedDay.value) == SecondViewMonth()
      ensures (&& focusedDay.Some?
               && monthOf(focusedDay.value) != old(viewMonth)
               && monthOf(focusedDay.value) != old(viewMonth) + 1) ==> viewMonth == monthOf(focusedDay.value)
      ensures (|| focusedDay.None?
               || monthOf(focusedDay.value) == old(viewMonth)
               || monthOf(focusedDay.value) == old(viewMonth) + 1) ==> viewMonth == old(viewMonth)
      ensures value == old(value) && hintedDate == old(hintedDate)
    {
      var newFocusedDay := navigate(focusedDay.OrElse(EndOf(value)));
      if newFocusedDay.Some?
        && monthOf(newFocusedDay.value) != viewMonth
        && monthOf(newFocusedDay.value) != viewMonth + 1
      {
        viewMonth := monthOf(newFocusedDay.value);
      }
      focusedDay := newFocusedDay;
    }

    /** A click on a day: the value passed to `onChange`. */
    method OnDayChange(date: Date) returns (next: Range)
      requires Valid()
      ensures next == GetNewValue(value, date)
      ensures Ordered(Some(next))
    {
      NewValueKeepsOrder(value, date);
      next := GetNewValue(value, date);
    }

    /** Hovering a day hints the range a click there would select. */
    method OnDayEnter(date: Date)
      requires Valid()
      modifies this
      ensures Valid()
      ensures hintedDate == Some(GetNewValue(value, date))
      ensures value == old(value) && viewMonth == old(viewMonth) && focusedDay == old(focusedDay)
    {
      NewValueKeepsOrder(value, date);
      hintedDate := Some(GetNewValue(value, date));
    }

    /** Leaving a day clears the hint. */
    method OnDayLeave()
      requires Valid()
      modifies this
      ensures Valid()
      ensures hintedDate == None
      ensures forall day :: !IsDayHinted(day)
      ensures value == old(value) && viewMonth == old(viewMonth) && focusedDay == old(focusedDay)
    {
      hintedDate := None;
    }

    /** A new `value` prop from the parent; the component's own state is kept. */
    method ReceiveValue(v: Option<Range>)
      requires Valid() && Ordered(v)
      modifies this
      ensures Valid()
      ensures value == v
      ensures hintedDate == old(hintedDate) && viewMonth == old(viewMonth) && focusedDay == old(focusedDay)
    {
      value := v;
    }

    /** A day of the chosen range. */
    function IsDaySelected(day: Date): (r: bool)
      reads this
      requires Valid()
      ensures r <==> HasBothBounds(value) && value.value.start.value.day <= day.day <= value.value.end.value.day
    {
      GetIsDaySelected(day, value)
    }

    /** A day of the range a click on the hovered day would choose. */
    function IsDayHinted(day: Date): (r: bool)
      reads this
      requires Ordered(hintedDate)
      ensures r <==> (&& HasBothBounds(hintedDate)
                      && hintedDate.value.start.value.day <= day.day <= hintedDate.value.end.value.day)
    {
      GetIsDaySelected(day, hintedDate)
    }
  }
}
