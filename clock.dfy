/** Points in time, as Foundation's `Date` values are used by the app and the widget. */
module Clock {

  /** An instant, in whole seconds since a fixed reference date. */
  type Instant = int

  const SecondsPerMinute: int := 60

  /** `Calendar.date(byAdding: .minute, value: minutes, to: date)`: adding minutes moves an
      absolute instant, so it never fails and ignores time zones and daylight saving. */
  function AddingMinutes(date: Instant, minutes: int): (r: Instant)
    ensures r - date == minutes * SecondsPerMinute
    ensures minutes > 0 ==> r > date
  {
    date + minutes * SecondsPerMinute
  }
}
