/** The home-screen widget's timeline provider. It only reads the app-group store: the daily
    budget under "dailyBudget" and the remaining days under "remainingDays". */
module Widget {
  import opened Clock
  import opened Storage
  import opened Wrappers

  const DailyBudgetKey: string := "dailyBudget"
  const RemainingDaysKey: string := "remainingDays"

  /** Minutes between two consecutive timeline entries. */
  const RefreshMinutes: int := 15
  /** Entries the timeline holds after the one for the present moment. */
  const FollowUpEntries: nat := 24

  /** What the widget shows at `date`. */
  datatype SimpleEntry = SimpleEntry(date: Instant, dailyBudget: real, remainingDays: int)

  /** `.atEnd`: ask for a new timeline once the last entry's date has passed. */
  datatype ReloadPolicy = AtEnd

  datatype Timeline = Timeline(entries: seq<SimpleEntry>, policy: ReloadPolicy)

  /** The days `first`, `first + 1`, ..., `last` of a month. */
  ghost function DayRange(first: int, last: int): set<int>
    decreases last - first
  {
    if first > last then {} else {first} + DayRange(first + 1, last)
  }

  /** A day lies in the range exactly when it lies between its two ends. */
  lemma {:induction false} DayRangeMembers(first: int, last: int, d: int)
    ensures d in DayRange(first, last) <==> first <= d <= last
    decreases last - first
  {
    if first <= last {
      DayRangeMembers(first + 1, last, d);
    }
  }

  /** The days `first` to `last`, both included, number `last - first + 1`. */
  lemma {:induction false} DayRangeSize(first: int, last: int)
    requires first <= last + 1
    ensures |DayRange(first, last)| == last - first + 1
    decreases last - first
  {
    if first <= last {
      DayRangeMembers(first + 1, last, first);
      DayRangeSize(first + 1, last);
    }
  }

  class Provider {
    /** The app-group suite, or the standard store when the suite cannot be opened. */
    const userDefaults: UserDefaults

    /** `UserDefaults(suiteName:) ?? UserDefaults.standard`: `suite` is what opening the
        app-group suite yields. */
    constructor (suite: Option<UserDefaults>, standard: UserDefaults)
      ensures suite.Some? ==> userDefaults == suite.value
      ensures suite.None? ==> userDefaults == standard
    {
      userDefaults := if suite.Some? then suite.value else standard;
    }

    /** `placeholder(in:)`: an entry dated `now` that shows no budget and no remaining days,
        whatever the store holds. */
    static function Placeholder(now: Instant): (entry: SimpleEntry)
      ensures entry.date == now
      ensures entry.dailyBudget == 0.0 && entry.remainingDays == 0
    {
      SimpleEntry(now, 0.0, 0)
    }

    /** `loadEntry(date:)`: an entry dated `date` that carries the figures stored now, 0 for a
        key nothing is stored under. */
    function LoadEntry(date: Instant): (entry: SimpleEntry)
      reads userDefaults
      ensures entry.date == date
      ensures entry.dailyBudget == userDefaults.Double(DailyBudgetKey)
      ensures entry.remainingDays == userDefaults.Integer(RemainingDaysKey)
    {
      SimpleEntry(date, userDefaults.Double(DailyBudgetKey), userDefaults.Integer(RemainingDaysKey))
    }

    /** `getSnapshot(in:completion:)`: the entry for `now`, handed to the completion. */
    function GetSnapshot(now: Instant): (entry: SimpleEntry)
      reads userDefaults
      ensures entry == LoadEntry(now)
      ensures entry.date == now
    {
      LoadEntry(now)
    }

    /** `getTimeline(in:completion:)`. `firstDate` and `start` are the two readings of the clock
        (`loadEntry()`'s default argument and `currentDate`). The timeline holds the snapshot
        entry followed by one entry every 15 minutes after `start`, 25 entries in all, and
        every entry carries the figures in the store. */
    method GetTimeline(firstDate: Instant, start: Instant) returns (timeline: Timeline)
      ensures |timeline.entries| == 1 + FollowUpEntries
      ensures timeline.policy == AtEnd
      ensures timeline.entries[0] == GetSnapshot(firstDate)
      ensures forall i :: 1 <= i < |timeline.entries| ==>
        timeline.entries[i].date == start + i * RefreshMinutes * SecondsPerMinute
      ensures forall i, j :: 1 <= i < j < |timeline.entries| ==>
        timeline.entries[i].date < timeline.entries[j].date
      ensures forall entry :: entry in timeline.entries ==>
        entry.dailyBudget == userDefaults.Double(DailyBudgetKey) &&
        entry.remainingDays == userDefaults.Integer(RemainingDaysKey)
    {
      var entry := LoadEntry(firstDate);
      var currentDate := start;
      var entries := [entry];
      for k := 0 to FollowUpEntries
        invariant |entries| == k + 1
        invariant entries[0] == entry
        invariant currentDate == start + k * RefreshMinutes * SecondsPerMinute
        invariant forall i :: 1 <= i < |entries| ==>
          entries[i] == LoadEntry(start + i * RefreshMinutes * SecondsPerMinute)
      {
        currentDate := AddingMinutes(currentDate, RefreshMinutes);
        entries := entries + [LoadEntry(currentDate)];
      }
      timeline := Timeline(entries, AtEnd);
    }

    /** `calculateRemainingDays()`, with the calendar's answers as inputs: `daysInMonth` days in
        the current month, today being day `currentDay`. The result counts the days from today
        to the end of the month, today included. */
    static function CalculateRemainingDays(daysInMonth: int, currentDay: int): (r: int)
      requires 1 <= currentDay <= daysInMonth
      ensures r == |DayRange(currentDay, daysInMonth)|
      ensures 1 <= r <= daysInMonth
      ensures currentDay == 1 ==> r == daysInMonth
      ensures currentDay == daysInMonth ==> r == 1
    {
      DayRangeSize(currentDay, daysInMonth);
      daysInMonth - currentDay + 1
    }
  }

  /** Moving on one day within the month drops exactly the day just passed from the remaining
      days, so the count falls by exactly one. */
  lemma NextDayHasOneDayFewer(daysInMonth: int, day: int)
    requires 1 <= day < daysInMonth
    ensures DayRange(day + 1, daysInMonth) == DayRange(day, daysInMonth) - {day}
    ensures Provider.CalculateRemainingDays(daysInMonth, day + 1) ==
            Provider.CalculateRemainingDays(daysInMonth, day) - 1
  {
    DayRangeMembers(day + 1, daysInMonth, day);
  }
}
