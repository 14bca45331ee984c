/**
 * backend/internal/domain/model/statistics.go: the items of the focus trend
 * and heatmap, and the statistics period with its three constructors.
 * An instant is a local calendar day (a day number) and the nanoseconds
 * since that day's midnight; `time.Now()` is the parameter `today`, and the
 * calendar step `AddDate(0, -1, 0)` is the parameter `monthEarlier`.
 */
module Statistics {
  /** Nanoseconds of 23:59:59.999999999. */
  const EndOfDayNanos := 86_399_999_999_999

  datatype Instant = Instant(day: int, nanos: int)

  /** `t.After(u)`. */
  predicate After(t: Instant, u: Instant)
  {
    t.day > u.day || (t.day == u.day && t.nanos > u.nanos)
  }

  datatype FocusTrendItem = FocusTrendItem(date: string, focusScore: real)
  datatype FocusHeatmapItem = FocusHeatmapItem(date: string, hour: int, focusScore: real)

  datatype StatisticsPeriod = StatisticsPeriod(startDate: Instant, endDate: Instant)

  function StartOfDay(day: int): (t: Instant)
    ensures t.day == day && t.nanos == 0
  {
    Instant(day, 0)
  }

  function EndOfDay(day: int): (t: Instant)
    ensures t.day == day && t.nanos == EndOfDayNanos
  {
    Instant(day, EndOfDayNanos)
  }

  /** A period that starts at a midnight and ends at the last nanosecond of a day. */
  predicate WholeDays(p: StatisticsPeriod)
  {
    p.startDate.nanos == 0 && p.endDate.nanos == EndOfDayNanos
  }

  /** The number of calendar days a period covers, both ends included. */
  function DayCount(p: StatisticsPeriod): int
  {
    p.endDate.day - p.startDate.day + 1
  }

  /** `NewLastWeekPeriod`: the seven days ending today, as whole days. */
  function NewLastWeekPeriod(today: int): (p: StatisticsPeriod)
    ensures WholeDays(p)
    ensures p.endDate.day == today && DayCount(p) == 7
    ensures !After(p.startDate, p.endDate)
  {
    var endDate := EndOfDay(today);
    StatisticsPeriod(StartOfDay(endDate.day - 6), endDate)
  }

  /** `NewLastMonthPeriod`: from the same day one month earlier through today, as whole days. */
  function NewLastMonthPeriod(today: int, monthEarlier: int -> int): (p: StatisticsPeriod)
    ensures WholeDays(p)
    ensures p.endDate.day == today && p.startDate.day == monthEarlier(today)
  {
    var endDate := EndOfDay(today);
    StatisticsPeriod(StartOfDay(monthEarlier(endDate.day)), endDate)
  }

  /** `NewCustomPeriod`: the given days, widened to whole days; neither reordered nor rejected. */
  function NewCustomPeriod(startDate: Instant, endDate: Instant): (p: StatisticsPeriod)
    ensures WholeDays(p)
    ensures p.startDate.day == startDate.day && p.endDate.day == endDate.day
    ensures !After(startDate, endDate) ==> !After(p.startDate, p.endDate)
    ensures startDate.day > endDate.day ==> After(p.startDate, p.endDate)
  {
    StatisticsPeriod(StartOfDay(startDate.day), EndOfDay(endDate.day))
  }

  /** Normalising twice changes nothing. */
  lemma CustomPeriodIdempotent(startDate: Instant, endDate: Instant)
    ensures var p := NewCustomPeriod(startDate, endDate);
            NewCustomPeriod(p.startDate, p.endDate) == p
  {
  }

  /** A custom period over the last seven days is the last-week period. */
  lemma CustomWeekIsLastWeek(today: int, startDate: Instant, endDate: Instant)
    requires startDate.day == today - 6 && endDate.day == today
    ensures NewCustomPeriod(startDate, endDate) == NewLastWeekPeriod(today)
  {
  }
}
