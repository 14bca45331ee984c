/**
 * backend/internal/usecase/statistics_usecase.go: choosing the period from
 * the request and turning the repository's answer into the response. The
 * repository is the parameter `query`, from period to its answer.
 */
module StatisticsUseCase {
  import opened Wrappers
  import opened GoErrors
  import opened DomainErrors
  import opened Statistics

  /** The `switch` over the requested period; anything unknown is the last week. */
  function SelectPeriod(period: string, startDate: Option<Instant>, endDate: Option<Instant>,
                        today: int, monthEarlier: int -> int): (p: StatisticsPeriod)
    ensures period == "week" ==> p == NewLastWeekPeriod(today)
    ensures period == "month" ==> p == NewLastMonthPeriod(today, monthEarlier)
    ensures period == "custom" && startDate.Some? && endDate.Some? ==> p == NewCustomPeriod(startDate.value, endDate.value)
    ensures period == "custom" && (startDate.None? || endDate.None?) ==> p == NewLastWeekPeriod(today)
    ensures period != "week" && period != "month" && period != "custom" ==> p == NewLastWeekPeriod(today)
    ensures WholeDays(p)
  {
    match period
    case "week" => NewLastWeekPeriod(today)
    case "month" => NewLastMonthPeriod(today, monthEarlier)
    case "custom" =>
      if startDate.None? || endDate.None? then NewLastWeekPeriod(today)
      else NewCustomPeriod(startDate.value, endDate.value)
    case _ => NewLastWeekPeriod(today)
  }

  /**
   * The error rule both operations share: "record not found" is an empty
   * answer, every other error an internal error wrapping it (the database
   * test leads to the same answer as the fallback).
   */
  function ResponseOf<T>(answer: Result<seq<T>, Error>): (r: Result<seq<T>, Error>)
    ensures answer.Ok? ==> r == answer
    ensures answer.Failure? && Is(answer.error, App(ErrRecordNotFound)) ==> r == Ok([])
    ensures answer.Failure? && !Is(answer.error, App(ErrRecordNotFound)) ==> r == Failure(NewInternalError(Some(answer.error)))
    ensures r.Failure? ==> !Is(r.error, App(ErrRecordNotFound))
  {
    if answer.Ok? then answer
    else if Is(answer.error, App(ErrRecordNotFound)) then Ok([])
    else Failure(NewInternalError(Some(answer.error)))
  }

  /** `GetFocusTrend`. */
  function GetFocusTrend(period: string, startDate: Option<Instant>, endDate: Option<Instant>, today: int,
                         monthEarlier: int -> int, query: StatisticsPeriod -> Result<seq<FocusTrendItem>, Error>)
    : (r: Result<seq<FocusTrendItem>, Error>)
    ensures var answer := query(SelectPeriod(period, startDate, endDate, today, monthEarlier));
            (r.Failure? <==> answer.Failure? && !Is(answer.error, App(ErrRecordNotFound)))
            && (answer.Ok? ==> r == answer)
            && (r.Ok? && answer.Failure? ==> r.value == [])
  {
    ResponseOf(query(SelectPeriod(period, startDate, endDate, today, monthEarlier)))
  }

  /**
   * `GetFocusHeatmap`: the same period choice and error rule. The source
   * repeats `GetFocusTrend`'s body for the heatmap items, and so does the model.
   */
  function GetFocusHeatmap(period: string, startDate: Option<Instant>, endDate: Option<Instant>, today: int,
                           monthEarlier: int -> int, query: StatisticsPeriod -> Result<seq<FocusHeatmapItem>, Error>)
    : (r: Result<seq<FocusHeatmapItem>, Error>)
    ensures var answer := query(SelectPeriod(period, startDate, endDate, today, monthEarlier));
            (r.Failure? <==> answer.Failure? && !Is(answer.error, App(ErrRecordNotFound)))
            && (answer.Ok? ==> r == answer)
            && (r.Ok? && answer.Failure? ==> r.value == [])
  {
    ResponseOf(query(SelectPeriod(period, startDate, endDate, today, monthEarlier)))
  }
}
