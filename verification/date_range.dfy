/** The custom date range inputs (src/components/CustomDateRangeSelector.tsx):
    two local strings, each edit reporting both dates to the parent with an
    empty string standing for "no date", and the clear control. */
module DateRange {
  import opened Wrappers
  import ApiClient

  /** The two local dates; "" is an empty input. */
  datatype Dates = Dates(start: string, end: string)

  /** An edit's result: the new local dates and the pair handed to `onDateRangeChange`. */
  datatype Change = Change(dates: Dates, emitted: (Option<string>, Option<string>))

  /** `value || undefined`. */
  function OrUndefined(s: string): (r: Option<string>)
    ensures r.None? <==> s == ""
    ensures r.Some? ==> r.value == s
  {
    if s == "" then None else Some(s)
  }

  /** `prop || ''`. */
  function OrEmpty(s: Option<string>): (r: string)
    ensures s.None? ==> r == ""
    ensures s.Some? ==> r == s.value
  {
    match s
    case None => ""
    case Some(v) => v
  }

  /** The local state at mount, taken from the props. */
  function Init(startDate: Option<string>, endDate: Option<string>): (d: Dates)
    ensures d.start == OrEmpty(startDate) && d.end == OrEmpty(endDate)
  {
    Dates(OrEmpty(startDate), OrEmpty(endDate))
  }

  /** What the parent receives for a pair of local dates. */
  function Report(d: Dates): (r: (Option<string>, Option<string>))
    ensures r.0.None? <==> d.start == ""
    ensures r.1.None? <==> d.end == ""
    ensures r.0.Some? ==> r.0.value == d.start
    ensures r.1.Some? ==> r.1.value == d.end
  {
    (OrUndefined(d.start), OrUndefined(d.end))
  }

  /** `handleStartDateChange(value)`: the start follows the input, the end is kept, both are reported. */
  function StartChanged(d: Dates, value: string): (c: Change)
    ensures c.dates == Dates(value, d.end)
    ensures c.emitted.0 == OrUndefined(value) && c.emitted.1 == OrUndefined(d.end)
  {
    Change(d.(start := value), (OrUndefined(value), OrUndefined(d.end)))
  }

  /** `handleEndDateChange(value)`: the mirror image. */
  function EndChanged(d: Dates, value: string): (c: Change)
    ensures c.dates == Dates(d.start, value)
    ensures c.emitted.0 == OrUndefined(d.start) && c.emitted.1 == OrUndefined(value)
  {
    Change(d.(end := value), (OrUndefined(d.start), OrUndefined(value)))
  }

  /** `clearDates()`: both inputs emptied, both dates reported as absent. */
  function Clear(d: Dates): (c: Change)
    ensures c.dates == Dates("", "") && c.emitted == (None, None)
  {
    Change(Dates("", ""), (None, None))
  }

  /** The "Clear dates" control is rendered while either input holds text. */
  predicate ShowClear(d: Dates) {
    d.start != "" || d.end != ""
  }

  /** Every edit reports exactly the local state it leaves behind. */
  lemma ReportsFollowState(d: Dates, value: string)
    ensures StartChanged(d, value).emitted == Report(StartChanged(d, value).dates)
    ensures EndChanged(d, value).emitted == Report(EndChanged(d, value).dates)
    ensures Clear(d).emitted == Report(Clear(d).dates)
  {
  }

  /** Clearing hides the control; any non-empty edit shows it. */
  lemma ClearControl(d: Dates, value: string)
    ensures !ShowClear(Clear(d).dates)
    ensures value != "" ==> ShowClear(StartChanged(d, value).dates) && ShowClear(EndChanged(d, value).dates)
    ensures ShowClear(d) <==> Report(d) != (None, None)
  {
  }

  /** Handing the reported pair back as props rebuilds the same local state. */
  lemma ReportThenInit(d: Dates)
    ensures Init(Report(d).0, Report(d).1) == d
  {
  }

  /** No order is imposed: any two non-empty dates reach the parent as typed,
      even an end before the start. */
  lemma AnyPairPassesThrough(d: Dates, start: string, end: string)
    requires start != "" && end != ""
    ensures EndChanged(StartChanged(d, start).dates, end).emitted == (Some(start), Some(end))
  {
  }

  /** A reported date is sent as a query parameter exactly when its input holds text. */
  lemma ReportedDatesReachQuery(d: Dates, f: ApiClient.Filters)
    requires f.startDate == Report(d).0 && f.endDate == Report(d).1
    ensures ApiClient.Given(f.startDate) <==> d.start != ""
    ensures ApiClient.Given(f.endDate) <==> d.end != ""
  {
  }
}
