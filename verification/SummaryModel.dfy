/** The tables, statements and jobs of the summarise-then-prune cycle, as functions on table contents. */
module SummaryModel {
  import opened Sequences
  import opened Statements

  // ----- Rows -----

  /** A row of the signals table; `value` is the nullable numeric column. */
  datatype Signal = Signal(id: nat, device: string, signalId: int, value: Option<real>, at: int)

  /** A row of the events table. */
  datatype Event = Event(id: nat, device: string, kind: string, severity: Option<string>, at: int)

  datatype SignalTotals = SignalTotals(
    tempAvg: Option<real>, tempMin: Option<real>, tempMax: Option<real>, humidityAvg: Option<real>,
    lightAvg: Option<real>, lightMin: Option<real>, lightMax: Option<real>, batteryMin: Option<real>,
    foodGrams: real, meals: nat, treatGrams: real, treats: nat, heartbeats: nat)

  datatype EventTotals = EventTotals(high: nat, overdue: nat, offline: nat, stale: nat, supply: nat)

  /** A daily payload has no signal part when the aggregate query returned nothing. */
  datatype DailyPayload = DailyPayload(signals: Option<SignalTotals>, events: EventTotals)

  datatype WeeklyPayload = WeeklyPayload(
    dailyCount: nat, daysWithData: nat, foodGrams: real, treatGrams: real, meals: nat, treats: nat,
    high: nat, overdue: nat, offline: nat, avgTemp: Option<real>, avgBattery: Option<real>)

  datatype Kind = Daily | Weekly
  datatype Payload = DailyBody(daily: DailyPayload) | WeeklyBody(weekly: WeeklyPayload) | Unreadable

  /** A row of the summary table; every row written by the generators has status `generated`. */
  datatype Summary = Summary(device: string, kind: Kind, date: int, start: int, end: int, payload: Payload)

  datatype Db = Db(signals: seq<Signal>, events: seq<Event>, summaries: seq<Summary>)

  // ----- Days: local time is a fixed offset `tz` (milliseconds) from UTC -----

  const DAY := 86_400_000

  function DayOf(at: int, tz: int): int { (at + tz) / DAY }
  function DayStart(date: int, tz: int): int { date * DAY - tz }

  // ----- Aggregates -----

  function Values(rows: seq<Signal>, signalId: int): seq<real> {
    if |rows| == 0 then []
    else
      var last := rows[|rows| - 1];
      var before := Values(rows[..|rows| - 1], signalId);
      if last.signalId == signalId && last.value.Some? then before + [last.value.value] else before
  }

  function Sum(xs: seq<real>): real {
    if |xs| == 0 then 0.0 else Sum(xs[..|xs| - 1]) + xs[|xs| - 1]
  }

  function Least(xs: seq<real>): Option<real> {
    if |xs| == 0 then None
    else
      var last := xs[|xs| - 1];
      match Least(xs[..|xs| - 1])
      case None => Some(last)
      case Some(m) => Some(if last < m then last else m)
  }

  function Greatest(xs: seq<real>): Option<real> {
    if |xs| == 0 then None
    else
      var last := xs[|xs| - 1];
      match Greatest(xs[..|xs| - 1])
      case None => Some(last)
      case Some(m) => Some(if last > m then last else m)
  }

  function Mean(xs: seq<real>): Option<real> {
    if |xs| == 0 then None else Some(Sum(xs) / |xs| as real)
  }

  function HasSignal(signalId: int): Signal -> bool { (r: Signal) => r.signalId == signalId }
  function Count(rows: seq<Signal>, signalId: int): nat { |Filter(HasSignal(signalId), rows)| }

  /** The aggregate SELECT over the rows of a window. */
  function AggregateSignals(rows: seq<Signal>): SignalTotals {
    SignalTotals(
      Mean(Values(rows, 46)), Least(Values(rows, 46)), Greatest(Values(rows, 46)), Mean(Values(rows, 48)),
      Mean(Values(rows, 47)), Least(Values(rows, 47)), Greatest(Values(rows, 47)), Least(Values(rows, 73)),
      Sum(Values(rows, 117)), Count(rows, 117), Sum(Values(rows, 125)), Count(rows, 125), Count(rows, 71))
  }

  function SevereEvent(): Event -> bool { (e: Event) => e.severity == Some("high") || e.severity == Some("critical") }
  function EventOfKind(kind: string): Event -> bool { (e: Event) => e.kind == kind }

  /** What the event loop counts. */
  function AggregateEvents(rows: seq<Event>): EventTotals {
    EventTotals(
      |Filter(SevereEvent(), rows)|, |Filter(EventOfKind("feeding_overdue"), rows)|,
      |Filter(EventOfKind("device_offline"), rows)|, |Filter(EventOfKind("sensor_data_stale"), rows)|,
      |Filter(EventOfKind("low_supply"), rows)|)
  }

  // ----- Windows -----

  function SignalIn(device: string, start: int, end: int): Signal -> bool {
    (r: Signal) => r.device == device && start <= r.at < end
  }
  function EventIn(device: string, start: int, end: int): Event -> bool {
    (e: Event) => e.device == device && start <= e.at < end
  }

  function OnDay(device: string, date: int, tz: int): Signal -> bool {
    SignalIn(device, DayStart(date, tz), DayStart(date + 1, tz))
  }
  function EventOnDay(device: string, date: int, tz: int): Event -> bool {
    EventIn(device, DayStart(date, tz), DayStart(date + 1, tz))
  }

  function DaySignals(rows: seq<Signal>, device: string, date: int, tz: int): seq<Signal> {
    Filter(OnDay(device, date, tz), rows)
  }
  function DayEvents(rows: seq<Event>, device: string, date: int, tz: int): seq<Event> {
    Filter(EventOnDay(device, date, tz), rows)
  }

  predicate HasSummary(summaries: seq<Summary>, device: string, kind: Kind, date: int) {
    exists s :: s in summaries && s.device == device && s.kind == kind && s.date == date
  }

  // ----- The daily generator -----

  /** Which queries of a job were answered (a failed SELECT yields no rows), and what became of its INSERT. */
  datatype Faults = Faults(windowOk: bool, existsOk: bool, signalsOk: bool, eventsOk: bool, insert: Fate)

  const NO_FAULTS := Faults(true, true, true, true, Fate.Answered)

  datatype JobResult = Failed(error: string) | Skipped(reason: string) | Written

  /** The unique index on (device, type, date) makes a second insert a no-op. */
  function InsertSummary(summaries: seq<Summary>, row: Summary): seq<Summary> {
    if HasSummary(summaries, row.device, row.kind, row.date) then summaries else summaries + [row]
  }

  function DailyBodyOf(db: Db, device: string, date: int, tz: int, signalsOk: bool, eventsOk: bool): DailyPayload {
    DailyPayload(
      if signalsOk then Some(AggregateSignals(DaySignals(db.signals, device, date, tz))) else None,
      AggregateEvents(if eventsOk then DayEvents(db.events, device, date, tz) else []))
  }

  /** The row a daily job inserts for its date. */
  function DailySummaryOf(device: string, date: int, tz: int, payload: DailyPayload): Summary {
    Summary(device, Daily, date, DayStart(date, tz), DayStart(date + 1, tz), DailyBody(payload))
  }

  function DailyRow(db: Db, device: string, date: int, tz: int, signalsOk: bool, eventsOk: bool): Summary {
    DailySummaryOf(device, date, tz, DailyBodyOf(db, device, date, tz, signalsOk, eventsOk))
  }

  /** The date summarised: the override when given, otherwise the current local day. */
  function TargetDate(at: int, runDate: Option<int>, tz: int): int {
    match runDate
    case Some(date) => date
    case None => DayOf(at, tz)
  }

  /** The job gets as far as its INSERT. */
  predicate DailyReachesInsert(db: Db, device: string, date: int, f: Faults) {
    device != "" && f.windowOk && !(f.existsOk && HasSummary(db.summaries, device, Daily, date))
  }

  function DailyResult(db: Db, device: string, date: int, f: Faults): JobResult {
    if device == "" then Failed("device_id not configured")
    else if !f.windowOk then Failed("Window computation failed")
    else if f.existsOk && HasSummary(db.summaries, device, Daily, date) then Skipped("already_exists")
    else if !f.insert.Answered? then Failed("Insert failed")
    else Written
  }

  function DailyStep(db: Db, device: string, date: int, tz: int, f: Faults): Db {
    if DailyReachesInsert(db, device, date, f) && f.insert.Committed() then
      db.(summaries := InsertSummary(db.summaries, DailyRow(db, device, date, tz, f.signalsOk, f.eventsOk)))
    else db
  }

  // ----- The weekly generator -----

  datatype WeekTotals = WeekTotals(
    dailyCount: nat, daysWithData: nat, foodGrams: real, treatGrams: real, meals: nat, treats: nat,
    high: nat, overdue: nat, offline: nat, sumTemp: real, sumBattery: real)

  const NO_TOTALS := WeekTotals(0, 0, 0.0, 0.0, 0, 0, 0, 0, 0, 0.0, 0.0)

  function OrZero(x: Option<real>): real { if x.Some? then x.value else 0.0 }

  /** One pass of the weekly loop; a null or unparsable payload only counts as a row. */
  function AddDay(t: WeekTotals, row: Summary): WeekTotals {
    var counted := t.(dailyCount := t.dailyCount + 1);
    if !row.payload.DailyBody? then counted
    else
      var p := row.payload.daily;
      var base := counted.(daysWithData := t.daysWithData + 1, high := t.high + p.events.high,
                           overdue := t.overdue + p.events.overdue, offline := t.offline + p.events.offline);
      if p.signals.None? then base
      else
        var s := p.signals.value;
        base.(foodGrams := t.foodGrams + s.foodGrams, treatGrams := t.treatGrams + s.treatGrams,
              meals := t.meals + s.meals, treats := t.treats + s.treats,
              sumTemp := t.sumTemp + OrZero(s.tempAvg), sumBattery := t.sumBattery + OrZero(s.batteryMin))
  }

  function WeekFold(rows: seq<Summary>): WeekTotals {
    if |rows| == 0 then NO_TOTALS else AddDay(WeekFold(rows[..|rows| - 1]), rows[|rows| - 1])
  }

  function DailyOn(device: string, date: int): Summary -> bool {
    (s: Summary) => s.kind == Daily && s.device == device && s.date == date
  }

  /** The stored daily rows with lo <= date < hi, by ascending date. */
  function DailyRows(summaries: seq<Summary>, device: string, lo: int, hi: int): seq<Summary>
    decreases hi - lo
  {
    if lo >= hi then [] else DailyRows(summaries, device, lo, hi - 1) + Filter(DailyOn(device, hi - 1), summaries)
  }

  function WeeklyBodyOf(t: WeekTotals): WeeklyPayload {
    WeeklyPayload(
      t.dailyCount, t.daysWithData, t.foodGrams, t.treatGrams, t.meals, t.treats, t.high, t.overdue, t.offline,
      if t.daysWithData > 0 then Some(t.sumTemp / t.daysWithData as real) else None,
      if t.daysWithData > 0 then Some(t.sumBattery / t.daysWithData as real) else None)
  }

  /** The daily rows the weekly job reads at time `at`; a failed SELECT gives none. */
  function WeekRows(db: Db, device: string, at: int, tz: int, ok: bool): seq<Summary> {
    if ok then DailyRows(db.summaries, device, DayOf(at, tz) - 7, DayOf(at, tz)) else []
  }

  /** The row a weekly job inserts for the seven days before `today`. */
  function WeeklySummaryOf(device: string, today: int, tz: int, payload: WeeklyPayload): Summary {
    Summary(device, Weekly, today - 7, DayStart(today - 7, tz), DayStart(today, tz), WeeklyBody(payload))
  }

  function WeeklyRow(db: Db, device: string, at: int, tz: int, ok: bool): Summary {
    WeeklySummaryOf(device, DayOf(at, tz), tz, WeeklyBodyOf(WeekFold(WeekRows(db, device, at, tz, ok))))
  }

  predicate WeeklyReachesInsert(db: Db, device: string, at: int, tz: int, f: Faults) {
    device != "" && f.windowOk && !(f.existsOk && HasSummary(db.summaries, device, Weekly, DayOf(at, tz) - 7))
    && WeekRows(db, device, at, tz, f.signalsOk) != []
  }

  function WeeklyResult(db: Db, device: string, at: int, tz: int, f: Faults): JobResult {
    if device == "" then Failed("device_id not configured")
    else if !f.windowOk then Failed("Weekly window computation failed")
    else if f.existsOk && HasSummary(db.summaries, device, Weekly, DayOf(at, tz) - 7) then Skipped("already_exists")
    else if WeekRows(db, device, at, tz, f.signalsOk) == [] then Skipped("no_daily_summaries")
    else if !f.insert.Answered? then Failed("Insert failed")
    else Written
  }

  function WeeklyStep(db: Db, device: string, at: int, tz: int, f: Faults): Db {
    if WeeklyReachesInsert(db, device, at, tz, f) && f.insert.Committed() then
      db.(summaries := InsertSummary(db.summaries, WeeklyRow(db, device, at, tz, f.signalsOk)))
    else db
  }

  // ----- The pruner -----

  /** A generated daily summary of the same device covers the instant. */
  predicate Covered(summaries: seq<Summary>, device: string, at: int) {
    exists s :: s in summaries && s.kind == Daily && s.device == device && s.start <= at < s.end
  }

  /** Rows of the same (device, signal) group that ORDER BY observed_at DESC ranks ahead of `r`. */
  function Newer(r: Signal): Signal -> bool {
    (q: Signal) => q.device == r.device && q.signalId == r.signalId && (q.at > r.at || (q.at == r.at && q.id > r.id))
  }
  function NewerCount(rows: seq<Signal>, r: Signal): nat { |Filter(Newer(r), rows)| }

  const KEEP := 5

  /** ROW_NUMBER is one more than the number of newer rows, so rn <= 5 is NewerCount < 5. */
  function SignalKept(db: Db, cutoff: int): Signal -> bool {
    (r: Signal) => !(Covered(db.summaries, r.device, r.at) || r.at < cutoff) || NewerCount(db.signals, r) < KEEP
  }
  function EventKept(db: Db, cutoff: int): Event -> bool {
    (e: Event) => !(Covered(db.summaries, e.device, e.at) || e.at < cutoff)
  }

  function Cutoff(at: int, retentionDays: int): int { at - retentionDays * DAY }

  function CleanupStep(db: Db, cutoff: int, signalsOk: bool, eventsOk: bool): Db {
    db.(signals := if signalsOk then Filter(SignalKept(db, cutoff), db.signals) else db.signals,
        events := if eventsOk then Filter(EventKept(db, cutoff), db.events) else db.events)
  }

  // ----- Runs -----

  /**
   * Everything that changes the tables; `at` is NOW() of the call. MakeDaily and MakeWeekly are jobs that nothing
   * interrupts; StoreDaily and StoreWeekly are the INSERTs of jobs whose SELECTs ran earlier. A cleanup is one DELETE
   * or both: the flags say which of them committed.
   */
  datatype Op =
    | InsertSignal(signal: Signal)
    | InsertEvent(event: Event)
    | MakeDaily(device: string, at: int, runDate: Option<int>, faults: Faults)
    | MakeWeekly(device: string, at: int, faults: Faults)
    | StoreDaily(device: string, date: int, dailyPayload: DailyPayload)
    | StoreWeekly(device: string, today: int, weeklyPayload: WeeklyPayload)
    | Cleanup(at: int, retentionDays: int, signalsOk: bool, eventsOk: bool)

  function Step(db: Db, op: Op, tz: int): Db {
    match op
    case InsertSignal(r) => db.(signals := db.signals + [r])
    case InsertEvent(e) => db.(events := db.events + [e])
    case MakeDaily(device, at, runDate, f) => DailyStep(db, device, TargetDate(at, runDate, tz), tz, f)
    case MakeWeekly(device, at, f) => WeeklyStep(db, device, at, tz, f)
    case StoreDaily(device, date, p) =>
      db.(summaries := InsertSummary(db.summaries, DailySummaryOf(device, date, tz, p)))
    case StoreWeekly(device, today, p) =>
      db.(summaries := InsertSummary(db.summaries, WeeklySummaryOf(device, today, tz, p)))
    case Cleanup(at, days, signalsOk, eventsOk) => CleanupStep(db, Cutoff(at, days), signalsOk, eventsOk)
  }

  /** The tables after a run that starts from empty tables. */
  function Final(run: seq<Op>, tz: int): Db {
    if |run| == 0 then Db([], [], []) else Step(Final(run[..|run| - 1], tz), run[|run| - 1], tz)
  }

  /** The never-pruned histories: every row the run inserted. */
  function AllSignals(run: seq<Op>): seq<Signal> {
    if |run| == 0 then []
    else
      var last := run[|run| - 1];
      var before := AllSignals(run[..|run| - 1]);
      if last.InsertSignal? then before + [last.signal] else before
  }
  function AllEvents(run: seq<Op>): seq<Event> {
    if |run| == 0 then []
    else
      var last := run[|run| - 1];
      var before := AllEvents(run[..|run| - 1]);
      if last.InsertEvent? then before + [last.event] else before
  }

  /** No cleanup of the run had a retention cutoff after the instant. */
  ghost predicate NotExpired(run: seq<Op>, instant: int) {
    forall op :: op in run && op.Cleanup? ==> Cutoff(op.at, op.retentionDays) <= instant
  }
}
