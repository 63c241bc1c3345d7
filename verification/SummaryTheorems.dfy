/** The guarantees of the summarise-then-prune cycle over whole runs. */
module SummaryTheorems {
  import opened Sequences
  import opened Statements
  import opened SummaryModel
  import opened SummaryProofs

  // ----- Lossless daily summaries -----

  /** The aggregate over every row the run ever inserted for the day. */
  function HistoryPayload(run: seq<Op>, device: string, date: int, tz: int): DailyPayload {
    DailyPayload(Some(AggregateSignals(DaySignals(AllSignals(run), device, date, tz))),
                 AggregateEvents(DayEvents(AllEvents(run), device, date, tz)))
  }

  ghost predicate Exact(s: Summary, run: seq<Op>, tz: int) {
    s.payload == DailyBody(HistoryPayload(run, s.device, s.date, tz))
  }

  /** The operation adds a daily row. */
  predicate Writes(db: Db, op: Op, tz: int) {
    op.MakeDaily? && op.faults.insert.Committed() &&
    var date := TargetDate(op.at, op.runDate, tz);
    DailyReachesInsert(db, op.device, date, op.faults) && !HasSummary(db.summaries, op.device, Daily, date)
  }

  /** The weekly totals of a payload are those of the given raw rows. */
  ghost predicate WeekExact(w: WeeklyPayload, signals: seq<Signal>, events: seq<Event>) {
    && w.foodGrams == Sum(Values(signals, 117)) && w.meals == Count(signals, 117)
    && w.treatGrams == Sum(Values(signals, 125)) && w.treats == Count(signals, 125)
    && w.high == |Filter(SevereEvent(), events)|
    && w.overdue == |Filter(EventOfKind("feeding_overdue"), events)|
    && w.offline == |Filter(EventOfKind("device_offline"), events)|
  }

  /** The rows a run ever inserted for the local days [lo, hi) of a device. */
  function RangeSignals(run: seq<Op>, device: string, lo: int, hi: int, tz: int): seq<Signal> {
    Filter(SignalIn(device, DayStart(lo, tz), DayStart(hi, tz)), AllSignals(run))
  }
  function RangeEvents(run: seq<Op>, device: string, lo: int, hi: int, tz: int): seq<Event> {
    Filter(EventIn(device, DayStart(lo, tz), DayStart(hi, tz)), AllEvents(run))
  }

  ghost predicate AllSummarised(summaries: seq<Summary>, device: string, lo: int, hi: int) {
    forall date :: lo <= date < hi ==> HasSummary(summaries, device, Daily, date)
  }

  /** Rows of the device on one of the local days. */
  function InDays(device: string, days: set<int>, tz: int): Signal -> bool {
    (r: Signal) => r.device == device && DayOf(r.at, tz) in days
  }
  function EventInDays(device: string, days: set<int>, tz: int): Event -> bool {
    (e: Event) => e.device == device && DayOf(e.at, tz) in days
  }

  ghost predicate Summarised(summaries: seq<Summary>, device: string, days: set<int>) {
    forall date :: date in days ==> HasSummary(summaries, device, Daily, date)
  }

  /** The weekly payload counts exactly these days, all summarised, and holds the totals of their whole history. */
  ghost predicate Covers(run: seq<Op>, device: string, lo: int, w: WeeklyPayload, days: set<int>, tz: int) {
    && (forall date :: date in days ==> lo <= date < lo + 7) && w.dailyCount == w.daysWithData == |days|
    && Summarised(Final(run, tz).summaries, device, days)
    && WeekExact(w, Filter(InDays(device, days, tz), AllSignals(run)), Filter(EventInDays(device, days, tz), AllEvents(run)))
  }

  /** The days of a range that have a daily summary. */
  function DaysWith(summaries: seq<Summary>, device: string, lo: int, hi: int): set<int> {
    set date | lo <= date < hi && HasSummary(summaries, device, Daily, date)
  }

  /** These are the days of the week that were summarised at some point of the run. */
  ghost predicate ReadAt(run: seq<Op>, device: string, lo: int, days: set<int>, tz: int) {
    exists i: nat :: i <= |run| && days == DaysWith(Final(run[..i], tz).summaries, device, lo, lo + 7)
  }

  /** The payload covers exactly the days of its week that were summarised when its job read them. */
  ghost predicate WeekSound(run: seq<Op>, device: string, lo: int, w: WeeklyPayload, tz: int) {
    exists days :: Covers(run, device, lo, w, days, tz) && ReadAt(run, device, lo, days, tz)
  }

  /** A payload over seven daily summaries holds the totals of the week's history, and the seven summaries are there. */
  ghost predicate FullWeekExact(run: seq<Op>, device: string, lo: int, w: WeeklyPayload, tz: int) {
    w.dailyCount == 7 ==>
      AllSummarised(Final(run, tz).summaries, device, lo, lo + 7)
      && WeekExact(w, RangeSignals(run, device, lo, lo + 7, tz), RangeEvents(run, device, lo, lo + 7, tz))
  }

  /**
   * Rows arrive before their day is summarised; an uninterrupted job summarises a day by answered queries and before a
   * cleanup lost a row of it; an interrupted job stores what is still the aggregate of the history.
   */
  ghost predicate Timely(before: seq<Op>, op: Op, tz: int) {
    var db := Final(before, tz);
    match op
    case InsertSignal(r) => !Covered(db.summaries, r.device, r.at)
    case InsertEvent(e) => !Covered(db.summaries, e.device, e.at)
    case MakeDaily(device, at, runDate, f) =>
      Writes(db, op, tz) ==>
        var date := TargetDate(at, runDate, tz);
        f.signalsOk && f.eventsOk && !SignalLost(before, device, date, tz) && !EventLost(before, device, date, tz)
    case StoreDaily(device, date, p) =>
      HasSummary(db.summaries, device, Daily, date) || p == HistoryPayload(before, device, date, tz)
    case StoreWeekly(device, today, p) =>
      HasSummary(db.summaries, device, Weekly, today - 7) || WeekSound(before, device, today - 7, p, tz)
    case _ => true
  }

  ghost predicate Disciplined(run: seq<Op>, tz: int) {
    |run| == 0 ||
    (Disciplined(run[..|run| - 1], tz) && Timely(run[..|run| - 1], run[|run| - 1], tz))
  }

  /** Main theorem: in a disciplined run every stored daily payload is the aggregate of the never-pruned history. */
  lemma {:induction false} Lossless(run: seq<Op>, tz: int)
    requires Disciplined(run, tz)
    ensures forall s :: s in Final(run, tz).summaries && s.kind == Daily ==> Exact(s, run, tz)
  {
    if |run| > 0 {
      var front, op := run[..|run| - 1], run[|run| - 1];
      var db := Final(front, tz);
      Lossless(front, tz);
      LastOp(run);
      forall s | s in Final(run, tz).summaries && s.kind == Daily ensures Exact(s, run, tz) {
        if s in db.summaries {
          SummariesWellFormed(front, tz);
          StaysExact(front, op, s, tz);
        } else {
          NewRowExact(front, op, s, tz);
        }
      }
    }
  }

  lemma NewRowExact(front: seq<Op>, op: Op, s: Summary, tz: int)
    requires Timely(front, op, tz) && s.kind == Daily
    requires s !in Final(front, tz).summaries && s in Step(Final(front, tz), op, tz).summaries
    ensures Exact(s, front + [op], tz)
  {
    assert (front + [op])[..|front|] == front;
    assert AllSignals(front + [op]) == AllSignals(front) && AllEvents(front + [op]) == AllEvents(front);
    if op.MakeDaily? {
      DayIntactIff(front, s.device, s.date, tz);
    }
  }

  lemma StaysExact(front: seq<Op>, op: Op, s: Summary, tz: int)
    requires Timely(front, op, tz) && WellFormed(Final(front, tz).summaries, tz)
    requires s in Final(front, tz).summaries && s.kind == Daily && Exact(s, front, tz)
    ensures Exact(s, front + [op], tz)
  {
    assert (front + [op])[..|front|] == front;
    match op
    case InsertSignal(r) => LateSignalOutside(Final(front, tz).summaries, s, AllSignals(front), r, tz);
    case InsertEvent(e) => LateEventOutside(Final(front, tz).summaries, s, AllEvents(front), e, tz);
    case _ =>
  }

  lemma LateSignalOutside(sums: seq<Summary>, s: Summary, rows: seq<Signal>, r: Signal, tz: int)
    requires WellFormed(sums, tz) && s in sums && s.kind == Daily && !Covered(sums, r.device, r.at)
    ensures DaySignals(rows + [r], s.device, s.date, tz) == DaySignals(rows, s.device, s.date, tz)
  {
    FilterSnoc(OnDay(s.device, s.date, tz), rows, r);
  }

  lemma LateEventOutside(sums: seq<Summary>, s: Summary, rows: seq<Event>, e: Event, tz: int)
    requires WellFormed(sums, tz) && s in sums && s.kind == Daily && !Covered(sums, e.device, e.at)
    ensures DayEvents(rows + [e], s.device, s.date, tz) == DayEvents(rows, s.device, s.date, tz)
  {
    FilterSnoc(EventOnDay(s.device, s.date, tz), rows, e);
  }

  lemma {:induction false} HistoryAppend(run: seq<Op>, more: seq<Op>)
    ensures AllSignals(run + more) == AllSignals(run) + AllSignals(more)
    ensures AllEvents(run + more) == AllEvents(run) + AllEvents(more)
  {
    if |more| == 0 {
      assert run + more == run;
    } else {
      assert (run + more)[..|run + more| - 1] == run + more[..|more| - 1];
      HistoryAppend(run, more[..|more| - 1]);
    }
  }

  /** The row an uninterrupted daily job writes. */
  function WrittenRow(before: seq<Op>, op: Op, tz: int): Summary
    requires op.MakeDaily?
  {
    DailyRow(Final(before, tz), op.device, TargetDate(op.at, op.runDate, tz), tz, op.faults.signalsOk, op.faults.eventsOk)
  }

  /** What a daily job has written stays, however the run goes on. */
  lemma WrittenRowPersists(before: seq<Op>, op: Op, after: seq<Op>, tz: int)
    requires Writes(Final(before, tz), op, tz)
    ensures WrittenRow(before, op, tz) in Final(before + [op] + after, tz).summaries
  {
    assert (before + [op])[..|before|] == before;
    SummariesPersist(before + [op], after, tz);
    var n := |Final(before, tz).summaries|;
    assert Final(before + [op] + after, tz).summaries[n] == Final(before + [op], tz).summaries[n];
  }

  /** With retention of at least `days` and a clock that has not run back, a day that starts within retention has lost nothing. */
  lemma SummarisedWithinRetention(before: seq<Op>, op: Op, days: int, tz: int)
    requires op.MakeDaily?
    requires forall c :: c in before && c.Cleanup? ==> c.at <= op.at && c.retentionDays >= days
    requires DayStart(TargetDate(op.at, op.runDate, tz), tz) >= op.at - days * DAY
    requires op.faults.signalsOk && op.faults.eventsOk
    ensures Timely(before, op, tz)
  {
    WithinRetentionNotLost(before, op.device, TargetDate(op.at, op.runDate, tz), tz);
  }

  /** An event that arrives after its day was summarised is erased by the next cleanup, and no payload changes. */
  lemma LateEventErased(run: seq<Op>, e: Event, at: int, days: int, signalsOk: bool, tz: int)
    requires Covered(Final(run, tz).summaries, e.device, e.at)
    ensures var later := run + [InsertEvent(e), Cleanup(at, days, signalsOk, true)];
            e !in Final(later, tz).events && Final(later, tz).summaries == Final(run, tz).summaries
  {
    var mid := run + [InsertEvent(e)];
    var later := run + [InsertEvent(e), Cleanup(at, days, signalsOk, true)];
    assert mid[..|run|] == run;
    assert later[..|later| - 1] == mid;
    FilterMember(EventKept(Final(mid, tz), Cutoff(at, days)), Final(mid, tz).events, e);
  }

  // ----- What a cleanup leaves behind -----

  predicate DistinctKeys(rows: seq<Signal>) {
    forall j, k :: 0 <= j < k < |rows| ==> (rows[j].at, rows[j].id) != (rows[k].at, rows[k].id)
  }

  /** Among rows of one group with distinct keys, the oldest has all the others ahead of it. */
  lemma {:induction false} OldestOf(rows: seq<Signal>, device: string, signalId: int) returns (i: nat)
    requires |rows| > 0 && DistinctKeys(rows)
    requires forall x :: x in rows ==> x.device == device && x.signalId == signalId
    ensures i < |rows| && forall j :: 0 <= j < |rows| && j != i ==> Newer(rows[i])(rows[j])
  {
    i := 0;
    if |rows| > 1 {
      var front, last := rows[..|rows| - 1], |rows| - 1;
      var k := OldestOf(front, device, signalId);
      assert front[k] == rows[k];
      i := if Newer(rows[last])(rows[k]) then last else k;
      forall j | 0 <= j < |rows| && j != i ensures Newer(rows[i])(rows[j]) {
        assert j < last ==> rows[j] == front[j];
      }
    }
  }

  lemma {:induction false} AllButOne(p: Signal -> bool, rows: seq<Signal>, i: nat)
    requires i < |rows| && forall j :: 0 <= j < |rows| && j != i ==> p(rows[j])
    ensures |Filter(p, rows)| >= |rows| - 1
  {
    if i < |rows| - 1 {
      AllButOne(p, rows[..|rows| - 1], i);
    } else {
      FilterAll(p, rows[..|rows| - 1]);
    }
  }

  lemma {:induction false} FilterAll(p: Signal -> bool, rows: seq<Signal>)
    requires forall x :: x in rows ==> p(x)
    ensures Filter(p, rows) == rows
  {
    if |rows| > 0 {
      FilterAll(p, rows[..|rows| - 1]);
      assert rows == rows[..|rows| - 1] + [rows[|rows| - 1]];
    }
  }

  lemma {:induction false} FilterDistinct(p: Signal -> bool, rows: seq<Signal>)
    requires DistinctKeys(rows)
    ensures DistinctKeys(Filter(p, rows))
  {
    if |rows| > 0 {
      var front, last := rows[..|rows| - 1], rows[|rows| - 1];
      FilterDistinct(p, front);
      forall j | 0 <= j < |Filter(p, front)| ensures (Filter(p, front)[j].at, Filter(p, front)[j].id) != (last.at, last.id) {
        FilterMember(p, front, Filter(p, front)[j]);
      }
    }
  }

  /** Disposable rows of a group that are still stored. */
  function Disposable(db: Db, cutoff: int, device: string, signalId: int): Signal -> bool {
    (r: Signal) => r.device == device && r.signalId == signalId && (Covered(db.summaries, r.device, r.at) || r.at < cutoff)
  }

  /** After a cleanup at most five summarised-or-expired rows of any (device, signal) group remain. */
  lemma CleanupBoundsStorage(db: Db, cutoff: int, eventsOk: bool, device: string, signalId: int)
    requires DistinctKeys(db.signals)
    ensures var after := CleanupStep(db, cutoff, true, eventsOk);
            |Filter(Disposable(after, cutoff, device, signalId), after.signals)| <= KEEP
  {
    var keep := SignalKept(db, cutoff);
    var kept := Filter(keep, db.signals);
    var d := Disposable(db, cutoff, device, signalId);
    var rest := Filter(d, kept);
    assert Filter(Disposable(CleanupStep(db, cutoff, true, eventsOk), cutoff, device, signalId), kept) == rest by {
      FilterSame(Disposable(CleanupStep(db, cutoff, true, eventsOk), cutoff, device, signalId), d, kept);
    }
    if |rest| > 0 {
      FilterDistinct(keep, db.signals);
      FilterDistinct(d, kept);
      forall x | x in rest ensures x in kept && d(x) && keep(x) {
        FilterMember(d, kept, x);
        FilterMember(keep, db.signals, x);
      }
      var i := OldestOf(rest, device, signalId);
      AllButOne(Newer(rest[i]), rest, i);
      FilterShrinks(Newer(rest[i]), d, kept);
      FilterShrinks(Newer(rest[i]), keep, db.signals);
      assert rest[i] in rest && NewerCount(db.signals, rest[i]) < KEEP;
    }
  }
}
