/** What can be known of a summary when its job runs, for a bound on how late rows may be dated, and a policy that loses nothing. */
module SummaryPolicy {
  import opened Sequences
  import opened Statements
  import opened SummaryModel
  import opened SummaryProofs
  import opened SummaryTheorems
  import opened SummaryWeekly
  import opened SummaryCompleteness
  import opened SummaryInterleaving

  // ----- Late rows -----

  /** NOW() of a job. */
  function JobTime(a: Act): Option<int> {
    match a
    case Table(MakeDaily(_, at, _, _)) => Some(at)
    case Table(MakeWeekly(_, at, _)) => Some(at)
    case Table(Cleanup(at, _, _, _)) => Some(at)
    case BeginDaily(_, _, at, _) => Some(at)
    case BeginWeekly(_, _, at) => Some(at)
    case _ => None
  }

  /** The time stamp of a row. */
  function Stamp(a: Act): Option<int> {
    match a
    case Table(InsertSignal(r)) => Some(r.at)
    case Table(InsertEvent(e)) => Some(e.at)
    case _ => None
  }

  /** NOW() of the last job so far. */
  function Latest(acts: seq<Act>): Option<int> {
    if |acts| == 0 then None
    else if JobTime(acts[|acts| - 1]).Some? then JobTime(acts[|acts| - 1])
    else Latest(acts[..|acts| - 1])
  }

  predicate Reached(latest: Option<int>, at: int) { latest.Some? && at <= latest.value }

  predicate InTime(latest: Option<int>, a: Act, lag: int) {
    latest.Some? ==>
      && (JobTime(a).Some? ==> latest.value <= JobTime(a).value)
      && (Stamp(a).Some? ==> latest.value - lag <= Stamp(a).value)
  }

  /** The clock does not run back, and no row is dated more than `lag` before a job that came earlier. */
  ghost predicate Clocked(acts: seq<Act>, lag: int) {
    |acts| == 0 || (Clocked(acts[..|acts| - 1], lag) && InTime(Latest(acts[..|acts| - 1]), acts[|acts| - 1], lag))
  }

  lemma ClockedSnoc(acts: seq<Act>, a: Act, lag: int)
    ensures Clocked(acts + [a], lag) <==> Clocked(acts, lag) && InTime(Latest(acts), a, lag)
    ensures Latest(acts + [a]) == if JobTime(a).Some? then JobTime(a) else Latest(acts)
  {
    assert (acts + [a])[..|acts|] == acts;
  }

  lemma Growth(acts: seq<Act>, more: seq<Act>)
    requires |more| > 0
    ensures acts + more == acts + more[..|more| - 1] + [more[|more| - 1]]
  {
  }

  // ----- How the tables of a run grow -----

  predicate RowsFrom(tail: seq<Op>, at: int) {
    (forall r :: r in AllSignals(tail) ==> at <= r.at) && (forall e :: e in AllEvents(tail) ==> at <= e.at)
  }

  /** What an act appends to the run. */
  function Appended(w: World, a: Act, tz: int): Option<Op> {
    match a
    case Table(op) => Some(op)
    case Run(id, s) => if id in w.jobs then Execute(Final(w.run, tz), w.jobs[id], s, tz).insert else None
    case _ => None
  }

  lemma AdvanceAppends(w: World, a: Act, tz: int)
    ensures Advance(w, a, tz).run == Committed(w.run, Appended(w, a, tz))
    ensures Appended(w, a, tz).Some? && !a.Table? ==> Appended(w, a, tz).value.StoreDaily? || Appended(w, a, tz).value.StoreWeekly?
  {
  }

  lemma RowsFromSnoc(tail: seq<Op>, op: Op, at: int)
    requires RowsFrom(tail, at) && (op.InsertSignal? ==> at <= op.signal.at) && (op.InsertEvent? ==> at <= op.event.at)
    ensures RowsFrom(tail + [op], at)
  {
    assert (tail + [op])[..|tail|] == tail;
  }

  /** A clocked continuation only appends to the run, and its rows are at most `lag` late. */
  lemma {:induction false} RunGrows(acts: seq<Act>, more: seq<Act>, lag: int, tz: int) returns (tail: seq<Op>)
    requires Clocked(acts + more, lag)
    ensures After(acts + more, tz).run == After(acts, tz).run + tail
    ensures Latest(acts).Some? ==> Reached(Latest(acts + more), Latest(acts).value) && RowsFrom(tail, Latest(acts).value - lag)
  {
    if |more| == 0 {
      assert acts + more == acts;
      tail := [];
    } else {
      var front, a := more[..|more| - 1], more[|more| - 1];
      Growth(acts, more);
      ClockedSnoc(acts + front, a, lag);
      tail := RunGrows(acts, front, lag, tz);
      tail := TailGrows(acts, front, a, tail, lag, tz);
    }
  }

  lemma TailGrows(acts: seq<Act>, front: seq<Act>, a: Act, tail: seq<Op>, lag: int, tz: int) returns (longer: seq<Op>)
    requires After(acts + front, tz).run == After(acts, tz).run + tail && InTime(Latest(acts + front), a, lag)
    requires Latest(acts).Some? ==> Reached(Latest(acts + front), Latest(acts).value) && RowsFrom(tail, Latest(acts).value - lag)
    ensures After(acts + front + [a], tz).run == After(acts, tz).run + longer
    ensures Latest(acts).Some? ==> RowsFrom(longer, Latest(acts).value - lag)
  {
    var w := After(acts + front, tz);
    ActSnoc(acts + front, a, tz);
    AdvanceAppends(w, a, tz);
    longer := Committed(tail, Appended(w, a, tz));
    if Appended(w, a, tz).Some? && Latest(acts).Some? {
      RowsFromSnoc(tail, Appended(w, a, tz).value, Latest(acts).value - lag);
    }
  }

  // ----- What can be known of a stored row -----

  /** Rows of the day can still come: the last job was not `lag` past its end. */
  predicate StillOpen(acts: seq<Act>, date: int, lag: int, tz: int) {
    !Reached(Latest(acts), DayStart(date + 1, tz) + lag)
  }

  /** A meal of a day that is still open. */
  function LateMeal(acts: seq<Act>, device: string, date: int, lag: int, tz: int): Signal {
    var start := DayStart(date, tz);
    Signal(0, device, 117, Some(80.0),
           if Latest(acts).Some? && start < Latest(acts).value - lag then Latest(acts).value - lag else start)
  }

  /** While a day is open, a meal of it is possible that makes the counts of its stored summary wrong. */
  lemma OpenDayMissesMeal(acts: seq<Act>, src: Source, s: Summary, lag: int, tz: int)
    requires Clocked(acts, lag) && StoredFrom(After(acts, tz).run, src, s, tz) && StillOpen(acts, s.date, lag, tz)
    ensures var longer := acts + [Table(InsertSignal(LateMeal(acts, s.device, s.date, lag, tz)))];
            && Clocked(longer, lag) && After(longer, tz).run == After(acts, tz).run + [InsertSignal(LateMeal(acts, s.device, s.date, lag, tz))]
            && !CountsExact(s, After(longer, tz).run, tz)
  {
    var meal := LateMeal(acts, s.device, s.date, lag, tz);
    ClockedSnoc(acts, Table(InsertSignal(meal)), lag);
    ActSnoc(acts, Table(InsertSignal(meal)), tz);
    LateMealWrong(After(acts, tz).run, src, s, meal, tz);
  }

  lemma NoRowOnDay(tail: seq<Op>, device: string, date: int, tz: int)
    requires RowsFrom(tail, DayStart(date + 1, tz))
    ensures DaySignals(AllSignals(tail), device, date, tz) == [] && DayEvents(AllEvents(tail), device, date, tz) == []
    ensures forall id :: Filter(Counted(device, date, id, tz), AllSignals(tail)) == []
    ensures forall f: EventFigure :: Filter(CountedEvent(device, date, f.Selects(), tz), AllEvents(tail)) == []
  {
    FilterEmpty(OnDay(device, date, tz), AllSignals(tail));
    FilterEmpty(EventOnDay(device, date, tz), AllEvents(tail));
    forall id ensures Filter(Counted(device, date, id, tz), AllSignals(tail)) == [] {
      FilterEmpty(Counted(device, date, id, tz), AllSignals(tail));
    }
    forall f: EventFigure ensures Filter(CountedEvent(device, date, f.Selects(), tz), AllEvents(tail)) == [] {
      FilterEmpty(CountedEvent(device, date, f.Selects(), tz), AllEvents(tail));
    }
  }

  /** A tail without rows of the day changes nothing about what a stored row had read or missed. */
  lemma SourceStays(run: seq<Op>, tail: seq<Op>, src: Source, s: Summary, tz: int)
    requires StoredFrom(run, src, s, tz) && RowsFrom(tail, DayStart(s.date + 1, tz))
    ensures StoredFrom(run + tail, src, s, tz)
    ensures CountsRead(run, src, s.device, s.date, tz) ==> CountsRead(run + tail, src, s.device, s.date, tz)
    ensures NoneMissed(run, src, s.device, s.date, tz) ==> NoneMissed(run + tail, src, s.device, s.date, tz)
    ensures ReadInFull(run, src, s.device, s.date, tz) ==> ReadInFull(run + tail, src, s.device, s.date, tz)
    ensures NoneSince(run, src, s.device, s.date, tz) ==> NoneSince(run + tail, src, s.device, s.date, tz)
  {
    var i, j, whole := src.signalsAt, src.eventsAt, run + tail;
    StoredFromStays(run, tail, src, s, tz);
    assert whole[..i] == run[..i] && whole[..j] == run[..j];
    assert whole[i..] == run[i..] + tail && whole[j..] == run[j..] + tail;
    HistoryAppend(run[i..], tail);
    HistoryAppend(run[j..], tail);
    NoRowOnDay(tail, s.device, s.date, tz);
    FilterAppend(OnDay(s.device, s.date, tz), AllSignals(run[i..]), AllSignals(tail));
    FilterAppend(EventOnDay(s.device, s.date, tz), AllEvents(run[j..]), AllEvents(tail));
    forall id ensures Filter(Counted(s.device, s.date, id, tz), AllSignals(whole[i..])) == Filter(Counted(s.device, s.date, id, tz), AllSignals(run[i..])) {
      FilterAppend(Counted(s.device, s.date, id, tz), AllSignals(run[i..]), AllSignals(tail));
    }
    forall f: EventFigure
      ensures Filter(CountedEvent(s.device, s.date, f.Selects(), tz), AllEvents(whole[j..]))
              == Filter(CountedEvent(s.device, s.date, f.Selects(), tz), AllEvents(run[j..]))
    {
      FilterAppend(CountedEvent(s.device, s.date, f.Selects(), tz), AllEvents(run[j..]), AllEvents(tail));
    }
  }

  /** Once the day is over, no clocked continuation changes whether its stored row is right. */
  lemma ClosedDayStays(acts: seq<Act>, more: seq<Act>, src: Source, s: Summary, lag: int, tz: int)
    requires Clocked(acts + more, lag) && StoredFrom(After(acts, tz).run, src, s, tz) && !StillOpen(acts, s.date, lag, tz)
    ensures var run, whole := After(acts, tz).run, After(acts + more, tz).run;
            && StoredFrom(whole, src, s, tz)
            && (CountsRead(run, src, s.device, s.date, tz) && NoneMissed(run, src, s.device, s.date, tz) ==> CountsExact(s, whole, tz))
            && (ReadInFull(run, src, s.device, s.date, tz) && NoneSince(run, src, s.device, s.date, tz) ==> Complete(whole, src, s, tz))
  {
    var tail := RunGrows(acts, more, lag, tz);
    SourceStays(After(acts, tz).run, tail, src, s, tz);
    CountsExactIff(After(acts + more, tz).run, src, s, tz);
    CompleteIff(After(acts + more, tz).run, src, s, tz);
  }

  /**
   * For every interleaving: all counts of a stored row are right in every continuation whose rows are at most `lag`
   * late, if and only if the signal query was answered, no counted row was lost or missed so far, and a job has run
   * `lag` after the end of the day.
   */
  lemma CountsForeverIff(acts: seq<Act>, src: Source, s: Summary, lag: int, tz: int)
    requires Clocked(acts, lag) && StoredFrom(After(acts, tz).run, src, s, tz)
    ensures var run := After(acts, tz).run;
            (forall more :: Clocked(acts + more, lag) ==> CountsExact(s, After(acts + more, tz).run, tz))
            <==>
            && CountsRead(run, src, s.device, s.date, tz) && NoneMissed(run, src, s.device, s.date, tz)
            && Reached(Latest(acts), DayStart(s.date + 1, tz) + lag)
  {
    assert acts + [] == acts;
    CountsExactIff(After(acts, tz).run, src, s, tz);
    if StillOpen(acts, s.date, lag, tz) {
      OpenDayMissesMeal(acts, src, s, lag, tz);
    } else {
      forall more | Clocked(acts + more, lag)
        ensures CountsRead(After(acts, tz).run, src, s.device, s.date, tz) && NoneMissed(After(acts, tz).run, src, s.device, s.date, tz)
                ==> CountsExact(s, After(acts + more, tz).run, tz)
      {
        ClosedDayStays(acts, more, src, s, lag, tz);
      }
    }
  }

  lemma CompleteCounts(run: seq<Op>, src: Source, s: Summary, tz: int)
    requires StoredFrom(run, src, s, tz) && Complete(run, src, s, tz)
    ensures CountsExact(s, run, tz)
  {
    CompleteIsExact(run, src, s, tz);
    ExactCounts(s, run, tz);
  }

  ghost predicate CompleteAfter(acts: seq<Act>, src: Source, s: Summary, tz: int) {
    var run := After(acts, tz).run;
    src.signalsAt <= |run| && src.eventsAt <= |run| && Complete(run, src, s, tz)
  }

  /** The same for the whole row: complete in every such continuation if and only if read in full, and its day is over. */
  lemma CompleteForeverIff(acts: seq<Act>, src: Source, s: Summary, lag: int, tz: int)
    requires Clocked(acts, lag) && StoredFrom(After(acts, tz).run, src, s, tz)
    ensures var run := After(acts, tz).run;
            (forall more :: Clocked(acts + more, lag) ==> CompleteAfter(acts + more, src, s, tz))
            <==>
            && ReadInFull(run, src, s.device, s.date, tz) && NoneSince(run, src, s.device, s.date, tz)
            && Reached(Latest(acts), DayStart(s.date + 1, tz) + lag)
  {
    assert acts + [] == acts;
    CompleteIff(After(acts, tz).run, src, s, tz);
    if StillOpen(acts, s.date, lag, tz) {
      OpenMeansIncomplete(acts, src, s, lag, tz);
    } else {
      forall more | Clocked(acts + more, lag)
        ensures ReadInFull(After(acts, tz).run, src, s.device, s.date, tz) && NoneSince(After(acts, tz).run, src, s.device, s.date, tz)
                ==> CompleteAfter(acts + more, src, s, tz)
      {
        ClosedDayStays(acts, more, src, s, lag, tz);
      }
    }
  }

  lemma OpenMeansIncomplete(acts: seq<Act>, src: Source, s: Summary, lag: int, tz: int)
    requires Clocked(acts, lag) && StoredFrom(After(acts, tz).run, src, s, tz) && StillOpen(acts, s.date, lag, tz)
    ensures var longer := acts + [Table(InsertSignal(LateMeal(acts, s.device, s.date, lag, tz)))];
            Clocked(longer, lag) && !CompleteAfter(longer, src, s, tz)
  {
    var meal := InsertSignal(LateMeal(acts, s.device, s.date, lag, tz));
    OpenDayMissesMeal(acts, src, s, lag, tz);
    StoredFromStays(After(acts, tz).run, [meal], src, s, tz);
    if Complete(After(acts, tz).run + [meal], src, s, tz) {
      CompleteCounts(After(acts, tz).run + [meal], src, s, tz);
    }
  }

  // ----- Jobs that nothing interrupts: what can be known at the job's time -----

  /** A job inserts no row. */
  lemma NoRows(op: Op, at: int)
    requires op.MakeDaily?
    ensures AllSignals([op]) == [] && AllEvents([op]) == [] && RowsFrom([op], at)
  {
    assert [op][..0] == [];
  }

  /** What a job writes was read just before it, so nothing is missing from it yet. */
  lemma JobSource(before: seq<Op>, op: Op, tz: int)
    requires Writes(Final(before, tz), op, tz)
    ensures var run, src, s := before + [op], WrittenSource(before, op), WrittenRow(before, op, tz);
            StoredFrom(run, src, s, tz) && NoneMissed(run, src, s.device, s.date, tz) && NoneSince(run, src, s.device, s.date, tz)
  {
    WrittenStoredFrom(before, op, [], tz);
    assert before + [op] + [] == before + [op] && (before + [op])[|before|..] == [op];
    NoRows(op, DayStart(TargetDate(op.at, op.runDate, tz) + 1, tz));
    NoRowOnDay([op], op.device, TargetDate(op.at, op.runDate, tz), tz);
  }

  /** What was read or lost before the job is judged on the run before it. */
  lemma ReadBefore(before: seq<Op>, op: Op, device: string, date: int, tz: int)
    requires op.MakeDaily?
    ensures var run, src := before + [op], WrittenSource(before, op);
            && (CountsRead(run, src, device, date, tz) <==> CountsRead(before, src, device, date, tz))
            && (ReadInFull(run, src, device, date, tz) <==> ReadInFull(before, src, device, date, tz))
  {
    assert (before + [op])[..|before|] == before && before[..|before|] == before;
  }

  lemma JobAdvances(acts: seq<Act>, op: Op, tz: int)
    requires op.MakeDaily?
    ensures After(acts + [Table(op)], tz).run == After(acts, tz).run + [op] && Latest(acts + [Table(op)]) == Some(op.at)
  {
    ActSnoc(acts, Table(op), tz);
    ClockedSnoc(acts, Table(op), 0);
  }

  /**
   * The counts an uninterrupted daily job stores are right in every continuation with rows at most `lag` late if and
   * only if the signal query was answered, no counted row was lost, and the job ran `lag` after the end of its day.
   */
  lemma JobCountsForeverIff(acts: seq<Act>, op: Op, lag: int, tz: int)
    requires Writes(Final(After(acts, tz).run, tz), op, tz) && Clocked(acts + [Table(op)], lag)
    ensures var before, date := After(acts, tz).run, TargetDate(op.at, op.runDate, tz);
            (forall more :: Clocked(acts + [Table(op)] + more, lag) ==>
               CountsExact(WrittenRow(before, op, tz), After(acts + [Table(op)] + more, tz).run, tz))
            <==> CountsRead(before, WrittenSource(before, op), op.device, date, tz) && DayStart(date + 1, tz) + lag <= op.at
  {
    var before := After(acts, tz).run;
    var src, s := WrittenSource(before, op), WrittenRow(before, op, tz);
    JobAdvances(acts, op, tz);
    JobSource(before, op, tz);
    ReadBefore(before, op, s.device, s.date, tz);
    CountsForeverIff(acts + [Table(op)], src, s, lag, tz);
  }

  /** The whole row is complete in every such continuation if and only if its day was read in full and is over by then. */
  lemma JobCompleteForeverIff(acts: seq<Act>, op: Op, lag: int, tz: int)
    requires Writes(Final(After(acts, tz).run, tz), op, tz) && Clocked(acts + [Table(op)], lag)
    ensures var before, date := After(acts, tz).run, TargetDate(op.at, op.runDate, tz);
            (forall more :: Clocked(acts + [Table(op)] + more, lag) ==>
               CompleteAfter(acts + [Table(op)] + more, WrittenSource(before, op), WrittenRow(before, op, tz), tz))
            <==> ReadInFull(before, WrittenSource(before, op), op.device, date, tz) && DayStart(date + 1, tz) + lag <= op.at
  {
    var before := After(acts, tz).run;
    var src, s := WrittenSource(before, op), WrittenRow(before, op, tz);
    JobAdvances(acts, op, tz);
    JobSource(before, op, tz);
    ReadBefore(before, op, s.device, s.date, tz);
    CompleteForeverIff(acts + [Table(op)], src, s, lag, tz);
  }

  /** And then it stays the aggregate of the history, in every such continuation. */
  lemma JobExactForever(acts: seq<Act>, op: Op, more: seq<Act>, lag: int, tz: int)
    requires Writes(Final(After(acts, tz).run, tz), op, tz) && Clocked(acts + [Table(op)] + more, lag)
    requires ReadInFull(After(acts, tz).run, WrittenSource(After(acts, tz).run, op), op.device, TargetDate(op.at, op.runDate, tz), tz)
    requires DayStart(TargetDate(op.at, op.runDate, tz) + 1, tz) + lag <= op.at
    ensures var s, run := WrittenRow(After(acts, tz).run, op, tz), After(acts + [Table(op)] + more, tz).run;
            s in Final(run, tz).summaries && Exact(s, run, tz)
  {
    var before := After(acts, tz).run;
    var src, s := WrittenSource(before, op), WrittenRow(before, op, tz);
    JobAdvances(acts, op, tz);
    JobSource(before, op, tz);
    ReadBefore(before, op, s.device, s.date, tz);
    ClosedDayStays(acts + [Table(op)], more, src, s, lag, tz);
    CompleteIsExact(After(acts + [Table(op)] + more, tz).run, src, s, tz);
  }

  /** The default generator summarises the day that is still running: a meal served later makes its meal count wrong. */
  lemma RunningDayMissesMeal(acts: seq<Act>, op: Op, lag: nat, tz: int)
    requires Writes(Final(After(acts, tz).run, tz), op, tz) && Clocked(acts + [Table(op)], lag) && op.runDate.None?
    ensures var now, s := acts + [Table(op)], WrittenRow(After(acts, tz).run, op, tz);
            var later := now + [Table(InsertSignal(LateMeal(now, s.device, s.date, lag, tz)))];
            Clocked(later, lag) && s in Final(After(later, tz).run, tz).summaries && !CountsExact(s, After(later, tz).run, tz)
  {
    var now, before := acts + [Table(op)], After(acts, tz).run;
    var src, s := WrittenSource(before, op), WrittenRow(before, op, tz);
    JobAdvances(acts, op, tz);
    JobSource(before, op, tz);
    DayWindow(op.at, s.date, tz);
    OpenDayMissesMeal(now, src, s, lag, tz);
    StoredFromStays(After(now, tz).run, [InsertSignal(LateMeal(now, s.device, s.date, lag, tz))], src, s, tz);
  }

  // ----- A policy under which nothing is ever lost -----

  /** The day of the job, and whether it is a daily job. */
  predicate DailyJob(job: Job) { job.DayKnown? || job.DayOpen? || job.SignalsRead? || job.DayRead? }

  /** A SELECT of a daily job is answered, and no cleanup so far has had a cutoff past the start of the day. */
  ghost predicate ReadsWithinRetention(run: seq<Op>, job: Job, s: Statement, tz: int) {
    (job.DayOpen? && s.ReadSignals?) || (job.SignalsRead? && s.ReadEvents?) ==>
      s.answered && NotExpired(run, DayStart(job.date, tz))
  }

  /** Daily jobs begin `lag` after the end of their day, and read it by answered queries and within retention. */
  ghost predicate FollowsPolicy(w: World, a: Act, lag: int, tz: int) {
    match a
    case Table(MakeDaily(device, at, runDate, f)) =>
      var date := TargetDate(at, runDate, tz);
      f.signalsOk && f.eventsOk && DayStart(date + 1, tz) + lag <= at && NotExpired(w.run, DayStart(date, tz))
    case Table(op) => !op.StoreDaily? && !op.StoreWeekly?
    case BeginDaily(_, _, at, runDate) => DayStart(TargetDate(at, runDate, tz) + 1, tz) + lag <= at
    case BeginWeekly(_, _, _) => true
    case Run(id, s) => id in w.jobs ==> ReadsWithinRetention(w.run, w.jobs[id], s, tz)
  }

  ghost predicate PolicyRun(acts: seq<Act>, lag: int, tz: int) {
    |acts| == 0 ||
    (PolicyRun(acts[..|acts| - 1], lag, tz) && FollowsPolicy(After(acts[..|acts| - 1], tz), acts[|acts| - 1], lag, tz))
  }

  /** Every day that is summarised was over, with its late rows, when the last job came. */
  ghost predicate SummarisedOver(summaries: seq<Summary>, latest: Option<int>, lag: int, tz: int) {
    forall s :: s in summaries && s.kind == Daily ==> Reached(latest, DayStart(s.date + 1, tz) + lag)
  }

  predicate JobOver(job: Job, latest: Option<int>, lag: int, tz: int) {
    DailyJob(job) ==> Reached(latest, DayStart(job.date + 1, tz) + lag)
  }

  ghost predicate DaysOver(w: World, latest: Option<int>, lag: int, tz: int) {
    && SummarisedOver(Final(w.run, tz).summaries, latest, lag, tz)
    && forall id :: id in w.jobs ==> JobOver(w.jobs[id], latest, lag, tz)
  }

  lemma RowComesBefore(w: World, latest: Option<int>, device: string, at: int, lag: int, tz: int)
    requires DaysOver(w, latest, lag, tz) && (latest.Some? ==> latest.value - lag <= at)
    ensures !Covered(Final(w.run, tz).summaries, device, at)
    ensures forall id :: id in w.jobs && DailyJob(w.jobs[id]) ==> w.jobs[id].date != DayOf(at, tz)
  {
    SummariesWellFormed(w.run, tz);
    DayWindow(at, DayOf(at, tz), tz);
  }

  lemma ReadsAreInTime(run: seq<Op>, job: Job, s: Statement, tz: int)
    requires ReadsWithinRetention(run, job, s, tz)
    ensures ReadsInTime(run, job, s, tz)
  {
    if (job.DayOpen? && s.ReadSignals?) || (job.SignalsRead? && s.ReadEvents?) {
      WithinRetentionNotLost(run, job.device, job.date, tz);
    }
  }

  lemma PolicyIsOrderly(w: World, a: Act, latest: Option<int>, lag: int, tz: int)
    requires DaysOver(w, latest, lag, tz) && InTime(latest, a, lag) && FollowsPolicy(w, a, lag, tz)
    ensures Orderly(w, a, tz)
  {
    match a
    case Table(op) =>
      if Stamp(a).Some? {
        RowComesBefore(w, latest, if op.InsertSignal? then op.signal.device else op.event.device, Stamp(a).value, lag, tz);
      } else if op.MakeDaily? {
        WithinRetentionNotLost(w.run, op.device, TargetDate(op.at, op.runDate, tz), tz);
      }
    case Run(id, s) =>
      if id in w.jobs {
        ReadsAreInTime(w.run, w.jobs[id], s, tz);
      }
    case _ =>
  }

  lemma OverLater(w: World, latest: Option<int>, now: Option<int>, lag: int, tz: int)
    requires DaysOver(w, latest, lag, tz) && (latest.Some? ==> Reached(now, latest.value))
    ensures DaysOver(w, now, lag, tz)
  {
  }

  /** The daily rows that an operation adds. */
  lemma DailyDates(db: Db, op: Op, s: Summary, tz: int)
    requires s in Step(db, op, tz).summaries && s.kind == Daily && s !in db.summaries
    ensures (op.MakeDaily? && s.date == TargetDate(op.at, op.runDate, tz)) || (op.StoreDaily? && s.date == op.date)
  {
  }

  lemma OpKeepsOver(run: seq<Op>, op: Op, latest: Option<int>, lag: int, tz: int)
    requires SummarisedOver(Final(run, tz).summaries, latest, lag, tz)
    requires op.MakeDaily? ==> Reached(latest, DayStart(TargetDate(op.at, op.runDate, tz) + 1, tz) + lag)
    requires op.StoreDaily? ==> Reached(latest, DayStart(op.date + 1, tz) + lag)
    ensures SummarisedOver(Final(run + [op], tz).summaries, latest, lag, tz)
  {
    StoredTables(run, op, tz);
    forall s | s in Final(run + [op], tz).summaries && s.kind == Daily && s !in Final(run, tz).summaries
      ensures Reached(latest, DayStart(s.date + 1, tz) + lag)
    {
      DailyDates(Final(run, tz), op, s, tz);
    }
  }

  /** A statement keeps the date of its daily job, and stores under it. */
  lemma SameDate(db: Db, job: Job, s: Statement, tz: int)
    ensures var e := Execute(db, job, s, tz);
            && (e.job.Some? && DailyJob(e.job.value) ==> DailyJob(job) && e.job.value.date == job.date)
            && (e.insert.Some? ==> e.insert.value.StoreDaily? || e.insert.value.StoreWeekly?)
            && (e.insert.Some? && e.insert.value.StoreDaily? ==> DailyJob(job) && e.insert.value.date == job.date)
  {
  }

  lemma RunKeepsOver(w: World, id: nat, s: Statement, latest: Option<int>, lag: int, tz: int)
    requires DaysOver(w, latest, lag, tz) && id in w.jobs
    ensures DaysOver(Advance(w, Run(id, s), tz), latest, lag, tz)
  {
    var e := Execute(Final(w.run, tz), w.jobs[id], s, tz);
    SameDate(Final(w.run, tz), w.jobs[id], s, tz);
    if e.insert.Some? {
      OpKeepsOver(w.run, e.insert.value, latest, lag, tz);
    }
  }

  lemma ActKeepsOver(w: World, a: Act, latest: Option<int>, now: Option<int>, lag: int, tz: int)
    requires DaysOver(w, latest, lag, tz) && InTime(latest, a, lag) && FollowsPolicy(w, a, lag, tz)
    requires now == if JobTime(a).Some? then JobTime(a) else latest
    ensures DaysOver(Advance(w, a, tz), now, lag, tz)
  {
    OverLater(w, latest, now, lag, tz);
    match a
    case Table(op) => OpKeepsOver(w.run, op, now, lag, tz);
    case Run(id, s) =>
      if id in w.jobs {
        RunKeepsOver(w, id, s, now, lag, tz);
      }
    case _ =>
  }

  lemma {:induction false} PolicyKeepsOver(acts: seq<Act>, lag: int, tz: int)
    requires Clocked(acts, lag) && PolicyRun(acts, lag, tz)
    ensures OrderlyRun(acts, tz) && DaysOver(After(acts, tz), Latest(acts), lag, tz)
  {
    if |acts| > 0 {
      var front, a := acts[..|acts| - 1], acts[|acts| - 1];
      PolicyKeepsOver(front, lag, tz);
      PolicyIsOrderly(After(front, tz), a, Latest(front), lag, tz);
      ActKeepsOver(After(front, tz), a, Latest(front), Latest(acts), lag, tz);
    }
  }

  /**
   * If rows are at most `lag` late and every daily job follows the policy, then over any interleaving of statements
   * every stored payload is the aggregate of the never-pruned history.
   */
  lemma PolicyLossless(acts: seq<Act>, lag: int, tz: int)
    requires Clocked(acts, lag) && PolicyRun(acts, lag, tz)
    ensures var run := After(acts, tz).run;
            forall s :: s in Final(run, tz).summaries ==>
              if s.kind == Daily then Exact(s, run, tz)
              else s.payload.WeeklyBody? && WeekSound(run, s.device, s.date, s.payload.weekly, tz)
  {
    PolicyKeepsOver(acts, lag, tz);
    InterleavedLossless(acts, tz);
  }

  // ----- No smaller bound will do, and for some rows none -----

  lemma PolicySnoc(acts: seq<Act>, a: Act, lag: int, tz: int)
    requires PolicyRun(acts, lag, tz) && FollowsPolicy(After(acts, tz), a, lag, tz)
    ensures PolicyRun(acts + [a], lag, tz)
  {
    assert (acts + [a])[..|acts|] == acts;
  }

  lemma RowTables(run: seq<Op>, r: Signal, tz: int)
    ensures AllSignals(run + [InsertSignal(r)]) == AllSignals(run) + [r]
    ensures Final(run + [InsertSignal(r)], tz) == Final(run, tz).(signals := Final(run, tz).signals + [r])
  {
    assert (run + [InsertSignal(r)])[..|run|] == run;
  }

  /** One more row, which no policy forbids. */
  lemma RowAct(acts: seq<Act>, r: Signal, lag: int, tz: int)
    requires PolicyRun(acts, lag, tz)
    ensures PolicyRun(acts + [Table(InsertSignal(r))], lag, tz)
    ensures After(acts + [Table(InsertSignal(r))], tz).run == After(acts, tz).run + [InsertSignal(r)]
  {
    ActSnoc(acts, Table(InsertSignal(r)), tz);
    PolicySnoc(acts, Table(InsertSignal(r)), lag, tz);
  }

  /** A daily job on an unsummarised day, `lag` after its end, before which no cleanup has run. */
  lemma JobAct(acts: seq<Act>, device: string, at: int, date: int, lag: int, tz: int)
    requires PolicyRun(acts, lag, tz) && device != "" && DayStart(date + 1, tz) + lag <= at
    requires NotExpired(After(acts, tz).run, DayStart(date, tz)) && Final(After(acts, tz).run, tz).summaries == []
    ensures var run, op := After(acts, tz).run, MakeDaily(device, at, Some(date), NO_FAULTS);
            && PolicyRun(acts + [Table(op)], lag, tz) && After(acts + [Table(op)], tz).run == run + [op]
            && Writes(Final(run, tz), op, tz) && AllSignals(run + [op]) == AllSignals(run)
  {
    var run, op := After(acts, tz).run, MakeDaily(device, at, Some(date), NO_FAULTS);
    ActSnoc(acts, Table(op), tz);
    PolicySnoc(acts, Table(op), lag, tz);
    assert (run + [op])[..|run|] == run;
  }

  /** One more reading of a day. */
  lemma ReadingAdded(rows: seq<Signal>, r: Signal, device: string, date: int, tz: int)
    requires r.signalId == 46 && r.value.Some? && OnDay(device, date, tz)(r)
    ensures Values(DaySignals(rows + [r], device, date, tz), 46) == Values(DaySignals(rows, device, date, tz), 46) + [r.value.value]
  {
    FilterSnoc(OnDay(device, date, tz), rows, r);
    assert (DaySignals(rows, device, date, tz) + [r])[..|DaySignals(rows, device, date, tz)|] == DaySignals(rows, device, date, tz);
  }

  lemma MeanAdded(xs: seq<real>, x: real, n: nat, sum: real)
    requires n == |xs| + 1 && sum == Sum(xs) + x
    ensures Mean(xs + [x]) == Some(sum / n as real) && Sum(xs + [x]) == sum
  {
    SumAdds(xs, x);
    assert |xs + [x]| == n;
  }

  function TempAverage(run: seq<Op>, device: string, date: int, tz: int): Option<real> {
    HistoryPayload(run, device, date, tz).signals.value.tempAvg
  }

  /** The figure of a stored row. */
  ghost predicate StoresTemp(s: Summary, run: seq<Op>, average: Option<real>, tz: int) {
    && s in Final(run, tz).summaries && s.kind == Daily && s.payload.DailyBody? && s.payload.daily.signals.Some?
    && s.payload.daily.signals.value.tempAvg == average
  }

  /** The row that the job stored has one average, the history of its day another. */
  ghost predicate StoresWrongTemp(before: seq<Op>, op: Op, after: seq<Op>, stored: Option<real>, average: Option<real>, tz: int)
    requires op.MakeDaily?
  {
    var s, run := WrittenRow(before, op, tz), before + [op] + after;
    StoresTemp(s, run, stored, tz) && TempAverage(run, s.device, s.date, tz) == average && !Exact(s, run, tz)
  }

  /** What a job has stored and what the history has: the means of the readings it read, and of all of them. */
  lemma WrittenTemp(before: seq<Op>, op: Op, after: seq<Op>, read: seq<Signal>, all: seq<Signal>, stored: Option<real>, average: Option<real>, tz: int)
    requires Writes(Final(before, tz), op, tz) && op.faults.signalsOk
    requires read == Final(before, tz).signals && all == AllSignals(before + [op] + after)
    requires stored == Mean(Values(DaySignals(read, op.device, TargetDate(op.at, op.runDate, tz), tz), 46))
    requires average == Mean(Values(DaySignals(all, op.device, TargetDate(op.at, op.runDate, tz), tz), 46)) != stored
    ensures StoresWrongTemp(before, op, after, stored, average, tz)
  {
    WrittenRowPersists(before, op, after, tz);
  }

  /** The last reading of a day, written one millisecond later than the policy allows for. */
  function LateTemperature(device: string, date: int, tz: int): Signal { Reading(0, device, 21.0, DayStart(date + 1, tz) - 1) }

  function Reading(id: nat, device: string, value: real, at: int): Signal { Signal(id, device, 46, Some(value), at) }

  lemma LateRowRun(op: Op, r: Signal, lag: int, tz: int)
    requires op.MakeDaily? && op.device != "" && op.runDate.Some? && op.faults == NO_FAULTS
    requires op.at == DayStart(op.runDate.value + 1, tz) + lag && r.at == op.at - lag - 1
    ensures var acts := [Table(op)] + [Table(InsertSignal(r))];
            && PolicyRun(acts, lag, tz) && Clocked(acts, lag + 1) && After(acts, tz).run == [] + [op] + [InsertSignal(r)]
            && Writes(Final([], tz), op, tz) && AllSignals([] + [op] + [InsertSignal(r)]) == [r]
  {
    JobAct([], op.device, op.at, op.runDate.value, lag, tz);
    assert [] + [Table(op)] == [Table(op)];
    RowAct([Table(op)], r, lag, tz);
    RowTables([] + [op], r, tz);
    ClockedSnoc([], Table(op), lag + 1);
    ClockedSnoc([Table(op)], Table(InsertSignal(r)), lag + 1);
    assert [] + [r] == [r];
  }

  /**
   * The bound is sharp: for every lag, a run that follows the policy with it and whose one row is a millisecond later
   * stores no temperature for a day that had 21 degrees. With lag 0 this is the job at midnight, before the environment
   * node writes the last reading of the day.
   */
  lemma LateTemperatureMissed(device: string, date: int, lag: int, tz: int)
    requires device != ""
    ensures var op, r := MakeDaily(device, DayStart(date + 1, tz) + lag, Some(date), NO_FAULTS), LateTemperature(device, date, tz);
            var acts := [Table(op)] + [Table(InsertSignal(r))];
            && PolicyRun(acts, lag, tz) && Clocked(acts, lag + 1) && After(acts, tz).run == [] + [op] + [InsertSignal(r)]
            && StoresWrongTemp([], op, [InsertSignal(r)], None, Some(21.0), tz)
  {
    var op, r := MakeDaily(device, DayStart(date + 1, tz) + lag, Some(date), NO_FAULTS), LateTemperature(device, date, tz);
    LateRowRun(op, r, lag, tz);
    LateAverage(r, device, date, tz);
    WrittenTemp([], op, [InsertSignal(r)], [], [r], None, Some(21.0), tz);
  }

  lemma LateAverage(r: Signal, device: string, date: int, tz: int)
    requires r == LateTemperature(device, date, tz)
    ensures Mean(Values(DaySignals([], device, date, tz), 46)) == None && Mean(Values(DaySignals([r], device, date, tz), 46)) == Some(21.0)
  {
    ReadingAdded([], r, device, date, tz);
    MeanAdded([], 21.0, 1, 21.0);
    assert [] + [r] == [r];
  }

  lemma AveragesOfReadings(rows: seq<Signal>, a: Signal, b: Signal, again: Signal, device: string, date: int, tz: int)
    requires rows == [] && OnDay(device, date, tz)(a) && OnDay(device, date, tz)(b) && OnDay(device, date, tz)(again)
    requires a.signalId == b.signalId == again.signalId == 46
    requires a.value == Some(20.0) && b.value == Some(22.0) && again.value == Some(22.0)
    ensures Mean(Values(DaySignals(rows + [a] + [b], device, date, tz), 46)) == Some(21.0)
    ensures Mean(Values(DaySignals(rows + [a] + [b] + [again], device, date, tz), 46)) == Some(64.0 / 3.0)
  {
    ReadingAdded(rows, a, device, date, tz);
    ReadingAdded(rows + [a], b, device, date, tz);
    ReadingAdded(rows + [a] + [b], again, device, date, tz);
    assert Values(DaySignals(rows, device, date, tz), 46) == [];
    MeanAdded([], 20.0, 1, 20.0);
    assert [] + [20.0] == [20.0];
    MeanAdded([20.0], 22.0, 2, 42.0);
    MeanAdded([20.0] + [22.0], 22.0, 3, 64.0);
  }

  /** Two readings, a job, and a third row. */
  function Rewritten(a: Signal, b: Signal, op: Op, again: Signal): seq<Act> {
    [Table(InsertSignal(a))] + [Table(InsertSignal(b))] + [Table(op)] + [Table(InsertSignal(again))]
  }

  lemma TwoRows(a: Signal, b: Signal, lag: int, tz: int)
    ensures var acts, run := [Table(InsertSignal(a))] + [Table(InsertSignal(b))], [InsertSignal(a)] + [InsertSignal(b)];
            && PolicyRun(acts, lag, tz) && After(acts, tz).run == run
            && AllSignals(run) == [] + [a] + [b] && Final(run, tz) == Db([] + [a] + [b], [], [])
  {
    assert [] + [Table(InsertSignal(a))] == [Table(InsertSignal(a))] && [] + [InsertSignal(a)] == [InsertSignal(a)];
    RowAct([], a, lag, tz);
    RowTables([], a, tz);
    RowAct([Table(InsertSignal(a))], b, lag, tz);
    RowTables([InsertSignal(a)], b, tz);
  }

  lemma RewrittenRun(a: Signal, b: Signal, op: Op, again: Signal, lag: int, tz: int)
    requires op.MakeDaily? && op.device != "" && op.runDate.Some? && op.faults == NO_FAULTS && DayStart(op.runDate.value + 1, tz) + lag <= op.at
    ensures var before := [InsertSignal(a)] + [InsertSignal(b)];
            && PolicyRun(Rewritten(a, b, op, again), lag, tz)
            && After(Rewritten(a, b, op, again), tz).run == before + [op] + [InsertSignal(again)] && Writes(Final(before, tz), op, tz)
            && Final(before, tz).signals == [] + [a] + [b]
            && AllSignals(before + [op] + [InsertSignal(again)]) == [] + [a] + [b] + [again]
  {
    var acts := [Table(InsertSignal(a))] + [Table(InsertSignal(b))];
    TwoRows(a, b, lag, tz);
    JobAct(acts, op.device, op.at, op.runDate.value, lag, tz);
    RowAct(acts + [Table(op)], again, lag, tz);
    RowTables([InsertSignal(a)] + [InsertSignal(b)] + [op], again, tz);
  }

  /**
   * No lag is enough for a silent sensor: whatever the bound and however late the job, a reading written again after it
   * under its old time stamp changes the average of the day, and the stored 21 degrees are not the history's 64 / 3.
   */
  lemma StaleReadingBreaksAnyLag(device: string, at: int, date: int, lag: int, tz: int)
    requires device != "" && DayStart(date + 1, tz) + lag <= at
    ensures var start, op := DayStart(date, tz), MakeDaily(device, at, Some(date), NO_FAULTS);
            var a, b, again := Reading(0, device, 20.0, start), Reading(1, device, 22.0, start + 1), Reading(2, device, 22.0, start + 1);
            var before := [InsertSignal(a)] + [InsertSignal(b)];
            && PolicyRun(Rewritten(a, b, op, again), lag, tz)
            && After(Rewritten(a, b, op, again), tz).run == before + [op] + [InsertSignal(again)]
            && StoresWrongTemp(before, op, [InsertSignal(again)], Some(21.0), Some(64.0 / 3.0), tz)
  {
    var start, op := DayStart(date, tz), MakeDaily(device, at, Some(date), NO_FAULTS);
    var a, b, again := Reading(0, device, 20.0, start), Reading(1, device, 22.0, start + 1), Reading(2, device, 22.0, start + 1);
    RewrittenRun(a, b, op, again, lag, tz);
    AveragesOfReadings([], a, b, again, device, date, tz);
    WrittenTemp([InsertSignal(a)] + [InsertSignal(b)], op, [InsertSignal(again)], [] + [a] + [b], [] + [a] + [b] + [again],
                Some(21.0), Some(64.0 / 3.0), tz);
  }
}
