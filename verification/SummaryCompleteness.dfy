/** Exactly when a stored daily summary counts every row of its day, wherever in the run its SELECTs were. */
module SummaryCompleteness {
  import opened Sequences
  import opened Statements
  import opened SummaryModel
  import opened SummaryProofs
  import opened SummaryTheorems

  // ----- What the two SELECTs of a daily job return after a run -----

  function TotalsAt(read: seq<Op>, device: string, date: int, answered: bool, tz: int): Option<SignalTotals> {
    if answered then Some(AggregateSignals(DaySignals(Final(read, tz).signals, device, date, tz))) else None
  }

  function EventTotalsAt(read: seq<Op>, device: string, date: int, answered: bool, tz: int): EventTotals {
    AggregateEvents(if answered then DayEvents(Final(read, tz).events, device, date, tz) else [])
  }

  // ----- Counts of one kind of row -----

  function Counted(device: string, date: int, signalId: int, tz: int): Signal -> bool {
    (r: Signal) => OnDay(device, date, tz)(r) && r.signalId == signalId
  }

  function CountedEvent(device: string, date: int, kind: Event -> bool, tz: int): Event -> bool {
    (e: Event) => EventOnDay(device, date, tz)(e) && kind(e)
  }

  lemma {:induction false} FilterBoth<T>(p: T -> bool, q: T -> bool, both: T -> bool, xs: seq<T>)
    requires forall x :: both(x) <==> q(x) && p(x)
    ensures Filter(p, Filter(q, xs)) == Filter(both, xs)
  {
    if |xs| > 0 {
      var front, x := xs[..|xs| - 1], xs[|xs| - 1];
      FilterBoth(p, q, both, front);
      FilterSnoc(p, Filter(q, front), x);
    }
  }

  const COUNTED_SIGNALS := {117, 125, 71}

  /** A count of the signal part; a payload without one has no count. */
  function SignalFigure(totals: Option<SignalTotals>, signalId: int): Option<nat>
    requires signalId in COUNTED_SIGNALS
  {
    match totals
    case None => None
    case Some(t) => Some(if signalId == 117 then t.meals else if signalId == 125 then t.treats else t.heartbeats)
  }

  datatype EventFigure = High | Overdue | Offline | Stale | Supply {
    function Selects(): Event -> bool {
      match this
      case High => SevereEvent()
      case Overdue => EventOfKind("feeding_overdue")
      case Offline => EventOfKind("device_offline")
      case Stale => EventOfKind("sensor_data_stale")
      case Supply => EventOfKind("low_supply")
    }

    function Of(t: EventTotals): nat {
      match this
      case High => t.high
      case Overdue => t.overdue
      case Offline => t.offline
      case Stale => t.stale
      case Supply => t.supply
    }
  }

  /** The figure's number of rows in the whole history of the day. */
  function TrueSignalCount(run: seq<Op>, device: string, date: int, signalId: int, tz: int): nat {
    Count(DaySignals(AllSignals(run), device, date, tz), signalId)
  }
  function TrueEventCount(run: seq<Op>, device: string, date: int, f: EventFigure, tz: int): nat {
    |Filter(f.Selects(), DayEvents(AllEvents(run), device, date, tz))|
  }

  lemma CountOf(rows: seq<Signal>, device: string, date: int, signalId: int, tz: int)
    ensures Count(DaySignals(rows, device, date, tz), signalId) == |Filter(Counted(device, date, signalId, tz), rows)|
  {
    FilterBoth(HasSignal(signalId), OnDay(device, date, tz), Counted(device, date, signalId, tz), rows);
  }

  lemma EventCountOf(events: seq<Event>, device: string, date: int, kind: Event -> bool, tz: int)
    ensures |Filter(kind, DayEvents(events, device, date, tz))| == |Filter(CountedEvent(device, date, kind, tz), events)|
  {
    FilterBoth(kind, EventOnDay(device, date, tz), CountedEvent(device, date, kind, tz), events);
  }

  lemma FigureAt(read: seq<Op>, device: string, date: int, answered: bool, signalId: int, tz: int)
    requires signalId in COUNTED_SIGNALS
    ensures SignalFigure(TotalsAt(read, device, date, answered, tz), signalId)
            == if answered then Some(|Filter(Counted(device, date, signalId, tz), Final(read, tz).signals)|) else None
  {
    CountOf(Final(read, tz).signals, device, date, signalId, tz);
  }

  lemma EventFigureAt(read: seq<Op>, device: string, date: int, answered: bool, f: EventFigure, tz: int)
    ensures f.Of(EventTotalsAt(read, device, date, answered, tz))
            == if answered then |Filter(CountedEvent(device, date, f.Selects(), tz), Final(read, tz).events)| else 0
  {
    EventCountOf(Final(read, tz).events, device, date, f.Selects(), tz);
    FilterEmpty(f.Selects(), []);
  }

  lemma IntactAndNoneLate<T>(stored: seq<T>, all: seq<T>, late: seq<T>, lost: bool)
    requires IntactIff(stored, all, lost)
    ensures stored == all + late <==> !lost && late == []
    ensures |stored| == |all + late| <==> !lost && late == []
  {
  }

  /**
   * A count of meals, treats or heartbeats that was read after `read`, while the day had no summary, is that of every
   * row the whole run inserts for the day if and only if the query was answered, no cleanup had lost such a row by then,
   * and no such row is inserted later: between the SELECT and the INSERT, or after it.
   */
  lemma SignalCountExactIff(read: seq<Op>, rest: seq<Op>, device: string, date: int, answered: bool, signalId: int, tz: int)
    requires !HasSummary(Final(read, tz).summaries, device, Daily, date) && signalId in COUNTED_SIGNALS
    ensures SignalFigure(TotalsAt(read, device, date, answered, tz), signalId)
              == Some(TrueSignalCount(read + rest, device, date, signalId, tz))
            <==>
            && answered && !RowLost(read, Counted(device, date, signalId, tz))
            && Filter(Counted(device, date, signalId, tz), AllSignals(rest)) == []
  {
    var q := Counted(device, date, signalId, tz);
    FigureAt(read, device, date, answered, signalId, tz);
    CountOf(AllSignals(read + rest), device, date, signalId, tz);
    HistoryAppend(read, rest);
    FilterAppend(q, AllSignals(read), AllSignals(rest));
    SelectionIntactIff(read, q, device, date, tz);
    IntactAndNoneLate(Filter(q, Final(read, tz).signals), Filter(q, AllSignals(read)), Filter(q, AllSignals(rest)), RowLost(read, q));
  }

  /**
   * An event count is that of every event the whole run inserts for the day if and only if none is inserted later and
   * the query was answered with none lost by then, or it failed and there was none.
   */
  lemma EventCountExactIff(read: seq<Op>, rest: seq<Op>, device: string, date: int, answered: bool, f: EventFigure, tz: int)
    requires !HasSummary(Final(read, tz).summaries, device, Daily, date)
    ensures f.Of(EventTotalsAt(read, device, date, answered, tz)) == TrueEventCount(read + rest, device, date, f, tz)
            <==>
            && (if answered then !EventRowLost(read, CountedEvent(device, date, f.Selects(), tz))
                else Filter(CountedEvent(device, date, f.Selects(), tz), AllEvents(read)) == [])
            && Filter(CountedEvent(device, date, f.Selects(), tz), AllEvents(rest)) == []
  {
    var q := CountedEvent(device, date, f.Selects(), tz);
    EventFigureAt(read, device, date, answered, f, tz);
    EventCountOf(AllEvents(read + rest), device, date, f.Selects(), tz);
    HistoryAppend(read, rest);
    FilterAppend(q, AllEvents(read), AllEvents(rest));
    EventSelectionIntactIff(read, q, device, date, tz);
    IntactAndNoneLate(Filter(q, Final(read, tz).events), Filter(q, AllEvents(read)), Filter(q, AllEvents(rest)), EventRowLost(read, q));
  }

  // ----- Whole stored rows -----

  /** Where in the run the two SELECTs of a job were, and whether they were answered. */
  datatype Source = Source(signalsAt: nat, signalsOk: bool, eventsAt: nat, eventsOk: bool)

  ghost predicate ReadFrom(run: seq<Op>, src: Source, device: string, date: int, p: DailyPayload, tz: int) {
    && src.signalsAt <= src.eventsAt <= |run|
    && p == DailyPayload(TotalsAt(run[..src.signalsAt], device, date, src.signalsOk, tz),
                         EventTotalsAt(run[..src.eventsAt], device, date, src.eventsOk, tz))
  }

  /** A stored daily row and the reads it was computed from, at which its day was not summarised yet. */
  ghost predicate StoredFrom(run: seq<Op>, src: Source, s: Summary, tz: int) {
    && s in Final(run, tz).summaries && s.kind == Daily && s.payload.DailyBody?
    && ReadFrom(run, src, s.device, s.date, s.payload.daily, tz)
    && !HasSummary(Final(run[..src.eventsAt], tz).summaries, s.device, Daily, s.date)
  }

  lemma UnsummarisedPrefix(run: seq<Op>, i: nat, j: nat, device: string, date: int, tz: int)
    requires i <= j <= |run| && !HasSummary(Final(run[..j], tz).summaries, device, Daily, date)
    ensures !HasSummary(Final(run[..i], tz).summaries, device, Daily, date)
  {
    assert run[..i] + run[i..j] == run[..j];
    SummariesPersist(run[..i], run[i..j], tz);
  }

  lemma StillThere(some: seq<Summary>, more: seq<Summary>, s: Summary)
    requires some <= more && s in some
    ensures s in more
  {
    var k :| 0 <= k < |some| && some[k] == s;
    assert more[k] == s;
  }

  lemma StoredFromStays(run: seq<Op>, more: seq<Op>, src: Source, s: Summary, tz: int)
    requires StoredFrom(run, src, s, tz)
    ensures StoredFrom(run + more, src, s, tz)
  {
    SummariesPersist(run, more, tz);
    StillThere(Final(run, tz).summaries, Final(run + more, tz).summaries, s);
    assert (run + more)[..src.signalsAt] == run[..src.signalsAt] && (run + more)[..src.eventsAt] == run[..src.eventsAt];
  }

  /** Every count of the stored row is that of the day's whole history. */
  ghost predicate CountsExact(s: Summary, run: seq<Op>, tz: int) {
    && s.payload.DailyBody?
    && (forall id :: id in COUNTED_SIGNALS ==>
          SignalFigure(s.payload.daily.signals, id) == Some(TrueSignalCount(run, s.device, s.date, id, tz)))
    && (forall f: EventFigure :: f.Of(s.payload.daily.events) == TrueEventCount(run, s.device, s.date, f, tz))
  }

  /** At the reads: the signal query was answered, and no row that is counted had been lost or missed. */
  ghost predicate CountsRead(run: seq<Op>, src: Source, device: string, date: int, tz: int)
    requires src.signalsAt <= |run| && src.eventsAt <= |run|
  {
    && src.signalsOk
    && (forall id :: id in COUNTED_SIGNALS ==> !RowLost(run[..src.signalsAt], Counted(device, date, id, tz)))
    && (forall f: EventFigure ::
          if src.eventsOk then !EventRowLost(run[..src.eventsAt], CountedEvent(device, date, f.Selects(), tz))
          else Filter(CountedEvent(device, date, f.Selects(), tz), AllEvents(run[..src.eventsAt])) == [])
  }

  /** Since the reads no counted row has been inserted. */
  ghost predicate NoneMissed(run: seq<Op>, src: Source, device: string, date: int, tz: int)
    requires src.signalsAt <= |run| && src.eventsAt <= |run|
  {
    && (forall id :: id in COUNTED_SIGNALS ==> Filter(Counted(device, date, id, tz), AllSignals(run[src.signalsAt..])) == [])
    && (forall f: EventFigure :: Filter(CountedEvent(device, date, f.Selects(), tz), AllEvents(run[src.eventsAt..])) == [])
  }

  /**
   * All eight counts of a stored row are right over the whole run if and only if the signal query was answered, no
   * counted row had been lost or missed when it was read, and none has been inserted since, the INSERT or not.
   */
  lemma CountsExactIff(run: seq<Op>, src: Source, s: Summary, tz: int)
    requires StoredFrom(run, src, s, tz)
    ensures CountsExact(s, run, tz) <==> CountsRead(run, src, s.device, s.date, tz) && NoneMissed(run, src, s.device, s.date, tz)
  {
    var i, j := src.signalsAt, src.eventsAt;
    UnsummarisedPrefix(run, i, j, s.device, s.date, tz);
    assert run[..i] + run[i..] == run && run[..j] + run[j..] == run;
    forall id | id in COUNTED_SIGNALS
      ensures SignalFigure(s.payload.daily.signals, id) == Some(TrueSignalCount(run, s.device, s.date, id, tz))
              <==>
              && src.signalsOk && !RowLost(run[..i], Counted(s.device, s.date, id, tz))
              && Filter(Counted(s.device, s.date, id, tz), AllSignals(run[i..])) == []
    {
      SignalCountExactIff(run[..i], run[i..], s.device, s.date, src.signalsOk, id, tz);
    }
    forall f: EventFigure
      ensures f.Of(s.payload.daily.events) == TrueEventCount(run, s.device, s.date, f, tz)
              <==>
              && (if src.eventsOk then !EventRowLost(run[..j], CountedEvent(s.device, s.date, f.Selects(), tz))
                  else Filter(CountedEvent(s.device, s.date, f.Selects(), tz), AllEvents(run[..j])) == [])
              && Filter(CountedEvent(s.device, s.date, f.Selects(), tz), AllEvents(run[j..])) == []
    {
      EventCountExactIff(run[..j], run[j..], s.device, s.date, src.eventsOk, f, tz);
    }
    assert 71 in COUNTED_SIGNALS;
  }

  /** Both queries were answered and nothing of the day had been lost when it was read. */
  ghost predicate ReadInFull(run: seq<Op>, src: Source, device: string, date: int, tz: int)
    requires src.signalsAt <= |run| && src.eventsAt <= |run|
  {
    && src.signalsOk && src.eventsOk
    && !SignalLost(run[..src.signalsAt], device, date, tz) && !EventLost(run[..src.eventsAt], device, date, tz)
  }

  /** No row of the day has been inserted since the reads. */
  ghost predicate NoneSince(run: seq<Op>, src: Source, device: string, date: int, tz: int)
    requires src.signalsAt <= |run| && src.eventsAt <= |run|
  {
    && DaySignals(AllSignals(run[src.signalsAt..]), device, date, tz) == []
    && DayEvents(AllEvents(run[src.eventsAt..]), device, date, tz) == []
  }

  /** The row was computed by answered queries from every row the whole run inserts for the day. */
  ghost predicate Complete(run: seq<Op>, src: Source, s: Summary, tz: int)
    requires src.signalsAt <= |run| && src.eventsAt <= |run|
  {
    && src.signalsOk && src.eventsOk
    && DaySignals(Final(run[..src.signalsAt], tz).signals, s.device, s.date, tz) == DaySignals(AllSignals(run), s.device, s.date, tz)
    && DayEvents(Final(run[..src.eventsAt], tz).events, s.device, s.date, tz) == DayEvents(AllEvents(run), s.device, s.date, tz)
  }

  /** A stored row is complete over a whole run if and only if its day was read in full and no row of it was inserted since. */
  lemma CompleteIff(run: seq<Op>, src: Source, s: Summary, tz: int)
    requires StoredFrom(run, src, s, tz)
    ensures Complete(run, src, s, tz) <==> ReadInFull(run, src, s.device, s.date, tz) && NoneSince(run, src, s.device, s.date, tz)
  {
    UnsummarisedPrefix(run, src.signalsAt, src.eventsAt, s.device, s.date, tz);
    SignalsCompleteIff(run, src.signalsAt, s.device, s.date, tz);
    EventsCompleteIff(run, src.eventsAt, s.device, s.date, tz);
  }

  lemma SignalsCompleteIff(run: seq<Op>, i: nat, device: string, date: int, tz: int)
    requires i <= |run| && !HasSummary(Final(run[..i], tz).summaries, device, Daily, date)
    ensures DaySignals(Final(run[..i], tz).signals, device, date, tz) == DaySignals(AllSignals(run), device, date, tz)
            <==> !SignalLost(run[..i], device, date, tz) && DaySignals(AllSignals(run[i..]), device, date, tz) == []
  {
    var read, rest, p := run[..i], run[i..], OnDay(device, date, tz);
    assert read + rest == run;
    HistoryAppend(read, rest);
    FilterAppend(p, AllSignals(read), AllSignals(rest));
    SelectionIntactIff(read, p, device, date, tz);
    IntactAndNoneLate(Filter(p, Final(read, tz).signals), Filter(p, AllSignals(read)), Filter(p, AllSignals(rest)), RowLost(read, p));
  }

  lemma EventsCompleteIff(run: seq<Op>, j: nat, device: string, date: int, tz: int)
    requires j <= |run| && !HasSummary(Final(run[..j], tz).summaries, device, Daily, date)
    ensures DayEvents(Final(run[..j], tz).events, device, date, tz) == DayEvents(AllEvents(run), device, date, tz)
            <==> !EventLost(run[..j], device, date, tz) && DayEvents(AllEvents(run[j..]), device, date, tz) == []
  {
    var read, rest, q := run[..j], run[j..], EventOnDay(device, date, tz);
    assert read + rest == run;
    HistoryAppend(read, rest);
    FilterAppend(q, AllEvents(read), AllEvents(rest));
    EventSelectionIntactIff(read, q, device, date, tz);
    IntactAndNoneLate(Filter(q, Final(read, tz).events), Filter(q, AllEvents(read)), Filter(q, AllEvents(rest)), EventRowLost(read, q));
  }

  /** A complete row holds the aggregate of the day's history, figure by figure. */
  lemma CompleteIsExact(run: seq<Op>, src: Source, s: Summary, tz: int)
    requires StoredFrom(run, src, s, tz) && Complete(run, src, s, tz)
    ensures Exact(s, run, tz)
  {
  }

  lemma ExactCount(s: Summary, run: seq<Op>, signalId: int, tz: int)
    requires Exact(s, run, tz) && signalId in COUNTED_SIGNALS
    ensures SignalFigure(s.payload.daily.signals, signalId) == Some(TrueSignalCount(run, s.device, s.date, signalId, tz))
  {
  }

  lemma ExactCounts(s: Summary, run: seq<Op>, tz: int)
    requires Exact(s, run, tz)
    ensures CountsExact(s, run, tz)
  {
    forall id | id in COUNTED_SIGNALS
      ensures SignalFigure(s.payload.daily.signals, id) == Some(TrueSignalCount(run, s.device, s.date, id, tz))
    {
      ExactCount(s, run, id, tz);
    }
  }

  // ----- Rows of uninterrupted jobs -----

  function WrittenSource(before: seq<Op>, op: Op): Source
    requires op.MakeDaily?
  {
    Source(|before|, op.faults.signalsOk, |before|, op.faults.eventsOk)
  }

  lemma WrittenStoredFrom(before: seq<Op>, op: Op, after: seq<Op>, tz: int)
    requires Writes(Final(before, tz), op, tz)
    ensures StoredFrom(before + [op] + after, WrittenSource(before, op), WrittenRow(before, op, tz), tz)
  {
    WrittenRowPersists(before, op, after, tz);
    assert (before + [op] + after)[..|before|] == before;
  }

  // ----- Failed queries -----

  /** A row whose signal query failed has no count, in no continuation of the run, and no count of it is right. */
  lemma FailedSignalQueryStored(run: seq<Op>, more: seq<Op>, src: Source, s: Summary, signalId: int, tz: int)
    requires StoredFrom(run, src, s, tz) && !src.signalsOk && signalId in COUNTED_SIGNALS
    ensures s in Final(run + more, tz).summaries && SignalFigure(s.payload.daily.signals, signalId) == None
    ensures !CountsExact(s, run + more, tz)
  {
    StoredFromStays(run, more, src, s, tz);
    assert signalId in COUNTED_SIGNALS;
  }

  /** A row whose event query failed says that nothing happened, and the next cleanup erases the day's events. */
  lemma FailedEventQueryErases(run: seq<Op>, src: Source, s: Summary, at: int, days: int, signalsOk: bool, tz: int)
    requires StoredFrom(run, src, s, tz) && !src.eventsOk
    ensures var later := run + [Cleanup(at, days, signalsOk, true)];
            && s in Final(later, tz).summaries && s.payload.daily.events == EventTotals(0, 0, 0, 0, 0)
            && DayEvents(Final(later, tz).events, s.device, s.date, tz) == []
  {
    var prune := Cleanup(at, days, signalsOk, true);
    StoredFromStays(run, [prune], src, s, tz);
    assert (run + [prune])[..|run|] == run;
    SummariesWellFormed(run, tz);
    EventsOfDayPruned(Final(run, tz), s, Cutoff(at, days), tz);
  }

  lemma EventsOfDayPruned(db: Db, s: Summary, cutoff: int, tz: int)
    requires s in db.summaries && s.kind == Daily && s.start == DayStart(s.date, tz) && s.end == DayStart(s.date + 1, tz)
    ensures DayEvents(Filter(EventKept(db, cutoff), db.events), s.device, s.date, tz) == []
  {
    var kept := Filter(EventKept(db, cutoff), db.events);
    FilterEmpty(EventOnDay(s.device, s.date, tz), kept);
    forall e | e in kept ensures !EventOnDay(s.device, s.date, tz)(e) {
      FilterMember(EventKept(db, cutoff), db.events, e);
    }
  }

  /** A concrete run: a meal of day 0, and on day 1 a summary of day 0 whose signal query fails; nothing is lost or late. */
  lemma FailedQueryLosesMeal()
    ensures var meal := Signal(0, "dev", 117, Some(80.0), 0);
            var op := MakeDaily("dev", DAY, Some(0), Faults(true, true, false, true, Answered));
            && Writes(Final([InsertSignal(meal)], 0), op, 0) && !SignalLost([InsertSignal(meal)], "dev", 0, 0)
            && !CountsExact(WrittenRow([InsertSignal(meal)], op, 0), [InsertSignal(meal), op], 0)
  {
    var meal := InsertSignal(Signal(0, "dev", 117, Some(80.0), 0));
    var op := MakeDaily("dev", DAY, Some(0), Faults(true, true, false, true, Answered));
    assert [meal][..0] == [];
    assert Final([meal], 0) == Db([meal.signal], [], []);
    assert !RowLost([], OnDay("dev", 0, 0));
    assert [meal] + [op] + [] == [meal, op] && [meal, op] + [] == [meal, op];
    WrittenStoredFrom([meal], op, [], 0);
    FailedSignalQueryStored([meal, op], [], WrittenSource([meal], op), WrittenRow([meal], op, 0), 117, 0);
  }

  /**
   * A daily job whose INSERT commits on an unsummarised day but loses its reply reports "Insert failed"; its row is
   * stored for good all the same, and every later job of that day whose queries are answered is skipped.
   */
  lemma LostReplyStored(before: seq<Op>, op: Op, after: seq<Op>, tz: int)
    requires Writes(Final(before, tz), op, tz) && op.faults.insert.ReplyLost?
    ensures var date, whole := TargetDate(op.at, op.runDate, tz), Final(before + [op] + after, tz);
            && DailyResult(Final(before, tz), op.device, date, op.faults) == Failed("Insert failed")
            && WrittenRow(before, op, tz) in whole.summaries
            && DailyResult(whole, op.device, date, NO_FAULTS) == Skipped("already_exists")
  {
    WrittenRowPersists(before, op, after, tz);
    assert WrittenRow(before, op, tz).kind == Daily;
  }

  // ----- Late rows -----

  lemma OnlyRow(q: Signal -> bool, r: Signal)
    requires q(r)
    ensures Filter(q, [r]) == [r]
  {
    FilterSnoc(q, [], r);
    assert [] + [r] == [r];
  }

  /** One more meal of its day makes the counts of a stored row wrong. */
  lemma LateMealWrong(run: seq<Op>, src: Source, s: Summary, meal: Signal, tz: int)
    requires StoredFrom(run, src, s, tz) && meal.signalId == 117 && OnDay(s.device, s.date, tz)(meal)
    ensures !CountsExact(s, run + [InsertSignal(meal)], tz)
  {
    var late := [InsertSignal(meal)];
    var whole := run + late;
    StoredFromStays(run, late, src, s, tz);
    CountsExactIff(whole, src, s, tz);
    assert whole[src.signalsAt..] == run[src.signalsAt..] + late;
    HistoryAppend(run[src.signalsAt..], late);
    assert late[..0] == [] && AllSignals(late) == [meal];
    FilterAppend(Counted(s.device, s.date, 117, tz), AllSignals(run[src.signalsAt..]), [meal]);
    OnlyRow(Counted(s.device, s.date, 117, tz), meal);
    assert 117 in COUNTED_SIGNALS;
  }

  /** A meal that comes after the summary of its day, at the beginning of a run. */
  lemma MealAfterSummary(op: Op, meal: Signal, tz: int)
    requires Writes(Final([], tz), op, tz) && meal.signalId == 117 && OnDay(op.device, TargetDate(op.at, op.runDate, tz), tz)(meal)
    ensures var s, run := WrittenRow([], op, tz), [op] + [InsertSignal(meal)];
            s in Final(run, tz).summaries && s.kind == Daily && !Exact(s, run, tz)
  {
    var s := WrittenRow([], op, tz);
    assert [] + [op] + [] == [op];
    WrittenStoredFrom([], op, [], tz);
    StoredFromStays([op], [InsertSignal(meal)], WrittenSource([], op), s, tz);
    LateMealWrong([op], WrittenSource([], op), s, meal, tz);
    if Exact(s, [op] + [InsertSignal(meal)], tz) {
      ExactCounts(s, [op] + [InsertSignal(meal)], tz);
    }
  }

  /** The concrete run: the default job at midnight, and a meal a millisecond later. */
  lemma MidnightSummaryMissesMeal()
    ensures var run := [MakeDaily("dev", DAY, None, NO_FAULTS), InsertSignal(Signal(0, "dev", 117, Some(80.0), DAY + 1))];
            exists s :: s in Final(run, 0).summaries && s.kind == Daily && !Exact(s, run, 0)
  {
    var op, meal := MakeDaily("dev", DAY, None, NO_FAULTS), Signal(0, "dev", 117, Some(80.0), DAY + 1);
    assert [op] + [InsertSignal(meal)] == [op, InsertSignal(meal)];
    MealAfterSummary(op, meal, 0);
  }
}
