/** What every run of inserts, summaries and cleanups keeps. */
module SummaryProofs {
  import opened Sequences
  import opened SummaryModel

  lemma DayWindow(at: int, date: int, tz: int)
    ensures DayStart(date, tz) <= at < DayStart(date + 1, tz) <==> DayOf(at, tz) == date
  {
  }

  lemma LastOp(run: seq<Op>)
    requires |run| > 0
    ensures run == run[..|run| - 1] + [run[|run| - 1]]
  {
  }

  // ----- The summary table -----

  /** Daily rows carry their own day's window, and (device, type, date) is a key. */
  ghost predicate WellFormed(summaries: seq<Summary>, tz: int) {
    && (forall s :: s in summaries && s.kind == Daily ==>
          s.start == DayStart(s.date, tz) && s.end == DayStart(s.date + 1, tz) && s.payload.DailyBody?)
    && (forall i, j :: 0 <= i < j < |summaries| ==>
          (summaries[i].device, summaries[i].kind, summaries[i].date)
          != (summaries[j].device, summaries[j].kind, summaries[j].date))
  }

  /** Whatever calls fail, a device has at most one summary per type and date. */
  lemma {:induction false} SummariesWellFormed(run: seq<Op>, tz: int)
    ensures WellFormed(Final(run, tz).summaries, tz)
  {
    if |run| > 0 {
      var db, op := Final(run[..|run| - 1], tz), run[|run| - 1];
      SummariesWellFormed(run[..|run| - 1], tz);
      match op
      case MakeDaily(device, at, runDate, f) =>
        InsertWellFormed(db.summaries, DailyRow(db, device, TargetDate(at, runDate, tz), tz, f.signalsOk, f.eventsOk), tz);
      case MakeWeekly(device, at, f) =>
        InsertWellFormed(db.summaries, WeeklyRow(db, device, at, tz, f.signalsOk), tz);
      case StoreDaily(device, date, p) => InsertWellFormed(db.summaries, DailySummaryOf(device, date, tz, p), tz);
      case StoreWeekly(device, today, p) => InsertWellFormed(db.summaries, WeeklySummaryOf(device, today, tz, p), tz);
      case _ =>
    }
  }

  lemma InsertWellFormed(summaries: seq<Summary>, row: Summary, tz: int)
    requires WellFormed(summaries, tz)
    requires row.kind == Daily ==>
               row.start == DayStart(row.date, tz) && row.end == DayStart(row.date + 1, tz) && row.payload.DailyBody?
    ensures WellFormed(InsertSummary(summaries, row), tz)
  {
  }

  /** Summaries are never removed or rewritten. */
  lemma {:induction false} SummariesPersist(run: seq<Op>, more: seq<Op>, tz: int)
    ensures Final(run, tz).summaries <= Final(run + more, tz).summaries
  {
    if |more| == 0 {
      assert run + more == run;
    } else {
      var front := more[..|more| - 1];
      assert (run + more)[..|run + more| - 1] == run + front;
      SummariesPersist(run, front, tz);
    }
  }

  /** An instant is covered exactly when its own local day has a daily summary. */
  lemma CoveredIffSummarised(summaries: seq<Summary>, device: string, at: int, tz: int)
    requires WellFormed(summaries, tz)
    ensures Covered(summaries, device, at) <==> HasSummary(summaries, device, Daily, DayOf(at, tz))
  {
    forall s | s in summaries && s.kind == Daily
      ensures s.start <= at < s.end <==> s.date == DayOf(at, tz)
    {
      DayWindow(at, s.date, tz);
    }
  }

  /** Which signal rows a cleanup leaves: the first five of their group, and those no older than `days` on an unsummarised day. */
  lemma CleanupLeaves(db: Db, at: int, days: int, eventsOk: bool, r: Signal, tz: int)
    requires WellFormed(db.summaries, tz)
    ensures r in CleanupStep(db, Cutoff(at, days), true, eventsOk).signals
            <==>
            && r in db.signals
            && (NewerCount(db.signals, r) < 5
                || (at - r.at <= days * 86_400_000 && !HasSummary(db.summaries, r.device, Daily, DayOf(r.at, tz))))
  {
    FilterMember(SignalKept(db, Cutoff(at, days)), db.signals, r);
    CoveredIffSummarised(db.summaries, r.device, r.at, tz);
  }

  /** Which events it leaves: those no older than `days` on an unsummarised day. */
  lemma CleanupLeavesEvents(db: Db, at: int, days: int, signalsOk: bool, e: Event, tz: int)
    requires WellFormed(db.summaries, tz)
    ensures e in CleanupStep(db, Cutoff(at, days), signalsOk, true).events
            <==> e in db.events && at - e.at <= days * 86_400_000 && !HasSummary(db.summaries, e.device, Daily, DayOf(e.at, tz))
  {
    FilterMember(EventKept(db, Cutoff(at, days)), db.events, e);
    CoveredIffSummarised(db.summaries, e.device, e.at, tz);
  }

  /** Every weekly row carries the window of its seven days. */
  lemma {:induction false} WeeklyWindows(run: seq<Op>, tz: int)
    ensures forall s :: s in Final(run, tz).summaries && s.kind == Weekly ==>
              s.start == DayStart(s.date, tz) && s.end == s.start + 7 * 86_400_000 && s.payload.WeeklyBody?
  {
    if |run| > 0 {
      WeeklyWindows(run[..|run| - 1], tz);
    }
  }

  // ----- Ranking on the pruned table agrees with ranking on the full history -----

  /** One cleanup does not change how many newer rows a row has, as far as the first five are concerned. */
  lemma {:induction false} CleanupKeepsRank(db: Db, cutoff: int, r: Signal)
    ensures var before, after := NewerCount(db.signals, r), NewerCount(Filter(SignalKept(db, cutoff), db.signals), r);
            if before >= KEEP then after >= KEEP else after == before
    decreases NewerCount(db.signals, r)
  {
    var keep := SignalKept(db, cutoff);
    if x :| x in db.signals && Newer(r)(x) && !keep(x) {
      FilterWeaker(Newer(x), Newer(r), db.signals);
      CleanupKeepsRank(db, cutoff, x);
      FilterWeaker(Newer(x), Newer(r), Filter(keep, db.signals));
    } else {
      FilterKeeps(Newer(r), keep, db.signals);
    }
  }

  /** The rank of `r` among the stored rows is its rank among all rows, as far as the first five are concerned. */
  predicate RankAgrees(stored: seq<Signal>, all: seq<Signal>, r: Signal) {
    if NewerCount(all, r) >= KEEP then NewerCount(stored, r) >= KEEP else NewerCount(stored, r) == NewerCount(all, r)
  }

  lemma InsertKeepsAgreement(stored: seq<Signal>, all: seq<Signal>, s: Signal, r: Signal)
    requires RankAgrees(stored, all, r)
    ensures RankAgrees(stored + [s], all + [s], r)
  {
    FilterSnoc(Newer(r), stored, s);
    FilterSnoc(Newer(r), all, s);
  }

  lemma CleanupKeepsAgreement(db: Db, cutoff: int, all: seq<Signal>, r: Signal)
    requires RankAgrees(db.signals, all, r)
    ensures RankAgrees(Filter(SignalKept(db, cutoff), db.signals), all, r)
  {
    CleanupKeepsRank(db, cutoff, r);
  }

  /** For every run: ranks up to five computed on the pruned table are those of the full history. */
  lemma {:induction false} RankAgreesWithHistory(run: seq<Op>, r: Signal, tz: int)
    ensures RankAgrees(Final(run, tz).signals, AllSignals(run), r)
  {
    if |run| > 0 {
      var front, op := run[..|run| - 1], run[|run| - 1];
      var db := Final(front, tz);
      RankAgreesWithHistory(front, r, tz);
      match op
      case InsertSignal(s) =>
        InsertKeepsAgreement(db.signals, AllSignals(front), s, r);
      case Cleanup(at, days, _, _) =>
        CleanupKeepsAgreement(db, Cutoff(at, days), AllSignals(front), r);
      case _ =>
    }
  }

  /** The newest five rows ever inserted for a (device, signal) pair are always still stored. */
  lemma {:induction false} NewestFiveSurvive(run: seq<Op>, r: Signal, tz: int)
    requires r in AllSignals(run) && NewerCount(AllSignals(run), r) < KEEP
    ensures r in Final(run, tz).signals
  {
    var front, op := run[..|run| - 1], run[|run| - 1];
    var db := Final(front, tz);
    if op.InsertSignal? {
      FilterSnoc(Newer(r), AllSignals(front), op.signal);
    }
    if r in AllSignals(front) {
      NewestFiveSurvive(front, r, tz);
    }
    if op.Cleanup? {
      RankAgreesWithHistory(front, r, tz);
      FilterMember(SignalKept(db, Cutoff(op.at, op.retentionDays)), db.signals, r);
    }
  }

  /** The other rows of the group that are as late, and those that are later. */
  function AsLate(r: Signal): Signal -> bool {
    (q: Signal) => q != r && q.device == r.device && q.signalId == r.signalId && q.at >= r.at
  }
  function Later(r: Signal): Signal -> bool {
    (q: Signal) => q.device == r.device && q.signalId == r.signalId && q.at > r.at
  }

  /** By time alone: a row is always stored if fewer than five other rows ever inserted for its pair are as late. */
  lemma LatestFiveSurvive(run: seq<Op>, r: Signal, tz: int)
    requires r in AllSignals(run) && |Filter(AsLate(r), AllSignals(run))| < 5
    ensures r in Final(run, tz).signals
  {
    FilterWeaker(Newer(r), AsLate(r), AllSignals(run));
    NewestFiveSurvive(run, r, tz);
  }

  /** And a cleanup deletes a row with five later ones stored, once it has expired or its day is summarised. */
  lemma OutrankedRowDeleted(db: Db, at: int, days: int, eventsOk: bool, r: Signal, tz: int)
    requires WellFormed(db.summaries, tz) && |Filter(Later(r), db.signals)| >= 5
    requires at - r.at > days * 86_400_000 || HasSummary(db.summaries, r.device, Daily, DayOf(r.at, tz))
    ensures r !in CleanupStep(db, Cutoff(at, days), true, eventsOk).signals
  {
    FilterWeaker(Later(r), Newer(r), db.signals);
    CleanupLeaves(db, at, days, eventsOk, r, tz);
  }

  // ----- When an unsummarised day is intact -----

  /** Some cleanup met a selected row that was past its cutoff and outranked by five newer rows. */
  ghost predicate RowLost(run: seq<Op>, q: Signal -> bool) {
    |run| > 0 &&
    var front, op := run[..|run| - 1], run[|run| - 1];
    || RowLost(front, q)
    || (op.Cleanup? && op.signalsOk &&
        exists r :: r in Filter(q, AllSignals(front))
                    && r.at < Cutoff(op.at, op.retentionDays) && NewerCount(AllSignals(front), r) >= KEEP)
  }

  /** Some cleanup met a selected event that was past its cutoff. */
  ghost predicate EventRowLost(run: seq<Op>, q: Event -> bool) {
    |run| > 0 &&
    var front, op := run[..|run| - 1], run[|run| - 1];
    || EventRowLost(front, q)
    || (op.Cleanup? && op.eventsOk && exists e :: e in Filter(q, AllEvents(front)) && e.at < Cutoff(op.at, op.retentionDays))
  }

  ghost predicate SignalLost(run: seq<Op>, device: string, date: int, tz: int) { RowLost(run, OnDay(device, date, tz)) }
  ghost predicate EventLost(run: seq<Op>, device: string, date: int, tz: int) { EventRowLost(run, EventOnDay(device, date, tz)) }

  /** All rows of a selection are stored, or some have been lost and are missing. */
  predicate IntactIff<T(==)>(stored: seq<T>, all: seq<T>, lost: bool) {
    if lost then |stored| < |all| else stored == all
  }

  lemma UnsummarisedBefore(run: seq<Op>, device: string, date: int, tz: int)
    requires |run| > 0 && !HasSummary(Final(run, tz).summaries, device, Daily, date)
    ensures !HasSummary(Final(run[..|run| - 1], tz).summaries, device, Daily, date)
  {
    LastOp(run);
    SummariesPersist(run[..|run| - 1], [run[|run| - 1]], tz);
  }

  /**
   * Until its day is summarised, the stored signals of any selection from a day are all of them unless a cleanup
   * lost one of the selection; then some are missing.
   */
  lemma {:induction false} SelectionIntactIff(run: seq<Op>, q: Signal -> bool, device: string, date: int, tz: int)
    requires forall r :: q(r) ==> OnDay(device, date, tz)(r)
    requires !HasSummary(Final(run, tz).summaries, device, Daily, date)
    ensures IntactIff(Filter(q, Final(run, tz).signals), Filter(q, AllSignals(run)), RowLost(run, q))
  {
    if |run| > 0 {
      var front, op := run[..|run| - 1], run[|run| - 1];
      UnsummarisedBefore(run, device, date, tz);
      SelectionIntactIff(front, q, device, date, tz);
      if op.Cleanup? && op.signalsOk {
        SelectionCleanupIff(front, op, q, device, date, tz);
      } else {
        OtherOpKeeps(front, op, q, tz);
        LastOp(run);
      }
    }
  }

  /** An operation that neither inserts nor deletes signals changes nothing about them. */
  lemma SignalsUntouched(front: seq<Op>, op: Op, q: Signal -> bool, tz: int)
    requires !op.InsertSignal? && !(op.Cleanup? && op.signalsOk)
    ensures Final(front + [op], tz).signals == Final(front, tz).signals && AllSignals(front + [op]) == AllSignals(front)
    ensures RowLost(front + [op], q) <==> RowLost(front, q)
  {
    assert (front + [op])[..|front|] == front;
  }

  lemma SignalInserted(front: seq<Op>, op: Op, q: Signal -> bool, tz: int)
    requires op.InsertSignal?
    ensures Final(front + [op], tz).signals == Final(front, tz).signals + [op.signal]
    ensures AllSignals(front + [op]) == AllSignals(front) + [op.signal] && (RowLost(front + [op], q) <==> RowLost(front, q))
  {
    assert (front + [op])[..|front|] == front;
  }

  lemma OtherOpKeeps(front: seq<Op>, op: Op, q: Signal -> bool, tz: int)
    requires !(op.Cleanup? && op.signalsOk)
    requires IntactIff(Filter(q, Final(front, tz).signals), Filter(q, AllSignals(front)), RowLost(front, q))
    ensures IntactIff(Filter(q, Final(front + [op], tz).signals), Filter(q, AllSignals(front + [op])), RowLost(front + [op], q))
  {
    if op.InsertSignal? {
      SignalInserted(front, op, q, tz);
      FilterSnoc(q, Final(front, tz).signals, op.signal);
      FilterSnoc(q, AllSignals(front), op.signal);
    } else {
      SignalsUntouched(front, op, q, tz);
    }
  }

  /** On an unsummarised day only age and rank in the history matter. */
  lemma KeptByAgeAndRank(front: seq<Op>, r: Signal, cutoff: int, device: string, date: int, tz: int)
    requires !HasSummary(Final(front, tz).summaries, device, Daily, date) && OnDay(device, date, tz)(r)
    ensures SignalKept(Final(front, tz), cutoff)(r) <==> !(r.at < cutoff && NewerCount(AllSignals(front), r) >= KEEP)
  {
    SummariesWellFormed(front, tz);
    DayWindow(r.at, date, tz);
    CoveredIffSummarised(Final(front, tz).summaries, device, r.at, tz);
    RankAgreesWithHistory(front, r, tz);
  }

  lemma SelectionCleanupIff(front: seq<Op>, op: Op, q: Signal -> bool, device: string, date: int, tz: int)
    requires op.Cleanup? && op.signalsOk
    requires forall r :: q(r) ==> OnDay(device, date, tz)(r)
    requires !HasSummary(Final(front, tz).summaries, device, Daily, date)
    requires IntactIff(Filter(q, Final(front, tz).signals), Filter(q, AllSignals(front)), RowLost(front, q))
    ensures var after, all := Filter(q, Step(Final(front, tz), op, tz).signals), Filter(q, AllSignals(front));
            var lost := RowLost(front, q) ||
                        exists r :: r in all && r.at < Cutoff(op.at, op.retentionDays)
                                    && NewerCount(AllSignals(front), r) >= KEEP;
            IntactIff(after, all, lost)
  {
    var db, cutoff := Final(front, tz), Cutoff(op.at, op.retentionDays);
    forall x | x in db.signals && q(x)
      ensures SignalKept(db, cutoff)(x) <==> !(x.at < cutoff && NewerCount(AllSignals(front), x) >= KEEP)
    {
      KeptByAgeAndRank(front, x, cutoff, device, date, tz);
    }
    SignalsPruned(db.signals, Filter(q, AllSignals(front)), AllSignals(front), q, SignalKept(db, cutoff), cutoff, RowLost(front, q));
  }

  lemma SignalsPruned(stored: seq<Signal>, all: seq<Signal>, history: seq<Signal>, q: Signal -> bool, keep: Signal -> bool, cutoff: int, lost: bool)
    requires IntactIff(Filter(q, stored), all, lost)
    requires forall x :: x in stored && q(x) ==> (keep(x) <==> !(x.at < cutoff && NewerCount(history, x) >= KEEP))
    ensures IntactIff(Filter(q, Filter(keep, stored)), all,
                      lost || exists r :: r in all && r.at < cutoff && NewerCount(history, r) >= KEEP)
  {
    if lost {
      FilterShrinks(q, keep, stored);
    } else if r :| r in all && r.at < cutoff && NewerCount(history, r) >= KEEP {
      FilterMember(q, stored, r);
      FilterStrictlyShrinks(q, keep, stored, r);
    } else {
      forall x | x in stored && q(x) ensures keep(x) {
        FilterMember(q, stored, x);
      }
      FilterKeeps(q, keep, stored);
    }
  }

  /** The same for events, which have no newest-five protection. */
  lemma {:induction false} EventSelectionIntactIff(run: seq<Op>, q: Event -> bool, device: string, date: int, tz: int)
    requires forall e :: q(e) ==> EventOnDay(device, date, tz)(e)
    requires !HasSummary(Final(run, tz).summaries, device, Daily, date)
    ensures IntactIff(Filter(q, Final(run, tz).events), Filter(q, AllEvents(run)), EventRowLost(run, q))
  {
    if |run| > 0 {
      var front, op := run[..|run| - 1], run[|run| - 1];
      UnsummarisedBefore(run, device, date, tz);
      EventSelectionIntactIff(front, q, device, date, tz);
      if op.Cleanup? && op.eventsOk {
        EventCleanupIff(front, op, q, device, date, tz);
      } else {
        OtherOpKeepsEvents(front, op, q, tz);
        LastOp(run);
      }
    }
  }

  lemma EventsUntouched(front: seq<Op>, op: Op, q: Event -> bool, tz: int)
    requires !op.InsertEvent? && !(op.Cleanup? && op.eventsOk)
    ensures Final(front + [op], tz).events == Final(front, tz).events && AllEvents(front + [op]) == AllEvents(front)
    ensures EventRowLost(front + [op], q) <==> EventRowLost(front, q)
  {
    assert (front + [op])[..|front|] == front;
  }

  lemma EventInserted(front: seq<Op>, op: Op, q: Event -> bool, tz: int)
    requires op.InsertEvent?
    ensures Final(front + [op], tz).events == Final(front, tz).events + [op.event]
    ensures AllEvents(front + [op]) == AllEvents(front) + [op.event] && (EventRowLost(front + [op], q) <==> EventRowLost(front, q))
  {
    assert (front + [op])[..|front|] == front;
  }

  lemma OtherOpKeepsEvents(front: seq<Op>, op: Op, q: Event -> bool, tz: int)
    requires !(op.Cleanup? && op.eventsOk)
    requires IntactIff(Filter(q, Final(front, tz).events), Filter(q, AllEvents(front)), EventRowLost(front, q))
    ensures IntactIff(Filter(q, Final(front + [op], tz).events), Filter(q, AllEvents(front + [op])), EventRowLost(front + [op], q))
  {
    if op.InsertEvent? {
      EventInserted(front, op, q, tz);
      FilterSnoc(q, Final(front, tz).events, op.event);
      FilterSnoc(q, AllEvents(front), op.event);
    } else {
      EventsUntouched(front, op, q, tz);
    }
  }

  /** On an unsummarised day only age matters. */
  lemma EventKeptByAge(front: seq<Op>, e: Event, cutoff: int, device: string, date: int, tz: int)
    requires !HasSummary(Final(front, tz).summaries, device, Daily, date) && EventOnDay(device, date, tz)(e)
    ensures EventKept(Final(front, tz), cutoff)(e) <==> !(e.at < cutoff)
  {
    SummariesWellFormed(front, tz);
    DayWindow(e.at, date, tz);
    CoveredIffSummarised(Final(front, tz).summaries, device, e.at, tz);
  }

  lemma EventCleanupIff(front: seq<Op>, op: Op, q: Event -> bool, device: string, date: int, tz: int)
    requires op.Cleanup? && op.eventsOk
    requires forall e :: q(e) ==> EventOnDay(device, date, tz)(e)
    requires !HasSummary(Final(front, tz).summaries, device, Daily, date)
    requires IntactIff(Filter(q, Final(front, tz).events), Filter(q, AllEvents(front)), EventRowLost(front, q))
    ensures var after, all := Filter(q, Step(Final(front, tz), op, tz).events), Filter(q, AllEvents(front));
            var lost := EventRowLost(front, q) || exists e :: e in all && e.at < Cutoff(op.at, op.retentionDays);
            IntactIff(after, all, lost)
  {
    var db, cutoff := Final(front, tz), Cutoff(op.at, op.retentionDays);
    forall x | x in db.events && q(x) ensures EventKept(db, cutoff)(x) <==> !(x.at < cutoff) {
      EventKeptByAge(front, x, cutoff, device, date, tz);
    }
    EventsPruned(db.events, Filter(q, AllEvents(front)), q, EventKept(db, cutoff), cutoff, EventRowLost(front, q));
  }

  lemma EventsPruned(stored: seq<Event>, all: seq<Event>, q: Event -> bool, keep: Event -> bool, cutoff: int, lost: bool)
    requires IntactIff(Filter(q, stored), all, lost)
    requires forall x :: x in stored && q(x) ==> (keep(x) <==> !(x.at < cutoff))
    ensures IntactIff(Filter(q, Filter(keep, stored)), all, lost || exists e :: e in all && e.at < cutoff)
  {
    if lost {
      FilterShrinks(q, keep, stored);
    } else if e :| e in all && e.at < cutoff {
      FilterMember(q, stored, e);
      FilterStrictlyShrinks(q, keep, stored, e);
    } else {
      forall x | x in stored && q(x) ensures keep(x) {
        FilterMember(q, stored, x);
      }
      FilterKeeps(q, keep, stored);
    }
  }

  /** The whole day: intact exactly unless a cleanup lost one of its rows. */
  lemma DayIntactIff(run: seq<Op>, device: string, date: int, tz: int)
    requires !HasSummary(Final(run, tz).summaries, device, Daily, date)
    ensures DaySignals(Final(run, tz).signals, device, date, tz) == DaySignals(AllSignals(run), device, date, tz)
            <==> !SignalLost(run, device, date, tz)
    ensures DayEvents(Final(run, tz).events, device, date, tz) == DayEvents(AllEvents(run), device, date, tz)
            <==> !EventLost(run, device, date, tz)
  {
    SelectionIntactIff(run, OnDay(device, date, tz), device, date, tz);
    EventSelectionIntactIff(run, EventOnDay(device, date, tz), device, date, tz);
  }

  /** Retention alone: a day whose start no cutoff has passed has lost nothing. */
  lemma {:induction false} WithinRetentionNotLost(run: seq<Op>, device: string, date: int, tz: int)
    requires NotExpired(run, DayStart(date, tz))
    ensures !SignalLost(run, device, date, tz) && !EventLost(run, device, date, tz)
  {
    if |run| > 0 {
      var front, op := run[..|run| - 1], run[|run| - 1];
      WithinRetentionNotLost(front, device, date, tz);
      forall r | r in DaySignals(AllSignals(front), device, date, tz) ensures DayStart(date, tz) <= r.at {
        FilterMember(OnDay(device, date, tz), AllSignals(front), r);
      }
      forall e | e in DayEvents(AllEvents(front), device, date, tz) ensures DayStart(date, tz) <= e.at {
        FilterMember(EventOnDay(device, date, tz), AllEvents(front), e);
      }
    }
  }
}
