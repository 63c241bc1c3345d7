/** The weekly rollup: what the loop over stored daily payloads says about the raw history. */
module SummaryWeekly {
  import opened Sequences
  import opened Statements
  import opened SummaryModel
  import opened SummaryProofs
  import opened SummaryTheorems

  // ----- Totals -----

  lemma {:induction false} ValuesAppend(xs: seq<Signal>, ys: seq<Signal>, signalId: int)
    ensures Values(xs + ys, signalId) == Values(xs, signalId) + Values(ys, signalId)
  {
    if |ys| == 0 {
      assert xs + ys == xs;
    } else {
      assert (xs + ys)[..|xs + ys| - 1] == xs + ys[..|ys| - 1];
      ValuesAppend(xs, ys[..|ys| - 1], signalId);
    }
  }

  /** Sums and counts over a selection split along two disjoint halves of its predicate. */
  lemma {:induction false} SumSplits(p: Signal -> bool, q: Signal -> bool, both: Signal -> bool, rows: seq<Signal>, signalId: int)
    requires forall r :: r in rows ==> (both(r) <==> p(r) || q(r)) && !(p(r) && q(r))
    ensures Sum(Values(Filter(both, rows), signalId))
            == Sum(Values(Filter(p, rows), signalId)) + Sum(Values(Filter(q, rows), signalId))
    ensures Count(Filter(both, rows), signalId) == Count(Filter(p, rows), signalId) + Count(Filter(q, rows), signalId)
  {
    if |rows| > 0 {
      var front, x := rows[..|rows| - 1], rows[|rows| - 1];
      assert rows == front + [x];
      SumSplits(p, q, both, front, signalId);
      SumSelected(both, front, x, signalId);
      SumSelected(p, front, x, signalId);
      SumSelected(q, front, x, signalId);
    }
  }

  lemma SumSelected(p: Signal -> bool, rows: seq<Signal>, x: Signal, signalId: int)
    ensures Sum(Values(Filter(p, rows + [x]), signalId))
            == Sum(Values(Filter(p, rows), signalId)) + (if p(x) && x.signalId == signalId then OrZero(x.value) else 0.0)
    ensures Count(Filter(p, rows + [x]), signalId) == Count(Filter(p, rows), signalId) + (if p(x) && x.signalId == signalId then 1 else 0)
  {
    FilterSnoc(p, rows, x);
    SumSnoc(Filter(p, rows), x, signalId);
  }

  lemma SumSnoc(rows: seq<Signal>, x: Signal, signalId: int)
    ensures Sum(Values(rows + [x], signalId))
            == Sum(Values(rows, signalId)) + (if x.signalId == signalId then OrZero(x.value) else 0.0)
    ensures Count(rows + [x], signalId) == Count(rows, signalId) + (if x.signalId == signalId then 1 else 0)
  {
    assert (rows + [x])[..|rows|] == rows;
    FilterSnoc(HasSignal(signalId), rows, x);
    var v := Values(rows, signalId);
    if x.signalId == signalId && x.value.Some? {
      assert (v + [x.value.value])[..|v|] == v;
    }
  }

  lemma {:induction false} CountSplits<T>(p: T -> bool, q: T -> bool, both: T -> bool, c: T -> bool, rows: seq<T>)
    requires forall r :: r in rows ==> (both(r) <==> p(r) || q(r)) && !(p(r) && q(r))
    ensures |Filter(c, Filter(both, rows))| == |Filter(c, Filter(p, rows))| + |Filter(c, Filter(q, rows))|
  {
    if |rows| > 0 {
      var front, x := rows[..|rows| - 1], rows[|rows| - 1];
      assert rows == front + [x];
      CountSplits(p, q, both, c, front);
      CountSelected(both, c, front, x);
      CountSelected(p, c, front, x);
      CountSelected(q, c, front, x);
    }
  }

  lemma CountSelected<T>(p: T -> bool, c: T -> bool, rows: seq<T>, x: T)
    ensures |Filter(c, Filter(p, rows + [x]))| == |Filter(c, Filter(p, rows))| + (if p(x) && c(x) then 1 else 0)
  {
    FilterSnoc(p, rows, x);
    FilterSnoc(c, Filter(p, rows), x);
  }

  /** Rows of the device whose local day lies in [lo, hi) and has a daily summary. */
  function SummarisedSignal(summaries: seq<Summary>, device: string, lo: int, hi: int, tz: int): Signal -> bool {
    (r: Signal) => r.device == device && lo <= DayOf(r.at, tz) < hi && HasSummary(summaries, device, Daily, DayOf(r.at, tz))
  }
  function SummarisedEvent(summaries: seq<Summary>, device: string, lo: int, hi: int, tz: int): Event -> bool {
    (e: Event) => e.device == device && lo <= DayOf(e.at, tz) < hi && HasSummary(summaries, device, Daily, DayOf(e.at, tz))
  }

  lemma {:induction false} DailyRowUnique(summaries: seq<Summary>, device: string, date: int, tz: int)
    requires WellFormed(summaries, tz)
    ensures var found := Filter(DailyOn(device, date), summaries);
            if HasSummary(summaries, device, Daily, date) then |found| == 1 && found[0] in summaries
              && found[0].kind == Daily && found[0].device == device && found[0].date == date
            else found == []
  {
    if |summaries| > 0 {
      var front, last := summaries[..|summaries| - 1], summaries[|summaries| - 1];
      assert summaries == front + [last];
      DailyRowUnique(front, device, date, tz);
    }
  }

  /** The loop's totals over days [lo, hi), read from stored payloads, are those of the raw history. */
  ghost predicate TotalsMatch(t: WeekTotals, signals: seq<Signal>, events: seq<Event>) {
    && t.foodGrams == Sum(Values(signals, 117)) && t.meals == Count(signals, 117)
    && t.treatGrams == Sum(Values(signals, 125)) && t.treats == Count(signals, 125)
    && t.high == |Filter(SevereEvent(), events)|
    && t.overdue == |Filter(EventOfKind("feeding_overdue"), events)|
    && t.offline == |Filter(EventOfKind("device_offline"), events)|
  }

  /** The food and treat figures of `all` are those of `part` plus those of `day`. */
  ghost predicate SignalsSplit(all: seq<Signal>, part: seq<Signal>, day: seq<Signal>) {
    && Sum(Values(all, 117)) == Sum(Values(part, 117)) + Sum(Values(day, 117))
    && Sum(Values(all, 125)) == Sum(Values(part, 125)) + Sum(Values(day, 125))
    && Count(all, 117) == Count(part, 117) + Count(day, 117)
    && Count(all, 125) == Count(part, 125) + Count(day, 125)
  }

  ghost predicate EventsSplit(all: seq<Event>, part: seq<Event>, day: seq<Event>) {
    && |Filter(SevereEvent(), all)| == |Filter(SevereEvent(), part)| + |Filter(SevereEvent(), day)|
    && |Filter(EventOfKind("feeding_overdue"), all)|
         == |Filter(EventOfKind("feeding_overdue"), part)| + |Filter(EventOfKind("feeding_overdue"), day)|
    && |Filter(EventOfKind("device_offline"), all)|
         == |Filter(EventOfKind("device_offline"), part)| + |Filter(EventOfKind("device_offline"), day)|
  }

  lemma AddExactDay(t: WeekTotals, s: Summary, part: seq<Signal>, evPart: seq<Event>,
                    day: seq<Signal>, evDay: seq<Event>, all: seq<Signal>, evAll: seq<Event>)
    requires TotalsMatch(t, part, evPart)
    requires s.payload == DailyBody(DailyPayload(Some(AggregateSignals(day)), AggregateEvents(evDay)))
    requires SignalsSplit(all, part, day) && EventsSplit(evAll, evPart, evDay)
    ensures TotalsMatch(AddDay(t, s), all, evAll)
  {
  }

  lemma SplitSignals(rows: seq<Signal>, sums: seq<Summary>, device: string, lo: int, hi: int, tz: int)
    requires lo < hi && HasSummary(sums, device, Daily, hi - 1)
    ensures SignalsSplit(Filter(SummarisedSignal(sums, device, lo, hi, tz), rows),
                         Filter(SummarisedSignal(sums, device, lo, hi - 1, tz), rows),
                         DaySignals(rows, device, hi - 1, tz))
  {
    var p, q, both := SummarisedSignal(sums, device, lo, hi - 1, tz),
                      SignalIn(device, DayStart(hi - 1, tz), DayStart(hi, tz)),
                      SummarisedSignal(sums, device, lo, hi, tz);
    forall r | r in rows ensures (both(r) <==> p(r) || q(r)) && !(p(r) && q(r)) {
      DayWindow(r.at, hi - 1, tz);
    }
    SumSplits(p, q, both, rows, 117);
    SumSplits(p, q, both, rows, 125);
  }

  lemma SplitEvents(rows: seq<Event>, sums: seq<Summary>, device: string, lo: int, hi: int, tz: int)
    requires lo < hi && HasSummary(sums, device, Daily, hi - 1)
    ensures EventsSplit(Filter(SummarisedEvent(sums, device, lo, hi, tz), rows),
                        Filter(SummarisedEvent(sums, device, lo, hi - 1, tz), rows),
                        DayEvents(rows, device, hi - 1, tz))
  {
    var p, q, both := SummarisedEvent(sums, device, lo, hi - 1, tz),
                      EventIn(device, DayStart(hi - 1, tz), DayStart(hi, tz)),
                      SummarisedEvent(sums, device, lo, hi, tz);
    forall e | e in rows ensures (both(e) <==> p(e) || q(e)) && !(p(e) && q(e)) {
      DayWindow(e.at, hi - 1, tz);
    }
    CountSplits(p, q, both, SevereEvent(), rows);
    CountSplits(p, q, both, EventOfKind("feeding_overdue"), rows);
    CountSplits(p, q, both, EventOfKind("device_offline"), rows);
  }

  lemma DailyRowsStep(sums: seq<Summary>, device: string, lo: int, hi: int, tz: int)
    requires WellFormed(sums, tz) && lo < hi
    ensures var before, found := WeekFold(DailyRows(sums, device, lo, hi - 1)), Filter(DailyOn(device, hi - 1), sums);
            && (found != [] <==> HasSummary(sums, device, Daily, hi - 1))
            && WeekFold(DailyRows(sums, device, lo, hi)) == if found != [] then AddDay(before, found[0]) else before
  {
    DailyRowUnique(sums, device, hi - 1, tz);
    var rows, found := DailyRows(sums, device, lo, hi - 1), Filter(DailyOn(device, hi - 1), sums);
    if found == [] {
      assert rows + found == rows;
    } else {
      assert found == [found[0]];
      assert (rows + found)[..|rows + found| - 1] == rows;
    }
  }

  /** The weekly loop over any range of days adds up exactly the history rows of the days that have a summary. */
  lemma {:induction false} WeekFoldMatchesHistory(run: seq<Op>, device: string, lo: int, hi: int, tz: int)
    requires Disciplined(run, tz)
    ensures var sums := Final(run, tz).summaries;
            TotalsMatch(WeekFold(DailyRows(sums, device, lo, hi)),
                        Filter(SummarisedSignal(sums, device, lo, hi, tz), AllSignals(run)),
                        Filter(SummarisedEvent(sums, device, lo, hi, tz), AllEvents(run)))
    decreases hi - lo
  {
    var sums := Final(run, tz).summaries;
    var all := Filter(SummarisedSignal(sums, device, lo, hi, tz), AllSignals(run));
    var evAll := Filter(SummarisedEvent(sums, device, lo, hi, tz), AllEvents(run));
    if lo >= hi {
      FilterEmpty(SummarisedSignal(sums, device, lo, hi, tz), AllSignals(run));
      FilterEmpty(SummarisedEvent(sums, device, lo, hi, tz), AllEvents(run));
    } else {
      var date := hi - 1;
      var part := Filter(SummarisedSignal(sums, device, lo, date, tz), AllSignals(run));
      var evPart := Filter(SummarisedEvent(sums, device, lo, date, tz), AllEvents(run));
      WeekFoldMatchesHistory(run, device, lo, date, tz);
      SummariesWellFormed(run, tz);
      DailyRowsStep(sums, device, lo, hi, tz);
      if HasSummary(sums, device, Daily, date) {
        DailyRowUnique(sums, device, date, tz);
        Lossless(run, tz);
        SplitSignals(AllSignals(run), sums, device, lo, hi, tz);
        SplitEvents(AllEvents(run), sums, device, lo, hi, tz);
        AddExactDay(WeekFold(DailyRows(sums, device, lo, date)), Filter(DailyOn(device, date), sums)[0], part, evPart,
                    DaySignals(AllSignals(run), device, date, tz), DayEvents(AllEvents(run), device, date, tz), all, evAll);
      } else {
        FilterSame(SummarisedSignal(sums, device, lo, date, tz), SummarisedSignal(sums, device, lo, hi, tz), AllSignals(run));
        FilterSame(SummarisedEvent(sums, device, lo, date, tz), SummarisedEvent(sums, device, lo, hi, tz), AllEvents(run));
      }
    }
  }

  lemma DayRange(at: int, lo: int, hi: int, tz: int)
    ensures DayStart(lo, tz) <= at < DayStart(hi, tz) <==> lo <= DayOf(at, tz) < hi
  {
  }

  lemma DaysWithOneMore(summaries: seq<Summary>, device: string, lo: int, hi: int)
    requires lo < hi
    ensures |DaysWith(summaries, device, lo, hi)|
            == |DaysWith(summaries, device, lo, hi - 1)| + (if HasSummary(summaries, device, Daily, hi - 1) then 1 else 0)
  {
    var before := DaysWith(summaries, device, lo, hi - 1);
    if HasSummary(summaries, device, Daily, hi - 1) {
      assert DaysWith(summaries, device, lo, hi) == before + {hi - 1};
    } else {
      assert DaysWith(summaries, device, lo, hi) == before;
    }
  }

  /** The loop counts each summarised day once, as a row and as a day with data, and nothing else. */
  lemma {:induction false} DaysCounted(summaries: seq<Summary>, device: string, lo: int, hi: int, tz: int)
    requires WellFormed(summaries, tz)
    ensures var t := WeekFold(DailyRows(summaries, device, lo, hi)); t.dailyCount == t.daysWithData == |DaysWith(summaries, device, lo, hi)|
    decreases hi - lo
  {
    if lo < hi {
      DaysCounted(summaries, device, lo, hi - 1, tz);
      DailyRowUnique(summaries, device, hi - 1, tz);
      DailyRowsStep(summaries, device, lo, hi, tz);
      DaysWithOneMore(summaries, device, lo, hi);
    } else {
      assert DaysWith(summaries, device, lo, hi) == {};
    }
  }

  lemma RowsOfDays(rows: seq<Signal>, evs: seq<Event>, sums: seq<Summary>, device: string, lo: int, hi: int, tz: int)
    ensures Filter(SummarisedSignal(sums, device, lo, hi, tz), rows) == Filter(InDays(device, DaysWith(sums, device, lo, hi), tz), rows)
    ensures Filter(SummarisedEvent(sums, device, lo, hi, tz), evs) == Filter(EventInDays(device, DaysWith(sums, device, lo, hi), tz), evs)
  {
    FilterSame(SummarisedSignal(sums, device, lo, hi, tz), InDays(device, DaysWith(sums, device, lo, hi), tz), rows);
    FilterSame(SummarisedEvent(sums, device, lo, hi, tz), EventInDays(device, DaysWith(sums, device, lo, hi), tz), evs);
  }

  lemma BodyExact(t: WeekTotals, signals: seq<Signal>, events: seq<Event>)
    requires TotalsMatch(t, signals, events)
    ensures WeekExact(WeeklyBodyOf(t), signals, events)
  {
  }

  /**
   * The payload a weekly job computes at some point of a disciplined run, after any amount of pruning, covers exactly
   * the days of its week that are summarised then: its totals are those of their complete raw history.
   */
  lemma WeeklyMatchesHistory(run: seq<Op>, device: string, today: int, tz: int)
    requires Disciplined(run, tz)
    ensures var sums := Final(run, tz).summaries;
            Covers(run, device, today - 7, WeeklyBodyOf(WeekFold(DailyRows(sums, device, today - 7, today))),
                   DaysWith(sums, device, today - 7, today), tz)
  {
    var sums, lo := Final(run, tz).summaries, today - 7;
    var t, days := WeekFold(DailyRows(sums, device, lo, today)), DaysWith(sums, device, lo, today);
    SummariesWellFormed(run, tz);
    DaysCounted(sums, device, lo, today, tz);
    WeekFoldMatchesHistory(run, device, lo, today, tz);
    RowsOfDays(AllSignals(run), AllEvents(run), sums, device, lo, today, tz);
    BodyExact(t, Filter(InDays(device, days, tz), AllSignals(run)), Filter(EventInDays(device, days, tz), AllEvents(run)));
  }

  lemma ReadNow(run: seq<Op>, device: string, lo: int, hi: int, tz: int)
    requires hi == lo + 7
    ensures ReadAt(run, device, lo, DaysWith(Final(run, tz).summaries, device, lo, hi), tz)
  {
    assert run[..|run|] == run;
  }

  lemma CoversIsSound(run: seq<Op>, device: string, lo: int, w: WeeklyPayload, days: set<int>, tz: int)
    requires Covers(run, device, lo, w, days, tz) && ReadAt(run, device, lo, days, tz)
    ensures WeekSound(run, device, lo, w, tz)
  {
  }

  lemma WeekRowsSound(run: seq<Op>, device: string, today: int, rows: seq<Summary>, tz: int)
    requires Disciplined(run, tz) && rows == DailyRows(Final(run, tz).summaries, device, today - 7, today)
    ensures WeekSound(run, device, today - 7, WeeklyBodyOf(WeekFold(rows)), tz)
  {
    WeeklyMatchesHistory(run, device, today, tz);
    ReadNow(run, device, today - 7, today, tz);
    var days := DaysWith(Final(run, tz).summaries, device, today - 7, today);
    CoversIsSound(run, device, today - 7, WeeklyBodyOf(WeekFold(rows)), days, tz);
  }

  // ----- Stored weekly rows stay exact -----

  lemma SummaryStays(front: seq<Op>, op: Op, device: string, date: int, tz: int)
    requires HasSummary(Final(front, tz).summaries, device, Daily, date)
    ensures HasSummary(Final(front + [op], tz).summaries, device, Daily, date)
  {
    SummariesPersist(front, [op], tz);
    var s :| s in Final(front, tz).summaries && s.device == device && s.kind == Daily && s.date == date;
    assert s in Final(front + [op], tz).summaries;
  }

  /** A row that arrives in time is not of a summarised day. */
  lemma LateRowOutside(sums: seq<Summary>, device: string, at: int, days: set<int>, tz: int)
    requires WellFormed(sums, tz) && Summarised(sums, device, days) && !Covered(sums, device, at)
    ensures DayOf(at, tz) !in days
  {
    CoveredIffSummarised(sums, device, at, tz);
  }

  /** Summarised days get no more rows in a disciplined run, and stay summarised. */
  lemma SummarisedDaysClosed(front: seq<Op>, op: Op, device: string, days: set<int>, tz: int)
    requires Timely(front, op, tz) && Summarised(Final(front, tz).summaries, device, days)
    ensures Filter(InDays(device, days, tz), AllSignals(front + [op])) == Filter(InDays(device, days, tz), AllSignals(front))
    ensures Filter(EventInDays(device, days, tz), AllEvents(front + [op])) == Filter(EventInDays(device, days, tz), AllEvents(front))
    ensures Summarised(Final(front + [op], tz).summaries, device, days)
  {
    var sums := Final(front, tz).summaries;
    assert (front + [op])[..|front|] == front;
    SummariesWellFormed(front, tz);
    forall date | date in days ensures HasSummary(Final(front + [op], tz).summaries, device, Daily, date) {
      SummaryStays(front, op, device, date, tz);
    }
    match op
    case InsertSignal(r) =>
      if r.device == device {
        LateRowOutside(sums, device, r.at, days, tz);
      }
      FilterSnoc(InDays(device, days, tz), AllSignals(front), r);
    case InsertEvent(e) =>
      if e.device == device {
        LateRowOutside(sums, device, e.at, days, tz);
      }
      FilterSnoc(EventInDays(device, days, tz), AllEvents(front), e);
    case _ =>
  }

  lemma CoversStays(front: seq<Op>, op: Op, device: string, lo: int, w: WeeklyPayload, days: set<int>, tz: int)
    requires Timely(front, op, tz) && Covers(front, device, lo, w, days, tz)
    ensures Covers(front + [op], device, lo, w, days, tz)
  {
    SummarisedDaysClosed(front, op, device, days, tz);
  }

  lemma ReadStays(front: seq<Op>, op: Op, device: string, lo: int, days: set<int>, tz: int)
    requires ReadAt(front, device, lo, days, tz)
    ensures ReadAt(front + [op], device, lo, days, tz)
  {
    var i: nat :| i <= |front| && days == DaysWith(Final(front[..i], tz).summaries, device, lo, lo + 7);
    assert (front + [op])[..i] == front[..i];
  }

  lemma WeekStays(front: seq<Op>, op: Op, device: string, lo: int, w: WeeklyPayload, tz: int)
    requires Timely(front, op, tz) && WeekSound(front, device, lo, w, tz)
    ensures WeekSound(front + [op], device, lo, w, tz)
  {
    var days :| Covers(front, device, lo, w, days, tz) && ReadAt(front, device, lo, days, tz);
    CoversStays(front, op, device, lo, w, days, tz);
    ReadStays(front, op, device, lo, days, tz);
  }

  lemma {:induction false} SmallerSubset<T>(a: set<T>, b: set<T>)
    requires a <= b
    ensures |a| <= |b|
  {
    if |a| > 0 {
      var x :| x in a;
      SmallerSubset(a - {x}, b - {x});
    }
  }

  function Days(lo: int, n: nat): (days: set<int>)
    ensures |days| == n && forall date :: date in days <==> lo <= date < lo + n
  {
    if n == 0 then {} else Days(lo, n - 1) + {lo + n - 1}
  }

  /** As many days of a range as it has are all its days. */
  lemma AllDays(days: set<int>, lo: int, n: nat, date: int)
    requires (forall d :: d in days ==> lo <= d < lo + n) && |days| == n && lo <= date < lo + n
    ensures date in days
  {
    if date !in days {
      SmallerSubset(days, Days(lo, n) - {date});
    }
  }

  /** A sound payload that counts seven days holds the totals of its whole week. */
  lemma SevenDaysFull(run: seq<Op>, device: string, lo: int, w: WeeklyPayload, tz: int)
    requires WeekSound(run, device, lo, w, tz)
    ensures FullWeekExact(run, device, lo, w, tz)
  {
    var days :| Covers(run, device, lo, w, days, tz) && ReadAt(run, device, lo, days, tz);
    if w.dailyCount == 7 {
      forall date | lo <= date < lo + 7 ensures date in days && HasSummary(Final(run, tz).summaries, device, Daily, date) {
        AllDays(days, lo, |days|, date);
      }
      forall r | r in AllSignals(run)
        ensures InDays(device, days, tz)(r) == SignalIn(device, DayStart(lo, tz), DayStart(lo + 7, tz))(r)
      {
        DayRange(r.at, lo, lo + 7, tz);
      }
      FilterSame(InDays(device, days, tz), SignalIn(device, DayStart(lo, tz), DayStart(lo + 7, tz)), AllSignals(run));
      forall e | e in AllEvents(run)
        ensures EventInDays(device, days, tz)(e) == EventIn(device, DayStart(lo, tz), DayStart(lo + 7, tz))(e)
      {
        DayRange(e.at, lo, lo + 7, tz);
      }
      FilterSame(EventInDays(device, days, tz), EventIn(device, DayStart(lo, tz), DayStart(lo + 7, tz)), AllEvents(run));
    }
  }

  /** How a weekly row gets into the table. */
  ghost predicate NewWeek(db: Db, op: Op, s: Summary, tz: int) {
    || (op.MakeWeekly? && s == WeeklySummaryOf(op.device, DayOf(op.at, tz), tz,
          WeeklyBodyOf(WeekFold(DailyRows(db.summaries, op.device, DayOf(op.at, tz) - 7, DayOf(op.at, tz))))))
    || (op.StoreWeekly? && !HasSummary(db.summaries, op.device, Weekly, op.today - 7)
        && s == WeeklySummaryOf(op.device, op.today, tz, op.weeklyPayload))
  }

  lemma NewWeekRow(db: Db, op: Op, s: Summary, tz: int)
    requires s.kind == Weekly && s !in db.summaries && s in Step(db, op, tz).summaries
    ensures NewWeek(db, op, s, tz)
  {
  }

  lemma MadeWeekSound(front: seq<Op>, op: Op, s: Summary, today: int, rows: seq<Summary>, tz: int)
    requires Disciplined(front, tz) && op.MakeWeekly? && NewWeek(Final(front, tz), op, s, tz)
    requires today == DayOf(op.at, tz) && rows == DailyRows(Final(front, tz).summaries, op.device, today - 7, today)
    ensures s.payload.WeeklyBody? && WeekSound(front, s.device, s.date, s.payload.weekly, tz)
  {
    assert s == WeeklySummaryOf(op.device, today, tz, WeeklyBodyOf(WeekFold(rows)));
    WeekRowsSound(front, op.device, today, rows, tz);
  }

  lemma StoredWeekSound(front: seq<Op>, op: Op, s: Summary, tz: int)
    requires op.StoreWeekly? && Timely(front, op, tz) && !HasSummary(Final(front, tz).summaries, op.device, Weekly, op.today - 7)
    requires s == WeeklySummaryOf(op.device, op.today, tz, op.weeklyPayload)
    ensures s.payload.WeeklyBody? && WeekSound(front, s.device, s.date, s.payload.weekly, tz)
  {
  }

  lemma NewWeekSound(front: seq<Op>, op: Op, s: Summary, tz: int)
    requires Disciplined(front, tz) && Timely(front, op, tz) && NewWeek(Final(front, tz), op, s, tz)
    ensures s.payload.WeeklyBody? && WeekSound(front, s.device, s.date, s.payload.weekly, tz)
  {
    if op.MakeWeekly? {
      var today := DayOf(op.at, tz);
      MadeWeekSound(front, op, s, today, DailyRows(Final(front, tz).summaries, op.device, today - 7, today), tz);
    } else {
      StoredWeekSound(front, op, s, tz);
    }
  }

  /**
   * Every stored weekly payload covers exactly the days of its week that were summarised when its job read them: it
   * counts them, and its totals are those of every row the whole disciplined run ever inserts for them, rows inserted
   * after the weekly job included; seven are the whole week.
   */
  lemma {:induction false} WeeklyLossless(run: seq<Op>, tz: int)
    requires Disciplined(run, tz)
    ensures forall s :: s in Final(run, tz).summaries && s.kind == Weekly ==>
              s.payload.WeeklyBody? && WeekSound(run, s.device, s.date, s.payload.weekly, tz)
              && FullWeekExact(run, s.device, s.date, s.payload.weekly, tz)
  {
    if |run| > 0 {
      var front, op := run[..|run| - 1], run[|run| - 1];
      WeeklyLossless(front, tz);
      LastOp(run);
      forall s | s in Final(run, tz).summaries && s.kind == Weekly
        ensures s.payload.WeeklyBody? && WeekSound(run, s.device, s.date, s.payload.weekly, tz)
                && FullWeekExact(run, s.device, s.date, s.payload.weekly, tz)
      {
        if s !in Final(front, tz).summaries {
          NewWeekRow(Final(front, tz), op, s, tz);
          NewWeekSound(front, op, s, tz);
        }
        WeekStays(front, op, s.device, s.date, s.payload.weekly, tz);
        SevenDaysFull(run, s.device, s.date, s.payload.weekly, tz);
      }
    }
  }

  // ----- Averages -----

  function TempOf(): SignalTotals -> Option<real> { (t: SignalTotals) => t.tempAvg }
  function BatteryOf(): SignalTotals -> Option<real> { (t: SignalTotals) => t.batteryMin }

  /** The figures of one field that are present in the daily payloads. */
  function Figures(rows: seq<Summary>, pick: SignalTotals -> Option<real>): seq<real> {
    if |rows| == 0 then []
    else
      var before, last := Figures(rows[..|rows| - 1], pick), rows[|rows| - 1];
      if last.payload.DailyBody? && last.payload.daily.signals.Some? && pick(last.payload.daily.signals.value).Some?
      then before + [pick(last.payload.daily.signals.value).value] else before
  }

  lemma SumAdds(xs: seq<real>, x: real)
    ensures Sum(xs + [x]) == Sum(xs) + x
  {
    assert (xs + [x])[..|xs|] == xs;
  }

  lemma {:induction false} FiguresSummed(rows: seq<Summary>)
    ensures WeekFold(rows).sumTemp == Sum(Figures(rows, TempOf())) && |Figures(rows, TempOf())| <= WeekFold(rows).daysWithData
    ensures WeekFold(rows).sumBattery == Sum(Figures(rows, BatteryOf())) && |Figures(rows, BatteryOf())| <= WeekFold(rows).daysWithData
  {
    if |rows| > 0 {
      var front, p := rows[..|rows| - 1], rows[|rows| - 1].payload;
      FiguresSummed(front);
      if p.DailyBody? && p.daily.signals.Some? {
        SumAdds(Figures(front, TempOf()), OrZero(p.daily.signals.value.tempAvg));
        SumAdds(Figures(front, BatteryOf()), OrZero(p.daily.signals.value.batteryMin));
      }
    }
  }

  /** Dividing the sum of some figures by a number of days gives their mean exactly in these cases. */
  predicate DividesRight(xs: seq<real>, days: nat) {
    days == 0 || (|xs| > 0 && (|xs| == days || Sum(xs) == 0.0))
  }

  lemma AverageIff(xs: seq<real>, days: nat)
    requires |xs| <= days
    ensures (if days > 0 then Some(Sum(xs) / days as real) else None) == Mean(xs) <==> DividesRight(xs, days)
  {
    if |xs| > 0 {
      QuotientsEqual(Sum(xs), days as real, |xs| as real);
    }
  }

  /**
   * The weekly averages are the means of the available daily figures if and only if there is no day with data, or
   * some figure is present and either every day with data has one or they sum to 0.
   */
  lemma WeeklyAverageIff(rows: seq<Summary>)
    ensures WeeklyBodyOf(WeekFold(rows)).avgTemp == Mean(Figures(rows, TempOf()))
            <==> DividesRight(Figures(rows, TempOf()), WeekFold(rows).daysWithData)
    ensures WeeklyBodyOf(WeekFold(rows)).avgBattery == Mean(Figures(rows, BatteryOf()))
            <==> DividesRight(Figures(rows, BatteryOf()), WeekFold(rows).daysWithData)
  {
    FiguresSummed(rows);
    AverageIff(Figures(rows, TempOf()), WeekFold(rows).daysWithData);
    AverageIff(Figures(rows, BatteryOf()), WeekFold(rows).daysWithData);
  }

  lemma QuotientsEqual(x: real, a: real, b: real)
    requires a > 0.0 && b > 0.0
    ensures x / a == x / b <==> (a == b || x == 0.0)
  {
    if x / a == x / b {
      assert x == (x / a) * a && x == (x / a) * b;
      assert (x / a) * (a - b) == 0.0;
    }
  }

  // ----- A week whose averages are wrong -----

  /** The n days from `lo` on are summarised, one job after the other. */
  function Dailies(device: string, at: int, lo: int, n: nat): seq<Op> {
    if n == 0 then [] else Dailies(device, at, lo, n - 1) + [MakeDaily(device, at, Some(lo + (n - 1)), NO_FAULTS)]
  }

  /** After the inserts `pre`, the first n days of the week before `at` are summarised and the weekly job runs. */
  function WeekRun(pre: seq<Op>, device: string, at: int, tz: int, n: nat): seq<Op> {
    pre + Dailies(device, at, DayOf(at, tz) - 7, n) + [MakeWeekly(device, at, NO_FAULTS)]
  }

  /** The rows are the daily summaries of the days from `lo` on, computed from the same signals and events. */
  ghost predicate SummarisedFrom(rows: seq<Summary>, db: Db, device: string, lo: int, tz: int) {
    forall i :: 0 <= i < |rows| ==> rows[i] == DailySummaryOf(device, lo + i, tz, DailyBodyOf(db, device, lo + i, tz, true, true))
  }

  /** Each day has its one row. */
  lemma {:induction false} RowsAt(rows: seq<Summary>, db: Db, device: string, lo: int, tz: int, k: nat)
    requires SummarisedFrom(rows, db, device, lo, tz)
    ensures Filter(DailyOn(device, lo + k), rows) == if k < |rows| then [rows[k]] else []
  {
    if |rows| > 0 {
      var front, last := rows[..|rows| - 1], rows[|rows| - 1];
      RowsAt(front, db, device, lo, tz, k);
      assert last.date == lo + |front|;
    }
  }

  lemma DailyJobAppends(run: seq<Op>, device: string, at: int, date: int, tz: int)
    requires device != "" && !HasSummary(Final(run, tz).summaries, device, Daily, date)
    ensures var db, after := Final(run, tz), run + [MakeDaily(device, at, Some(date), NO_FAULTS)];
            && Final(after, tz)
               == db.(summaries := db.summaries + [DailySummaryOf(device, date, tz, DailyBodyOf(db, device, date, tz, true, true))])
            && AllSignals(after) == AllSignals(run)
  {
    var db, op := Final(run, tz), MakeDaily(device, at, Some(date), NO_FAULTS);
    assert (run + [op])[..|run|] == run;
    assert Step(db, op, tz) == DailyStep(db, device, date, tz, NO_FAULTS);
  }

  lemma RunSnoc(run: seq<Op>, op: Op, tz: int)
    ensures Final(run + [op], tz) == Step(Final(run, tz), op, tz)
    ensures AllSignals(run + [op]) == if op.InsertSignal? then AllSignals(run) + [op.signal] else AllSignals(run)
  {
    assert (run + [op])[..|run|] == run;
  }

  ghost predicate DailiesDone(pre: seq<Op>, run: seq<Op>, device: string, lo: int, tz: int, n: nat) {
    var db, now := Final(pre, tz), Final(run, tz);
    && now.signals == db.signals && now.events == db.events && |now.summaries| == n
    && SummarisedFrom(now.summaries, db, device, lo, tz) && AllSignals(run) == AllSignals(pre)
  }

  /** The day after the first ones has no summary yet. */
  lemma DayStillOpen(rows: seq<Summary>, db: Db, device: string, lo: int, tz: int, date: int)
    requires SummarisedFrom(rows, db, device, lo, tz) && date == lo + |rows|
    ensures !HasSummary(rows, device, Daily, date)
  {
  }

  lemma OneMoreRow(rows: seq<Summary>, db: Db, now: Db, device: string, lo: int, tz: int, date: int)
    requires SummarisedFrom(rows, db, device, lo, tz) && now.signals == db.signals && now.events == db.events && date == lo + |rows|
    ensures SummarisedFrom(rows + [DailySummaryOf(device, date, tz, DailyBodyOf(now, device, date, tz, true, true))], db, device, lo, tz)
  {
  }

  lemma NextDone(pre: seq<Op>, run: seq<Op>, whole: seq<Op>, device: string, at: int, lo: int, tz: int, k: nat, n: nat)
    requires device != "" && DailiesDone(pre, run, device, lo, tz, k)
    requires n == k + 1 && whole == run + [MakeDaily(device, at, Some(lo + k), NO_FAULTS)]
    ensures DailiesDone(pre, whole, device, lo, tz, n)
  {
    var db, now, date := Final(pre, tz), Final(run, tz), lo + k;
    DayStillOpen(now.summaries, db, device, lo, tz, date);
    DailyJobAppends(run, device, at, date, tz);
    OneMoreRow(now.summaries, db, now, device, lo, tz, date);
  }

  lemma NoneDone(pre: seq<Op>, device: string, at: int, lo: int, tz: int, n: nat)
    requires Final(pre, tz).summaries == [] && n == 0
    ensures DailiesDone(pre, pre + Dailies(device, at, lo, n), device, lo, tz, n)
  {
    assert pre + Dailies(device, at, lo, n) == pre;
  }

  lemma OneMoreDone(pre: seq<Op>, device: string, at: int, lo: int, tz: int, k: nat)
    requires device != "" && DailiesDone(pre, pre + Dailies(device, at, lo, k), device, lo, tz, k)
    ensures DailiesDone(pre, pre + Dailies(device, at, lo, k + 1), device, lo, tz, k + 1)
  {
    DailiesSnoc(pre, device, at, lo, k);
    NextDone(pre, pre + Dailies(device, at, lo, k), pre + Dailies(device, at, lo, k + 1), device, at, lo, tz, k, k + 1);
  }

  lemma {:induction false} DailiesRun(pre: seq<Op>, device: string, at: int, lo: int, tz: int, n: nat)
    requires device != "" && Final(pre, tz).summaries == []
    ensures DailiesDone(pre, pre + Dailies(device, at, lo, n), device, lo, tz, n)
    decreases n
  {
    if n == 0 {
      NoneDone(pre, device, at, lo, tz, n);
    } else {
      DailiesRun(pre, device, at, lo, tz, n - 1);
      OneMoreDone(pre, device, at, lo, tz, n - 1);
    }
  }

  lemma DailiesSnoc(pre: seq<Op>, device: string, at: int, lo: int, k: nat)
    ensures pre + Dailies(device, at, lo, k + 1) == pre + Dailies(device, at, lo, k) + [MakeDaily(device, at, Some(lo + k), NO_FAULTS)]
  {
  }

  lemma LastDay(sums: seq<Summary>, device: string, lo: int, m: nat, front: seq<Summary>, day: seq<Summary>)
    requires m > 0 && front == DailyRows(sums, device, lo, lo + (m - 1)) && day == Filter(DailyOn(device, lo + (m - 1)), sums)
    ensures DailyRows(sums, device, lo, lo + m) == front + day
  {
  }

  function FirstRows(rows: seq<Summary>, m: nat): seq<Summary> { rows[..if m < |rows| then m else |rows|] }

  function RowAt(rows: seq<Summary>, k: nat): seq<Summary> { if k < |rows| then [rows[k]] else [] }

  lemma OneMoreFirst(rows: seq<Summary>, m: nat)
    ensures FirstRows(rows, m + 1) == FirstRows(rows, m) + RowAt(rows, m)
  {
  }

  /** The weekly SELECT finds these rows, in order. */
  lemma {:induction false} WeekReads(rows: seq<Summary>, db: Db, device: string, lo: int, tz: int, m: nat)
    requires SummarisedFrom(rows, db, device, lo, tz)
    ensures DailyRows(rows, device, lo, lo + m) == FirstRows(rows, m)
  {
    if m > 0 {
      WeekReads(rows, db, device, lo, tz, m - 1);
      RowsAt(rows, db, device, lo, tz, m - 1);
      LastDay(rows, device, lo, m, FirstRows(rows, m - 1), RowAt(rows, m - 1));
      OneMoreFirst(rows, m - 1);
    }
  }

  lemma WeekReadsAll(db: Db, now: Db, device: string, at: int, lo: int, tz: int, m: nat)
    requires m == 7 && lo == DayOf(at, tz) - m && |now.summaries| <= m && SummarisedFrom(now.summaries, db, device, lo, tz)
    ensures WeekRows(now, device, at, tz, true) == now.summaries && !HasSummary(now.summaries, device, Weekly, lo)
  {
    WeekReads(now.summaries, db, device, lo, tz, m);
  }

  lemma WeeklyJobAppends(run: seq<Op>, db: Db, device: string, at: int, tz: int)
    requires device != "" && 0 < |Final(run, tz).summaries| <= 7
    requires SummarisedFrom(Final(run, tz).summaries, db, device, DayOf(at, tz) - 7, tz)
    ensures var after := run + [MakeWeekly(device, at, NO_FAULTS)];
            && WeeklySummaryOf(device, DayOf(at, tz), tz, WeeklyBodyOf(WeekFold(Final(run, tz).summaries))) in Final(after, tz).summaries
            && AllSignals(after) == AllSignals(run)
  {
    var now, op := Final(run, tz), MakeWeekly(device, at, NO_FAULTS);
    WeekReadsAll(db, now, device, at, DayOf(at, tz) - 7, tz, 7);
    WeeklyStepAppends(now, device, at, tz);
    RunSnoc(run, op, tz);
  }

  lemma WeeklyStepAppends(db: Db, device: string, at: int, tz: int)
    requires device != "" && db.summaries != [] && !HasSummary(db.summaries, device, Weekly, DayOf(at, tz) - 7)
    requires WeekRows(db, device, at, tz, true) == db.summaries
    ensures WeeklySummaryOf(device, DayOf(at, tz), tz, WeeklyBodyOf(WeekFold(db.summaries)))
            in Step(db, MakeWeekly(device, at, NO_FAULTS), tz).summaries
  {
  }

  /** The average temperature of a day's rows, 0 without one. */
  function WarmthOf(rows: seq<Signal>, device: string, date: int, tz: int): real {
    OrZero(Mean(Values(DaySignals(rows, device, date, tz), 46)))
  }

  lemma DayAdded(t: WeekTotals, row: Summary)
    requires row.payload.DailyBody? && row.payload.daily.signals.Some?
    ensures var u := AddDay(t, row);
            u.daysWithData == t.daysWithData + 1 && u.sumTemp == t.sumTemp + OrZero(row.payload.daily.signals.value.tempAvg)
  {
  }

  /** The loop over rows of which only the first has a temperature. */
  lemma {:induction false} RowsFold(rows: seq<Summary>, db: Db, device: string, lo: int, tz: int, warmth: real)
    requires SummarisedFrom(rows, db, device, lo, tz) && warmth == WarmthOf(db.signals, device, lo, tz)
    requires forall date :: date != lo ==> WarmthOf(db.signals, device, date, tz) == 0.0
    ensures var t := WeekFold(rows); t.daysWithData == |rows| && t.sumTemp == if |rows| == 0 then 0.0 else warmth
  {
    if |rows| > 0 {
      var front, last := rows[..|rows| - 1], rows[|rows| - 1];
      RowsFold(front, db, device, lo, tz, warmth);
      DayAdded(WeekFold(front), last);
      assert OrZero(last.payload.daily.signals.value.tempAvg) == WarmthOf(db.signals, device, lo + |front|, tz);
    }
  }

  /** The run stores a weekly row over n days with the given average temperature. */
  ghost predicate StoresAverage(run: seq<Op>, tz: int, n: nat, average: real) {
    exists s :: s in Final(run, tz).summaries && s.kind == Weekly && s.payload.WeeklyBody?
      && s.payload.weekly.daysWithData == n && s.payload.weekly.avgTemp == Some(average)
  }

  /** A week of which only the first day has a temperature is stored with that temperature divided by the summarised days. */
  lemma FirstDayDivided(pre: seq<Op>, device: string, at: int, tz: int, n: nat, warmth: real)
    requires device != "" && Final(pre, tz).summaries == [] && 0 < n <= 7
    requires warmth == WarmthOf(Final(pre, tz).signals, device, DayOf(at, tz) - 7, tz)
    requires forall date :: date != DayOf(at, tz) - 7 ==> WarmthOf(Final(pre, tz).signals, device, date, tz) == 0.0
    ensures AllSignals(WeekRun(pre, device, at, tz, n)) == AllSignals(pre)
    ensures StoresAverage(WeekRun(pre, device, at, tz, n), tz, n, warmth / n as real)
  {
    var lo := DayOf(at, tz) - 7;
    var run := pre + Dailies(device, at, lo, n);
    DailiesRun(pre, device, at, lo, tz, n);
    WeeklyJobAppends(run, Final(pre, tz), device, at, tz);
    RowsFold(Final(run, tz).summaries, Final(pre, tz), device, lo, tz, warmth);
    AverageStored(WeekRun(pre, device, at, tz, n), tz, WeekFold(Final(run, tz).summaries), device, DayOf(at, tz));
  }

  lemma AverageStored(run: seq<Op>, tz: int, t: WeekTotals, device: string, today: int)
    requires WeeklySummaryOf(device, today, tz, WeeklyBodyOf(t)) in Final(run, tz).summaries && t.daysWithData > 0
    ensures StoresAverage(run, tz, t.daysWithData, t.sumTemp / t.daysWithData as real)
  {
    var s := WeeklySummaryOf(device, today, tz, WeeklyBodyOf(t));
    assert s in Final(run, tz).summaries;
  }

  /** A week without any temperature row is stored with an average of 0 degrees. */
  lemma NoTemperatureStoredAsZero(device: string, at: int, tz: int, n: nat)
    requires device != "" && 0 < n <= 7
    ensures AllSignals(WeekRun([], device, at, tz, n)) == []
    ensures StoresAverage(WeekRun([], device, at, tz, n), tz, n, 0.0)
  {
    forall date ensures WarmthOf([], device, date, tz) == 0.0 {
      assert DaySignals([], device, date, tz) == [];
    }
    FirstDayDivided([], device, at, tz, n, 0.0);
  }

  /** One temperature row, on the first day of the week before `at`. */
  function WarmRow(device: string, at: int, tz: int): Signal {
    Signal(0, device, 46, Some(21.0), DayStart(DayOf(at, tz) - 7, tz))
  }

  lemma WarmRowWarmth(device: string, at: int, date: int, tz: int)
    ensures WarmthOf([WarmRow(device, at, tz)], device, date, tz) == if date == DayOf(at, tz) - 7 then 21.0 else 0.0
  {
    var r := WarmRow(device, at, tz);
    FilterSnoc(OnDay(device, date, tz), [], r);
    DayWindow(r.at, date, tz);
    assert [] + [r] == [r];
    SumSnoc([], r, 46);
    if date == DayOf(at, tz) - 7 {
      assert DaySignals([r], device, date, tz) == [r];
      assert Values([r], 46) == [21.0];
      SumAdds([], 21.0);
      assert [] + [21.0] == [21.0];
    } else {
      assert DaySignals([r], device, date, tz) == [];
    }
  }

  lemma OneRowRun(r: Signal, tz: int)
    ensures AllSignals([InsertSignal(r)]) == [r] && Final([InsertSignal(r)], tz) == Db([r], [], [])
  {
    assert [] + [InsertSignal(r)] == [InsertSignal(r)] && [] + [r] == [r];
    RunSnoc([], InsertSignal(r), tz);
  }

  lemma WarmWeekDivided(pre: seq<Op>, device: string, at: int, tz: int, n: nat)
    requires device != "" && 0 < n <= 7 && Final(pre, tz) == Db([WarmRow(device, at, tz)], [], [])
    ensures AllSignals(WeekRun(pre, device, at, tz, n)) == AllSignals(pre)
    ensures StoresAverage(WeekRun(pre, device, at, tz, n), tz, n, 21.0 / n as real)
  {
    forall date ensures WarmthOf([WarmRow(device, at, tz)], device, date, tz) == if date == DayOf(at, tz) - 7 then 21.0 else 0.0 {
      WarmRowWarmth(device, at, date, tz);
    }
    FirstDayDivided(pre, device, at, tz, n, 21.0);
  }

  /** A week whose only temperature is 21 degrees is stored with an average of 21 / n, that is 3 for seven summarised days. */
  lemma OneWarmDayDivided(device: string, at: int, tz: int, n: nat)
    requires device != "" && 0 < n <= 7
    ensures var run := WeekRun([InsertSignal(WarmRow(device, at, tz))], device, at, tz, n);
            AllSignals(run) == [WarmRow(device, at, tz)] && StoresAverage(run, tz, n, 21.0 / n as real)
  {
    OneRowRun(WarmRow(device, at, tz), tz);
    WarmWeekDivided([InsertSignal(WarmRow(device, at, tz))], device, at, tz, n);
  }
}
