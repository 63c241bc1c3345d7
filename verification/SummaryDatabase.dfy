/** The tables as mutable state, with the jobs that update them in place. */
module SummaryDatabase {
  import opened Sequences
  import opened Statements
  import opened SummaryModel
  import opened SummaryAggregates

  datatype Retry = Retry(deadLetter: bool, updatedAt: int)
  datatype MediaFile = MediaFile(regular: bool, ageHours: int)

  /** What became of each of the five DELETEs. */
  datatype CleanupFaults = CleanupFaults(signals: Fate, events: Fate, notifications: Fate, executions: Fate, retries: Fate)

  datatype CleanupResult = CleanupResult(
    success: bool, items: nat, signals: nat, events: nat, notifications: nat, executions: nat, retries: nat, files: nat)

  /** The count a DELETE reports: 0 when its reply is lost, although it has deleted. */
  function Reported(f: Fate, deleted: nat): nat { if f.Answered? then deleted else 0 }

  /** What a DELETE removes without reporting it. */
  function Unreported(f: Fate, deleted: nat): nat { if f.ReplyLost? then deleted else 0 }

  function NotBefore(cutoff: int): int -> bool { (t: int) => !(t < cutoff) }
  function RetryKept(cutoff: int): Retry -> bool { (r: Retry) => !(r.deadLetter && r.updatedAt < cutoff) }
  function MediaKept(days: int): MediaFile -> bool { (f: MediaFile) => !(f.regular && f.ageHours > days * 24) }

  /** The media directory after the disk prune; an exception at entry `k` stops it there. */
  function MediaAfter(media: seq<MediaFile>, days: int, dirExists: bool, failAt: Option<nat>): seq<MediaFile> {
    if !dirExists then media
    else if failAt.Some? && failAt.value < |media| then
      Filter(MediaKept(days), media[..failAt.value]) + media[failAt.value..]
    else Filter(MediaKept(days), media)
  }

  // ----- What the age prunes leave -----

  /** Of notifications and executions, what is no older than `days`. */
  lemma ExpiredRowsIff(rows: seq<int>, at: int, days: int, t: int)
    ensures t in Filter(NotBefore(Cutoff(at, days)), rows) <==> t in rows && at - t <= days * 86_400_000
  {
    FilterMember(NotBefore(Cutoff(at, days)), rows, t);
  }

  /** Of retries, all but the dead letters older than `days`. */
  lemma RetriesLeftIff(rows: seq<Retry>, at: int, days: int, r: Retry)
    ensures r in Filter(RetryKept(Cutoff(at, days)), rows) <==> r in rows && (r.deadLetter ==> at - r.updatedAt <= days * 86_400_000)
  {
    FilterMember(RetryKept(Cutoff(at, days)), rows, r);
  }

  /** Of the media directory, up to an entry that throws, all but the regular files older than `days` in whole hours; after it everything. */
  lemma MediaLeftIff(media: seq<MediaFile>, days: int, dirExists: bool, failAt: Option<nat>, f: MediaFile)
    ensures var reached := if failAt.Some? && failAt.value < |media| then failAt.value else |media|;
            f in MediaAfter(media, days, dirExists, failAt)
            <==> (f in media && !dirExists) || f in media[reached..] || (f in media[..reached] && (f.regular ==> f.ageHours <= days * 24))
  {
    var reached := if failAt.Some? && failAt.value < |media| then failAt.value else |media|;
    FilterMember(MediaKept(days), media[..reached], f);
    assert media[..|media|] == media && media[|media|..] == [];
    assert media == media[..reached] + media[reached..];
  }

  // ----- What a job reports and what it has stored -----

  /**
   * A daily job reports a failure and has stored a new row if and only if its INSERT committed and lost its reply on a
   * day that had no summary; it reports a row and has stored none if and only if the day had one that the existence
   * check did not see. Otherwise the report is right.
   */
  lemma DailyReportWrongIff(db: Db, device: string, at: int, runDate: Option<int>, f: Faults, tz: int)
    ensures var date := TargetDate(at, runDate, tz);
            var stored := Step(db, MakeDaily(device, at, runDate, f), tz).summaries != db.summaries;
            var reached, known := DailyReachesInsert(db, device, date, f), HasSummary(db.summaries, device, Daily, date);
            && (DailyResult(db, device, date, f).Failed? && stored <==> reached && f.insert.ReplyLost? && !known)
            && (DailyResult(db, device, date, f).Written? && !stored <==> reached && f.insert.Answered? && known)
            && (DailyResult(db, device, date, f).Skipped? ==> !stored)
  {
  }

  /** The same for a weekly job, which reaches its INSERT only with daily rows. */
  lemma WeeklyReportWrongIff(db: Db, device: string, at: int, f: Faults, tz: int)
    ensures var stored := Step(db, MakeWeekly(device, at, f), tz).summaries != db.summaries;
            var reached, known := WeeklyReachesInsert(db, device, at, tz, f), HasSummary(db.summaries, device, Weekly, DayOf(at, tz) - 7);
            && (WeeklyResult(db, device, at, tz, f).Failed? && stored <==> reached && f.insert.ReplyLost? && !known)
            && (WeeklyResult(db, device, at, tz, f).Written? && !stored <==> reached && f.insert.Answered? && known)
            && (WeeklyResult(db, device, at, tz, f).Skipped? ==> !stored)
  {
  }

  class Database {
    var signals: seq<Signal>
    var events: seq<Event>
    var summaries: seq<Summary>
    var notifications: seq<int>
    var executions: seq<int>
    var retries: seq<Retry>
    var media: seq<MediaFile>
    const tz: int

    constructor (tz: int)
      ensures State() == Final([], tz) && this.tz == tz
    {
      this.tz := tz;
      signals, events, summaries, notifications, executions, retries, media := [], [], [], [], [], [], [];
    }

    function State(): Db
      reads this
    {
      Db(signals, events, summaries)
    }

    method RecordSignal(row: Signal)
      modifies this`signals
      ensures State() == Step(old(State()), InsertSignal(row), tz)
    {
      signals := signals + [row];
    }

    method RecordEvent(row: Event)
      modifies this`events
      ensures State() == Step(old(State()), InsertEvent(row), tz)
    {
      events := events + [row];
    }

    /** The loop of the daily generator over the fetched events. */
    method TallyEvents(rows: seq<Event>) returns (t: EventTotals)
      ensures t == AggregateEvents(rows)
    {
      var high, overdue, offline, stale, supply := 0, 0, 0, 0, 0;
      for i := 0 to |rows|
        invariant EventTotals(high, overdue, offline, stale, supply) == AggregateEvents(rows[..i])
      {
        var row := rows[i];
        assert rows[..i + 1][..i] == rows[..i];
        if row.severity == Some("high") || row.severity == Some("critical") {
          high := high + 1;
        }
        if row.kind == "feeding_overdue" { overdue := overdue + 1; }
        if row.kind == "device_offline" { offline := offline + 1; }
        if row.kind == "sensor_data_stale" { stale := stale + 1; }
        if row.kind == "low_supply" { supply := supply + 1; }
      }
      assert rows[..|rows|] == rows;
      t := EventTotals(high, overdue, offline, stale, supply);
    }

    /** The two aggregate queries of the daily generator; a failed one leaves its part empty. */
    method CollectDay(device: string, date: int, f: Faults) returns (p: DailyPayload)
      ensures p == DailyBodyOf(State(), device, date, tz, f.signalsOk, f.eventsOk)
      ensures f.signalsOk && f.eventsOk ==> FiguresOf(p, DaySignals(signals, device, date, tz), DayEvents(events, device, date, tz))
    {
      var start, end := DayStart(date, tz), DayStart(date + 1, tz);
      var totals: Option<SignalTotals> := None;
      if f.signalsOk {
        totals := Some(AggregateSignals(Filter(SignalIn(device, start, end), signals)));
      }
      var fetched := if f.eventsOk then Filter(EventIn(device, start, end), events) else [];
      var counts := TallyEvents(fetched);
      p := DailyPayload(totals, counts);
      AggregateFigures(DaySignals(signals, device, date, tz), DayEvents(events, device, date, tz));
    }

    /** The INSERT of a summary, whose conflict clause makes a second one for the same key a no-op. */
    method Insert(row: Summary, fate: Fate)
      modifies this`summaries
      ensures summaries == if fate.Committed() then InsertSummary(old(summaries), row) else old(summaries)
    {
      if fate != NotSent && !HasSummary(summaries, row.device, row.kind, row.date) {
        summaries := summaries + [row];
      }
    }

    method DailySummary(device: string, at: int, runDate: Option<int>, f: Faults) returns (r: JobResult)
      modifies this`summaries
      ensures State() == Step(old(State()), MakeDaily(device, at, runDate, f), tz)
      ensures r == DailyResult(old(State()), device, TargetDate(at, runDate, tz), f)
    {
      if device == "" {
        return Failed("device_id not configured");
      }
      if !f.windowOk {
        return Failed("Window computation failed");
      }
      var date := if runDate.Some? then runDate.value else (at + tz) / DAY;
      var start, end := DayStart(date, tz), DayStart(date + 1, tz);
      if f.existsOk && HasSummary(summaries, device, Daily, date) {
        return Skipped("already_exists");
      }
      var payload := CollectDay(device, date, f);
      Insert(Summary(device, Daily, date, start, end, DailyBody(payload)), f.insert);
      if f.insert != Answered {
        return Failed("Insert failed");
      }
      r := Written;
    }

    /** The loop of the weekly generator over the fetched daily rows. */
    method TotalWeek(rows: seq<Summary>) returns (t: WeekTotals)
      ensures t == WeekFold(rows)
    {
      t := NO_TOTALS;
      for i := 0 to |rows|
        invariant t == WeekFold(rows[..i])
      {
        assert rows[..i + 1][..i] == rows[..i];
        t := t.(dailyCount := t.dailyCount + 1);
        if rows[i].payload.DailyBody? {
          var p := rows[i].payload.daily;
          t := t.(daysWithData := t.daysWithData + 1);
          if p.signals.Some? {
            var s := p.signals.value;
            t := t.(foodGrams := t.foodGrams + s.foodGrams, treatGrams := t.treatGrams + s.treatGrams,
                    meals := t.meals + s.meals, treats := t.treats + s.treats);
            if s.tempAvg.Some? {
              t := t.(sumTemp := t.sumTemp + s.tempAvg.value);
            }
            if s.batteryMin.Some? {
              t := t.(sumBattery := t.sumBattery + s.batteryMin.value);
            }
          }
          t := t.(high := t.high + p.events.high, overdue := t.overdue + p.events.overdue,
                  offline := t.offline + p.events.offline);
        }
      }
      assert rows[..|rows|] == rows;
    }

    /** The weekly payload with its averages over the days with data. */
    method WeekBody(t: WeekTotals) returns (body: WeeklyPayload)
      ensures body == WeeklyBodyOf(t)
    {
      var avgTemp: Option<real>, avgBattery: Option<real> := None, None;
      if t.daysWithData > 0 {
        avgTemp := Some(t.sumTemp / t.daysWithData as real);
        avgBattery := Some(t.sumBattery / t.daysWithData as real);
      }
      body := WeeklyPayload(t.dailyCount, t.daysWithData, t.foodGrams, t.treatGrams, t.meals, t.treats,
                            t.high, t.overdue, t.offline, avgTemp, avgBattery);
    }

    method WeeklySummary(device: string, at: int, f: Faults) returns (r: JobResult)
      modifies this`summaries
      ensures State() == Step(old(State()), MakeWeekly(device, at, f), tz)
      ensures r == WeeklyResult(old(State()), device, at, tz, f)
    {
      if device == "" {
        return Failed("device_id not configured");
      }
      if !f.windowOk {
        return Failed("Weekly window computation failed");
      }
      var today := (at + tz) / DAY;
      var weekStart := today - 7;
      if f.existsOk && HasSummary(summaries, device, Weekly, weekStart) {
        return Skipped("already_exists");
      }
      var rows := if f.signalsOk then DailyRows(summaries, device, weekStart, today) else [];
      if |rows| == 0 {
        return Skipped("no_daily_summaries");
      }
      var t := TotalWeek(rows);
      var body := WeekBody(t);
      Insert(Summary(device, Weekly, weekStart, DayStart(weekStart, tz), DayStart(today, tz), WeeklyBody(body)), f.insert);
      if f.insert != Answered {
        return Failed("Insert failed");
      }
      r := Written;
    }

    /** The disk prune: walks the directory, dropping old regular files, until an entry throws. */
    method PruneMedia(days: int, dirExists: bool, failAt: Option<nat>) returns (ok: bool, removed: nat)
      modifies this`media
      ensures media == MediaAfter(old(media), days, dirExists, failAt)
      ensures removed == |old(media)| - |media|
      ensures ok <==> !(dirExists && failAt.Some? && failAt.value < |old(media)|)
    {
      ok, removed := true, 0;
      if dirExists {
        var before, kept, i := media, [], 0;
        while i < |before|
          invariant i <= |before| && kept == Filter(MediaKept(days), before[..i]) && removed == i - |kept|
          invariant failAt.Some? ==> i <= failAt.value
        {
          if failAt == Some(i) {
            media := kept + before[i..];
            return false, removed;
          }
          assert before[..i + 1][..i] == before[..i];
          if before[i].regular && before[i].ageHours > days * 24 {
            removed := removed + 1;
          } else {
            kept := kept + [before[i]];
          }
          i := i + 1;
        }
        assert before[..|before|] == before;
        media := kept;
      }
    }

    /** The signal and event prunes, which read the summary table. */
    method PruneSummarised(cutoff: int, ok: CleanupFaults) returns (sigs: nat, evs: nat, ghost silent: nat)
      modifies this`signals, this`events
      ensures State() == CleanupStep(old(State()), cutoff, ok.signals.Committed(), ok.events.Committed())
      ensures sigs == Reported(ok.signals, |old(signals)| - |signals|) && evs == Reported(ok.events, |old(events)| - |events|)
      ensures silent == Unreported(ok.signals, |old(signals)| - |signals|) + Unreported(ok.events, |old(events)| - |events|)
      ensures sigs + evs + silent + |signals| + |events| == |old(signals)| + |old(events)|
    {
      var db := State();
      sigs, evs, silent := 0, 0, 0;
      if ok.signals != NotSent {
        signals := Filter(SignalKept(db, cutoff), signals);
        if ok.signals == Answered {
          sigs := |db.signals| - |signals|;
        }
        silent := Unreported(ok.signals, |db.signals| - |signals|);
      }
      if ok.events != NotSent {
        events := Filter(EventKept(db, cutoff), events);
        if ok.events == Answered {
          evs := |db.events| - |events|;
        }
        silent := silent + Unreported(ok.events, |db.events| - |events|);
      }
    }

    /** The prunes by age alone; of the retries only dead letters are removed. */
    method PruneExpired(cutoff: int, ok: CleanupFaults) returns (notes: nat, execs: nat, rets: nat, ghost silent: nat)
      modifies this`notifications, this`executions, this`retries
      ensures notifications == if ok.notifications.Committed() then Filter(NotBefore(cutoff), old(notifications)) else old(notifications)
      ensures executions == if ok.executions.Committed() then Filter(NotBefore(cutoff), old(executions)) else old(executions)
      ensures retries == if ok.retries.Committed() then Filter(RetryKept(cutoff), old(retries)) else old(retries)
      ensures notes == Reported(ok.notifications, |old(notifications)| - |notifications|)
      ensures execs == Reported(ok.executions, |old(executions)| - |executions|)
      ensures rets == Reported(ok.retries, |old(retries)| - |retries|)
      ensures silent == Unreported(ok.notifications, |old(notifications)| - |notifications|)
                        + Unreported(ok.executions, |old(executions)| - |executions|)
                        + Unreported(ok.retries, |old(retries)| - |retries|)
      ensures notes + execs + rets + silent + |notifications| + |executions| + |retries|
              == |old(notifications)| + |old(executions)| + |old(retries)|
    {
      notes, execs, rets, silent := 0, 0, 0, 0;
      if ok.notifications != NotSent {
        var n := |notifications|;
        notifications := Filter(NotBefore(cutoff), notifications);
        notes := Reported(ok.notifications, n - |notifications|);
        silent := silent + Unreported(ok.notifications, n - |notifications|);
      }
      if ok.executions != NotSent {
        var n := |executions|;
        executions := Filter(NotBefore(cutoff), executions);
        execs := Reported(ok.executions, n - |executions|);
        silent := silent + Unreported(ok.executions, n - |executions|);
      }
      if ok.retries != NotSent {
        var n := |retries|;
        retries := Filter(RetryKept(cutoff), retries);
        rets := Reported(ok.retries, n - |retries|);
        silent := silent + Unreported(ok.retries, n - |retries|);
      }
    }

    /**
     * The cleanup job: five prunes and the disk prune. What is reported, what was deleted without a reply, and what
     * is left add up to what was there.
     */
    method DataCleanup(at: int, days: int, ok: CleanupFaults, dirExists: bool, failAt: Option<nat>)
      returns (res: CleanupResult, ghost silent: nat)
      modifies this`signals, this`events, this`notifications, this`executions, this`retries, this`media
      ensures State() == Step(old(State()), Cleanup(at, days, ok.signals.Committed(), ok.events.Committed()), tz)
      ensures notifications == if ok.notifications.Committed() then Filter(NotBefore(Cutoff(at, days)), old(notifications)) else old(notifications)
      ensures executions == if ok.executions.Committed() then Filter(NotBefore(Cutoff(at, days)), old(executions)) else old(executions)
      ensures retries == if ok.retries.Committed() then Filter(RetryKept(Cutoff(at, days)), old(retries)) else old(retries)
      ensures media == MediaAfter(old(media), days, dirExists, failAt)
      ensures silent == Unreported(ok.signals, |old(signals)| - |signals|) + Unreported(ok.events, |old(events)| - |events|)
                        + Unreported(ok.notifications, |old(notifications)| - |notifications|)
                        + Unreported(ok.executions, |old(executions)| - |executions|)
                        + Unreported(ok.retries, |old(retries)| - |retries|)
      ensures res.items + silent + |signals| + |events| + |notifications| + |executions| + |retries| + |media|
              == |old(signals)| + |old(events)| + |old(notifications)| + |old(executions)| + |old(retries)| + |old(media)|
      ensures res.signals == Reported(ok.signals, |old(signals)| - |signals|) && res.events == Reported(ok.events, |old(events)| - |events|)
      ensures res.notifications == Reported(ok.notifications, |old(notifications)| - |notifications|)
      ensures res.executions == Reported(ok.executions, |old(executions)| - |executions|)
      ensures res.retries == Reported(ok.retries, |old(retries)| - |retries|) && res.files == |old(media)| - |media|
      ensures res.success <==> !(dirExists && failAt.Some? && failAt.value < |old(media)|)
    {
      var cutoff := at - days * DAY;
      var sigs, evs, s1 := PruneSummarised(cutoff, ok);
      var notes, execs, rets, s2 := PruneExpired(cutoff, ok);
      var success, files := PruneMedia(days, dirExists, failAt);
      res := CleanupResult(success, sigs + evs + notes + execs + rets + files, sigs, evs, notes, execs, rets, files);
      silent := s1 + s2;
    }
  }
}
