/** The summary jobs statement by statement: rows, prunes and other jobs may come between any two of them. */
module SummaryInterleaving {
  import opened Sequences
  import opened Statements
  import opened SummaryModel
  import opened SummaryProofs
  import opened SummaryTheorems
  import opened SummaryWeekly
  import opened SummaryCompleteness

  /** A job between two of its statements, with what it has read so far. */
  datatype Job =
    | DayKnown(device: string, date: int)
    | DayOpen(device: string, date: int)
    | SignalsRead(device: string, date: int, totals: Option<SignalTotals>)
    | DayRead(device: string, date: int, payload: DailyPayload)
    | WeekKnown(device: string, today: int)
    | WeekOpen(device: string, today: int)
    | WeekRead(device: string, today: int, weekly: WeeklyPayload)

  /** One statement of a job. `answered` says whether a SELECT returned its rows. */
  datatype Statement =
    | Check(answered: bool)
    | ReadSignals(answered: bool)
    | ReadEvents(answered: bool)
    | ReadDays(answered: bool)
    | Store(fate: Fate)

  /** What a statement does to its job (None: the job ends), and the INSERT it commits. */
  datatype Effect = Effect(job: Option<Job>, insert: Option<Op>)

  function Unchanged(job: Job): Effect { Effect(Some(job), None) }
  function Ended(): Effect { Effect(None, None) }

  /** The SELECT for an existing summary; a job that finds one ends. */
  function CheckEffect(db: Db, job: Job, answered: bool): Effect {
    match job
    case DayKnown(device, date) =>
      if answered && HasSummary(db.summaries, device, Daily, date) then Ended() else Unchanged(DayOpen(device, date))
    case WeekKnown(device, today) =>
      if answered && HasSummary(db.summaries, device, Weekly, today - 7) then Ended() else Unchanged(WeekOpen(device, today))
    case _ => Unchanged(job)
  }

  function SignalsEffect(db: Db, job: Job, answered: bool, tz: int): Effect {
    if !job.DayOpen? then Unchanged(job)
    else
      Unchanged(SignalsRead(job.device, job.date,
                            if answered then Some(AggregateSignals(DaySignals(db.signals, job.device, job.date, tz))) else None))
  }

  function EventsEffect(db: Db, job: Job, answered: bool, tz: int): Effect {
    if !job.SignalsRead? then Unchanged(job)
    else
      var events := if answered then DayEvents(db.events, job.device, job.date, tz) else [];
      Unchanged(DayRead(job.device, job.date, DailyPayload(job.totals, AggregateEvents(events))))
  }

  /** A week without daily summaries ends the job. */
  function DaysEffect(db: Db, job: Job, answered: bool): Effect {
    if !job.WeekOpen? then Unchanged(job)
    else
      var rows := if answered then DailyRows(db.summaries, job.device, job.today - 7, job.today) else [];
      if rows == [] then Ended() else Unchanged(WeekRead(job.device, job.today, WeeklyBodyOf(WeekFold(rows))))
  }

  function StoreEffect(job: Job, fate: Fate): Effect {
    match job
    case DayRead(device, date, payload) =>
      Effect(None, if fate.Committed() then Some(StoreDaily(device, date, payload)) else None)
    case WeekRead(device, today, payload) =>
      Effect(None, if fate.Committed() then Some(StoreWeekly(device, today, payload)) else None)
    case _ => Unchanged(job)
  }

  function Execute(db: Db, job: Job, s: Statement, tz: int): Effect {
    match s
    case Check(answered) => CheckEffect(db, job, answered)
    case ReadSignals(answered) => SignalsEffect(db, job, answered, tz)
    case ReadEvents(answered) => EventsEffect(db, job, answered, tz)
    case ReadDays(answered) => DaysEffect(db, job, answered)
    case Store(fate) => StoreEffect(job, fate)
  }

  /** The committed table operations so far (the tables are their final state), and the jobs under way. */
  datatype World = World(run: seq<Op>, jobs: map<nat, Job>)

  const INITIAL := World([], map[])

  /** A row arrives, a DELETE commits, an uninterrupted job runs; a job begins by its window query, or runs a statement. */
  datatype Act =
    | Table(op: Op)
    | BeginDaily(id: nat, device: string, at: int, runDate: Option<int>)
    | BeginWeekly(id: nat, device: string, at: int)
    | Run(id: nat, statement: Statement)

  function Begin(w: World, id: nat, job: Job): World {
    if job.device == "" || id in w.jobs then w else w.(jobs := w.jobs[id := job])
  }

  function Advance(w: World, a: Act, tz: int): World {
    match a
    case Table(op) => w.(run := w.run + [op])
    case BeginDaily(id, device, at, runDate) => Begin(w, id, DayKnown(device, TargetDate(at, runDate, tz)))
    case BeginWeekly(id, device, at) => Begin(w, id, WeekKnown(device, DayOf(at, tz)))
    case Run(id, s) =>
      if id !in w.jobs then w
      else
        var e := Execute(Final(w.run, tz), w.jobs[id], s, tz);
        World(if e.insert.Some? then w.run + [e.insert.value] else w.run,
              if e.job.Some? then w.jobs[id := e.job.value] else w.jobs - {id})
  }

  function After(acts: seq<Act>, tz: int): World {
    if |acts| == 0 then INITIAL else Advance(After(acts[..|acts| - 1], tz), acts[|acts| - 1], tz)
  }

  // ----- The uninterrupted jobs are the statements one after the other -----

  /** Statements of one job with nothing in between. */
  function RunAll(w: World, id: nat, ss: seq<Statement>, tz: int): World
    decreases |ss|
  {
    if |ss| == 0 then w else RunAll(Advance(w, Run(id, ss[0]), tz), id, ss[1..], tz)
  }

  lemma RunFirst(w: World, id: nat, s: Statement, rest: seq<Statement>, tz: int)
    ensures RunAll(w, id, [s] + rest, tz) == RunAll(Advance(w, Run(id, s), tz), id, rest, tz)
  {
    assert ([s] + rest)[1..] == rest;
  }

  lemma StoredTables(run: seq<Op>, op: Op, tz: int)
    ensures Final(run + [op], tz) == Step(Final(run, tz), op, tz)
  {
    assert (run + [op])[..|run|] == run;
  }

  /** The run with the INSERT of a job, if it commits one. */
  function Committed(run: seq<Op>, insert: Option<Op>): seq<Op> { if insert.Some? then run + [insert.value] else run }

  lemma CommittedTables(run: seq<Op>, insert: Option<Op>, tz: int)
    ensures Final(Committed(run, insert), tz) == if insert.Some? then Step(Final(run, tz), insert.value, tz) else Final(run, tz)
  {
    if insert.Some? {
      StoredTables(run, insert.value, tz);
    }
  }

  lemma EndedJob(w: World, id: nat, ss: seq<Statement>, tz: int)
    requires id !in w.jobs
    ensures RunAll(w, id, ss, tz) == w
    decreases |ss|
  {
  }

  /** One statement of a job that does not end by it. */
  lemma JobMoves(w: World, id: nat, s: Statement, next: Job, tz: int)
    requires id in w.jobs && Execute(Final(w.run, tz), w.jobs[id], s, tz) == Unchanged(next)
    ensures Advance(w, Run(id, s), tz) == w.(jobs := w.jobs[id := next])
  {
  }

  lemma JobEnds(w: World, id: nat, s: Statement, tz: int)
    requires id in w.jobs && Execute(Final(w.run, tz), w.jobs[id], s, tz) == Ended()
    ensures Advance(w, Run(id, s), tz) == w.(jobs := w.jobs - {id})
  {
  }

  lemma JobStores(w: World, id: nat, fate: Fate, tz: int)
    requires id in w.jobs && (w.jobs[id].DayRead? || w.jobs[id].WeekRead?)
    ensures RunAll(w, id, [Store(fate)], tz) == World(Committed(w.run, StoreEffect(w.jobs[id], fate).insert), w.jobs - {id})
  {
    assert [Store(fate)] == [Store(fate)] + [];
    RunFirst(w, id, Store(fate), [], tz);
  }

  /** What a daily job commits when nothing comes between its statements. */
  function DayInsert(db: Db, device: string, date: int, f: Faults, tz: int): Option<Op> {
    if DailyReachesInsert(db, device, date, f) && f.insert.Committed()
    then Some(StoreDaily(device, date, DailyBodyOf(db, device, date, tz, f.signalsOk, f.eventsOk))) else None
  }

  /** From the existence check on. */
  lemma DailyFromOpen(w: World, id: nat, job: Job, f: Faults, tz: int)
    requires id in w.jobs && w.jobs[id] == job && job.DayOpen?
    ensures var w' := RunAll(w, id, [ReadSignals(f.signalsOk), ReadEvents(f.eventsOk), Store(f.insert)], tz);
            var p := DailyBodyOf(Final(w.run, tz), job.device, job.date, tz, f.signalsOk, f.eventsOk);
            && w'.jobs == w.jobs - {id}
            && w'.run == if f.insert.Committed() then w.run + [StoreDaily(job.device, job.date, p)] else w.run
  {
    var signals := SignalsRead(job.device, job.date, TotalsAt(w.run, job.device, job.date, f.signalsOk, tz));
    var read := DayRead(job.device, job.date, DailyBodyOf(Final(w.run, tz), job.device, job.date, tz, f.signalsOk, f.eventsOk));
    var r, e, s := ReadSignals(f.signalsOk), ReadEvents(f.eventsOk), Store(f.insert);
    assert [r, e, s] == [r] + [e, s] && [e, s] == [e] + [s];
    RunFirst(w, id, r, [e, s], tz);
    JobMoves(w, id, r, signals, tz);
    var w1 := w.(jobs := w.jobs[id := signals]);
    RunFirst(w1, id, e, [s], tz);
    JobMoves(w1, id, e, read, tz);
    JobStores(w1.(jobs := w1.jobs[id := read]), id, f.insert, tz);
  }

  function DailyStatements(f: Faults): seq<Statement> {
    [Check(f.existsOk), ReadSignals(f.signalsOk), ReadEvents(f.eventsOk), Store(f.insert)]
  }

  lemma DailyCommits(w: World, id: nat, device: string, date: int, f: Faults, tz: int)
    requires id !in w.jobs && f.windowOk
    ensures var w' := RunAll(Begin(w, id, DayKnown(device, date)), id, DailyStatements(f), tz);
            w' == World(Committed(w.run, DayInsert(Final(w.run, tz), device, date, f, tz)), w.jobs)
  {
    var rest := [ReadSignals(f.signalsOk), ReadEvents(f.eventsOk), Store(f.insert)];
    var w0 := Begin(w, id, DayKnown(device, date));
    assert DailyStatements(f) == [Check(f.existsOk)] + rest;
    if device == "" {
      EndedJob(w, id, DailyStatements(f), tz);
    } else {
      RunFirst(w0, id, Check(f.existsOk), rest, tz);
      var w1 := Advance(w0, Run(id, Check(f.existsOk)), tz);
      if f.existsOk && HasSummary(Final(w.run, tz).summaries, device, Daily, date) {
        EndedJob(w1, id, rest, tz);
        assert w1.jobs == w.jobs;
      } else {
        DailyFromOpen(w1, id, DayOpen(device, date), f, tz);
        assert w1.jobs - {id} == w.jobs;
      }
    }
  }

  lemma StoreIsMake(db: Db, device: string, at: int, runDate: Option<int>, f: Faults, tz: int)
    ensures var insert := DayInsert(db, device, TargetDate(at, runDate, tz), f, tz);
            Step(db, MakeDaily(device, at, runDate, f), tz) == if insert.Some? then Step(db, insert.value, tz) else db
  {
  }

  /** An uninterrupted daily job, run statement by statement, changes the tables as MakeDaily does. */
  lemma UninterruptedDaily(w: World, id: nat, device: string, at: int, runDate: Option<int>, f: Faults, tz: int)
    requires id !in w.jobs && f.windowOk
    ensures var w' := RunAll(Advance(w, BeginDaily(id, device, at, runDate), tz), id, DailyStatements(f), tz);
            && Final(w'.run, tz) == Step(Final(w.run, tz), MakeDaily(device, at, runDate, f), tz)
            && w'.jobs == w.jobs
  {
    var date, db := TargetDate(at, runDate, tz), Final(w.run, tz);
    DailyCommits(w, id, device, date, f, tz);
    StoreIsMake(db, device, at, runDate, f, tz);
    CommittedTables(w.run, DayInsert(db, device, date, f, tz), tz);
  }

  /** The daily rows of the week before `today`, none if the SELECT failed. */
  function RowsRead(db: Db, device: string, today: int, ok: bool): seq<Summary> {
    if ok then DailyRows(db.summaries, device, today - 7, today) else []
  }

  /** What a weekly job commits when nothing comes between its statements. */
  function WeekInsert(db: Db, device: string, today: int, f: Faults): Option<Op> {
    var rows := RowsRead(db, device, today, f.signalsOk);
    if device != "" && !(f.existsOk && HasSummary(db.summaries, device, Weekly, today - 7)) && rows != [] && f.insert.Committed()
    then Some(StoreWeekly(device, today, WeeklyBodyOf(WeekFold(rows)))) else None
  }

  function WeeklyStatements(f: Faults): seq<Statement> { [Check(f.existsOk), ReadDays(f.signalsOk), Store(f.insert)] }

  lemma WeeklyFromOpen(w: World, id: nat, device: string, today: int, f: Faults, tz: int)
    requires id in w.jobs && w.jobs[id] == WeekOpen(device, today)
    ensures var w' := RunAll(w, id, [ReadDays(f.signalsOk), Store(f.insert)], tz);
            var rows := RowsRead(Final(w.run, tz), device, today, f.signalsOk);
            && w'.jobs == w.jobs - {id}
            && w'.run == if rows != [] && f.insert.Committed()
                         then w.run + [StoreWeekly(device, today, WeeklyBodyOf(WeekFold(rows)))] else w.run
  {
    var r, s, rows := ReadDays(f.signalsOk), Store(f.insert), RowsRead(Final(w.run, tz), device, today, f.signalsOk);
    assert [r, s] == [r] + [s];
    RunFirst(w, id, r, [s], tz);
    if rows == [] {
      JobEnds(w, id, r, tz);
      EndedJob(w.(jobs := w.jobs - {id}), id, [s], tz);
    } else {
      var read := WeekRead(device, today, WeeklyBodyOf(WeekFold(rows)));
      JobMoves(w, id, r, read, tz);
      JobStores(w.(jobs := w.jobs[id := read]), id, f.insert, tz);
    }
  }

  lemma WeeklyCommits(w: World, id: nat, device: string, today: int, f: Faults, tz: int)
    requires id !in w.jobs
    ensures var w' := RunAll(Begin(w, id, WeekKnown(device, today)), id, WeeklyStatements(f), tz);
            w' == World(Committed(w.run, WeekInsert(Final(w.run, tz), device, today, f)), w.jobs)
  {
    var rest := [ReadDays(f.signalsOk), Store(f.insert)];
    var w0 := Begin(w, id, WeekKnown(device, today));
    assert WeeklyStatements(f) == [Check(f.existsOk)] + rest;
    if device == "" {
      EndedJob(w, id, WeeklyStatements(f), tz);
    } else {
      RunFirst(w0, id, Check(f.existsOk), rest, tz);
      var w1 := Advance(w0, Run(id, Check(f.existsOk)), tz);
      if f.existsOk && HasSummary(Final(w.run, tz).summaries, device, Weekly, today - 7) {
        EndedJob(w1, id, rest, tz);
        assert w1.jobs == w.jobs;
      } else {
        WeeklyFromOpen(w1, id, device, today, f, tz);
        assert w1.jobs - {id} == w.jobs;
      }
    }
  }

  lemma StoreIsMakeWeekly(db: Db, device: string, at: int, f: Faults, tz: int)
    requires f.windowOk
    ensures var insert := WeekInsert(db, device, DayOf(at, tz), f);
            Step(db, MakeWeekly(device, at, f), tz) == if insert.Some? then Step(db, insert.value, tz) else db
  {
  }

  /** An uninterrupted weekly job, run statement by statement, changes the tables as MakeWeekly does. */
  lemma UninterruptedWeekly(w: World, id: nat, device: string, at: int, f: Faults, tz: int)
    requires id !in w.jobs && f.windowOk
    ensures var w' := RunAll(Advance(w, BeginWeekly(id, device, at), tz), id, WeeklyStatements(f), tz);
            && Final(w'.run, tz) == Step(Final(w.run, tz), MakeWeekly(device, at, f), tz)
            && w'.jobs == w.jobs
  {
    var today, db := DayOf(at, tz), Final(w.run, tz);
    WeeklyCommits(w, id, device, today, f, tz);
    StoreIsMakeWeekly(db, device, at, f, tz);
    CommittedTables(w.run, WeekInsert(db, device, today, f), tz);
  }

  // ----- Lossless over every interleaving -----

  /** The job has read the signals (events) of this day. */
  predicate HasSignals(job: Job, device: string, date: int) {
    (job.SignalsRead? || job.DayRead?) && job.device == device && job.date == date
  }
  predicate HasEvents(job: Job, device: string, date: int) {
    job.DayRead? && job.device == device && job.date == date
  }

  /** Rows arrive before their day is summarised and before a job reads it; a day is read by answered queries before a cleanup lost a row of it. */
  ghost predicate Orderly(w: World, a: Act, tz: int) {
    var db := Final(w.run, tz);
    match a
    case Table(op) =>
      (match op
       case InsertSignal(r) =>
         !Covered(db.summaries, r.device, r.at) && forall id :: id in w.jobs ==> !HasSignals(w.jobs[id], r.device, DayOf(r.at, tz))
       case InsertEvent(e) =>
         !Covered(db.summaries, e.device, e.at) && forall id :: id in w.jobs ==> !HasEvents(w.jobs[id], e.device, DayOf(e.at, tz))
       case MakeDaily(_, _, _, _) => Timely(w.run, op, tz)
       case MakeWeekly(_, _, _) => true
       case Cleanup(_, _, _, _) => true
       case _ => false)
    case Run(id, s) =>
      id in w.jobs ==> ReadsInTime(w.run, w.jobs[id], s, tz)
    case _ => true
  }

  ghost predicate ReadsInTime(run: seq<Op>, job: Job, s: Statement, tz: int) {
    && (s.ReadSignals? && job.DayOpen? && !HasSummary(Final(run, tz).summaries, job.device, Daily, job.date) ==>
          s.answered && !SignalLost(run, job.device, job.date, tz))
    && (s.ReadEvents? && job.SignalsRead? && !HasSummary(Final(run, tz).summaries, job.device, Daily, job.date) ==>
          s.answered && !EventLost(run, job.device, job.date, tz))
  }

  ghost predicate OrderlyRun(acts: seq<Act>, tz: int) {
    |acts| == 0 ||
    (OrderlyRun(acts[..|acts| - 1], tz) && Orderly(After(acts[..|acts| - 1], tz), acts[|acts| - 1], tz))
  }

  /** What a job has read is still the aggregate of the history, unless its day has been summarised meanwhile. */
  ghost predicate Current(run: seq<Op>, job: Job, tz: int) {
    match job
    case SignalsRead(device, date, totals) =>
      HasSummary(Final(run, tz).summaries, device, Daily, date) || totals == HistoryPayload(run, device, date, tz).signals
    case DayRead(device, date, payload) =>
      HasSummary(Final(run, tz).summaries, device, Daily, date) || payload == HistoryPayload(run, device, date, tz)
    case WeekRead(device, today, payload) => WeekSound(run, device, today - 7, payload, tz)
    case _ => true
  }

  ghost predicate Sound(w: World, tz: int) {
    Disciplined(w.run, tz) && forall id :: id in w.jobs ==> Current(w.run, w.jobs[id], tz)
  }

  /** The operation adds no row to a day that the job has read. */
  predicate Apart(op: Op, job: Job, tz: int) {
    && (op.InsertSignal? ==> !HasSignals(job, op.signal.device, DayOf(op.signal.at, tz)))
    && (op.InsertEvent? ==> !HasEvents(job, op.event.device, DayOf(op.event.at, tz)))
  }

  lemma HistoryApart(run: seq<Op>, op: Op, device: string, date: int, tz: int)
    ensures (op.InsertSignal? ==> !(op.signal.device == device && DayOf(op.signal.at, tz) == date)) ==>
              DaySignals(AllSignals(run + [op]), device, date, tz) == DaySignals(AllSignals(run), device, date, tz)
    ensures (op.InsertEvent? ==> !(op.event.device == device && DayOf(op.event.at, tz) == date)) ==>
              DayEvents(AllEvents(run + [op]), device, date, tz) == DayEvents(AllEvents(run), device, date, tz)
  {
    assert (run + [op])[..|run|] == run;
    if op.InsertSignal? {
      FilterSnoc(OnDay(device, date, tz), AllSignals(run), op.signal);
      DayWindow(op.signal.at, date, tz);
    }
    if op.InsertEvent? {
      FilterSnoc(EventOnDay(device, date, tz), AllEvents(run), op.event);
      DayWindow(op.event.at, date, tz);
    }
  }

  lemma DayJobStays(run: seq<Op>, op: Op, job: Job, tz: int)
    requires (job.SignalsRead? || job.DayRead?) && Current(run, job, tz) && Apart(op, job, tz)
    ensures Current(run + [op], job, tz)
  {
    HistoryApart(run, op, job.device, job.date, tz);
    if HasSummary(Final(run, tz).summaries, job.device, Daily, job.date) {
      SummaryStays(run, op, job.device, job.date, tz);
    }
  }

  lemma WeekJobStays(run: seq<Op>, op: Op, job: Job, tz: int)
    requires Timely(run, op, tz) && job.WeekRead? && Current(run, job, tz)
    ensures Current(run + [op], job, tz)
  {
    WeekStays(run, op, job.device, job.today - 7, job.weekly, tz);
  }

  lemma CurrentStays(run: seq<Op>, op: Op, job: Job, tz: int)
    requires Timely(run, op, tz) && Current(run, job, tz) && Apart(op, job, tz)
    ensures Current(run + [op], job, tz)
  {
    match job
    case SignalsRead(_, _, _) => DayJobStays(run, op, job, tz);
    case DayRead(_, _, _) => DayJobStays(run, op, job, tz);
    case WeekRead(_, _, _) => WeekJobStays(run, op, job, tz);
    case _ =>
  }

  lemma DisciplinedSnoc(run: seq<Op>, op: Op, tz: int)
    requires Disciplined(run, tz) && Timely(run, op, tz)
    ensures Disciplined(run + [op], tz)
  {
    assert (run + [op])[..|run|] == run;
  }

  /** The effect leaves the job current, and the INSERT it may commit is timely. */
  ghost predicate GoodEffect(run: seq<Op>, e: Effect, tz: int) {
    && (e.job.Some? ==> Current(run, e.job.value, tz))
    && (e.insert.Some? ==> e.job.None? && (e.insert.value.StoreDaily? || e.insert.value.StoreWeekly?)
                           && Timely(run, e.insert.value, tz))
  }

  lemma SignalsReadSound(run: seq<Op>, job: Job, answered: bool, tz: int)
    requires Current(run, job, tz) && ReadsInTime(run, job, ReadSignals(answered), tz)
    ensures GoodEffect(run, SignalsEffect(Final(run, tz), job, answered, tz), tz)
  {
    if job.DayOpen? && !HasSummary(Final(run, tz).summaries, job.device, Daily, job.date) {
      DayIntactIff(run, job.device, job.date, tz);
    }
  }

  lemma EventsReadSound(run: seq<Op>, job: Job, answered: bool, tz: int)
    requires Current(run, job, tz) && ReadsInTime(run, job, ReadEvents(answered), tz)
    ensures GoodEffect(run, EventsEffect(Final(run, tz), job, answered, tz), tz)
  {
    if job.SignalsRead? && !HasSummary(Final(run, tz).summaries, job.device, Daily, job.date) {
      DayIntactIff(run, job.device, job.date, tz);
    }
  }

  lemma DaysReadSound(run: seq<Op>, job: Job, rows: seq<Summary>, e: Effect, tz: int)
    requires Disciplined(run, tz) && Current(run, job, tz) && e.insert.None?
    requires job.WeekOpen? ==> rows == DailyRows(Final(run, tz).summaries, job.device, job.today - 7, job.today)
    requires || e == Ended() || e == Unchanged(job)
             || (job.WeekOpen? && e == Unchanged(WeekRead(job.device, job.today, WeeklyBodyOf(WeekFold(rows)))))
    ensures GoodEffect(run, e, tz)
  {
    if job.WeekOpen? {
      WeekRowsSound(run, job.device, job.today, rows, tz);
    }
  }

  lemma StoreDaySound(run: seq<Op>, job: Job, fate: Fate, tz: int)
    requires job.DayRead? && Current(run, job, tz)
    ensures GoodEffect(run, StoreEffect(job, fate), tz)
  {
  }

  lemma StoreWeekSound(run: seq<Op>, job: Job, fate: Fate, tz: int)
    requires job.WeekRead? && Current(run, job, tz)
    ensures GoodEffect(run, StoreEffect(job, fate), tz)
  {
  }

  lemma StoreSound(run: seq<Op>, job: Job, fate: Fate, tz: int)
    requires Current(run, job, tz)
    ensures GoodEffect(run, StoreEffect(job, fate), tz)
  {
    match job
    case DayRead(_, _, _) => StoreDaySound(run, job, fate, tz);
    case WeekRead(_, _, _) => StoreWeekSound(run, job, fate, tz);
    case _ =>
  }

  lemma CheckSound(run: seq<Op>, job: Job, answered: bool, tz: int)
    requires Current(run, job, tz)
    ensures GoodEffect(run, CheckEffect(Final(run, tz), job, answered), tz)
  {
  }

  lemma DaysEffectIs(db: Db, job: Job, answered: bool) returns (rows: seq<Summary>)
    ensures job.WeekOpen? ==> rows == DailyRows(db.summaries, job.device, job.today - 7, job.today)
    ensures var e := DaysEffect(db, job, answered);
            e.insert.None? && (e == Ended() || e == Unchanged(job)
              || (job.WeekOpen? && e == Unchanged(WeekRead(job.device, job.today, WeeklyBodyOf(WeekFold(rows))))))
  {
    rows := if job.WeekOpen? then DailyRows(db.summaries, job.device, job.today - 7, job.today) else [];
  }

  lemma DaysSound(run: seq<Op>, db: Db, job: Job, answered: bool, tz: int)
    requires db == Final(run, tz) && Disciplined(run, tz) && Current(run, job, tz)
    ensures GoodEffect(run, DaysEffect(db, job, answered), tz)
  {
    var rows := DaysEffectIs(db, job, answered);
    DaysReadSound(run, job, rows, DaysEffect(db, job, answered), tz);
  }

  lemma StatementSound(run: seq<Op>, job: Job, s: Statement, tz: int)
    requires Disciplined(run, tz) && Current(run, job, tz) && ReadsInTime(run, job, s, tz)
    ensures GoodEffect(run, Execute(Final(run, tz), job, s, tz), tz)
  {
    match s
    case Check(answered) => CheckSound(run, job, answered, tz);
    case ReadSignals(answered) => SignalsReadSound(run, job, answered, tz);
    case ReadEvents(answered) => EventsReadSound(run, job, answered, tz);
    case ReadDays(answered) => DaysSound(run, Final(run, tz), job, answered, tz);
    case Store(fate) => StoreSound(run, job, fate, tz);
  }

  lemma TableSound(w: World, op: Op, tz: int)
    requires Sound(w, tz) && Timely(w.run, op, tz) && forall id :: id in w.jobs ==> Apart(op, w.jobs[id], tz)
    ensures Sound(w.(run := w.run + [op]), tz)
  {
    DisciplinedSnoc(w.run, op, tz);
    forall id | id in w.jobs ensures Current(w.run + [op], w.jobs[id], tz) {
      CurrentStays(w.run, op, w.jobs[id], tz);
    }
  }

  lemma RunSound(w: World, id: nat, s: Statement, tz: int)
    requires Sound(w, tz) && id in w.jobs && ReadsInTime(w.run, w.jobs[id], s, tz)
    ensures Sound(Advance(w, Run(id, s), tz), tz)
  {
    var e := Execute(Final(w.run, tz), w.jobs[id], s, tz);
    StatementSound(w.run, w.jobs[id], s, tz);
    if e.insert.Some? {
      TableSound(World(w.run, w.jobs - {id}), e.insert.value, tz);
    }
  }

  lemma AdvanceSound(w: World, a: Act, tz: int)
    requires Sound(w, tz) && Orderly(w, a, tz)
    ensures Sound(Advance(w, a, tz), tz)
  {
    match a
    case Table(op) => TableSound(w, op, tz);
    case Run(id, s) =>
      if id in w.jobs {
        RunSound(w, id, s, tz);
      }
    case _ =>
  }

  lemma {:induction false} InterleavingSound(acts: seq<Act>, tz: int)
    requires OrderlyRun(acts, tz)
    ensures Sound(After(acts, tz), tz)
  {
    if |acts| > 0 {
      InterleavingSound(acts[..|acts| - 1], tz);
      AdvanceSound(After(acts[..|acts| - 1], tz), acts[|acts| - 1], tz);
    }
  }

  /**
   * Main theorem at statement level: over every orderly interleaving of rows, prunes and the statements of any number
   * of jobs, every stored daily payload is the aggregate of the never-pruned history, and every stored weekly payload
   * holds the totals of the history of as many days as it counts, of the whole week if it counts seven.
   */
  lemma InterleavedLossless(acts: seq<Act>, tz: int)
    requires OrderlyRun(acts, tz)
    ensures var run := After(acts, tz).run;
            forall s :: s in Final(run, tz).summaries ==>
              if s.kind == Daily then Exact(s, run, tz)
              else
                && s.payload.WeeklyBody? && WeekSound(run, s.device, s.date, s.payload.weekly, tz)
                && FullWeekExact(run, s.device, s.date, s.payload.weekly, tz)
  {
    InterleavingSound(acts, tz);
    Lossless(After(acts, tz).run, tz);
    WeeklyLossless(After(acts, tz).run, tz);
  }

  // ----- Every stored daily row has its reads somewhere in the run -----

  /** The tables change by rows, prunes and jobs, not by INSERTs without a job. */
  predicate Genuine(acts: seq<Act>) {
    forall a :: a in acts && a.Table? ==> !a.op.StoreDaily? && !a.op.StoreWeekly?
  }

  /** What a job has read is what a SELECT returned after some prefix of the run. */
  ghost predicate JobSourced(run: seq<Op>, job: Job, tz: int) {
    match job
    case SignalsRead(device, date, totals) =>
      exists i, ok :: 0 <= i <= |run| && totals == TotalsAt(run[..i], device, date, ok, tz)
    case DayRead(device, date, payload) => exists src :: ReadFrom(run, src, device, date, payload, tz)
    case _ => true
  }

  ghost predicate RowsSourced(run: seq<Op>, tz: int) {
    forall s :: s in Final(run, tz).summaries && s.kind == Daily ==> exists src :: StoredFrom(run, src, s, tz)
  }

  ghost predicate AllSourced(w: World, tz: int) {
    RowsSourced(w.run, tz) && forall id :: id in w.jobs ==> JobSourced(w.run, w.jobs[id], tz)
  }

  lemma ReadFromStays(run: seq<Op>, op: Op, src: Source, device: string, date: int, p: DailyPayload, tz: int)
    requires ReadFrom(run, src, device, date, p, tz)
    ensures ReadFrom(run + [op], src, device, date, p, tz)
  {
    assert (run + [op])[..src.signalsAt] == run[..src.signalsAt] && (run + [op])[..src.eventsAt] == run[..src.eventsAt];
  }

  lemma JobSourcedStays(run: seq<Op>, op: Op, job: Job, tz: int)
    requires JobSourced(run, job, tz)
    ensures JobSourced(run + [op], job, tz)
  {
    match job
    case SignalsRead(device, date, totals) =>
      var i, ok :| 0 <= i <= |run| && totals == TotalsAt(run[..i], device, date, ok, tz);
      assert (run + [op])[..i] == run[..i];
    case DayRead(device, date, payload) =>
      var src :| ReadFrom(run, src, device, date, payload, tz);
      ReadFromStays(run, op, src, device, date, payload, tz);
    case _ =>
  }

  ghost predicate NewDaily(db: Db, op: Op, s: Summary, tz: int) {
    || (Writes(db, op, tz) && s == DailyRow(db, op.device, TargetDate(op.at, op.runDate, tz), tz, op.faults.signalsOk, op.faults.eventsOk))
    || (op.StoreDaily? && !HasSummary(db.summaries, op.device, Daily, op.date)
        && s == DailySummaryOf(op.device, op.date, tz, op.dailyPayload))
  }

  lemma NewDailyRow(db: Db, op: Op, s: Summary, tz: int)
    requires s.kind == Daily && s !in db.summaries && s in Step(db, op, tz).summaries
    ensures NewDaily(db, op, s, tz)
  {
  }

  lemma NewRowSourced(run: seq<Op>, op: Op, s: Summary, tz: int) returns (src: Source)
    requires s in Final(run + [op], tz).summaries && NewDaily(Final(run, tz), op, s, tz)
    requires op.StoreDaily? ==> JobSourced(run, DayRead(op.device, op.date, op.dailyPayload), tz)
    ensures StoredFrom(run + [op], src, s, tz)
  {
    if op.MakeDaily? {
      src := WrittenSource(run, op);
      WrittenStoredFrom(run, op, [], tz);
      assert run + [op] + [] == run + [op];
    } else {
      src :| ReadFrom(run, src, op.device, op.date, op.dailyPayload, tz);
      ReadFromStays(run, op, src, op.device, op.date, op.dailyPayload, tz);
      assert run[..|run|] == run && (run + [op])[..src.eventsAt] == run[..src.eventsAt];
      UnsummarisedPrefix(run, src.eventsAt, |run|, op.device, op.date, tz);
    }
  }

  lemma TableSourced(run: seq<Op>, op: Op, tz: int)
    requires RowsSourced(run, tz)
    requires op.StoreDaily? ==> JobSourced(run, DayRead(op.device, op.date, op.dailyPayload), tz)
    ensures RowsSourced(run + [op], tz)
  {
    StoredTables(run, op, tz);
    forall s | s in Final(run + [op], tz).summaries && s.kind == Daily ensures exists src :: StoredFrom(run + [op], src, s, tz) {
      if s in Final(run, tz).summaries {
        var src :| StoredFrom(run, src, s, tz);
        StoredFromStays(run, [op], src, s, tz);
      } else {
        NewDailyRow(Final(run, tz), op, s, tz);
        var src := NewRowSourced(run, op, s, tz);
      }
    }
  }

  /** What a statement reads, it reads after the run so far. */
  lemma StatementSourced(run: seq<Op>, job: Job, s: Statement, tz: int)
    requires JobSourced(run, job, tz)
    ensures var e := Execute(Final(run, tz), job, s, tz);
            && (e.job.Some? ==> JobSourced(run, e.job.value, tz))
            && (e.insert.Some? && e.insert.value.StoreDaily? ==>
                  JobSourced(run, DayRead(e.insert.value.device, e.insert.value.date, e.insert.value.dailyPayload), tz))
  {
    assert run[..|run|] == run;
    if s.ReadSignals? && job.DayOpen? {
      assert Execute(Final(run, tz), job, s, tz).job.value.totals == TotalsAt(run[..|run|], job.device, job.date, s.answered, tz);
    } else if s.ReadEvents? && job.SignalsRead? {
      EventsSourced(run, job, s.answered, tz);
    }
  }

  lemma EventsSourced(run: seq<Op>, job: Job, answered: bool, tz: int)
    requires job.SignalsRead? && JobSourced(run, job, tz)
    ensures var e := EventsEffect(Final(run, tz), job, answered, tz); e.job.Some? && e.insert.None? && JobSourced(run, e.job.value, tz)
  {
    assert run[..|run|] == run;
    var i, ok :| 0 <= i <= |run| && job.totals == TotalsAt(run[..i], job.device, job.date, ok, tz);
    var e := EventsEffect(Final(run, tz), job, answered, tz);
    assert ReadFrom(run, Source(i, ok, |run|, answered), job.device, job.date, e.job.value.payload, tz);
  }

  /** An operation keeps every source; an INSERT that has one keeps it too. */
  lemma OpSourced(w: World, op: Op, tz: int)
    requires AllSourced(w, tz) && (op.StoreDaily? ==> JobSourced(w.run, DayRead(op.device, op.date, op.dailyPayload), tz))
    ensures AllSourced(World(w.run + [op], w.jobs), tz)
  {
    TableSourced(w.run, op, tz);
    forall id | id in w.jobs ensures JobSourced(w.run + [op], w.jobs[id], tz) {
      JobSourcedStays(w.run, op, w.jobs[id], tz);
    }
  }

  lemma AdvanceSourced(w: World, a: Act, tz: int)
    requires AllSourced(w, tz) && (a.Table? ==> !a.op.StoreDaily?)
    ensures AllSourced(Advance(w, a, tz), tz)
  {
    match a
    case Table(op) => OpSourced(w, op, tz);
    case Run(id, s) =>
      if id in w.jobs {
        RunSourced(w, id, s, tz);
      }
    case _ =>
  }

  /** The job ends, or goes on with what it has. */
  lemma JobsSourced(w: World, id: nat, next: Option<Job>, tz: int)
    requires AllSourced(w, tz) && (next.Some? ==> JobSourced(w.run, next.value, tz))
    ensures AllSourced(w.(jobs := if next.Some? then w.jobs[id := next.value] else w.jobs - {id}), tz)
  {
  }

  lemma RunSourced(w: World, id: nat, s: Statement, tz: int)
    requires AllSourced(w, tz) && id in w.jobs
    ensures AllSourced(Advance(w, Run(id, s), tz), tz)
  {
    var e := Execute(Final(w.run, tz), w.jobs[id], s, tz);
    StatementSourced(w.run, w.jobs[id], s, tz);
    if e.insert.Some? {
      OpSourced(w, e.insert.value, tz);
      InsertEnds(Final(w.run, tz), w.jobs[id], s, tz);
      JobsSourced(World(w.run + [e.insert.value], w.jobs), id, None, tz);
    } else {
      JobsSourced(w, id, e.job, tz);
    }
  }

  lemma InsertEnds(db: Db, job: Job, s: Statement, tz: int)
    ensures Execute(db, job, s, tz).insert.Some? ==> Execute(db, job, s, tz).job.None?
  {
  }

  lemma {:induction false} StoredHasSource(acts: seq<Act>, tz: int)
    requires Genuine(acts)
    ensures AllSourced(After(acts, tz), tz)
  {
    if |acts| > 0 {
      StoredHasSource(acts[..|acts| - 1], tz);
      AdvanceSourced(After(acts[..|acts| - 1], tz), acts[|acts| - 1], tz);
    }
  }

  /**
   * For every interleaving and every stored daily row: the row was read somewhere in the run, and its counts are right
   * if and only if the signal query was answered, no counted row had been lost or missed at the reads, and none has
   * been inserted since.
   */
  lemma StoredCountsIff(acts: seq<Act>, s: Summary, tz: int) returns (src: Source)
    requires Genuine(acts) && s in Final(After(acts, tz).run, tz).summaries && s.kind == Daily
    ensures var run := After(acts, tz).run;
            && StoredFrom(run, src, s, tz)
            && (CountsExact(s, run, tz) <==> CountsRead(run, src, s.device, s.date, tz) && NoneMissed(run, src, s.device, s.date, tz))
  {
    StoredHasSource(acts, tz);
    src :| StoredFrom(After(acts, tz).run, src, s, tz);
    CountsExactIff(After(acts, tz).run, src, s, tz);
  }

  // ----- What comes between reading and storing is missed -----

  lemma ActSnoc(acts: seq<Act>, a: Act, tz: int)
    ensures After(acts + [a], tz) == Advance(After(acts, tz), a, tz)
  {
    assert (acts + [a])[..|acts|] == acts;
  }

  /** A daily job up to its INSERT, with nothing in between. */
  function ReadDay(id: nat, device: string, at: int, date: int): seq<Act> {
    [BeginDaily(id, device, at, Some(date)), Run(id, Check(true)), Run(id, ReadSignals(true)), Run(id, ReadEvents(true))]
  }

  lemma DayReads(w: World, id: nat, device: string, date: int, tz: int)
    requires id in w.jobs && w.jobs[id] == DayOpen(device, date)
    ensures Advance(Advance(w, Run(id, ReadSignals(true)), tz), Run(id, ReadEvents(true)), tz)
            == w.(jobs := w.jobs[id := DayRead(device, date, DailyBodyOf(Final(w.run, tz), device, date, tz, true, true))])
  {
    var signals := SignalsRead(device, date, TotalsAt(w.run, device, date, true, tz));
    var w1 := w.(jobs := w.jobs[id := signals]);
    JobMoves(w, id, ReadSignals(true), signals, tz);
    JobMoves(w1, id, ReadEvents(true), DayRead(device, date, DailyBodyOf(Final(w.run, tz), device, date, tz, true, true)), tz);
  }

  lemma DayOpens(w: World, id: nat, device: string, at: int, date: int, tz: int)
    requires device != "" && id !in w.jobs && !HasSummary(Final(w.run, tz).summaries, device, Daily, date)
    ensures Advance(Advance(w, BeginDaily(id, device, at, Some(date)), tz), Run(id, Check(true)), tz)
            == w.(jobs := w.jobs[id := DayOpen(device, date)])
  {
    JobMoves(w.(jobs := w.jobs[id := DayKnown(device, date)]), id, Check(true), DayOpen(device, date), tz);
  }

  lemma TwoMore(acts: seq<Act>, a: Act, b: Act, tz: int)
    ensures After(acts + [a, b], tz) == Advance(Advance(After(acts, tz), a, tz), b, tz)
  {
    assert acts + [a, b] == acts + [a] + [b];
    ActSnoc(acts, a, tz);
    ActSnoc(acts + [a], b, tz);
  }

  lemma FourMore(acts: seq<Act>, a: Act, b: Act, c: Act, d: Act, tz: int)
    ensures After(acts + [a, b, c, d], tz) == Advance(Advance(Advance(Advance(After(acts, tz), a, tz), b, tz), c, tz), d, tz)
  {
    assert acts + [a, b, c, d] == acts + [a, b] + [c, d];
    TwoMore(acts, a, b, tz);
    TwoMore(acts + [a, b], c, d, tz);
  }

  lemma DayReadAfter(acts: seq<Act>, id: nat, device: string, at: int, date: int, tz: int)
    requires device != "" && id !in After(acts, tz).jobs && !HasSummary(Final(After(acts, tz).run, tz).summaries, device, Daily, date)
    ensures var w := After(acts, tz);
            After(acts + ReadDay(id, device, at, date), tz)
            == w.(jobs := w.jobs[id := DayRead(device, date, DailyBodyOf(Final(w.run, tz), device, date, tz, true, true))])
  {
    var w := After(acts, tz);
    var open := w.(jobs := w.jobs[id := DayOpen(device, date)]);
    FourMore(acts, BeginDaily(id, device, at, Some(date)), Run(id, Check(true)), Run(id, ReadSignals(true)), Run(id, ReadEvents(true)), tz);
    DayOpens(w, id, device, at, date, tz);
    DayReads(open, id, device, date, tz);
    var read := DayRead(device, date, DailyBodyOf(Final(w.run, tz), device, date, tz, true, true));
    assert open.jobs[id := read] == w.jobs[id := read];
  }

  lemma MealThenStore(w: World, id: nat, meal: Signal, tz: int)
    requires id in w.jobs && w.jobs[id].DayRead?
    ensures var job := w.jobs[id];
            Advance(Advance(w, Table(InsertSignal(meal)), tz), Run(id, Store(Answered)), tz)
            == World(w.run + [InsertSignal(meal)] + [StoreDaily(job.device, job.date, job.payload)], w.jobs - {id})
  {
  }

  /**
   * The input at which a row between the SELECT and the INSERT is missed: after any acts, a daily job reads an
   * unsummarised day by answered queries, a meal of the day arrives, and the INSERT commits. The stored row, now and
   * for good, has wrong counts, although nothing is lost and nothing arrives after the INSERT.
   */
  lemma RowBetweenReadAndStoreMissed(acts: seq<Act>, id: nat, device: string, at: int, date: int, meal: Signal, tz: int)
    requires device != "" && id !in After(acts, tz).jobs && !HasSummary(Final(After(acts, tz).run, tz).summaries, device, Daily, date)
    requires meal.signalId == 117 && OnDay(device, date, tz)(meal)
    ensures var w := After(acts, tz);
            var p := DailyBodyOf(Final(w.run, tz), device, date, tz, true, true);
            var run := After(acts + ReadDay(id, device, at, date) + [Table(InsertSignal(meal))] + [Run(id, Store(Answered))], tz).run;
            && run == w.run + [InsertSignal(meal)] + [StoreDaily(device, date, p)]
            && DailySummaryOf(device, date, tz, p) in Final(run, tz).summaries
            && !CountsExact(DailySummaryOf(device, date, tz, p), run, tz)
  {
    var w, read := After(acts, tz), acts + ReadDay(id, device, at, date);
    var p := DailyBodyOf(Final(w.run, tz), device, date, tz, true, true);
    DayReadAfter(acts, id, device, at, date, tz);
    MealThenStore(After(read, tz), id, meal, tz);
    ActSnoc(read, Table(InsertSignal(meal)), tz);
    ActSnoc(read + [Table(InsertSignal(meal))], Run(id, Store(Answered)), tz);
    StoredWithoutMeal(w.run, meal, device, date, p, tz);
  }

  lemma OneMeal(meal: Signal, store: Op)
    requires !store.InsertSignal?
    ensures AllSignals([InsertSignal(meal), store]) == [meal]
  {
    var late, one := [InsertSignal(meal), store], [InsertSignal(meal)];
    assert late[..1] == one && one[..0] == [];
    assert AllSignals(one) == [meal];
  }

  lemma StoredWithoutMeal(read: seq<Op>, meal: Signal, device: string, date: int, p: DailyPayload, tz: int)
    requires !HasSummary(Final(read, tz).summaries, device, Daily, date) && p == DailyBodyOf(Final(read, tz), device, date, tz, true, true)
    requires meal.signalId == 117 && OnDay(device, date, tz)(meal)
    ensures var run, s := read + [InsertSignal(meal)] + [StoreDaily(device, date, p)], DailySummaryOf(device, date, tz, p);
            s in Final(run, tz).summaries && !CountsExact(s, run, tz)
  {
    var mid, store := read + [InsertSignal(meal)], StoreDaily(device, date, p);
    var run, s, late := mid + [store], DailySummaryOf(device, date, tz, p), [InsertSignal(meal), store];
    StoredTables(read, InsertSignal(meal), tz);
    StoredTables(mid, store, tz);
    RowAppended(Final(mid, tz), store, tz);
    OneMeal(meal, store);
    assert run == read + late;
    OnlyRow(Counted(device, date, 117, tz), meal);
    SignalCountExactIff(read, late, device, date, true, 117, tz);
    assert 117 in COUNTED_SIGNALS;
    assert p.signals == TotalsAt(read, device, date, true, tz);
  }

  lemma RowAppended(db: Db, store: Op, tz: int)
    requires store.StoreDaily? && !HasSummary(db.summaries, store.device, Daily, store.date)
    ensures DailySummaryOf(store.device, store.date, tz, store.dailyPayload) in Step(db, store, tz).summaries
  {
  }
}
