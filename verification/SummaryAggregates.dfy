/** What the aggregate queries mean, and that the order of table rows never matters. */
module SummaryAggregates {
  import opened Sequences
  import opened SummaryModel
  import opened SummaryProofs
  import opened SummaryTheorems
  import opened SummaryWeekly
  import opened SummaryInterleaving

  // ----- Minimum, maximum and average -----

  /** Some row of the signal carries the value. */
  predicate IsReading(rows: seq<Signal>, signalId: int, v: real) {
    exists r :: r in rows && r.signalId == signalId && r.value == Some(v)
  }

  lemma {:induction false} ValuesAreReadings(rows: seq<Signal>, signalId: int, v: real)
    ensures v in Values(rows, signalId) <==> IsReading(rows, signalId, v)
  {
    if |rows| > 0 {
      var front, last := rows[..|rows| - 1], rows[|rows| - 1];
      assert rows == front + [last];
      ValuesAreReadings(front, signalId, v);
      assert IsReading(rows, signalId, v) <==> IsReading(front, signalId, v) || (last.signalId == signalId && last.value == Some(v));
    }
  }

  predicate IsLeast(xs: seq<real>, m: Option<real>) {
    if m.None? then xs == [] else m.value in xs && forall x :: x in xs ==> m.value <= x
  }

  predicate IsGreatest(xs: seq<real>, m: Option<real>) {
    if m.None? then xs == [] else m.value in xs && forall x :: x in xs ==> x <= m.value
  }

  lemma {:induction false} LeastIsLeast(xs: seq<real>)
    ensures IsLeast(xs, Least(xs))
  {
    if |xs| > 0 {
      LeastIsLeast(xs[..|xs| - 1]);
      assert xs == xs[..|xs| - 1] + [xs[|xs| - 1]];
    }
  }

  lemma {:induction false} GreatestIsGreatest(xs: seq<real>)
    ensures IsGreatest(xs, Greatest(xs))
  {
    if |xs| > 0 {
      GreatestIsGreatest(xs[..|xs| - 1]);
      assert xs == xs[..|xs| - 1] + [xs[|xs| - 1]];
    }
  }

  lemma {:induction false} SumBounds(xs: seq<real>, lo: real, hi: real)
    requires forall x :: x in xs ==> lo <= x <= hi
    ensures lo * (|xs| as real) <= Sum(xs) <= hi * (|xs| as real)
  {
    if |xs| > 0 {
      var n := |xs| - 1;
      forall x | x in xs[..n] ensures lo <= x <= hi {
        assert x in xs;
      }
      assert xs[n] in xs;
      SumBounds(xs[..n], lo, hi);
      Scale(lo, n);
      Scale(hi, n);
    }
  }

  lemma Scale(x: real, n: nat)
    ensures x * ((n + 1) as real) == x * (n as real) + x
  {
  }

  lemma QuotientBounds(sum: real, n: real, lo: real, hi: real)
    requires n > 0.0 && lo * n <= sum <= hi * n
    ensures lo <= sum / n <= hi
  {
    var q := sum / n;
    assert q * n == sum;
    SignOfFactor(q - lo, n);
    SignOfFactor(hi - q, n);
  }

  lemma SignOfFactor(x: real, n: real)
    requires n > 0.0 && x * n >= 0.0
    ensures x >= 0.0
  {
  }

  lemma MeanBounds(xs: seq<real>, lo: real, hi: real)
    requires |xs| > 0 && forall x :: x in xs ==> lo <= x <= hi
    ensures lo <= Sum(xs) / |xs| as real <= hi
  {
    SumBounds(xs, lo, hi);
    QuotientBounds(Sum(xs), |xs| as real, lo, hi);
  }

  lemma MeanBetween(xs: seq<real>)
    requires |xs| > 0
    ensures Least(xs).Some? && Mean(xs).Some? && Greatest(xs).Some?
    ensures Least(xs).value <= Mean(xs).value <= Greatest(xs).value
  {
    LeastIsLeast(xs);
    GreatestIsGreatest(xs);
    MeanBounds(xs, Least(xs).value, Greatest(xs).value);
  }

  /** `lo` and `hi` are the extreme readings of the signal and `mean` lies between them; all are null without a reading. */
  ghost predicate Summarises(rows: seq<Signal>, signalId: int, lo: Option<real>, mean: Option<real>, hi: Option<real>) {
    if lo.None? then mean.None? && hi.None? && forall v: real :: !IsReading(rows, signalId, v)
    else
      && mean.Some? && hi.Some? && lo.value <= mean.value <= hi.value
      && IsReading(rows, signalId, lo.value) && IsReading(rows, signalId, hi.value)
      && forall v: real :: IsReading(rows, signalId, v) ==> lo.value <= v <= hi.value
  }

  lemma ReadingsSummarised(rows: seq<Signal>, signalId: int)
    ensures var xs := Values(rows, signalId); Summarises(rows, signalId, Least(xs), Mean(xs), Greatest(xs))
  {
    var xs := Values(rows, signalId);
    LeastIsLeast(xs);
    GreatestIsGreatest(xs);
    if |xs| > 0 {
      MeanBetween(xs);
    }
    forall v: real ensures v in xs <==> IsReading(rows, signalId, v) {
      ValuesAreReadings(rows, signalId, v);
    }
  }

  /** What a payload's temperature and light figures say about the rows of the day. */
  lemma PayloadBrackets(rows: seq<Signal>)
    ensures var t := AggregateSignals(rows);
            && Summarises(rows, 46, t.tempMin, t.tempAvg, t.tempMax)
            && Summarises(rows, 47, t.lightMin, t.lightAvg, t.lightMax)
            && (exists lo, hi :: Summarises(rows, 48, lo, t.humidityAvg, hi))
            && (exists mean, hi :: Summarises(rows, 73, t.batteryMin, mean, hi))
  {
    ReadingsSummarised(rows, 46);
    ReadingsSummarised(rows, 47);
    ReadingsSummarised(rows, 48);
    ReadingsSummarised(rows, 73);
  }

  // ----- Averages and the least battery level, row by row -----

  /** The row carries a reading of the signal. */
  predicate Carries(r: Signal, signalId: int) { r.signalId == signalId && r.value.Some? }

  /** How many rows carry a reading of the signal, and the sum of those readings. */
  function ReadingCount(rows: seq<Signal>, signalId: int): nat {
    if |rows| == 0 then 0
    else ReadingCount(rows[..|rows| - 1], signalId) + (if Carries(rows[|rows| - 1], signalId) then 1 else 0)
  }
  function ReadingSum(rows: seq<Signal>, signalId: int): real {
    if |rows| == 0 then 0.0
    else ReadingSum(rows[..|rows| - 1], signalId) + (if Carries(rows[|rows| - 1], signalId) then rows[|rows| - 1].value.value else 0.0)
  }

  /** Null exactly without a reading; otherwise its product with the number of readings is their sum. */
  predicate IsAverage(rows: seq<Signal>, signalId: int, average: Option<real>) {
    && (average.None? <==> ReadingCount(rows, signalId) == 0)
    && (average.Some? ==> average.value * (ReadingCount(rows, signalId) as real) == ReadingSum(rows, signalId))
  }

  /** Null exactly without a reading; otherwise a reading that no other is below. */
  ghost predicate IsLeastReading(rows: seq<Signal>, signalId: int, least: Option<real>) {
    && (least.None? <==> ReadingCount(rows, signalId) == 0)
    && (least.Some? ==> IsReading(rows, signalId, least.value) && forall v: real :: IsReading(rows, signalId, v) ==> least.value <= v)
  }

  lemma {:induction false} ReadingsCounted(rows: seq<Signal>, signalId: int)
    ensures |Values(rows, signalId)| == ReadingCount(rows, signalId) && Sum(Values(rows, signalId)) == ReadingSum(rows, signalId)
  {
    if |rows| > 0 {
      var front, last := rows[..|rows| - 1], rows[|rows| - 1];
      ReadingsCounted(front, signalId);
      if Carries(last, signalId) {
        SumAdds(Values(front, signalId), last.value.value);
      }
    }
  }

  lemma QuotientTimes(sum: real, n: nat)
    requires n > 0
    ensures sum / n as real * n as real == sum
  {
  }

  lemma MeanTimesCount(xs: seq<real>, n: nat, sum: real)
    requires n == |xs| && sum == Sum(xs)
    ensures Mean(xs) == if n == 0 then None else Some(sum / n as real)
    ensures n > 0 ==> sum / n as real * n as real == sum
  {
    if n > 0 {
      QuotientTimes(sum, n);
    }
  }

  lemma MeanIsAverage(rows: seq<Signal>, signalId: int)
    ensures IsAverage(rows, signalId, Mean(Values(rows, signalId)))
  {
    ReadingsCounted(rows, signalId);
    MeanTimesCount(Values(rows, signalId), ReadingCount(rows, signalId), ReadingSum(rows, signalId));
  }

  lemma LeastIsLeastReading(rows: seq<Signal>, signalId: int)
    ensures IsLeastReading(rows, signalId, Least(Values(rows, signalId)))
  {
    var xs := Values(rows, signalId);
    ReadingsCounted(rows, signalId);
    LeastIsLeast(xs);
    forall v: real ensures v in xs <==> IsReading(rows, signalId, v) {
      ValuesAreReadings(rows, signalId, v);
    }
  }

  /**
   * Each average of a payload, times the number of rows with a reading of its signal, is the sum of those readings; the
   * battery figure is the least reading. Each is null exactly without a reading.
   */
  lemma PayloadAverages(rows: seq<Signal>)
    ensures var t := AggregateSignals(rows);
            && IsAverage(rows, 46, t.tempAvg) && IsAverage(rows, 47, t.lightAvg) && IsAverage(rows, 48, t.humidityAvg)
            && IsLeastReading(rows, 73, t.batteryMin)
  {
    MeanIsAverage(rows, 46);
    MeanIsAverage(rows, 47);
    MeanIsAverage(rows, 48);
    LeastIsLeastReading(rows, 73);
  }

  // ----- Totals row by row -----

  /** The figures of a payload that are sums and counts, not extremes or averages. */
  datatype Tally = Tally(food: real, meals: nat, treatGrams: real, treats: nat, heartbeats: nat,
                         high: nat, overdue: nat, offline: nat, stale: nat, supply: nat)

  function TallyOf(rows: seq<Signal>, events: seq<Event>): Tally {
    var s, e := AggregateSignals(rows), AggregateEvents(events);
    Tally(s.foodGrams, s.meals, s.treatGrams, s.treats, s.heartbeats, e.high, e.overdue, e.offline, e.stale, e.supply)
  }

  const NOTHING := Tally(0.0, 0, 0.0, 0, 0, 0, 0, 0, 0, 0)

  function Plus(a: Tally, b: Tally): Tally {
    Tally(a.food + b.food, a.meals + b.meals, a.treatGrams + b.treatGrams, a.treats + b.treats, a.heartbeats + b.heartbeats,
          a.high + b.high, a.overdue + b.overdue, a.offline + b.offline, a.stale + b.stale, a.supply + b.supply)
  }

  /** What one signal row adds: its grams to food or treats, and one to the count of its signal. */
  function SignalTally(r: Signal): Tally {
    var grams := OrZero(r.value);
    match r.signalId
    case 117 => NOTHING.(food := grams, meals := 1)
    case 125 => NOTHING.(treatGrams := grams, treats := 1)
    case 71 => NOTHING.(heartbeats := 1)
    case _ => NOTHING
  }

  function One(b: bool): nat { if b then 1 else 0 }

  /** What one event adds: one to the count of its kind, and one to the severe ones if it is high or critical. */
  function EventTally(e: Event): Tally {
    NOTHING.(high := One(e.severity == Some("high") || e.severity == Some("critical")),
             overdue := One(e.kind == "feeding_overdue"), offline := One(e.kind == "device_offline"),
             stale := One(e.kind == "sensor_data_stale"), supply := One(e.kind == "low_supply"))
  }

  function SumTally(rows: seq<Signal>, events: seq<Event>): Tally {
    if |rows| > 0 then Plus(SumTally(rows[..|rows| - 1], events), SignalTally(rows[|rows| - 1]))
    else if |events| > 0 then Plus(SumTally(rows, events[..|events| - 1]), EventTally(events[|events| - 1]))
    else NOTHING
  }

  lemma SignalAdds(rows: seq<Signal>, r: Signal, events: seq<Event>)
    ensures TallyOf(rows + [r], events) == Plus(TallyOf(rows, events), SignalTally(r))
  {
    SumSnoc(rows, r, 117);
    SumSnoc(rows, r, 125);
    SumSnoc(rows, r, 71);
  }

  lemma CountAdds(p: Event -> bool, events: seq<Event>, e: Event)
    ensures |Filter(p, events + [e])| == |Filter(p, events)| + One(p(e))
  {
    FilterSnoc(p, events, e);
  }

  lemma EventAdds(rows: seq<Signal>, events: seq<Event>, e: Event)
    ensures TallyOf(rows, events + [e]) == Plus(TallyOf(rows, events), EventTally(e))
  {
    CountAdds(SevereEvent(), events, e);
    CountAdds(EventOfKind("feeding_overdue"), events, e);
    CountAdds(EventOfKind("device_offline"), events, e);
    CountAdds(EventOfKind("sensor_data_stale"), events, e);
    CountAdds(EventOfKind("low_supply"), events, e);
  }

  /** The sums and counts of a payload are what its rows and events add one by one. */
  lemma {:induction false} PayloadTotals(rows: seq<Signal>, events: seq<Event>)
    ensures TallyOf(rows, events) == SumTally(rows, events)
  {
    if |rows| > 0 {
      var front, r := rows[..|rows| - 1], rows[|rows| - 1];
      assert rows == front + [r];
      PayloadTotals(front, events);
      SignalAdds(front, r, events);
    } else if |events| > 0 {
      var front, e := events[..|events| - 1], events[|events| - 1];
      assert events == front + [e];
      PayloadTotals(rows, front);
      EventAdds(rows, front, e);
    }
  }

  // ----- Stored figures over the history -----

  /** Averages, extremes, sums and counts of a stored payload are those of these rows and events. */
  ghost predicate FiguresOf(p: DailyPayload, rows: seq<Signal>, events: seq<Event>) {
    && p.signals.Some?
    && var t, e := p.signals.value, p.events;
    && IsAverage(rows, 46, t.tempAvg) && IsAverage(rows, 47, t.lightAvg) && IsAverage(rows, 48, t.humidityAvg)
    && Summarises(rows, 46, t.tempMin, t.tempAvg, t.tempMax) && Summarises(rows, 47, t.lightMin, t.lightAvg, t.lightMax)
    && IsLeastReading(rows, 73, t.batteryMin)
    && Tally(t.foodGrams, t.meals, t.treatGrams, t.treats, t.heartbeats, e.high, e.overdue, e.offline, e.stale, e.supply)
       == SumTally(rows, events)
  }

  lemma AggregateFigures(rows: seq<Signal>, events: seq<Event>)
    ensures FiguresOf(DailyPayload(Some(AggregateSignals(rows)), AggregateEvents(events)), rows, events)
  {
    PayloadAverages(rows);
    PayloadBrackets(rows);
    PayloadTotals(rows, events);
  }

  /**
   * Over every orderly interleaving, the figures of a stored daily row, taken row by row, are those of every row and
   * event ever inserted for its day.
   */
  lemma StoredFiguresOfHistory(acts: seq<Act>, s: Summary, tz: int)
    requires OrderlyRun(acts, tz) && s in Final(After(acts, tz).run, tz).summaries && s.kind == Daily
    ensures var run := After(acts, tz).run;
            s.payload.DailyBody?
            && FiguresOf(s.payload.daily, DaySignals(AllSignals(run), s.device, s.date, tz), DayEvents(AllEvents(run), s.device, s.date, tz))
  {
    var run := After(acts, tz).run;
    InterleavedLossless(acts, tz);
    AggregateFigures(DaySignals(AllSignals(run), s.device, s.date, tz), DayEvents(AllEvents(run), s.device, s.date, tz));
  }

  // ----- Row order -----

  lemma SplitAt<T>(ys: seq<T>, i: nat)
    requires i < |ys|
    ensures ys == ys[..i] + ([ys[i]] + ys[i + 1..])
    ensures multiset(ys) == multiset(ys[..i] + ys[i + 1..]) + multiset{ys[i]}
  {
    assert ys == ys[..i] + ([ys[i]] + ys[i + 1..]);
  }

  lemma SamePosition<T>(ys: seq<T>, x: T) returns (i: nat)
    requires x in multiset(ys)
    ensures i < |ys| && ys[i] == x
  {
    i :| i < |ys| && ys[i] == x;
  }

  /** Takes the last element of `xs` out of both of two permutations. */
  lemma Extract<T>(xs: seq<T>, ys: seq<T>) returns (front: seq<T>, x: T, a: seq<T>, b: seq<T>)
    requires multiset(xs) == multiset(ys) && |xs| > 0
    ensures xs == front + [x] && ys == a + ([x] + b) && |front| < |xs| && multiset(front) == multiset(a + b)
  {
    front, x := xs[..|xs| - 1], xs[|xs| - 1];
    assert xs == front + [x];
    var i := SamePosition(ys, x);
    a, b := ys[..i], ys[i + 1..];
    SplitAt(ys, i);
    assert multiset(front) == multiset(xs) - multiset{x};
  }

  lemma FilterAround<T>(p: T -> bool, a: seq<T>, x: T, b: seq<T>)
    ensures multiset(Filter(p, a + ([x] + b))) == multiset(Filter(p, a + b)) + multiset(Filter(p, [x]))
  {
    FilterAppend(p, a, b);
    FilterAppend(p, a, [x] + b);
    FilterAppend(p, [x], b);
  }

  lemma {:induction false} FilterPermutes<T>(p: T -> bool, xs: seq<T>, ys: seq<T>)
    requires multiset(xs) == multiset(ys)
    ensures multiset(Filter(p, xs)) == multiset(Filter(p, ys))
    decreases |xs|
  {
    if |xs| == 0 {
      assert |multiset(ys)| == 0;
    } else {
      var front, x, a, b := Extract(xs, ys);
      FilterPermutes(p, front, a + b);
      FilterAround(p, a, x, b);
      FilterAppend(p, front, [x]);
    }
  }

  lemma CountPermutes<T>(p: T -> bool, xs: seq<T>, ys: seq<T>)
    requires multiset(xs) == multiset(ys)
    ensures |Filter(p, xs)| == |Filter(p, ys)|
  {
    FilterPermutes(p, xs, ys);
    assert |multiset(Filter(p, xs))| == |multiset(Filter(p, ys))|;
  }

  lemma ValuesAround(a: seq<Signal>, x: Signal, b: seq<Signal>, signalId: int)
    ensures multiset(Values(a + ([x] + b), signalId)) == multiset(Values(a + b, signalId)) + multiset(Values([x], signalId))
  {
    ValuesAppend(a, b, signalId);
    ValuesAppend(a, [x] + b, signalId);
    ValuesAppend([x], b, signalId);
  }

  lemma {:induction false} ValuesPermute(xs: seq<Signal>, ys: seq<Signal>, signalId: int)
    requires multiset(xs) == multiset(ys)
    ensures multiset(Values(xs, signalId)) == multiset(Values(ys, signalId))
    decreases |xs|
  {
    if |xs| == 0 {
      assert |multiset(ys)| == 0;
    } else {
      var front, x, a, b := Extract(xs, ys);
      ValuesPermute(front, a + b, signalId);
      ValuesAround(a, x, b, signalId);
      ValuesAppend(front, [x], signalId);
    }
  }

  lemma {:induction false} SumAppend(xs: seq<real>, ys: seq<real>)
    ensures Sum(xs + ys) == Sum(xs) + Sum(ys)
  {
    if |ys| == 0 {
      assert xs + ys == xs;
    } else {
      assert (xs + ys)[..|xs + ys| - 1] == xs + ys[..|ys| - 1];
      SumAppend(xs, ys[..|ys| - 1]);
    }
  }

  lemma {:induction false} SumPermutes(xs: seq<real>, ys: seq<real>)
    requires multiset(xs) == multiset(ys)
    ensures Sum(xs) == Sum(ys)
    decreases |xs|
  {
    if |xs| == 0 {
      assert |multiset(ys)| == 0;
    } else {
      var front, x, a, b := Extract(xs, ys);
      SumPermutes(front, a + b);
      SumAppend(front, [x]);
      SumAppend(a, b);
      SumAppend(a, [x] + b);
      SumAppend([x], b);
    }
  }

  /** Extremes, mean, sum and length do not depend on the order of the values. */
  lemma FiguresPermute(xs: seq<real>, ys: seq<real>)
    requires multiset(xs) == multiset(ys)
    ensures Least(xs) == Least(ys) && Greatest(xs) == Greatest(ys) && Mean(xs) == Mean(ys) && Sum(xs) == Sum(ys)
  {
    assert |multiset(xs)| == |multiset(ys)|;
    forall x ensures x in xs <==> x in ys {
      assert x in xs <==> x in multiset(xs);
    }
    SumPermutes(xs, ys);
    LeastIsLeast(xs);
    LeastIsLeast(ys);
    GreatestIsGreatest(xs);
    GreatestIsGreatest(ys);
  }

  lemma ReadingsPermute(xs: seq<Signal>, ys: seq<Signal>, signalId: int)
    requires multiset(xs) == multiset(ys)
    ensures var u, v := Values(xs, signalId), Values(ys, signalId);
            Least(u) == Least(v) && Greatest(u) == Greatest(v) && Mean(u) == Mean(v) && Sum(u) == Sum(v)
    ensures Count(xs, signalId) == Count(ys, signalId)
  {
    ValuesPermute(xs, ys, signalId);
    FiguresPermute(Values(xs, signalId), Values(ys, signalId));
    CountPermutes(HasSignal(signalId), xs, ys);
  }

  lemma SignalTotalsPermute(xs: seq<Signal>, ys: seq<Signal>)
    requires multiset(xs) == multiset(ys)
    ensures AggregateSignals(xs) == AggregateSignals(ys)
  {
    ReadingsPermute(xs, ys, 46);
    ReadingsPermute(xs, ys, 47);
    ReadingsPermute(xs, ys, 48);
    ReadingsPermute(xs, ys, 73);
    ReadingsPermute(xs, ys, 117);
    ReadingsPermute(xs, ys, 125);
    ReadingsPermute(xs, ys, 71);
  }

  lemma EventTotalsPermute(xs: seq<Event>, ys: seq<Event>)
    requires multiset(xs) == multiset(ys)
    ensures AggregateEvents(xs) == AggregateEvents(ys)
  {
    CountPermutes(SevereEvent(), xs, ys);
    CountPermutes(EventOfKind("feeding_overdue"), xs, ys);
    CountPermutes(EventOfKind("device_offline"), xs, ys);
    CountPermutes(EventOfKind("sensor_data_stale"), xs, ys);
    CountPermutes(EventOfKind("low_supply"), xs, ys);
  }

  /** The same signal and event rows, in any order, and the same summaries. */
  ghost predicate SameRows(a: Db, b: Db) {
    multiset(a.signals) == multiset(b.signals) && multiset(a.events) == multiset(b.events) && a.summaries == b.summaries
  }

  lemma PayloadsPermute(a: Db, b: Db, device: string, date: int, tz: int, signalsOk: bool, eventsOk: bool)
    requires SameRows(a, b)
    ensures DailyBodyOf(a, device, date, tz, signalsOk, eventsOk) == DailyBodyOf(b, device, date, tz, signalsOk, eventsOk)
  {
    FilterPermutes(SignalIn(device, DayStart(date, tz), DayStart(date + 1, tz)), a.signals, b.signals);
    FilterPermutes(EventIn(device, DayStart(date, tz), DayStart(date + 1, tz)), a.events, b.events);
    SignalTotalsPermute(DaySignals(a.signals, device, date, tz), DaySignals(b.signals, device, date, tz));
    EventTotalsPermute(DayEvents(a.events, device, date, tz), DayEvents(b.events, device, date, tz));
  }

  lemma CleanupPermutes(a: Db, b: Db, cutoff: int, signalsOk: bool, eventsOk: bool)
    requires SameRows(a, b)
    ensures SameRows(CleanupStep(a, cutoff, signalsOk, eventsOk), CleanupStep(b, cutoff, signalsOk, eventsOk))
  {
    forall r | r in a.signals ensures SignalKept(a, cutoff)(r) == SignalKept(b, cutoff)(r) {
      CountPermutes(Newer(r), a.signals, b.signals);
    }
    FilterSame(SignalKept(a, cutoff), SignalKept(b, cutoff), a.signals);
    FilterPermutes(SignalKept(b, cutoff), a.signals, b.signals);
    FilterSame(EventKept(a, cutoff), EventKept(b, cutoff), a.events);
    FilterPermutes(EventKept(b, cutoff), a.events, b.events);
  }

  lemma DailyPermutes(a: Db, b: Db, device: string, date: int, tz: int, f: Faults)
    requires SameRows(a, b)
    ensures SameRows(DailyStep(a, device, date, tz, f), DailyStep(b, device, date, tz, f))
  {
    PayloadsPermute(a, b, device, date, tz, f.signalsOk, f.eventsOk);
    assert DailyReachesInsert(a, device, date, f) == DailyReachesInsert(b, device, date, f);
  }

  lemma WeeklyPermutes(a: Db, b: Db, device: string, at: int, tz: int, f: Faults)
    requires SameRows(a, b)
    ensures SameRows(WeeklyStep(a, device, at, tz, f), WeeklyStep(b, device, at, tz, f))
  {
    assert WeekRows(a, device, at, tz, f.signalsOk) == WeekRows(b, device, at, tz, f.signalsOk);
    assert WeeklyReachesInsert(a, device, at, tz, f) == WeeklyReachesInsert(b, device, at, tz, f);
  }

  /** No operation depends on the order of rows in the signal and event tables: every payload and every surviving row is the same. */
  lemma RowOrderIrrelevant(a: Db, b: Db, op: Op, tz: int)
    requires SameRows(a, b)
    ensures SameRows(Step(a, op, tz), Step(b, op, tz))
  {
    match op
    case MakeDaily(device, at, runDate, f) => DailyPermutes(a, b, device, TargetDate(at, runDate, tz), tz, f);
    case MakeWeekly(device, at, f) => WeeklyPermutes(a, b, device, at, tz, f);
    case Cleanup(at, days, signalsOk, eventsOk) => CleanupPermutes(a, b, Cutoff(at, days), signalsOk, eventsOk);
    case _ =>
  }
}
