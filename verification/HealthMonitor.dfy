/** Heartbeat staleness, pump verdicts and the battery latch of the health monitor. */
module HealthMonitor {
  import opened Sequences

  const STALE_MS := 3000
  const PUMP_TIMEOUT_MS := 10_000
  const BATTERY_SNAPSHOT_MS := 60_000
  const BATTERY_LOW := 10.0
  const BATTERY_STEP := 3.0

  type Byte = n: nat | n < 256

  /** The status text of the pump: "running" or anything else. */
  datatype PumpStatus = Running | Other(name: string)

  /** Callbacks of the node; `now` is their millisecond clock. */
  datatype Ev =
    | Tick(now: nat)
    | Beat(seqNum: Byte, now: nat)
    | SetPump(status: PumpStatus, now: nat)
    | SetBowl(bowl: int, now: nat)
    | SetBattery(level: real, now: nat)

  /** Clocks do not run back and the first callback is after time 0. */
  predicate ClockOrdered(run: seq<Ev>) {
    |run| == 0 ||
    (ClockOrdered(run[..|run| - 1]) && run[|run| - 1].now > 0 && (|run| > 1 ==> run[|run| - 2].now <= run[|run| - 1].now))
  }

  function Clock(run: seq<Ev>): nat { if |run| == 0 then 0 else run[|run| - 1].now }

  // ----- Heartbeat -----

  datatype Missed = Missed(at: nat, silent: bool, change: nat)

  datatype Heart = Heart(arrival: nat, change: nat, seqNum: nat, stale: bool, missed: seq<Missed>)

  function HeartStep(h: Heart, e: Ev): Heart {
    match e
    case Tick(now) =>
      var silent, stagnant := now - h.arrival >= STALE_MS, now - h.change >= STALE_MS;
      if h.arrival > 0 && (silent || stagnant) && !h.stale
      then h.(stale := true, missed := h.missed + [Missed(now, silent, h.change)]) else h
    case Beat(n, now) =>
      if n != h.seqNum then h.(arrival := now, seqNum := n, change := now, stale := false) else h.(arrival := now)
    case _ => h
  }

  function HeartAfter(run: seq<Ev>): Heart {
    if |run| == 0 then Heart(0, 0, 0, false, []) else HeartStep(HeartAfter(run[..|run| - 1]), run[|run| - 1])
  }

  /** The number of the latest heartbeat, 0 before the first. */
  function LastNumber(run: seq<Ev>): nat {
    if |run| == 0 then 0 else if run[|run| - 1].Beat? then run[|run| - 1].seqNum else LastNumber(run[..|run| - 1])
  }

  /** When the heartbeat number last changed, 0 before any change. */
  function LastChange(run: seq<Ev>): nat {
    if |run| == 0 then 0
    else
      var front, e := run[..|run| - 1], run[|run| - 1];
      if e.Beat? && e.seqNum != LastNumber(front) then e.now else LastChange(front)
  }

  predicate HasBeat(run: seq<Ev>) { exists e :: e in run && e.Beat? }

  ghost predicate HeartInv(h: Heart, run: seq<Ev>) {
    && h.seqNum == LastNumber(run) && h.change == LastChange(run) && h.change <= h.arrival <= Clock(run)
    && (h.arrival > 0 <==> HasBeat(run))
    && (h.stale ==> Clock(run) - h.change >= STALE_MS && h.arrival > 0
                    && |h.missed| > 0 && h.missed[|h.missed| - 1].change == h.change)
    && (|h.missed| > 0 && !h.stale ==> h.missed[|h.missed| - 1].at <= h.change)
    && (forall i :: 0 <= i < |h.missed| ==> h.missed[i].change + STALE_MS <= h.missed[i].at <= Clock(run))
    && (forall i :: 0 < i < |h.missed| ==> h.missed[i - 1].at <= h.missed[i].change)
  }

  lemma {:induction false} HeartInvHolds(run: seq<Ev>)
    requires ClockOrdered(run)
    ensures HeartInv(HeartAfter(run), run)
  {
    if |run| > 0 {
      var front, e := run[..|run| - 1], run[|run| - 1];
      HeartInvHolds(front);
      assert run == front + [e];
      assert HasBeat(run) <==> HasBeat(front) || e.Beat?;
    }
  }

  /** After a tick that follows a first heartbeat, the flag says whether the number has been unchanged for 3 s. */
  lemma StaleIffUnchanged(run: seq<Ev>, now: nat)
    requires ClockOrdered(run + [Tick(now)]) && HasBeat(run)
    ensures HeartAfter(run + [Tick(now)]).stale <==> now - LastChange(run) >= STALE_MS
  {
    var r := run + [Tick(now)];
    assert r[..|run|] == run;
    if |run| > 0 {
      assert r[|r| - 2] == run[|run| - 1];
    }
    HeartInvHolds(run);
  }

  /** Silence implies stagnation: a heartbeat number cannot change without a heartbeat arriving. */
  lemma SilentIsStagnant(run: seq<Ev>, now: nat)
    requires ClockOrdered(run)
    ensures var h := HeartAfter(run); now - h.arrival >= STALE_MS ==> now - LastChange(run) >= STALE_MS
  {
    HeartInvHolds(run);
  }

  /** Between two missed-heartbeat events the number changed, and the later one came at least 3 s after that change. */
  lemma MissedEventsSeparated(run: seq<Ev>, i: nat, j: nat)
    requires ClockOrdered(run) && i < j < |HeartAfter(run).missed|
    ensures var m := HeartAfter(run).missed; m[i].at <= m[j].change && m[j].change + STALE_MS <= m[j].at
    decreases j
  {
    HeartInvHolds(run);
    if i < j - 1 {
      MissedEventsSeparated(run, i, j - 1);
    }
  }

  /** When the latest heartbeat arrived, 0 before the first. */
  function LastBeat(run: seq<Ev>): nat {
    if |run| == 0 then 0 else if run[|run| - 1].Beat? then run[|run| - 1].now else LastBeat(run[..|run| - 1])
  }

  lemma {:induction false} ArrivalIsLastBeat(run: seq<Ev>)
    ensures HeartAfter(run).arrival == LastBeat(run)
  {
    if |run| > 0 {
      ArrivalIsLastBeat(run[..|run| - 1]);
    }
  }

  /** The number's latest change has been reported as stagnant. */
  predicate ReportedSince(missed: seq<Missed>, change: nat) { |missed| > 0 && missed[|missed| - 1].change == change }

  /**
   * A tick reports a missed heartbeat if and only if there has been one, the number has not changed for 3 s and that
   * has not been reported yet; the report says whether the device has also been silent for 3 s. Nothing else reports.
   */
  lemma MissedIff(run: seq<Ev>, e: Ev)
    requires ClockOrdered(run + [e])
    ensures var m, m' := HeartAfter(run).missed, HeartAfter(run + [e]).missed;
            m' == if e.Tick? && HasBeat(run) && e.now - LastChange(run) >= 3000 && !ReportedSince(m, LastChange(run))
                  then m + [Missed(e.now, e.now - LastBeat(run) >= 3000, LastChange(run))] else m
  {
    var r := run + [e];
    assert r[..|run|] == run;
    if |run| > 0 {
      assert r[|r| - 2] == run[|run| - 1];
    }
    HeartInvHolds(run);
    ArrivalIsLastBeat(run);
  }

  // ----- Pump -----

  datatype Verdict = Failed(at: nat, level: int) | Healthy(at: nat)

  /** A pump run that is over: from the start event to the first other status. */
  datatype PumpRun = PumpRun(start: nat, verdicts: seq<Verdict>, stop: nat)

  /** What is over, in order: pump runs, and verdicts emitted while no run was under way. */
  datatype Chapter = Completed(pumpRun: PumpRun) | Stray(verdict: Verdict)

  /** `verdicts` is what was emitted; `current` collects the verdicts of the run under way. */
  datatype Pump = Pump(status: PumpStatus, running: bool, onSince: nat, damage: bool, bowl: int, verdicts: seq<Verdict>,
                       current: seq<Verdict>, chapters: seq<Chapter>)

  const PUMP_INITIAL := Pump(Other("unknown"), false, 0, false, 0, [], [], [])

  function PumpStep(p: Pump, e: Ev): Pump {
    match e
    case Tick(now) =>
      if p.running && !p.damage && now - p.onSince >= PUMP_TIMEOUT_MS && p.bowl != 1
      then p.(damage := true, verdicts := p.verdicts + [Failed(now, p.bowl)], current := p.current + [Failed(now, p.bowl)])
      else p
    case SetPump(status, now) =>
      if status == p.status then p
      else if status == Running then p.(status := status, running := true, onSince := now, damage := false, current := [])
      else
        var said := if p.damage then [] else [Healthy(now)];
        p.(status := status, running := false, verdicts := p.verdicts + said, current := [],
           chapters := if p.running then p.chapters + [Completed(PumpRun(p.onSince, p.current + said, now))]
                       else if p.damage then p.chapters else p.chapters + [Stray(Healthy(now))])
    case SetBowl(level, _) => p.(bowl := level)
    case _ => p
  }

  function PumpAfter(run: seq<Ev>): Pump {
    if |run| == 0 then PUMP_INITIAL else PumpStep(PumpAfter(run[..|run| - 1]), run[|run| - 1])
  }

  /** A failure after at least 10 s with the bowl not full, by the given time. */
  predicate GoodFailure(v: Verdict, start: nat, limit: nat) {
    v.Failed? && start + PUMP_TIMEOUT_MS <= v.at <= limit && v.level != 1
  }

  /** Exactly one verdict: a good failure, or healthy at the stop. */
  predicate Judged(r: PumpRun) {
    |r.verdicts| == 1 && (GoodFailure(r.verdicts[0], r.start, r.stop) || r.verdicts[0] == Healthy(r.stop))
  }

  /** The verdicts of the chapters, one after the other. */
  function Told(chapters: seq<Chapter>): seq<Verdict> {
    if |chapters| == 0 then []
    else
      var front, last := Told(chapters[..|chapters| - 1]), chapters[|chapters| - 1];
      match last
      case Completed(r) => front + r.verdicts
      case Stray(v) => front + [v]
  }

  ghost predicate PumpInv(p: Pump, clock: nat) {
    && (p.running <==> p.status == Running)
    && p.onSince <= clock
    && (if p.running && p.damage then |p.current| == 1 && GoodFailure(p.current[0], p.onSince, clock) else p.current == [])
    && (forall i :: 0 <= i < |p.chapters| && p.chapters[i].Completed? ==> Judged(p.chapters[i].pumpRun))
    && p.verdicts == Told(p.chapters) + p.current
  }

  lemma ToldSnoc(chapters: seq<Chapter>, c: Chapter)
    ensures Told(chapters + [c]) == Told(chapters) + (if c.Completed? then c.pumpRun.verdicts else [c.verdict])
  {
    assert (chapters + [c])[..|chapters|] == chapters;
  }

  lemma PumpKept(p: Pump, e: Ev, clock: nat)
    requires PumpInv(p, clock) && clock <= e.now
    ensures PumpInv(PumpStep(p, e), e.now)
  {
    if e.SetPump? && e.status != p.status && e.status != Running {
      var said := if p.damage then [] else [Healthy(e.now)];
      ToldSnoc(p.chapters, Completed(PumpRun(p.onSince, p.current + said, e.now)));
      ToldSnoc(p.chapters, Stray(Healthy(e.now)));
    }
  }

  lemma {:induction false} PumpInvHolds(run: seq<Ev>)
    requires ClockOrdered(run)
    ensures PumpInv(PumpAfter(run), Clock(run))
  {
    if |run| > 0 {
      PumpInvHolds(run[..|run| - 1]);
      PumpKept(PumpAfter(run[..|run| - 1]), run[|run| - 1], Clock(run[..|run| - 1]));
    }
  }

  /**
   * Every completed pump run has exactly one verdict, the run under way has at most a failure, and what was emitted is
   * exactly, in order, the verdicts of the completed runs and the stray ones, then that of the run under way.
   */
  lemma OneVerdictPerRun(run: seq<Ev>)
    requires ClockOrdered(run)
    ensures var p := PumpAfter(run);
            && (forall i :: 0 <= i < |p.chapters| && p.chapters[i].Completed? ==> Judged(p.chapters[i].pumpRun))
            && |p.current| <= 1 && (p.current != [] ==> p.running && GoodFailure(p.current[0], p.onSince, Clock(run)))
            && p.verdicts == Told(p.chapters) + p.current
  {
    PumpInvHolds(run);
  }

  // ----- Which verdict a pump run gets -----

  /** The status and the bowl level that the history reported last. */
  function LastStatus(run: seq<Ev>): PumpStatus {
    if |run| == 0 then Other("unknown") else if run[|run| - 1].SetPump? then run[|run| - 1].status else LastStatus(run[..|run| - 1])
  }
  function LastBowl(run: seq<Ev>): int {
    if |run| == 0 then 0 else if run[|run| - 1].SetBowl? then run[|run| - 1].bowl else LastBowl(run[..|run| - 1])
  }

  /** The pump starts with event `a` and no event before `b` stops it. */
  ghost predicate PumpRuns(run: seq<Ev>, a: nat, b: nat) {
    && a < b <= |run| && run[a].SetPump? && run[a].status == Running && LastStatus(run[..a]) != Running
    && forall k :: a < k < b && run[k].SetPump? ==> run[k].status == Running
  }

  /** Event `k` is a tick at least 10 s after the start at `a` that finds the bowl not full. */
  predicate DryTick(run: seq<Ev>, a: nat, k: nat) {
    a < k < |run| && run[k].Tick? && run[k].now - run[a].now >= 10_000 && LastBowl(run[..k]) != 1
  }

  /** The first such tick before `b`. */
  function FirstDry(run: seq<Ev>, a: nat, b: nat): (k: Option<nat>)
    requires b <= |run|
    ensures if k.Some? then DryTick(run, a, k.value) && k.value < b && forall j: nat :: j < k.value ==> !DryTick(run, a, j)
            else forall j: nat :: j < b ==> !DryTick(run, a, j)
  {
    if b == 0 then None
    else
      var k := FirstDry(run, a, b - 1);
      if k.Some? then k else if DryTick(run, a, b - 1) then Some(b - 1) else None
  }

  /** The failure reported by a dry tick. */
  function DryVerdict(run: seq<Ev>, k: Option<nat>): seq<Verdict>
    requires k.Some? ==> k.value < |run|
  {
    if k.Some? then [Failed(run[k.value].now, LastBowl(run[..k.value]))] else []
  }

  lemma PumpSnoc(run: seq<Ev>, b: nat)
    requires b < |run|
    ensures PumpAfter(run[..b + 1]) == PumpStep(PumpAfter(run[..b]), run[b])
  {
    assert run[..b + 1][..b] == run[..b];
  }

  lemma {:induction false} StatusAndBowl(run: seq<Ev>)
    ensures PumpAfter(run).status == LastStatus(run) && PumpAfter(run).bowl == LastBowl(run)
  {
    if |run| > 0 {
      StatusAndBowl(run[..|run| - 1]);
    }
  }

  /** The state of the pump at point `b` of a run that began with event `a`. */
  ghost predicate UnderWay(run: seq<Ev>, a: nat, b: nat)
    requires a < b <= |run|
  {
    var p := PumpAfter(run[..b]);
    && p.running && p.status == Running && p.onSince == run[a].now && (p.damage <==> FirstDry(run, a, b).Some?)
    && p.verdicts == PumpAfter(run[..a]).verdicts + DryVerdict(run, FirstDry(run, a, b))
  }

  lemma PumpStarts(run: seq<Ev>, a: nat)
    requires PumpRuns(run, a, a + 1)
    ensures UnderWay(run, a, a + 1)
  {
    PumpSnoc(run, a);
    StatusAndBowl(run[..a]);
  }

  lemma PumpGoesOn(run: seq<Ev>, a: nat, b: nat)
    requires PumpRuns(run, a, b + 1) && a < b && UnderWay(run, a, b)
    ensures UnderWay(run, a, b + 1)
  {
    PumpSnoc(run, b);
    StatusAndBowl(run[..b]);
  }

  lemma {:induction false} PumpUnderWay(run: seq<Ev>, a: nat, b: nat)
    requires PumpRuns(run, a, b)
    ensures UnderWay(run, a, b)
    decreases b
  {
    if b == a + 1 {
      PumpStarts(run, a);
    } else {
      PumpUnderWay(run, a, b - 1);
      PumpGoesOn(run, a, b - 1);
    }
  }

  /**
   * Which verdict a pump run gets, the run under way included: up to any point of it the verdicts emitted since its
   * start are one failure, at its first dry tick, if there is one; and the event that stops it adds healthy if and only
   * if there is none.
   */
  lemma VerdictOfPumpRun(run: seq<Ev>, a: nat, b: nat)
    requires PumpRuns(run, a, b)
    ensures var before, dry := PumpAfter(run[..a]).verdicts, FirstDry(run, a, b);
            && PumpAfter(run[..b]).verdicts == before + (if dry.Some? then [Failed(run[dry.value].now, LastBowl(run[..dry.value]))] else [])
            && (b < |run| && run[b].SetPump? && run[b].status != Running ==>
                  PumpAfter(run[..b + 1]).verdicts
                  == before + [if dry.Some? then Failed(run[dry.value].now, LastBowl(run[..dry.value])) else Healthy(run[b].now)])
  {
    PumpUnderWay(run, a, b);
    if b < |run| {
      PumpSnoc(run, b);
    }
  }

  /** When the pump last started. */
  function LastStart(run: seq<Ev>): nat {
    if |run| == 0 then 0
    else
      var front, e := run[..|run| - 1], run[|run| - 1];
      if e.SetPump? && e.status == Running && LastStatus(front) != Running then e.now else LastStart(front)
  }

  /** The latest pump run, over or not, had a dry tick. */
  function FailureStands(run: seq<Ev>): bool {
    if |run| == 0 then false
    else
      var front, e := run[..|run| - 1], run[|run| - 1];
      if e.SetPump? && e.status == Running && LastStatus(front) != Running then false
      else
        FailureStands(front)
        || (e.Tick? && LastStatus(front) == Running && e.now - LastStart(front) >= 10_000 && LastBowl(front) != 1)
  }

  lemma {:induction false} FailureIsDamage(run: seq<Ev>)
    requires ClockOrdered(run)
    ensures var p := PumpAfter(run);
            p.damage == FailureStands(run) && p.onSince == LastStart(run) && (p.running <==> LastStatus(run) == Running)
  {
    if |run| > 0 {
      var front := run[..|run| - 1];
      FailureIsDamage(front);
      StatusAndBowl(front);
      PumpInvHolds(front);
    }
  }

  /**
   * Event by event, on the history alone: a failure is emitted exactly by the first dry tick of a pump run, healthy
   * exactly by a change to another status than running when the latest pump run had no dry tick, and nothing else.
   */
  lemma VerdictIff(run: seq<Ev>, e: Ev)
    requires ClockOrdered(run)
    ensures var bowl := LastBowl(run);
            PumpStep(PumpAfter(run), e).verdicts
            == PumpAfter(run).verdicts
               + (if e.Tick? && LastStatus(run) == Running && e.now - LastStart(run) >= 10_000 && bowl != 1 && !FailureStands(run)
                  then [Failed(e.now, bowl)]
                  else if e.SetPump? && e.status != LastStatus(run) && e.status != Running && !FailureStands(run)
                  then [Healthy(e.now)] else [])
  {
    FailureIsDamage(run);
    StatusAndBowl(run);
  }

  /** A verdict without a run is emitted exactly on a change between two other statuses with no failure standing. */
  lemma StrayVerdictIff(run: seq<Ev>, status: PumpStatus, now: nat)
    requires ClockOrdered(run)
    ensures var p, p' := PumpAfter(run), PumpStep(PumpAfter(run), SetPump(status, now));
            p'.chapters == p.chapters + [Stray(Healthy(now))]
            <==> p.status != status && p.status != Running && status != Running && !p.damage
  {
    PumpInvHolds(run);
    var p, p' := PumpAfter(run), PumpStep(PumpAfter(run), SetPump(status, now));
    assert p'.chapters == p.chapters + [Stray(Healthy(now))] ==> p'.chapters[|p.chapters|] == Stray(Healthy(now));
  }

  // ----- Battery -----

  /** `lows` records, for each low-battery event, how many healthy ticks came before it. */
  datatype Battery = Battery(level: real, lastEmit: nat, latched: bool, healthyTicks: nat, lows: seq<nat>, reports: seq<real>)

  function Abs(x: real): real { if x < 0.0 then -x else x }

  function BatteryStep(b: Battery, e: Ev): Battery {
    match e
    case Tick(now) =>
      if 0.0 <= b.level < BATTERY_LOW then
        if b.latched then b else b.(lastEmit := now, latched := true, lows := b.lows + [b.healthyTicks])
      else if b.level >= BATTERY_LOW then
        var b' := b.(latched := false, healthyTicks := b.healthyTicks + 1);
        if now - b.lastEmit >= BATTERY_SNAPSHOT_MS then b'.(lastEmit := now, reports := b.reports + [b.level]) else b'
      else b
    case SetBattery(level, now) =>
      if now - b.lastEmit >= BATTERY_SNAPSHOT_MS || b.level < 0.0 || Abs(level - b.level) >= BATTERY_STEP
      then b.(level := level, lastEmit := now, reports := b.reports + [level]) else b
    case _ => b
  }

  function BatteryAfter(run: seq<Ev>): Battery {
    if |run| == 0 then Battery(-1.0, 0, false, 0, [], []) else BatteryStep(BatteryAfter(run[..|run| - 1]), run[|run| - 1])
  }

  ghost predicate BatteryInv(b: Battery) {
    && (forall i :: 0 <= i < |b.lows| ==> b.lows[i] <= b.healthyTicks)
    && (forall i, j :: 0 <= i < j < |b.lows| ==> b.lows[i] < b.lows[j])
    && (!b.latched && |b.lows| > 0 ==> b.lows[|b.lows| - 1] < b.healthyTicks)
  }

  lemma {:induction false} BatteryInvHolds(run: seq<Ev>)
    ensures BatteryInv(BatteryAfter(run))
  {
    if |run| > 0 {
      BatteryInvHolds(run[..|run| - 1]);
    }
  }

  /** Between two low-battery events some tick saw a level of at least 10. */
  lemma LowEventsSeparated(run: seq<Ev>, i: nat, j: nat)
    requires i < j < |BatteryAfter(run).lows|
    ensures BatteryAfter(run).lows[i] < BatteryAfter(run).lows[j]
  {
    BatteryInvHolds(run);
  }

  /** The level that was reported last, if any. */
  function LastReport(reports: seq<real>): real { if |reports| == 0 then -1.0 else reports[|reports| - 1] }

  /** When a report or a low-battery event was last emitted, 0 before the first. */
  function LastEmission(run: seq<Ev>): nat {
    if |run| == 0 then 0
    else
      var front, e := run[..|run| - 1], run[|run| - 1];
      var b, b' := BatteryAfter(front), BatteryAfter(run);
      if |b'.reports| + |b'.lows| > |b.reports| + |b.lows| then e.now else LastEmission(front)
  }

  /** The latest tick that knew a level saw a low one. */
  function LowBefore(run: seq<Ev>): bool {
    if |run| == 0 then false
    else
      var front, e := run[..|run| - 1], run[|run| - 1];
      var level := LastReport(BatteryAfter(front).reports);
      if e.Tick? && level >= 0.0 then level < 10.0 else LowBefore(front)
  }

  lemma {:induction false} BatteryFields(run: seq<Ev>)
    ensures var b := BatteryAfter(run);
            b.level == LastReport(b.reports) && b.lastEmit == LastEmission(run) && b.latched == LowBefore(run)
  {
    if |run| > 0 {
      BatteryFields(run[..|run| - 1]);
    }
  }

  /** A low-battery event is emitted exactly at a tick whose reported level is low and the previous known one was not. */
  lemma LowEventIff(run: seq<Ev>, e: Ev)
    ensures var b := BatteryAfter(run);
            |BatteryStep(b, e).lows| == |b.lows| + (if e.Tick? && 0.0 <= LastReport(b.reports) < 10.0 && !LowBefore(run) then 1 else 0)
  {
    BatteryFields(run);
  }

  /**
   * A level is reported exactly by a tick, at least 60 s after the last emission and while the reported level is at
   * least 10, or by an update that is the first, differs from the reported level by at least 3 points, or comes at
   * least 60 s after the last emission.
   */
  lemma ReportIff(run: seq<Ev>, e: Ev)
    ensures var b := BatteryAfter(run);
            var last, late := LastReport(b.reports), e.now - LastEmission(run) >= 60_000;
            BatteryStep(b, e).reports
            == match e
               case Tick(_) => if last >= 10.0 && late then b.reports + [last] else b.reports
               case SetBattery(level, _) =>
                 if late || last < 0.0 || level - last >= 3.0 || last - level >= 3.0 then b.reports + [level] else b.reports
               case _ => b.reports
  {
    BatteryFields(run);
  }

  /** The level of the latest battery update. */
  function LastLevel(run: seq<Ev>): Option<real> {
    if |run| == 0 then None
    else if run[|run| - 1].SetBattery? then Some(run[|run| - 1].level)
    else LastLevel(run[..|run| - 1])
  }

  /** However updates were reported or suppressed, the cached level is within 3 points of the latest true one. */
  lemma {:induction false} CachedLevelClose(run: seq<Ev>)
    ensures var b, last := BatteryAfter(run), LastLevel(run);
            if last.None? then b.level == -1.0 else Abs(last.value - b.level) < BATTERY_STEP
  {
    if |run| > 0 {
      CachedLevelClose(run[..|run| - 1]);
    }
  }

  // ----- The monitor -----

  class Monitor {
    var lastHbArrival: nat
    var lastHbChange: nat
    var lastHbSeq: nat
    var hbStale: bool
    var missed: seq<Missed>

    var lastPumpState: PumpStatus
    var pumpRunning: bool
    var pumpOnStart: nat
    var pumpDamageReported: bool
    var lastBowlLevel: int
    var pumpVerdicts: seq<Verdict>
    ghost var currentRun: seq<Verdict>
    ghost var chapters: seq<Chapter>

    var lastBatteryLevel: real
    var lastBatteryEmit: nat
    var batteryLowLogged: bool
    var batteryReports: seq<real>
    ghost var healthyTicks: nat
    ghost var lows: seq<nat>

    function HeartState(): Heart
      reads this
    {
      Heart(lastHbArrival, lastHbChange, lastHbSeq, hbStale, missed)
    }

    ghost function PumpState(): Pump
      reads this
    {
      Pump(lastPumpState, pumpRunning, pumpOnStart, pumpDamageReported, lastBowlLevel, pumpVerdicts, currentRun, chapters)
    }

    ghost function BatteryState(): Battery
      reads this
    {
      Battery(lastBatteryLevel, lastBatteryEmit, batteryLowLogged, healthyTicks, lows, batteryReports)
    }

    constructor ()
      ensures HeartState() == HeartAfter([]) && PumpState() == PumpAfter([]) && BatteryState() == BatteryAfter([])
    {
      lastHbArrival, lastHbChange, lastHbSeq, hbStale, missed := 0, 0, 0, false, [];
      lastPumpState, pumpRunning, pumpOnStart, pumpDamageReported, lastBowlLevel := Other("unknown"), false, 0, false, 0;
      pumpVerdicts, currentRun, chapters := [], [], [];
      lastBatteryLevel, lastBatteryEmit, batteryLowLogged, batteryReports, healthyTicks, lows := -1.0, 0, false, [], 0, [];
    }

    method TickHeartbeat(now: nat)
      modifies this`missed, this`hbStale
      ensures HeartState() == HeartStep(old(HeartState()), Tick(now))
    {
      if lastHbArrival > 0 {
        var silent := now - lastHbArrival >= STALE_MS;
        var stagnant := now - lastHbChange >= STALE_MS;
        if (silent || stagnant) && !hbStale {
          missed := missed + [Missed(now, silent, lastHbChange)];
          hbStale := true;
        }
      }
    }

    method TickBattery(now: nat)
      modifies this`lastBatteryEmit, this`batteryLowLogged, this`batteryReports, this`healthyTicks, this`lows
      ensures BatteryState() == BatteryStep(old(BatteryState()), Tick(now))
    {
      if lastBatteryLevel >= 0.0 && lastBatteryLevel < BATTERY_LOW {
        if !batteryLowLogged {
          lastBatteryEmit := now;
          batteryLowLogged := true;
          lows := lows + [healthyTicks];
        }
      } else if lastBatteryLevel >= BATTERY_LOW {
        batteryLowLogged := false;
        healthyTicks := healthyTicks + 1;
        if now - lastBatteryEmit >= BATTERY_SNAPSHOT_MS {
          batteryReports := batteryReports + [lastBatteryLevel];
          lastBatteryEmit := now;
        }
      }
    }

    method TickPump(now: nat)
      modifies this`pumpVerdicts, this`pumpDamageReported, this`currentRun
      ensures PumpState() == PumpStep(old(PumpState()), Tick(now))
      ensures pumpVerdicts
              == old(pumpVerdicts) + (if pumpRunning && !old(pumpDamageReported) && now - pumpOnStart >= 10_000 && lastBowlLevel != 1
                                      then [Failed(now, lastBowlLevel)] else [])
    {
      if pumpRunning && !pumpDamageReported {
        if now - pumpOnStart >= PUMP_TIMEOUT_MS {
          if lastBowlLevel != 1 {
            pumpVerdicts := pumpVerdicts + [Failed(now, lastBowlLevel)];
            currentRun := currentRun + [Failed(now, lastBowlLevel)];
            pumpDamageReported := true;
          }
        }
      }
    }

    method OnTick(now: nat)
      modifies this
      ensures HeartState() == HeartStep(old(HeartState()), Tick(now))
      ensures BatteryState() == BatteryStep(old(BatteryState()), Tick(now))
      ensures PumpState() == PumpStep(old(PumpState()), Tick(now))
    {
      TickHeartbeat(now);
      TickBattery(now);
      TickPump(now);
    }

    method UpdateDeviceHeartbeat(seqNum: Byte, now: nat)
      modifies this`lastHbArrival, this`lastHbSeq, this`lastHbChange, this`hbStale
      ensures HeartState() == HeartStep(old(HeartState()), Beat(seqNum, now))
    {
      lastHbArrival := now;
      if seqNum != lastHbSeq {
        lastHbSeq := seqNum;
        lastHbChange := now;
        if hbStale {
          hbStale := false;
        }
      }
    }

    method UpdateBatteryLevel(level: real, now: nat)
      modifies this`lastBatteryLevel, this`lastBatteryEmit, this`batteryReports
      ensures BatteryState() == BatteryStep(old(BatteryState()), SetBattery(level, now))
    {
      var elapsed := now - lastBatteryEmit >= BATTERY_SNAPSHOT_MS;
      var significant := lastBatteryLevel < 0.0 || Abs(level - lastBatteryLevel) >= BATTERY_STEP;
      if elapsed || significant {
        batteryReports := batteryReports + [level];
        lastBatteryLevel := level;
        lastBatteryEmit := now;
      }
    }

    method UpdateWaterPumpState(status: PumpStatus, now: nat)
      modifies this`lastPumpState, this`pumpRunning, this`pumpOnStart, this`pumpDamageReported, this`pumpVerdicts,
               this`currentRun, this`chapters
      ensures PumpState() == PumpStep(old(PumpState()), SetPump(status, now))
    {
      if status != lastPumpState {
        if status == Running {
          pumpRunning := true;
          pumpOnStart := now;
          pumpDamageReported := false;
          currentRun := [];
        } else {
          ghost var said := if pumpDamageReported then [] else [Healthy(now)];
          if pumpRunning {
            chapters := chapters + [Completed(PumpRun(pumpOnStart, currentRun + said, now))];
          } else if !pumpDamageReported {
            chapters := chapters + [Stray(Healthy(now))];
          }
          currentRun := [];
          pumpRunning := false;
          if !pumpDamageReported {
            pumpVerdicts := pumpVerdicts + [Healthy(now)];
          }
        }
        lastPumpState := status;
      }
    }

    method UpdateBowlWaterLevel(level: int, now: nat)
      modifies this`lastBowlLevel
      ensures PumpState() == PumpStep(old(PumpState()), SetBowl(level, now))
    {
      lastBowlLevel := level;
    }
  }
}
