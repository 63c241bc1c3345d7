/** The water-intake integrator: peaks, refills and aggregation windows. */
module WaterIntake {

  const REFILL_ML := 15.0
  const LOW_ML := 800.0
  const TANK_ML := 5000.0

  /** A reading as the integrator sees it: its level, its window's calendar unit, and whether it counts. */
  datatype Sample = Sample(level: real, unit: nat, counted: bool)

  /** The monitor's fields; unset levels are negative and the unset unit is -1. */
  datatype Water = Water(unit: int, last: real, daily: real, peak: real, refilled: real, firstCheck: bool, low: bool,
                         totals: seq<real>, alerts: seq<real>)

  const INITIAL := Water(-1, -1.0, 0.0, -1.0, 0.0, true, false, [], [])

  // ----- One reading -----

  function RollOver(w: Water, unit: int): Water {
    if w.unit == -1 then w.(unit := unit)
    else if unit == w.unit then w
    else Water(unit, -1.0, 0.0, -1.0, 0.0, w.firstCheck, w.low,
               if w.daily > 0.0 then w.totals + [w.daily] else w.totals, w.alerts)
  }

  function Percent(level: real): real {
    var p := level / TANK_ML * 100.0;
    if p < 0.0 then 0.0 else if p > 100.0 then 100.0 else p
  }

  /** Peak and refill accounting for one level. */
  function Integrate(w: Water, level: real): Water {
    var b := if w.peak < 0.0 then w.(peak := level, last := level) else w;
    if level > b.peak + REFILL_ML then
      b.(refilled := if b.peak - b.last > 0.0 then b.refilled + (b.peak - b.last) else b.refilled, peak := level, last := level)
    else if level > b.peak then b.(peak := level) else b
  }

  function Clamped(x: real): real { if x < 0.0 then 0.0 else x }

  function Step(w: Water, s: Sample): Water {
    var m := Integrate(RollOver(w, s.unit), s.level);
    var current := Clamped(m.refilled + (m.peak - s.level));
    var low := s.level < LOW_ML;
    var check := m.firstCheck || low != m.low;
    m.(daily := if s.counted && current > m.daily then current else m.daily,
       firstCheck := false, low := low,
       alerts := if check && low then m.alerts + [Percent(s.level)] else m.alerts,
       last := s.level)
  }

  function After(ss: seq<Sample>): Water {
    if |ss| == 0 then INITIAL else Step(After(ss[..|ss| - 1]), ss[|ss| - 1])
  }

  ghost predicate NonNegative(ss: seq<Sample>) { forall i :: 0 <= i < |ss| ==> ss[i].level >= 0.0 }

  // ----- Declarative windows and refill cycles -----

  type Window = ss: seq<Sample> | |ss| > 0 witness [Sample(0.0, 0, true)]
  type Cycle = xs: seq<real> | |xs| > 0 witness [0.0]

  datatype Windowing = Windowing(closed: seq<Window>, open: Window)
  datatype Cycling = Cycling(closed: seq<Cycle>, open: Cycle)

  /** The readings split where the calendar unit changes. */
  function Windows(ss: Window): Windowing {
    var n := |ss| - 1;
    if n == 0 then Windowing([], ss)
    else
      var w := Windows(ss[..n]);
      if ss[n - 1].unit == ss[n].unit then w.(open := w.open + [ss[n]]) else Windowing(w.closed + [w.open], [ss[n]])
  }

  function Levels(ss: seq<Sample>): (xs: seq<real>)
    ensures |xs| == |ss| && forall i :: 0 <= i < |ss| ==> xs[i] == ss[i].level
  {
    if |ss| == 0 then [] else Levels(ss[..|ss| - 1]) + [ss[|ss| - 1].level]
  }

  function Last(c: Cycle): real { c[|c| - 1] }

  function Peak(c: Cycle): real {
    var x := Last(c);
    if |c| == 1 then x else var p := Peak(c[..|c| - 1]); if x > p then x else p
  }

  /** The levels of a window split at refills: a reading more than 15 above the peak so far begins a new cycle. */
  function Cycles(xs: Cycle): Cycling {
    var x := Last(xs);
    if |xs| == 1 then Cycling([], xs)
    else
      var c := Cycles(xs[..|xs| - 1]);
      if x <= Peak(c.open) + REFILL_ML then c.(open := c.open + [x]) else Cycling(c.closed + [c.open], [x])
  }

  function Flatten(cs: seq<Cycle>): seq<real> {
    if |cs| == 0 then [] else Flatten(cs[..|cs| - 1]) + cs[|cs| - 1]
  }

  /** Inside a cycle every reading is at most 15 above the peak before it. */
  predicate IsCycle(c: Cycle) {
    |c| == 1 || (IsCycle(c[..|c| - 1]) && Last(c) <= Peak(c[..|c| - 1]) + REFILL_ML)
  }

  predicate Starts(closed: seq<Cycle>, c: Cycle) {
    |closed| > 0 ==> c[0] > Peak(closed[|closed| - 1]) + REFILL_ML
  }

  /** Each cycle starts more than 15 above the peak of the one before. */
  predicate AreCycles(cs: seq<Cycle>) {
    |cs| == 0 || (AreCycles(cs[..|cs| - 1]) && IsCycle(cs[|cs| - 1]) && Starts(cs[..|cs| - 1], cs[|cs| - 1]))
  }

  predicate Decomposes(c: Cycling, xs: seq<real>) {
    Flatten(c.closed) + c.open == xs && AreCycles(c.closed) && IsCycle(c.open) && Starts(c.closed, c.open)
  }

  lemma PeakSnoc(c: Cycle, x: real)
    ensures Peak(c + [x]) == (if x > Peak(c) then x else Peak(c))
  {
    assert (c + [x])[..|c|] == c;
  }

  /** How one more level changes the cycles. */
  lemma CyclesSnoc(xs: Cycle, x: real)
    ensures var c := Cycles(xs);
            Cycles(xs + [x]) == if x <= Peak(c.open) + REFILL_ML then c.(open := c.open + [x]) else Cycling(c.closed + [c.open], [x])
  {
    assert (xs + [x])[..|xs|] == xs;
  }

  lemma CycleContinues(c: Cycling, xs: seq<real>, x: real)
    requires Decomposes(c, xs) && x <= Peak(c.open) + REFILL_ML
    ensures Decomposes(c.(open := c.open + [x]), xs + [x])
  {
    assert (c.open + [x])[..|c.open|] == c.open;
    assert Flatten(c.closed) + (c.open + [x]) == (Flatten(c.closed) + c.open) + [x];
  }

  lemma CycleBegins(c: Cycling, xs: seq<real>, x: real)
    requires Decomposes(c, xs) && x > Peak(c.open) + REFILL_ML
    ensures Decomposes(Cycling(c.closed + [c.open], [x]), xs + [x])
  {
    assert (c.closed + [c.open])[..|c.closed|] == c.closed;
  }

  lemma {:induction false} CyclesDecompose(xs: Cycle)
    ensures Decomposes(Cycles(xs), xs)
  {
    var x, front := Last(xs), xs[..|xs| - 1];
    assert xs == front + [x];
    if |xs| > 1 {
      CyclesDecompose(front);
      var c := Cycles(front);
      if x <= Peak(c.open) + REFILL_ML {
        CycleContinues(c, front, x);
      } else {
        CycleBegins(c, front, x);
      }
    }
  }

  /** Feeding one more whole cycle closes the open one. */
  lemma {:induction false} CyclesOfCycle(xs: seq<real>, closed: seq<Cycle>, c: Cycle)
    requires IsCycle(c) && Starts(closed, c)
    requires if |xs| == 0 then closed == [] else Cycles(xs).closed + [Cycles(xs).open] == closed
    ensures Cycles(xs + c) == Cycling(closed, c)
    decreases |c|
  {
    var b, x := c[..|c| - 1], Last(c);
    assert c == b + [x];
    if |c| == 1 {
      assert c == [x];
      NewCycle(xs, closed, x);
    } else {
      CyclesOfCycle(xs, closed, b);
      assert xs + c == (xs + b) + [x];
      CycleGrows(xs + b, closed, b, x);
    }
  }

  lemma CycleGrows(xs: Cycle, closed: seq<Cycle>, b: Cycle, x: real)
    requires Cycles(xs) == Cycling(closed, b) && x <= Peak(b) + REFILL_ML
    ensures Cycles(xs + [x]) == Cycling(closed, b + [x])
  {
    CyclesSnoc(xs, x);
  }

  lemma NewCycle(xs: seq<real>, closed: seq<Cycle>, x: real)
    requires Starts(closed, [x])
    requires if |xs| == 0 then closed == [] else Cycles(xs).closed + [Cycles(xs).open] == closed
    ensures Cycles(xs + [x]) == Cycling(closed, [x])
  {
    if |xs| == 0 {
      assert xs + [x] == [x];
    } else {
      assert closed[|closed| - 1] == Cycles(xs).open;
      CyclesSnoc(xs, x);
    }
  }

  /** There is only one decomposition into cycles. */
  lemma {:induction false} CyclesUnique(c: Cycling, xs: Cycle)
    requires Decomposes(c, xs)
    ensures c == Cycles(xs)
    decreases |c.closed|
  {
    var n, ys := |c.closed|, Flatten(c.closed);
    if n > 0 {
      var before := Cycling(c.closed[..n - 1], c.closed[n - 1]);
      CyclesUnique(before, ys);
      assert before.closed + [before.open] == c.closed;
    }
    CyclesOfCycle(ys, c.closed, c.open);
  }

  function CycleIntake(c: Cycle): real { Peak(c) - Last(c) }

  function ClosedIntake(cs: seq<Cycle>): real {
    if |cs| == 0 then 0.0 else ClosedIntake(cs[..|cs| - 1]) + CycleIntake(cs[|cs| - 1])
  }

  /** Peak minus last level, summed over all cycles. */
  function Intake(xs: Cycle): real { ClosedIntake(Cycles(xs).closed) + CycleIntake(Cycles(xs).open) }

  /** The largest intake over the counted prefixes of a window, and 0 without any. */
  function Best(ss: seq<Sample>): real {
    if |ss| == 0 then 0.0
    else
      var b, v := Best(ss[..|ss| - 1]), Intake(Levels(ss));
      if ss[|ss| - 1].counted && v > b then v else b
  }

  /** `Best` is at least the intake at every counted reading, and is attained or 0. */
  lemma {:induction false} BestIsUpperBound(ss: seq<Sample>, n: nat)
    requires 0 < n <= |ss| && ss[n - 1].counted
    ensures Intake(Levels(ss[..n])) <= Best(ss)
  {
    if n == |ss| {
      assert ss[..n] == ss;
    } else {
      assert ss[..|ss| - 1][..n] == ss[..n];
      BestIsUpperBound(ss[..|ss| - 1], n);
    }
  }

  lemma {:induction false} BestIsAttained(ss: seq<Sample>) returns (n: nat)
    ensures n <= |ss| && Best(ss) >= 0.0
    ensures n == 0 ==> Best(ss) == 0.0
    ensures n > 0 ==> ss[n - 1].counted && Best(ss) == Intake(Levels(ss[..n]))
  {
    n := 0;
    if |ss| > 0 {
      var front := ss[..|ss| - 1];
      n := BestIsAttained(front);
      assert n > 0 ==> front[..n] == ss[..n];
      if Best(ss) != Best(front) {
        assert ss[..|ss|] == ss;
        n := |ss|;
      }
    }
  }

  // ----- Main theorem: the fields are the cycle decomposition of the open window -----

  /** The integrator's fields after the levels `xs` of a window. */
  ghost predicate Meters(peak: real, last: real, refilled: real, xs: Cycle) {
    var c := Cycles(xs);
    && peak == Peak(c.open) && last == Last(c.open) == Last(xs) && refilled == ClosedIntake(c.closed)
    && peak >= last >= 0.0 && refilled >= 0.0
  }

  lemma MetersIntake(peak: real, last: real, refilled: real, xs: Cycle)
    requires Meters(peak, last, refilled, xs)
    ensures refilled + (peak - last) == Intake(xs) >= 0.0
  {
  }

  lemma MetersFirst(w: Water, x: real)
    requires x >= 0.0 && w.peak < 0.0 && w.refilled == 0.0
    ensures Meters(Integrate(w, x).peak, x, Integrate(w, x).refilled, [x])
  {
  }

  lemma MetersNext(w: Water, xs: Cycle, x: real)
    requires x >= 0.0 && Meters(w.peak, w.last, w.refilled, xs)
    ensures Meters(Integrate(w, x).peak, x, Integrate(w, x).refilled, xs + [x])
  {
    var c := Cycles(xs);
    CyclesSnoc(xs, x);
    PeakSnoc(c.open, x);
    assert (c.closed + [c.open])[..|c.closed|] == c.closed;
  }

  lemma IntegrateFrame(w: Water, x: real)
    ensures Integrate(w, x).unit == w.unit && Integrate(w, x).daily == w.daily && Integrate(w, x).totals == w.totals
  {
  }

  lemma WindowsSnoc(ss: Window, s: Sample)
    ensures var w := Windows(ss);
            Windows(ss + [s]) == if ss[|ss| - 1].unit == s.unit then w.(open := w.open + [s]) else Windowing(w.closed + [w.open], [s])
  {
    assert (ss + [s])[..|ss|] == ss;
  }

  lemma LevelsSnoc(ss: seq<Sample>, s: Sample)
    ensures Levels(ss + [s]) == Levels(ss) + [s.level]
  {
    assert (ss + [s])[..|ss|] == ss;
  }

  lemma BestSnoc(ss: seq<Sample>, s: Sample)
    ensures Best(ss + [s]) == (var v := Intake(Levels(ss) + [s.level]); if s.counted && v > Best(ss) then v else Best(ss))
  {
    assert (ss + [s])[..|ss|] == ss;
    LevelsSnoc(ss, s);
  }

  /** Totals that closed windows should have emitted. */
  function ClosedTotals(ws: seq<Window>): seq<real> {
    if |ws| == 0 then []
    else
      var front, b := ClosedTotals(ws[..|ws| - 1]), Best(ws[|ws| - 1]);
      if b > 0.0 then front + [b] else front
  }

  /** The fields tell the cycles, the best counted intake and the emitted totals of the windows so far. */
  ghost predicate Describes(w: Water, ss: Window) {
    && w.unit == ss[|ss| - 1].unit
    && Meters(w.peak, w.last, w.refilled, Levels(Windows(ss).open))
    && w.daily == Best(Windows(ss).open)
    && w.totals == ClosedTotals(Windows(ss).closed)
  }

  lemma DescribesFirst(s: Sample)
    requires s.level >= 0.0
    ensures Describes(Step(INITIAL, s), [s])
  {
    assert [] + [s] == [s];
    LevelsSnoc([], s);
    assert Levels([s]) == [s.level];
    MetersFirst(RollOver(INITIAL, s.unit), s.level);
    BestSnoc([], s);
    assert Windows([s]) == Windowing([], [s]);
  }

  lemma StepFields(w: Water, s: Sample, xs: Cycle)
    requires var m := Integrate(RollOver(w, s.unit), s.level); Meters(m.peak, s.level, m.refilled, xs)
    ensures var r, w' := RollOver(w, s.unit), Step(w, s);
            && w'.unit == r.unit && w'.totals == r.totals && Meters(w'.peak, w'.last, w'.refilled, xs)
            && w'.daily == if s.counted && Intake(xs) > r.daily then Intake(xs) else r.daily
  {
    var m := Integrate(RollOver(w, s.unit), s.level);
    MetersIntake(m.peak, s.level, m.refilled, xs);
    IntegrateFrame(RollOver(w, s.unit), s.level);
  }

  lemma DescribesSame(w: Water, ss: Window, s: Sample)
    requires Describes(w, ss) && s.level >= 0.0 && ss[|ss| - 1].unit == s.unit
    ensures Describes(Step(w, s), ss + [s])
  {
    var open := Windows(ss).open;
    WindowsSnoc(ss, s);
    LevelsSnoc(open, s);
    BestSnoc(open, s);
    MetersNext(w, Levels(open), s.level);
    assert RollOver(w, s.unit) == w;
    StepFields(w, s, Levels(open) + [s.level]);
  }

  lemma DescribesNew(w: Water, ss: Window, s: Sample)
    requires Describes(w, ss) && s.level >= 0.0 && ss[|ss| - 1].unit != s.unit
    ensures Describes(Step(w, s), ss + [s])
  {
    var r := RollOver(w, s.unit);
    var v := Windows(ss);
    WindowsSnoc(ss, s);
    assert (v.closed + [v.open])[..|v.closed|] == v.closed;
    assert [] + [s] == [s];
    LevelsSnoc([], s);
    assert Levels([s]) == [s.level];
    BestSnoc([], s);
    MetersFirst(r, s.level);
    StepFields(w, s, [s.level]);
  }

  /**
   * After any readings the fields are the cycle decomposition of the open window, the running total is its best
   * counted intake, and each closed window with a positive total has emitted exactly that total.
   */
  lemma {:induction false} FieldsMatchCycles(ss: Window)
    requires NonNegative(ss)
    ensures Describes(After(ss), ss)
  {
    var front, s := ss[..|ss| - 1], ss[|ss| - 1];
    assert ss == front + [s];
    if |front| == 0 {
      assert ss == [s] && After([]) == INITIAL;
      DescribesFirst(s);
    } else {
      FieldsMatchCycles(front);
      if front[|front| - 1].unit == s.unit {
        DescribesSame(After(front), front, s);
      } else {
        DescribesNew(After(front), front, s);
      }
    }
  }

  /** The clamp at 0 is never taken: what it would clamp is the intake of the open window. */
  lemma ClampUnreachable(ss: Window)
    requires NonNegative(ss)
    ensures var s := ss[|ss| - 1];
            var m := Integrate(RollOver(After(ss[..|ss| - 1]), s.unit), s.level);
            m.refilled + (m.peak - s.level) == Intake(Levels(Windows(ss).open)) >= 0.0
  {
    FieldsMatchCycles(ss);
    var w := After(ss);
    MetersIntake(w.peak, w.last, w.refilled, Levels(Windows(ss).open));
  }

  // ----- Never more than the drops -----

  function Drop(a: real, b: real): real { if a > b then a - b else 0.0 }

  /** Total downward variation. */
  function DownVariation(xs: seq<real>): real {
    if |xs| < 2 then 0.0 else DownVariation(xs[..|xs| - 1]) + Drop(xs[|xs| - 2], xs[|xs| - 1])
  }

  /** Every rise is either a refill or starts at the peak of the open cycle. */
  predicate RisesCounted(xs: Cycle) {
    |xs| == 1 ||
    var front, a, x := xs[..|xs| - 1], xs[|xs| - 2], xs[|xs| - 1];
    var p := Peak(Cycles(front).open);
    RisesCounted(front) && (x <= a || x > p + REFILL_ML || a == p)
  }

  lemma {:induction false} OpenPeak(xs: Cycle)
    ensures Last(Cycles(xs).open) == Last(xs) && Peak(Cycles(xs).open) >= Last(xs)
  {
  }

  /** The intake never exceeds the downward variation, and equals it exactly when every rise is counted. */
  lemma {:induction false} IntakeVersusDrops(xs: Cycle)
    ensures Intake(xs) <= DownVariation(xs)
    ensures Intake(xs) == DownVariation(xs) <==> RisesCounted(xs)
  {
    if |xs| > 1 {
      var front, x := xs[..|xs| - 1], Last(xs);
      IntakeVersusDrops(front);
      assert xs == front + [x];
      IntakeSnoc(front, x);
      OpenPeak(front);
    }
  }

  /** What one more level adds to the intake. */
  lemma IntakeSnoc(xs: Cycle, x: real)
    ensures var p := Peak(Cycles(xs).open);
            Intake(xs + [x]) == Intake(xs) + (if p < x <= p + REFILL_ML then Last(Cycles(xs).open) - p
                                              else if x > p then 0.0 else Last(Cycles(xs).open) - x)
  {
    var c := Cycles(xs);
    CyclesSnoc(xs, x);
    PeakSnoc(c.open, x);
    assert (c.closed + [c.open])[..|c.closed|] == c.closed;
  }

  lemma {:induction false} DropsOfPrefix(xs: seq<real>, n: nat)
    requires n <= |xs|
    ensures 0.0 <= DownVariation(xs[..n]) <= DownVariation(xs)
  {
    if n == |xs| {
      assert xs[..n] == xs;
      if n >= 2 {
        DropsOfPrefix(xs[..n - 1], n - 1);
      }
    } else {
      assert xs[..|xs| - 1][..n] == xs[..n];
      DropsOfPrefix(xs[..|xs| - 1], n);
    }
  }

  lemma {:induction false} LevelsPrefix(ss: seq<Sample>, n: nat)
    requires n <= |ss|
    ensures Levels(ss[..n]) == Levels(ss)[..n]
  {
  }

  /** A window's total is at most its drops; with its last reading counted and every rise counted it is exactly its drops. */
  lemma WindowTotal(ss: Window)
    ensures 0.0 <= Best(ss) <= DownVariation(Levels(ss))
    ensures ss[|ss| - 1].counted && RisesCounted(Levels(ss)) ==> Best(ss) == DownVariation(Levels(ss))
  {
    var n := BestIsAttained(ss);
    DropsOfPrefix(Levels(ss), n);
    if n > 0 {
      LevelsPrefix(ss, n);
      IntakeVersusDrops(Levels(ss)[..n]);
    }
    IntakeVersusDrops(Levels(ss));
    if ss[|ss| - 1].counted {
      BestIsUpperBound(ss, |ss|);
      assert ss[..|ss|] == ss;
    }
  }

  lemma {:induction false} DropsAppend(xs: seq<real>, ys: seq<real>)
    ensures DownVariation(xs) + DownVariation(ys) <= DownVariation(xs + ys)
  {
    if |ys| == 0 {
      assert xs + ys == xs;
    } else {
      var b := ys[..|ys| - 1];
      assert (xs + ys)[..|xs + ys| - 1] == xs + b;
      DropsAppend(xs, b);
    }
  }

  function Total(xs: seq<real>): real { if |xs| == 0 then 0.0 else Total(xs[..|xs| - 1]) + xs[|xs| - 1] }

  function Joined(ws: seq<Window>): seq<Sample> {
    if |ws| == 0 then [] else Joined(ws[..|ws| - 1]) + ws[|ws| - 1]
  }

  lemma JoinedSnoc(ws: seq<Window>, w: Window)
    ensures Joined(ws + [w]) == Joined(ws) + w
  {
    assert (ws + [w])[..|ws|] == ws;
  }

  lemma OneMoreJoined(v: Windowing, w: Windowing, ss: seq<Sample>, s: Sample)
    requires Joined(v.closed) + v.open == ss
    requires w == v.(open := v.open + [s]) || w == Windowing(v.closed + [v.open], [s])
    ensures Joined(w.closed) + w.open == ss + [s]
  {
    JoinedSnoc(v.closed, v.open);
  }

  lemma {:induction false} WindowsJoin(ss: Window)
    ensures Joined(Windows(ss).closed) + Windows(ss).open == ss
  {
    if |ss| > 1 {
      var front, s := ss[..|ss| - 1], ss[|ss| - 1];
      assert ss == front + [s];
      WindowsJoin(front);
      WindowsSnoc(front, s);
      OneMoreJoined(Windows(front), Windows(ss), front, s);
    }
  }

  lemma {:induction false} LevelsJoin(xs: seq<Sample>, ys: seq<Sample>)
    ensures Levels(xs + ys) == Levels(xs) + Levels(ys)
  {
  }

  lemma {:induction false} TotalsBound(ws: seq<Window>)
    ensures Total(ClosedTotals(ws)) <= DownVariation(Levels(Joined(ws)))
  {
    if |ws| > 0 {
      var front, last := ws[..|ws| - 1], ws[|ws| - 1];
      TotalsBound(front);
      WindowTotal(last);
      LevelsJoin(Joined(front), last);
      DropsAppend(Levels(Joined(front)), Levels(last));
      var t := ClosedTotals(front);
      assert (t + [Best(last)])[..|t|] == t;
    }
  }

  /** Totals emitted for closed windows plus the running total never exceed the drops of all readings. */
  lemma NeverOvercounts(ss: seq<Sample>)
    requires NonNegative(ss)
    ensures Total(After(ss).totals) + After(ss).daily <= DownVariation(Levels(ss))
  {
    if |ss| > 0 {
      FieldsMatchCycles(ss);
      WindowsJoin(ss);
      var w := Windows(ss);
      TotalsBound(w.closed);
      WindowTotal(w.open);
      LevelsJoin(Joined(w.closed), w.open);
      DropsAppend(Levels(Joined(w.closed)), Levels(w.open));
    }
  }

  /** The refill alarm is raised once for each maximal run of readings below 800 ml. */
  function LowRuns(ss: seq<Sample>): nat {
    if |ss| == 0 then 0
    else
      LowRuns(ss[..|ss| - 1])
      + (if ss[|ss| - 1].level < LOW_ML && (|ss| == 1 || ss[|ss| - 2].level >= LOW_ML) then 1 else 0)
  }

  lemma {:induction false} OneAlarmPerLowRun(ss: seq<Sample>)
    ensures |After(ss).alerts| == LowRuns(ss) && (After(ss).firstCheck <==> ss == [])
    ensures |ss| > 0 ==> (After(ss).low <==> ss[|ss| - 1].level < LOW_ML)
  {
    if |ss| > 0 {
      OneAlarmPerLowRun(ss[..|ss| - 1]);
    }
  }

  // ----- The monitor -----

  /** Seconds since local midnight, for a fixed offset in seconds. */
  function SecondOfDay(at: nat, offset: int): nat { (at / 1000 + offset) % 86_400 }

  /** The calendar unit of a reading; the day of the year is the calendar's. */
  function SampleOf(window: string, offset: int, level: real, at: nat, yday: nat): Sample {
    var second := SecondOfDay(at, offset);
    if window == "24h" then Sample(level, yday, second >= 60)
    else if window == "1m" || window == "1min" then Sample(level, second / 60 % 60, true)
    else if window == "1h" then Sample(level, second / 3600, true)
    else Sample(level, yday, true)
  }

  /** Hours, minutes and days of the local clock. */
  function LocalMinute(at: nat, offset: int): int { (at / 1000 + offset) / 60 }
  function LocalHour(at: nat, offset: int): int { (at / 1000 + offset) / 3600 }
  function LocalDay(at: nat, offset: int): int { (at / 1000 + offset) / 86_400 }

  lemma DayParts(day: int, second: int)
    requires 0 <= second < 86_400
    ensures (day * 86_400 + second) / 3600 == day * 24 + second / 3600
    ensures (day * 86_400 + second) / 60 == day * 1440 + second / 60
  {
  }

  lemma HourParts(second: int)
    requires 0 <= second < 86_400
    ensures second / 60 == second / 3600 * 60 + second / 60 % 60
  {
  }

  /** Second, hour and minute of the day, from the local clock. */
  lemma PartsOfDay(at: nat, offset: int)
    ensures var second := SecondOfDay(at, offset);
            && 0 <= second < 86_400 && LocalHour(at, offset) == LocalDay(at, offset) * 24 + second / 3600
            && LocalMinute(at, offset) == LocalHour(at, offset) * 60 + second / 60 % 60
            && LocalMinute(at, offset) == LocalDay(at, offset) * 1440 + second / 60
  {
    var local := at / 1000 + offset;
    assert local == local / 86_400 * 86_400 + local % 86_400;
    DayParts(local / 86_400, local % 86_400);
    HourParts(local % 86_400);
  }

  /** With windows of an hour, two readings of one local day share a unit exactly when they share the hour. */
  lemma HourWindows(offset: int, level: real, at: nat, yday: nat, level': real, at': nat, yday': nat)
    requires LocalDay(at, offset) == LocalDay(at', offset)
    ensures SampleOf("1h", offset, level, at, yday).unit == SampleOf("1h", offset, level', at', yday').unit
            <==> LocalHour(at, offset) == LocalHour(at', offset)
  {
    PartsOfDay(at, offset);
    PartsOfDay(at', offset);
  }

  /** With windows of a minute, two readings of one hour share a unit exactly when they share the minute. */
  lemma MinuteWindows(window: string, offset: int, level: real, at: nat, yday: nat, level': real, at': nat, yday': nat)
    requires (window == "1m" || window == "1min") && LocalHour(at, offset) == LocalHour(at', offset)
    ensures SampleOf(window, offset, level, at, yday).unit == SampleOf(window, offset, level', at', yday').unit
            <==> LocalMinute(at, offset) == LocalMinute(at', offset)
  {
    PartsOfDay(at, offset);
    PartsOfDay(at', offset);
  }

  /** With any other setting the unit is the day of the year. */
  lemma DayWindows(window: string, offset: int, level: real, at: nat, yday: nat, level': real, at': nat, yday': nat)
    requires window !in {"1h", "1m", "1min"}
    ensures SampleOf(window, offset, level, at, yday).unit == SampleOf(window, offset, level', at', yday').unit <==> yday == yday'
  {
  }

  /** A reading keeps its level, and counts unless the setting is "24h" and it falls in the first minute of its local day. */
  lemma CountsIff(window: string, offset: int, level: real, at: nat, yday: nat)
    ensures var s := SampleOf(window, offset, level, at, yday);
            s.level == level && (s.counted <==> !(window == "24h" && LocalMinute(at, offset) == LocalDay(at, offset) * 1440))
  {
    PartsOfDay(at, offset);
  }

  // ----- What the alarms say -----

  /** The levels at which a maximal run of readings below 800 ml begins. */
  function FirstLows(ss: seq<Sample>): seq<real> {
    if |ss| == 0 then []
    else
      var before := FirstLows(ss[..|ss| - 1]);
      if ss[|ss| - 1].level < 800.0 && (|ss| == 1 || ss[|ss| - 2].level >= 800.0) then before + [ss[|ss| - 1].level] else before
  }

  lemma PercentTells(level: real)
    requires 0.0 <= level < 800.0
    ensures Percent(level) * 50.0 == level
  {
  }

  ghost predicate AlarmsTell(alerts: seq<real>, lows: seq<real>) {
    |alerts| == |lows| && forall i :: 0 <= i < |lows| ==> alerts[i] * 50.0 == lows[i]
  }

  lemma OneMoreTold(alerts: seq<real>, lows: seq<real>, level: real)
    requires AlarmsTell(alerts, lows) && 0.0 <= level < 800.0
    ensures AlarmsTell(alerts + [Percent(level)], lows + [level])
  {
    PercentTells(level);
  }

  /** What one reading adds to the alarms. */
  lemma AlarmStep(w: Water, s: Sample)
    ensures Step(w, s).alerts == if (w.firstCheck || !w.low) && s.level < 800.0 then w.alerts + [Percent(s.level)] else w.alerts
  {
  }

  /** Each alarm gives the first low level of its run in percent of 5000 ml: 50 times the percentage is the level. */
  lemma {:induction false} AlarmsTellLevel(ss: seq<Sample>)
    requires NonNegative(ss)
    ensures AlarmsTell(After(ss).alerts, FirstLows(ss))
  {
    if |ss| > 0 {
      var front, last := ss[..|ss| - 1], ss[|ss| - 1];
      AlarmsTellLevel(front);
      OneAlarmPerLowRun(front);
      AlarmStep(After(front), last);
      if last.level < 800.0 {
        OneMoreTold(After(front).alerts, FirstLows(front), last.level);
      }
    }
  }

  class WaterMonitor {
    const window: string
    const offset: int
    var unit: int
    var last: real
    var daily: real
    var peak: real
    var refilled: real
    var firstCheck: bool
    var lastLow: bool
    var totals: seq<real>
    var alerts: seq<real>

    function State(): Water
      reads this
    {
      Water(unit, last, daily, peak, refilled, firstCheck, lastLow, totals, alerts)
    }

    constructor (window: string, offset: int)
      ensures State() == INITIAL && this.window == window && this.offset == offset
    {
      this.window, this.offset := window, offset;
      unit, last, daily, peak, refilled := -1, -1.0, 0.0, -1.0, 0.0;
      firstCheck, lastLow, totals, alerts := true, false, [], [];
    }

    method UpdateWaterLevel(level: real, at: nat, yday: nat)
      modifies this
      ensures State() == Step(old(State()), SampleOf(window, offset, level, at, yday))
    {
      var second := SecondOfDay(at, offset);
      var within := true;
      var currentUnit := yday;
      if window == "24h" {
        within := second >= 60 && second <= 86_399;
      } else if window == "1m" || window == "1min" {
        currentUnit := second / 60 % 60;
      } else if window == "1h" {
        currentUnit := second / 3600;
      }

      CloseWindow(currentUnit);
      IntegrateLevel(level);

      var current := refilled + (peak - level);
      if current < 0.0 {
        current := 0.0;
      }
      if within && current > daily {
        daily := current;
      }

      CheckRefill(level);
      last := level;
    }

    /** Emits and resets when the calendar unit has changed. */
    method CloseWindow(currentUnit: nat)
      modifies this`unit, this`totals, this`daily, this`peak, this`refilled, this`last
      ensures State() == RollOver(old(State()), currentUnit)
    {
      if unit == -1 {
        unit := currentUnit;
      } else if currentUnit != unit {
        if daily > 0.0 {
          totals := totals + [daily];
        }
        daily, peak, refilled, last := 0.0, -1.0, 0.0, -1.0;
        unit := currentUnit;
      }
    }

    /** Baseline, refill detection and peak tracking. */
    method IntegrateLevel(level: real)
      modifies this`peak, this`refilled, this`last
      ensures State() == Integrate(old(State()), level)
    {
      if peak < 0.0 {
        peak, last := level, level;
      }
      if level > peak + REFILL_ML {
        var cycle := peak - last;
        if cycle > 0.0 {
          refilled := refilled + cycle;
        }
        peak, last := level, level;
      } else if level > peak {
        peak := level;
      }
    }

    /** The low-water alarm, raised on the transition below the threshold. */
    method CheckRefill(level: real)
      modifies this`firstCheck, this`lastLow, this`alerts
      ensures var low := level < LOW_ML;
              && !firstCheck && lastLow == low
              && alerts == if (old(firstCheck) || low != old(lastLow)) && low then old(alerts) + [Percent(level)] else old(alerts)
    {
      var required := level < LOW_ML;
      if firstCheck || required != lastLow {
        firstCheck, lastLow := false, required;
        if required {
          alerts := alerts + [Percent(level)];
        }
      }
    }
  }
}
