/** The meal scheduler: next-occurrence arithmetic and the record of finished meal windows. */
module MealSchedule {
  import opened Sequences

  const DAY_S := 86_400
  const INTAKE_MIN_G := 5.0
  const SERVED_MIN_G := 10.0

  /** A well-formed clock string, as seconds after midnight. */
  type TimeOfDay = s: nat | s < 86_400

  datatype Meal = Meal(name: string, start: TimeOfDay, end: TimeOfDay, mealId: string, bowl: string)

  // ----- Calendar arithmetic at a fixed offset (seconds); times are milliseconds -----

  function LocalDay(ms: int, offset: int): int { (ms / 1000 + offset) / DAY_S }

  /** Clock time `t` on a local day. */
  function OnDay(t: TimeOfDay, day: int, offset: int): int { (day * DAY_S - offset + t) * 1000 }

  /** The time of day on the day of `ms`, or on the day after. */
  function OccurrenceMs(ms: int, t: TimeOfDay, nextDay: bool, offset: int): int {
    var second := ms / 1000 + (if nextDay then DAY_S else 0);
    ((second + offset) / DAY_S * DAY_S - offset + t) * 1000
  }

  lemma OccurrenceIsOnDay(ms: int, t: TimeOfDay, nextDay: bool, offset: int)
    ensures OccurrenceMs(ms, t, nextDay, offset) == OnDay(t, LocalDay(ms, offset) + (if nextDay then 1 else 0), offset)
  {
  }

  lemma DayBounds(ms: int, offset: int)
    ensures OnDay(0, LocalDay(ms, offset), offset) <= ms < OnDay(0, LocalDay(ms, offset) + 1, offset)
  {
  }

  function ToleranceMinutes(start: TimeOfDay, end: TimeOfDay): nat {
    ((if end < start then end + DAY_S else end) - start) / 60
  }

  /** Midnight-crossing meals end on the next day. */
  function EndMs(meal: Meal, startMs: int, offset: int): int {
    OccurrenceMs(startMs, meal.end, meal.end < meal.start, offset)
  }

  // ----- The next meal -----

  /** The first meal with the earliest start after `now` on the day. */
  function Scan(meals: seq<Meal>, now: int, day: int, offset: int): Option<Meal> {
    if |meals| == 0 then None
    else
      var best, last := Scan(meals[..|meals| - 1], now, day, offset), meals[|meals| - 1];
      if OnDay(last.start, day, offset) > now
         && (best.None? || OnDay(last.start, day, offset) < OnDay(best.value.start, day, offset))
      then Some(last) else best
  }

  datatype Window = Window(meal: Meal, start: int, end: int)

  function WindowOn(meal: Meal, day: int, offset: int): Window {
    var start := OnDay(meal.start, day, offset);
    Window(meal, start, EndMs(meal, start, offset))
  }

  /** Today's next meal, or tomorrow's first. */
  function NextMeal(meals: seq<Meal>, now: int, offset: int): Option<Window> {
    var day := LocalDay(now, offset);
    match Scan(meals, now, day, offset)
    case Some(meal) => Some(WindowOn(meal, day, offset))
    case None =>
      match Scan(meals, now, day + 1, offset)
      case Some(meal) => Some(WindowOn(meal, day + 1, offset))
      case None => None
  }

  lemma {:induction false} ScanFindsEarliest(meals: seq<Meal>, now: int, day: int, offset: int)
    ensures var best := Scan(meals, now, day, offset);
            && (best.Some? ==> best.value in meals && OnDay(best.value.start, day, offset) > now)
            && (forall m :: m in meals && OnDay(m.start, day, offset) > now ==>
                  best.Some? && OnDay(best.value.start, day, offset) <= OnDay(m.start, day, offset))
  {
    if |meals| > 0 {
      var front, last := meals[..|meals| - 1], meals[|meals| - 1];
      ScanFindsEarliest(front, now, day, offset);
      assert forall m :: m in meals ==> m in front || m == last;
    }
  }

  /** A start after now is not on an earlier local day. */
  lemma NotBeforeToday(t: TimeOfDay, day: int, now: int, offset: int)
    requires OnDay(t, day, offset) > now
    ensures day >= LocalDay(now, offset)
  {
  }

  lemma OnDayOrder(t: TimeOfDay, u: TimeOfDay, day: int, later: int, offset: int)
    requires day < later
    ensures OnDay(t, day, offset) < OnDay(u, later, offset)
  {
  }

  /** No later start comes before the candidate of today, or of tomorrow when today has none. */
  lemma NotEarlier(next: Meal, m: Meal, d: int, k: int, meals: seq<Meal>, now: int, offset: int)
    requires m in meals && OnDay(m.start, k, offset) > now
    requires Scan(meals, now, d, offset) == Some(next)
    requires d == LocalDay(now, offset) || (d == LocalDay(now, offset) + 1 && Scan(meals, now, d - 1, offset).None?)
    ensures OnDay(next.start, d, offset) <= OnDay(m.start, k, offset)
  {
    ScanFindsEarliest(meals, now, d, offset);
    ScanFindsEarliest(meals, now, d - 1, offset);
    NotBeforeToday(m.start, k, now, offset);
    if k > d {
      OnDayOrder(next.start, m.start, d, k, offset);
    }
  }

  /**
   * The next meal starts strictly after now, at most 24 hours ahead, and no meal on any day starts between now
   * and it; it exists exactly when the schedule is not empty.
   */
  lemma NextMealIsEarliest(meals: seq<Meal>, now: int, offset: int)
    ensures var next := NextMeal(meals, now, offset);
            && (next.Some? <==> |meals| > 0)
            && (next.Some? ==>
                  && next.value.meal in meals && now < next.value.start <= now + DAY_S * 1000
                  && exists day :: next.value == WindowOn(next.value.meal, day, offset))
    ensures forall m: Meal, day: int :: m in meals && OnDay(m.start, day, offset) > now ==>
              NextMeal(meals, now, offset).value.start <= OnDay(m.start, day, offset)
  {
    var day := LocalDay(now, offset);
    DayBounds(now, offset);
    ScanFindsEarliest(meals, now, day, offset);
    ScanFindsEarliest(meals, now, day + 1, offset);
    var next := NextMeal(meals, now, offset);
    if |meals| > 0 {
      assert meals[0] in meals && OnDay(meals[0].start, day + 1, offset) > now;
      assert next.Some?;
      var d := if Scan(meals, now, day, offset).Some? then day else day + 1;
      assert next.value == WindowOn(next.value.meal, d, offset);
      forall m: Meal, k: int | m in meals && OnDay(m.start, k, offset) > now
        ensures next.value.start <= OnDay(m.start, k, offset)
      {
        NotEarlier(next.value.meal, m, d, k, meals, now, offset);
      }
    }
  }

  /** A window lasts less than a day, and its whole minutes are the tolerance window. */
  lemma WindowLength(meal: Meal, day: int, offset: int)
    ensures var w := WindowOn(meal, day, offset);
            && w.start <= w.end < w.start + DAY_S * 1000
            && (w.end - w.start) / 60_000 == ToleranceMinutes(meal.start, meal.end)
  {
    var start := OnDay(meal.start, day, offset);
    assert LocalDay(start, offset) == day;
    OccurrenceIsOnDay(start, meal.end, meal.end < meal.start, offset);
  }

  // ----- The state machine -----

  datatype Signal =
    | MealIntake(mealId: string, grams: real, observedAt: int)
    | DayIntake(grams: real, observedAt: int)
    | MealSkipped(mealId: string, observedAt: int, tolerance: nat)
    | FoodServed(bowl: string, grams: real, observedAt: int)
    | ServedConfirmation(bowl: string, observedAt: int)

  /** A finished window: measured intake, earlier meals of the day, and the tick that closed it. */
  datatype Finished = Finished(window: Window, intake: real, earlier: real, closedAt: int)

  datatype Monitor = Monitor(active: Option<Window>, recording: bool, initialWeight: real, bowls: map<string, real>,
                             signals: seq<Signal>, finished: seq<Finished>)

  const INITIAL := Monitor(None, false, 0.0, map[], [], [])

  /** An unknown bowl reads 0. */
  function Weight(bowls: map<string, real>, bowl: string): real { if bowl in bowls then bowls[bowl] else 0.0 }

  function Verdict(f: Finished): seq<Signal> {
    var m := f.window.meal;
    if f.intake > INTAKE_MIN_G
    then [MealIntake(m.mealId, f.intake, f.window.start), DayIntake(f.earlier + f.intake, f.closedAt)]
    else [MealSkipped(m.mealId, f.window.start, ToleranceMinutes(m.start, m.end))]
  }

  /** `earlier` is what the database reports for the day's other meals. */
  datatype Ev = Tick(now: nat, earlier: real) | Weigh(bowl: string, grams: real, at: nat)

  /** Adopts the next meal, if there is one, and waits for it. */
  function Activate(mon: Monitor, next: Option<Window>): Monitor {
    if next.Some? then mon.(active := next, recording := false) else mon
  }

  /** One tick, where `next` is the next meal after `now`. */
  function TickWith(mon: Monitor, next: Option<Window>, now: int, earlier: real): Monitor {
    if mon.active.None? then Activate(mon, next)
    else
      var w := mon.active.value;
      if !mon.recording then
        if now >= w.start then mon.(recording := true, initialWeight := Weight(mon.bowls, w.meal.bowl)) else mon
      else if now >= w.end then
        var f := Finished(w, mon.initialWeight - Weight(mon.bowls, w.meal.bowl), earlier, now);
        Activate(mon.(signals := mon.signals + Verdict(f), finished := mon.finished + [f]), next)
      else mon
  }

  function TickStep(mon: Monitor, meals: seq<Meal>, offset: int, now: int, earlier: real): Monitor {
    TickWith(mon, NextMeal(meals, now, offset), now, earlier)
  }

  function WeighStep(mon: Monitor, bowl: string, grams: real, at: int): Monitor {
    var current := Weight(mon.bowls, bowl);
    mon.(bowls := mon.bowls[bowl := grams],
         signals := if current != 0.0 && grams > current + SERVED_MIN_G
                    then mon.signals + [FoodServed(bowl, grams - current, at), ServedConfirmation(bowl, at)] else mon.signals)
  }

  function Step(mon: Monitor, meals: seq<Meal>, offset: int, e: Ev): Monitor {
    match e
    case Tick(now, earlier) => TickStep(mon, meals, offset, now, earlier)
    case Weigh(bowl, grams, at) => WeighStep(mon, bowl, grams, at)
  }

  function After(run: seq<Ev>, meals: seq<Meal>, offset: int): Monitor {
    if |run| == 0 then INITIAL else Step(After(run[..|run| - 1], meals, offset), meals, offset, run[|run| - 1])
  }

  /** The time of the latest tick. */
  function Clock(run: seq<Ev>): nat {
    if |run| == 0 then 0 else if run[|run| - 1].Tick? then run[|run| - 1].now else Clock(run[..|run| - 1])
  }

  predicate ClockOrdered(run: seq<Ev>) {
    |run| == 0 ||
    (ClockOrdered(run[..|run| - 1]) && (run[|run| - 1].Tick? ==> Clock(run[..|run| - 1]) <= run[|run| - 1].now))
  }

  // ----- Guarantees over every run of ticks and weighings -----

  /** No meal of the schedule starts strictly between the instant and `start`. */
  ghost predicate NothingBetween(meals: seq<Meal>, offset: int, instant: int, start: int) {
    forall m: Meal, day: int :: m in meals && OnDay(m.start, day, offset) > instant ==> start <= OnDay(m.start, day, offset)
  }

  ghost predicate Scheduled(meals: seq<Meal>, offset: int, w: Window) {
    w.meal in meals && w.start <= w.end && exists day :: w == WindowOn(w.meal, day, offset)
  }

  ghost predicate FollowsLast(mon: Monitor, meals: seq<Meal>, offset: int) {
    mon.active.Some? && |mon.finished| > 0 ==>
      var last := mon.finished[|mon.finished| - 1];
      last.closedAt < mon.active.value.start && NothingBetween(meals, offset, last.closedAt, mon.active.value.start)
  }

  ghost predicate Chained(fs: seq<Finished>, meals: seq<Meal>, offset: int) {
    && (forall i :: 0 <= i < |fs| ==> Scheduled(meals, offset, fs[i].window) && fs[i].window.end <= fs[i].closedAt)
    && (forall i :: 0 < i < |fs| ==> fs[i - 1].closedAt < fs[i].window.start
                                     && NothingBetween(meals, offset, fs[i - 1].closedAt, fs[i].window.start))
  }

  ghost predicate Inv(mon: Monitor, meals: seq<Meal>, offset: int, clock: int) {
    && (mon.active.Some? ==> Scheduled(meals, offset, mon.active.value))
    && (mon.active.None? ==> |mon.finished| == 0)
    && (mon.recording ==> mon.active.Some? && |meals| > 0 && mon.active.value.start <= clock)
    && FollowsLast(mon, meals, offset)
    && Chained(mon.finished, meals, offset)
  }

  lemma NextIsScheduled(meals: seq<Meal>, now: int, offset: int)
    requires |meals| > 0
    ensures var next := NextMeal(meals, now, offset);
            next.Some? && Scheduled(meals, offset, next.value) && now < next.value.start
            && NothingBetween(meals, offset, now, next.value.start)
  {
    NextMealIsEarliest(meals, now, offset);
    var next := NextMeal(meals, now, offset).value;
    var day :| next == WindowOn(next.meal, day, offset);
    WindowLength(next.meal, day, offset);
  }

  lemma ChainGrows(fs: seq<Finished>, f: Finished, meals: seq<Meal>, offset: int)
    requires Chained(fs, meals, offset) && Scheduled(meals, offset, f.window) && f.window.end <= f.closedAt
    requires |fs| > 0 ==> fs[|fs| - 1].closedAt < f.window.start && NothingBetween(meals, offset, fs[|fs| - 1].closedAt, f.window.start)
    ensures Chained(fs + [f], meals, offset)
  {
    var gs := fs + [f];
    forall i | 0 <= i < |gs| ensures Scheduled(meals, offset, gs[i].window) && gs[i].window.end <= gs[i].closedAt {
      assert i < |fs| ==> gs[i] == fs[i];
    }
    forall i | 0 < i < |gs|
      ensures gs[i - 1].closedAt < gs[i].window.start && NothingBetween(meals, offset, gs[i - 1].closedAt, gs[i].window.start)
    {
      assert gs[i - 1] == fs[i - 1] && (i < |fs| ==> gs[i] == fs[i]);
    }
  }

  /** `next` is the first scheduled window after `now`, if there is any meal. */
  ghost predicate IsNext(next: Option<Window>, meals: seq<Meal>, offset: int, now: int) {
    && (next.Some? <==> |meals| > 0)
    && (next.Some? ==> Scheduled(meals, offset, next.value) && now < next.value.start
                       && NothingBetween(meals, offset, now, next.value.start))
  }

  lemma NextIsNext(meals: seq<Meal>, now: int, offset: int)
    ensures IsNext(NextMeal(meals, now, offset), meals, offset, now)
  {
    if |meals| > 0 {
      NextIsScheduled(meals, now, offset);
    } else {
      NextMealIsEarliest(meals, now, offset);
    }
  }

  lemma FinishKeeps(mon: Monitor, f: Finished, next: Option<Window>, meals: seq<Meal>, offset: int)
    requires mon.active == Some(f.window) && |meals| > 0 && f.window.end <= f.closedAt
    requires Scheduled(meals, offset, f.window) && FollowsLast(mon, meals, offset) && Chained(mon.finished, meals, offset)
    requires IsNext(next, meals, offset, f.closedAt)
    ensures Inv(Activate(mon.(signals := mon.signals + Verdict(f), finished := mon.finished + [f]), next), meals, offset, f.closedAt)
  {
    ChainGrows(mon.finished, f, meals, offset);
  }

  lemma OpeningKeeps(mon: Monitor, mon': Monitor, meals: seq<Meal>, offset: int, clock: int, now: int)
    requires Inv(mon, meals, offset, clock) && clock <= now
    requires mon'.active == mon.active && mon'.finished == mon.finished
    requires mon'.recording && !mon.recording ==> mon.active.Some? && mon.active.value.start <= now
    ensures Inv(mon', meals, offset, now)
  {
  }

  lemma TickKeeps(mon: Monitor, next: Option<Window>, meals: seq<Meal>, offset: int, clock: int, now: int, earlier: real)
    requires Inv(mon, meals, offset, clock) && clock <= now && IsNext(next, meals, offset, now)
    ensures Inv(TickWith(mon, next, now, earlier), meals, offset, now)
  {
    if mon.active.None? {
      assert |mon.finished| == 0;
    } else if mon.recording && now >= mon.active.value.end {
      var w := mon.active.value;
      var f := Finished(w, mon.initialWeight - Weight(mon.bowls, w.meal.bowl), earlier, now);
      FinishKeeps(mon, f, next, meals, offset);
      assert TickWith(mon, next, now, earlier)
             == Activate(mon.(signals := mon.signals + Verdict(f), finished := mon.finished + [f]), next);
    } else {
      OpeningKeeps(mon, TickWith(mon, next, now, earlier), meals, offset, clock, now);
    }
  }

  lemma WeighKeeps(mon: Monitor, e: Ev, meals: seq<Meal>, offset: int, clock: int)
    requires Inv(mon, meals, offset, clock) && e.Weigh?
    ensures Inv(Step(mon, meals, offset, e), meals, offset, clock)
  {
  }

  lemma StepKeeps(mon: Monitor, e: Ev, meals: seq<Meal>, offset: int, clock: int)
    requires Inv(mon, meals, offset, clock) && (e.Tick? ==> clock <= e.now)
    ensures Inv(Step(mon, meals, offset, e), meals, offset, if e.Tick? then e.now else clock)
  {
    if e.Tick? {
      NextIsNext(meals, e.now, offset);
      TickKeeps(mon, NextMeal(meals, e.now, offset), meals, offset, clock, e.now, e.earlier);
    } else {
      WeighKeeps(mon, e, meals, offset, clock);
    }
  }

  lemma {:induction false} InvHolds(run: seq<Ev>, meals: seq<Meal>, offset: int)
    requires ClockOrdered(run)
    ensures Inv(After(run, meals, offset), meals, offset, Clock(run))
  {
    if |run| > 0 {
      var front, e := run[..|run| - 1], run[|run| - 1];
      InvHolds(front, meals, offset);
      StepKeeps(After(front, meals, offset), e, meals, offset, Clock(front));
    }
  }

  /**
   * Recorded windows are scheduled occurrences, pairwise disjoint and increasing, and the next recorded one is the
   * first to start after the previous one was closed.
   */
  lemma WindowsDisjoint(run: seq<Ev>, meals: seq<Meal>, offset: int, i: nat, j: nat)
    requires ClockOrdered(run) && i < j < |After(run, meals, offset).finished|
    ensures var fs := After(run, meals, offset).finished;
            && Scheduled(meals, offset, fs[i].window) && Scheduled(meals, offset, fs[j].window)
            && fs[i].window.start <= fs[i].window.end <= fs[i].closedAt < fs[j].window.start
            && (j == i + 1 ==> NothingBetween(meals, offset, fs[i].closedAt, fs[j].window.start))
    decreases j
  {
    InvHolds(run, meals, offset);
    var fs := After(run, meals, offset).finished;
    assert fs[j - 1].closedAt < fs[j].window.start;
    if i < j - 1 {
      WindowsDisjoint(run, meals, offset, i, j - 1);
    }
  }

  /** The last weight reported for a bowl, 0 before the first. */
  function LastWeight(run: seq<Ev>, bowl: string): real {
    if |run| == 0 then 0.0
    else if run[|run| - 1].Weigh? && run[|run| - 1].bowl == bowl then run[|run| - 1].grams
    else LastWeight(run[..|run| - 1], bowl)
  }

  lemma {:induction false} BowlsRememberLastWeight(run: seq<Ev>, meals: seq<Meal>, offset: int, bowl: string)
    ensures Weight(After(run, meals, offset).bowls, bowl) == LastWeight(run, bowl)
  {
    if |run| > 0 {
      BowlsRememberLastWeight(run[..|run| - 1], meals, offset, bowl);
    }
  }

  /** While no window is closed, a recording keeps its window and its initial weight. */
  lemma {:induction false} RecordingGoesOn(run: seq<Ev>, mid: seq<Ev>, meals: seq<Meal>, offset: int)
    requires After(run, meals, offset).recording && After(run, meals, offset).active.Some?
    ensures var a, b := After(run, meals, offset), After(run + mid, meals, offset);
            && |a.finished| <= |b.finished|
            && (|b.finished| == |a.finished| ==> b.recording && b.active == a.active && b.initialWeight == a.initialWeight && b.finished == a.finished)
  {
    if |mid| == 0 {
      assert run + mid == run;
    } else {
      assert (run + mid)[..|run + mid| - 1] == run + mid[..|mid| - 1];
      RecordingGoesOn(run, mid[..|mid| - 1], meals, offset);
    }
  }

  lemma AfterSnoc(run: seq<Ev>, e: Ev, meals: seq<Meal>, offset: int)
    ensures After(run + [e], meals, offset) == Step(After(run, meals, offset), meals, offset, e)
  {
    assert (run + [e])[..|run|] == run;
  }

  lemma ClosingRecords(mon: Monitor, meals: seq<Meal>, offset: int, now: int, earlier: real)
    requires mon.active.Some? && mon.recording && now >= mon.active.value.end
    ensures var w := mon.active.value;
            TickStep(mon, meals, offset, now, earlier).finished
            == mon.finished + [Finished(w, mon.initialWeight - Weight(mon.bowls, w.meal.bowl), earlier, now)]
  {
  }

  lemma OpeningRecords(mon: Monitor, meals: seq<Meal>, offset: int, now: int, earlier: real)
    requires mon.active.Some? && !mon.recording && now >= mon.active.value.start
    ensures TickStep(mon, meals, offset, now, earlier)
            == mon.(recording := true, initialWeight := Weight(mon.bowls, mon.active.value.meal.bowl))
  {
  }

  ghost predicate OpensAt(run: seq<Ev>, opening: Ev, w: Window, meals: seq<Meal>, offset: int) {
    var a := After(run, meals, offset); opening.Tick? && a.active == Some(w) && !a.recording && w.start <= opening.now
  }

  /** The window is being recorded, from an initial weight. */
  ghost predicate Records(run: seq<Ev>, w: Window, grams: real, meals: seq<Meal>, offset: int) {
    var a := After(run, meals, offset); a.recording && a.active == Some(w) && a.initialWeight == grams
  }

  /** No window is finished between the two points of a run. */
  ghost predicate NoneFinished(run: seq<Ev>, whole: seq<Ev>, meals: seq<Meal>, offset: int) {
    After(whole, meals, offset).finished == After(run, meals, offset).finished
  }

  /** The next event finishes the window. */
  ghost predicate Finishes(run: seq<Ev>, e: Ev, f: Finished, meals: seq<Meal>, offset: int) {
    After(run + [e], meals, offset).finished == After(run, meals, offset).finished + [f]
  }

  /** The intake of a window is the bowl's last weight before the opening tick minus its last weight before the closing one. */
  lemma IntakeIsNetLoss(run: seq<Ev>, opening: Ev, mid: seq<Ev>, closing: Ev, w: Window, meals: seq<Meal>, offset: int)
    requires OpensAt(run, opening, w, meals, offset) && NoneFinished(run, run + [opening] + mid, meals, offset)
    requires closing.Tick? && closing.now >= w.end
    ensures var whole, bowl := run + [opening] + mid, w.meal.bowl;
            Finishes(whole, closing, Finished(w, LastWeight(run, bowl) - LastWeight(whole, bowl), closing.earlier, closing.now), meals, offset)
  {
    RecordedFrom(run, opening, mid, w, meals, offset);
    ClosesNet(run + [opening] + mid, closing, w, LastWeight(run, w.meal.bowl), meals, offset);
  }

  lemma ClosesNet(run: seq<Ev>, closing: Ev, w: Window, grams: real, meals: seq<Meal>, offset: int)
    requires closing.Tick? && closing.now >= w.end && Records(run, w, grams, meals, offset)
    ensures Finishes(run, closing, Finished(w, grams - LastWeight(run, w.meal.bowl), closing.earlier, closing.now), meals, offset)
  {
    ClosingAppends(run, closing, w, meals, offset);
    BowlsRememberLastWeight(run, meals, offset, w.meal.bowl);
  }

  /** From the opening tick until a window is closed, the monitor records with the weight known at the opening. */
  lemma RecordedFrom(run: seq<Ev>, opening: Ev, mid: seq<Ev>, w: Window, meals: seq<Meal>, offset: int)
    requires OpensAt(run, opening, w, meals, offset) && NoneFinished(run, run + [opening] + mid, meals, offset)
    ensures Records(run + [opening] + mid, w, LastWeight(run, w.meal.bowl), meals, offset)
  {
    AfterSnoc(run, opening, meals, offset);
    OpeningRecords(After(run, meals, offset), meals, offset, opening.now, opening.earlier);
    RecordingGoesOn(run + [opening], mid, meals, offset);
    BowlsRememberLastWeight(run, meals, offset, w.meal.bowl);
  }

  lemma ClosingAppends(run: seq<Ev>, closing: Ev, w: Window, meals: seq<Meal>, offset: int)
    requires closing.Tick? && closing.now >= w.end && After(run, meals, offset).recording && After(run, meals, offset).active == Some(w)
    ensures var a := After(run, meals, offset);
            Finishes(run, closing, Finished(w, a.initialWeight - Weight(a.bowls, w.meal.bowl), closing.earlier, closing.now), meals, offset)
  {
    AfterSnoc(run, closing, meals, offset);
    ClosingRecords(After(run, meals, offset), meals, offset, closing.now, closing.earlier);
  }

  /** Event `i` is the tick that opens the recording of `w` after `n` finished ones, at a bowl weight of `grams`. */
  ghost predicate OpenedAt(run: seq<Ev>, i: nat, w: Window, n: nat, grams: real, meals: seq<Meal>, offset: int) {
    && i < |run| && run[i].Tick? && w.start <= run[i].now
    && var a := After(run[..i], meals, offset);
    a.active == Some(w) && !a.recording && |a.finished| == n && grams == LastWeight(run[..i], w.meal.bowl)
  }

  /** Event `j` is the tick that closes the window as the finished one number `n`, at a bowl weight of `grams`. */
  ghost predicate ClosedAt(run: seq<Ev>, j: nat, f: Finished, n: nat, grams: real, meals: seq<Meal>, offset: int) {
    && j < |run| && run[j].Tick? && run[j].now == f.closedAt && run[j].earlier == f.earlier && f.window.end <= f.closedAt
    && var a := After(run[..j], meals, offset);
    a.active == Some(f.window) && a.recording && |a.finished| == n && grams == LastWeight(run[..j], f.window.meal.bowl)
  }

  /** The finished window `n` and its two ticks. */
  ghost predicate HasTicks(run: seq<Ev>, i: nat, j: nat, f: Finished, n: nat, meals: seq<Meal>, offset: int) {
    && i < j < |run|
    && OpenedAt(run, i, f.window, n, LastWeight(run[..i], f.window.meal.bowl), meals, offset)
    && ClosedAt(run, j, f, n, LastWeight(run[..j], f.window.meal.bowl), meals, offset)
    && f.intake == LastWeight(run[..i], f.window.meal.bowl) - LastWeight(run[..j], f.window.meal.bowl)
  }

  /** A recording in progress has its opening tick in the run. */
  ghost predicate RecordingOpened(run: seq<Ev>, mon: Monitor, meals: seq<Meal>, offset: int) {
    && (mon.active.Some? ==> |meals| > 0)
    && (mon.recording ==> mon.active.Some? && exists i :: OpenedAt(run, i, mon.active.value, |mon.finished|, mon.initialWeight, meals, offset))
  }

  lemma OpenedStays(run: seq<Ev>, e: Ev, i: nat, w: Window, n: nat, grams: real, meals: seq<Meal>, offset: int)
    requires OpenedAt(run, i, w, n, grams, meals, offset)
    ensures OpenedAt(run + [e], i, w, n, grams, meals, offset)
  {
    assert (run + [e])[..i] == run[..i];
  }

  lemma TickOpens(run: seq<Ev>, e: Ev, next: Option<Window>, meals: seq<Meal>, offset: int)
    requires e.Tick? && RecordingOpened(run, After(run, meals, offset), meals, offset) && (next.Some? <==> |meals| > 0)
    ensures RecordingOpened(run + [e], TickWith(After(run, meals, offset), next, e.now, e.earlier), meals, offset)
  {
    var mon := After(run, meals, offset);
    if mon.recording {
      var i :| OpenedAt(run, i, mon.active.value, |mon.finished|, mon.initialWeight, meals, offset);
      OpenedStays(run, e, i, mon.active.value, |mon.finished|, mon.initialWeight, meals, offset);
    } else if mon.active.Some? && e.now >= mon.active.value.start {
      assert (run + [e])[..|run|] == run;
      BowlsRememberLastWeight(run, meals, offset, mon.active.value.meal.bowl);
      assert OpenedAt(run + [e], |run|, mon.active.value, |mon.finished|, Weight(mon.bowls, mon.active.value.meal.bowl), meals, offset);
    }
  }

  lemma {:induction false} RecordingHasOpening(run: seq<Ev>, meals: seq<Meal>, offset: int)
    ensures RecordingOpened(run, After(run, meals, offset), meals, offset)
  {
    if |run| > 0 {
      var front, e := run[..|run| - 1], run[|run| - 1];
      var mon := After(front, meals, offset);
      assert run == front + [e];
      RecordingHasOpening(front, meals, offset);
      if e.Tick? {
        NextMealIsEarliest(meals, e.now, offset);
        TickOpens(front, e, NextMeal(meals, e.now, offset), meals, offset);
      } else if mon.recording {
        var i :| OpenedAt(front, i, mon.active.value, |mon.finished|, mon.initialWeight, meals, offset);
        OpenedStays(front, e, i, mon.active.value, |mon.finished|, mon.initialWeight, meals, offset);
      }
    }
  }

  ghost predicate FinishesAtMostOne(a: Monitor, b: Monitor, e: Ev) {
    b.finished == a.finished ||
    (e.Tick? && a.active.Some? && a.recording && a.active.value.end <= e.now
     && var w := a.active.value;
     b.finished == a.finished + [Finished(w, a.initialWeight - Weight(a.bowls, w.meal.bowl), e.earlier, e.now)])
  }

  lemma TickFinishesOne(mon: Monitor, next: Option<Window>, e: Ev)
    requires e.Tick?
    ensures FinishesAtMostOne(mon, TickWith(mon, next, e.now, e.earlier), e)
  {
  }

  /** An event finishes at most one window, the one being recorded. */
  lemma FinishesOne(mon: Monitor, e: Ev, meals: seq<Meal>, offset: int)
    ensures FinishesAtMostOne(mon, Step(mon, meals, offset, e), e)
  {
    if e.Tick? {
      TickFinishesOne(mon, NextMeal(meals, e.now, offset), e);
    }
  }

  lemma TicksStay(run: seq<Ev>, e: Ev, i: nat, j: nat, f: Finished, n: nat, meals: seq<Meal>, offset: int)
    requires HasTicks(run, i, j, f, n, meals, offset)
    ensures HasTicks(run + [e], i, j, f, n, meals, offset)
  {
    assert (run + [e])[..i] == run[..i] && (run + [e])[..j] == run[..j];
  }

  lemma ClosingTick(run: seq<Ev>, e: Ev, f: Finished, meals: seq<Meal>, offset: int) returns (i: nat)
    requires RecordingOpened(run, After(run, meals, offset), meals, offset)
    requires var a := After(run, meals, offset);
             && a.active == Some(f.window) && a.recording && e.Tick? && e.now == f.closedAt && e.earlier == f.earlier && f.window.end <= f.closedAt
             && f.intake == a.initialWeight - Weight(a.bowls, f.window.meal.bowl)
    ensures HasTicks(run + [e], i, |run|, f, |After(run, meals, offset).finished|, meals, offset)
  {
    var a := After(run, meals, offset);
    i :| OpenedAt(run, i, f.window, |a.finished|, a.initialWeight, meals, offset);
    assert (run + [e])[..i] == run[..i] && (run + [e])[..|run|] == run;
    BowlsRememberLastWeight(run, meals, offset, f.window.meal.bowl);
  }

  /**
   * Every finished window of every run has an opening tick and a later closing tick in the run, with no window finished
   * in between, and its intake is the bowl's last weight before the one minus its last weight before the other.
   */
  lemma {:induction false} FinishedHaveTicks(run: seq<Ev>, n: nat, meals: seq<Meal>, offset: int) returns (i: nat, j: nat)
    requires n < |After(run, meals, offset).finished|
    ensures HasTicks(run, i, j, After(run, meals, offset).finished[n], n, meals, offset)
  {
    var front, e := run[..|run| - 1], run[|run| - 1];
    var a, b := After(front, meals, offset), After(run, meals, offset);
    assert run == front + [e];
    RecordingHasOpening(front, meals, offset);
    FinishesOne(a, e, meals, offset);
    if n < |a.finished| {
      i, j := FinishedHaveTicks(front, n, meals, offset);
      TicksStay(front, e, i, j, a.finished[n], n, meals, offset);
    } else {
      j := |front|;
      i := ClosingTick(front, e, b.finished[n], meals, offset);
    }
  }

  function IsVerdict(): Signal -> bool {
    (s: Signal) => s.MealIntake? || s.DayIntake? || s.MealSkipped?
  }

  function Verdicts(fs: seq<Finished>): seq<Signal> {
    if |fs| == 0 then [] else Verdicts(fs[..|fs| - 1]) + Verdict(fs[|fs| - 1])
  }

  /** Every finished window emits exactly its verdict, either intake with day total or skipped, in order and once. */
  lemma {:induction false} OneVerdictPerWindow(run: seq<Ev>, meals: seq<Meal>, offset: int)
    ensures Filter(IsVerdict(), After(run, meals, offset).signals) == Verdicts(After(run, meals, offset).finished)
  {
    if |run| > 0 {
      OneVerdictPerWindow(run[..|run| - 1], meals, offset);
      var mon := After(run[..|run| - 1], meals, offset);
      match run[|run| - 1]
      case Tick(now, earlier) =>
        TickEmits(mon, NextMeal(meals, now, offset), now, earlier);
        TickVerdict(mon, TickStep(mon, meals, offset, now, earlier));
      case Weigh(bowl, grams, at) => WeighVerdict(mon, bowl, grams, at);
    }
  }

  /** A tick emits nothing, or the verdict of the window it closes. */
  ghost predicate EmitsVerdict(mon: Monitor, mon': Monitor) {
    || (mon'.signals == mon.signals && mon'.finished == mon.finished)
    || (|mon'.finished| > 0 && var f := mon'.finished[|mon'.finished| - 1];
        mon'.signals == mon.signals + Verdict(f) && mon'.finished == mon.finished + [f])
  }

  lemma TickEmits(mon: Monitor, next: Option<Window>, now: int, earlier: real)
    ensures EmitsVerdict(mon, TickWith(mon, next, now, earlier))
  {
  }

  lemma TickVerdict(mon: Monitor, mon': Monitor)
    requires Filter(IsVerdict(), mon.signals) == Verdicts(mon.finished) && EmitsVerdict(mon, mon')
    ensures Filter(IsVerdict(), mon'.signals) == Verdicts(mon'.finished)
  {
    if mon'.finished != mon.finished {
      VerdictAdded(mon.signals, mon.finished, mon'.finished[|mon'.finished| - 1]);
    }
  }

  lemma VerdictAdded(signals: seq<Signal>, fs: seq<Finished>, f: Finished)
    requires Filter(IsVerdict(), signals) == Verdicts(fs)
    ensures Filter(IsVerdict(), signals + Verdict(f)) == Verdicts(fs + [f])
  {
    VerdictPasses(signals, f);
    assert (fs + [f])[..|fs|] == fs;
  }

  lemma WeighVerdict(mon: Monitor, bowl: string, grams: real, at: int)
    ensures Filter(IsVerdict(), WeighStep(mon, bowl, grams, at).signals) == Filter(IsVerdict(), mon.signals)
  {
    var served, confirmed := FoodServed(bowl, grams - Weight(mon.bowls, bowl), at), ServedConfirmation(bowl, at);
    assert mon.signals + [served, confirmed] == (mon.signals + [served]) + [confirmed];
    FilterSnoc(IsVerdict(), mon.signals + [served], confirmed);
    FilterSnoc(IsVerdict(), mon.signals, served);
  }

  lemma VerdictPasses(signals: seq<Signal>, f: Finished)
    ensures Filter(IsVerdict(), signals + Verdict(f)) == Filter(IsVerdict(), signals) + Verdict(f)
  {
    if f.intake > INTAKE_MIN_G {
      var v := Verdict(f);
      assert signals + v == (signals + [v[0]]) + [v[1]];
      FilterSnoc(IsVerdict(), signals + [v[0]], v[1]);
      FilterSnoc(IsVerdict(), signals, v[0]);
    } else {
      FilterSnoc(IsVerdict(), signals, Verdict(f)[0]);
    }
  }

  // ----- Which verdict a window gets, and where it stands among the signals -----

  /** The number of verdict signals for these windows: two for a meal of more than 5 g, one for a skipped one. */
  function Room(fs: seq<Finished>): nat {
    if |fs| == 0 then 0 else Room(fs[..|fs| - 1]) + (if fs[|fs| - 1].intake > 5.0 then 2 else 1)
  }

  lemma {:induction false} RoomFits(fs: seq<Finished>)
    ensures |Verdicts(fs)| == Room(fs)
  {
    if |fs| > 0 {
      RoomFits(fs[..|fs| - 1]);
    }
  }

  /** These signals stand at these places of the list. */
  predicate StandsAt(part: seq<Signal>, from: nat, to: nat, all: seq<Signal>) {
    from <= to <= |all| && all[from..to] == part
  }

  lemma StandsInLonger(part: seq<Signal>, from: nat, to: nat, all: seq<Signal>, more: seq<Signal>)
    requires StandsAt(part, from, to, all)
    ensures StandsAt(part, from, to, all + more)
  {
    assert (all + more)[from..to] == all[from..to];
  }

  lemma StandsLast(all: seq<Signal>, part: seq<Signal>)
    ensures StandsAt(part, |all|, |all| + |part|, all + part)
  {
  }

  lemma {:induction false} VerdictPlace(fs: seq<Finished>, n: nat)
    requires n < |fs|
    ensures StandsAt(Verdict(fs[n]), Room(fs[..n]), Room(fs[..n + 1]), Verdicts(fs))
  {
    var front, last := fs[..|fs| - 1], fs[|fs| - 1];
    if n < |front| {
      VerdictPlace(front, n);
      assert front[..n] == fs[..n] && front[..n + 1] == fs[..n + 1];
      StandsInLonger(Verdict(fs[n]), Room(fs[..n]), Room(fs[..n + 1]), Verdicts(front), Verdict(last));
    } else {
      assert fs[..n + 1] == fs && fs[..n] == front;
      RoomFits(front);
      StandsLast(Verdicts(front), Verdict(last));
    }
  }

  /** What a window's signals are when the bowl lost `eaten` grams between its ticks. */
  function Reported(w: Window, eaten: real, earlier: real, closedAt: int): seq<Signal> {
    if eaten > 5.0 then [MealIntake(w.meal.mealId, eaten, w.start), DayIntake(earlier + eaten, closedAt)]
    else [MealSkipped(w.meal.mealId, w.start, if w.end >= w.start then (w.end - w.start) / 60_000 else 0)]
  }

  lemma VerdictReported(f: Finished, meals: seq<Meal>, offset: int)
    requires Scheduled(meals, offset, f.window)
    ensures Verdict(f) == Reported(f.window, f.intake, f.earlier, f.closedAt)
  {
    var day :| f.window == WindowOn(f.window.meal, day, offset);
    WindowLength(f.window.meal, day, offset);
  }

  /** The signals at these places are those of the window whose bowl was weighed before events `i` and `j`. */
  ghost predicate VerdictStands(run: seq<Ev>, i: nat, j: nat, w: Window, from: nat, to: nat, told: seq<Signal>) {
    && i < j < |run| && run[j].Tick?
    && var eaten := LastWeight(run[..i], w.meal.bowl) - LastWeight(run[..j], w.meal.bowl);
    StandsAt(Reported(w, eaten, run[j].earlier, run[j].now), from, to, told)
  }

  /**
   * In every run, the verdict signals of the finished windows follow one another, and those of window `n` are decided
   * by what its bowl lost between its opening and its closing tick: more than 5 g is an intake signal with the meal,
   * the grams and the window's start, then the day's total at the closing tick; anything less is one skipped signal
   * with the window's whole minutes.
   */
  lemma VerdictOfWindow(run: seq<Ev>, n: nat, meals: seq<Meal>, offset: int) returns (i: nat, j: nat)
    requires ClockOrdered(run) && n < |After(run, meals, offset).finished|
    ensures HasTicks(run, i, j, After(run, meals, offset).finished[n], n, meals, offset)
    ensures var fs := After(run, meals, offset).finished;
            VerdictStands(run, i, j, fs[n].window, Room(fs[..n]), Room(fs[..n + 1]), Filter(IsVerdict(), After(run, meals, offset).signals))
    ensures |Filter(IsVerdict(), After(run, meals, offset).signals)| == Room(After(run, meals, offset).finished)
  {
    var mon := After(run, meals, offset);
    i, j := FinishedHaveTicks(run, n, meals, offset);
    OneVerdictPerWindow(run, meals, offset);
    RoomFits(mon.finished);
    FinishedScheduled(run, n, meals, offset);
    TicksMeasure(run, i, j, mon.finished[n], n, meals, offset);
    VerdictPlace(mon.finished, n);
    VerdictDecided(run, i, j, mon.finished[n], Room(mon.finished[..n]), Room(mon.finished[..n + 1]), Verdicts(mon.finished), meals, offset);
  }

  lemma FinishedScheduled(run: seq<Ev>, n: nat, meals: seq<Meal>, offset: int)
    requires ClockOrdered(run) && n < |After(run, meals, offset).finished|
    ensures Scheduled(meals, offset, After(run, meals, offset).finished[n].window)
  {
    InvHolds(run, meals, offset);
  }

  /** What the record of a window holds, in terms of two events of the run. */
  ghost predicate Measured(run: seq<Ev>, i: nat, j: nat, f: Finished) {
    && i < j < |run| && run[j].Tick? && f.closedAt == run[j].now && f.earlier == run[j].earlier
    && f.intake == LastWeight(run[..i], f.window.meal.bowl) - LastWeight(run[..j], f.window.meal.bowl)
  }

  lemma TicksMeasure(run: seq<Ev>, i: nat, j: nat, f: Finished, n: nat, meals: seq<Meal>, offset: int)
    requires HasTicks(run, i, j, f, n, meals, offset)
    ensures Measured(run, i, j, f)
  {
  }

  lemma VerdictDecided(run: seq<Ev>, i: nat, j: nat, f: Finished, from: nat, to: nat, told: seq<Signal>, meals: seq<Meal>, offset: int)
    requires Measured(run, i, j, f) && Scheduled(meals, offset, f.window) && StandsAt(Verdict(f), from, to, told)
    ensures VerdictStands(run, i, j, f.window, from, to, told)
  {
    VerdictReported(f, meals, offset);
  }

  // ----- No window is opened or closed late -----

  predicate Ticked(run: seq<Ev>) { |run| > 0 && (run[|run| - 1].Tick? || Ticked(run[..|run| - 1])) }

  /** The latest tick found nothing being recorded. */
  predicate JustOpened(run: seq<Ev>, meals: seq<Meal>, offset: int) {
    |run| > 0 &&
    if run[|run| - 1].Tick? then !After(run[..|run| - 1], meals, offset).recording else JustOpened(run[..|run| - 1], meals, offset)
  }

  ghost predicate OnTime(mon: Monitor, clock: int, just: bool) {
    && mon.active.Some? && (mon.recording <==> mon.active.value.start <= clock)
    && (mon.recording && mon.active.value.end <= clock ==> just)
  }

  lemma TickOnTime(mon: Monitor, next: Option<Window>, clock: int, just: bool, now: int, earlier: real)
    requires (mon.active.Some? ==> OnTime(mon, clock, just)) && (mon.recording ==> mon.active.Some?)
    requires clock <= now && next.Some? && now < next.value.start
    ensures OnTime(TickWith(mon, next, now, earlier), now, !mon.recording)
  {
  }

  /**
   * After any tick of a non-empty schedule a window is adopted, and it is being recorded if and only if its start has
   * been reached; its end has then not been reached, unless the latest tick itself opened it.
   */
  lemma {:induction false} RecordsOnTime(run: seq<Ev>, meals: seq<Meal>, offset: int)
    requires ClockOrdered(run) && |meals| > 0
    ensures if Ticked(run) then OnTime(After(run, meals, offset), Clock(run), JustOpened(run, meals, offset))
            else After(run, meals, offset).active.None?
  {
    if |run| > 0 {
      var front, e := run[..|run| - 1], run[|run| - 1];
      RecordsOnTime(front, meals, offset);
      InvHolds(front, meals, offset);
      if e.Tick? {
        NextIsNext(meals, e.now, offset);
        TickOnTime(After(front, meals, offset), NextMeal(meals, e.now, offset), Clock(front), JustOpened(front, meals, offset), e.now, e.earlier);
      }
    }
  }

  function IsServed(): Signal -> bool {
    (s: Signal) => s.FoodServed? || s.ServedConfirmation?
  }

  function ServedBy(last: real, bowl: string, grams: real, at: int): seq<Signal> {
    var rise := grams - last;
    if last != 0.0 && rise > SERVED_MIN_G then [FoodServed(bowl, rise, at), ServedConfirmation(bowl, at)] else []
  }

  /** What the weighings say was served: every rise of more than 10 g over a non-zero last weight of the bowl. */
  function Served(run: seq<Ev>): seq<Signal> {
    if |run| == 0 then []
    else
      var front, e := run[..|run| - 1], run[|run| - 1];
      if e.Weigh? then Served(front) + ServedBy(LastWeight(front, e.bowl), e.bowl, e.grams, e.at) else Served(front)
  }

  /** The served signals of a run are, in order, exactly those its weighings call for, whatever the meal windows do. */
  lemma {:induction false} ServedExactly(run: seq<Ev>, meals: seq<Meal>, offset: int)
    ensures Filter(IsServed(), After(run, meals, offset).signals) == Served(run)
  {
    if |run| > 0 {
      var front, e := run[..|run| - 1], run[|run| - 1];
      var mon := After(front, meals, offset);
      ServedExactly(front, meals, offset);
      match e
      case Tick(now, earlier) =>
        TickEmits(mon, NextMeal(meals, now, offset), now, earlier);
        TickServesNothing(mon, TickStep(mon, meals, offset, now, earlier));
      case Weigh(bowl, grams, at) =>
        BowlsRememberLastWeight(front, meals, offset, bowl);
        WeighServes(mon, bowl, grams, at);
    }
  }

  lemma VerdictServesNothing(signals: seq<Signal>, f: Finished)
    ensures Filter(IsServed(), signals + Verdict(f)) == Filter(IsServed(), signals)
  {
    FilterAppend(IsServed(), signals, Verdict(f));
    FilterEmpty(IsServed(), Verdict(f));
  }

  lemma TickServesNothing(mon: Monitor, mon': Monitor)
    requires EmitsVerdict(mon, mon')
    ensures Filter(IsServed(), mon'.signals) == Filter(IsServed(), mon.signals)
  {
    if mon'.finished != mon.finished {
      VerdictServesNothing(mon.signals, mon'.finished[|mon'.finished| - 1]);
    }
  }

  lemma WeighServes(mon: Monitor, bowl: string, grams: real, at: int)
    ensures var current := Weight(mon.bowls, bowl);
            Filter(IsServed(), WeighStep(mon, bowl, grams, at).signals)
            == Filter(IsServed(), mon.signals) + ServedBy(current, bowl, grams, at)
  {
    var served, confirmed := FoodServed(bowl, grams - Weight(mon.bowls, bowl), at), ServedConfirmation(bowl, at);
    assert mon.signals + [served, confirmed] == (mon.signals + [served]) + [confirmed];
    FilterSnoc(IsServed(), mon.signals + [served], confirmed);
    FilterSnoc(IsServed(), mon.signals, served);
  }

  // ----- The monitor object -----

  class MealMonitor {
    const meals: seq<Meal>
    const offset: int
    var recording: bool
    var meal: Meal
    var startMs: int
    var endMs: int
    var initialWeight: real
    var bowls: map<string, real>
    var signals: seq<Signal>
    ghost var finished: seq<Finished>

    /** Start 0 is the unset marker. */
    ghost function State(): Monitor
      reads this
    {
      Monitor(if startMs == 0 then None else Some(Window(meal, startMs, endMs)), recording, initialWeight, bowls, signals, finished)
    }

    constructor (meals: seq<Meal>, offset: int)
      ensures State() == INITIAL && this.meals == meals && this.offset == offset
    {
      this.meals, this.offset := meals, offset;
      recording, startMs, endMs, initialWeight, bowls, signals, finished := false, 0, 0, 0.0, map[], [], [];
      meal := Meal("", 0, 0, "", "");
    }

    /** Today's meals that are still ahead. */
    method FirstToday(now: nat) returns (found: bool, best: Meal, start: int)
      ensures var day := LocalDay(now, offset);
              && (found <==> Scan(meals, now, day, offset).Some?)
              && (found ==> Scan(meals, now, day, offset) == Some(best) && start == OnDay(best.start, day, offset))
    {
      var day := LocalDay(now, offset);
      found, best, start := false, Meal("", 0, 0, "", ""), 0;
      for i := 0 to |meals|
        invariant found <==> Scan(meals[..i], now, day, offset).Some?
        invariant found ==> Scan(meals[..i], now, day, offset) == Some(best) && start == OnDay(best.start, day, offset)
      {
        assert meals[..i + 1][..i] == meals[..i];
        OccurrenceIsOnDay(now, meals[i].start, false, offset);
        var s := OccurrenceMs(now, meals[i].start, false, offset);
        if s > now {
          if !found || s < start {
            start, best, found := s, meals[i], true;
          }
        }
      }
      assert meals[..|meals|] == meals;
    }

    /** Tomorrow's meals, which are all ahead. */
    method FirstTomorrow(now: nat) returns (found: bool, best: Meal, start: int)
      ensures var day := LocalDay(now, offset) + 1;
              && (found <==> Scan(meals, now, day, offset).Some?)
              && (found ==> Scan(meals, now, day, offset) == Some(best) && start == OnDay(best.start, day, offset))
    {
      var day := LocalDay(now, offset) + 1;
      DayBounds(now, offset);
      found, best, start := false, Meal("", 0, 0, "", ""), 0;
      for i := 0 to |meals|
        invariant found <==> Scan(meals[..i], now, day, offset).Some?
        invariant found ==> Scan(meals[..i], now, day, offset) == Some(best) && start == OnDay(best.start, day, offset)
      {
        assert meals[..i + 1][..i] == meals[..i];
        OccurrenceIsOnDay(now, meals[i].start, true, offset);
        var s := OccurrenceMs(now, meals[i].start, true, offset);
        if !found || s < start {
          start, best, found := s, meals[i], true;
        }
      }
      assert meals[..|meals|] == meals;
    }

    method FindNextMeal(now: nat) returns (found: bool, best: Meal, start: int, end: int)
      ensures found <==> NextMeal(meals, now, offset).Some?
      ensures found ==> NextMeal(meals, now, offset) == Some(Window(best, start, end))
    {
      end := 0;
      found, best, start := FirstToday(now);
      if !found {
        found, best, start := FirstTomorrow(now);
      }
      if found {
        end := OccurrenceMs(start, best.end, best.end < best.start, offset);
      }
    }

    method InitializeNextMeal(now: nat)
      modifies this`meal, this`startMs, this`endMs, this`recording
      ensures var next := NextMeal(meals, now, offset);
              if next.Some? then State().active == next && !recording
              else State().active == old(State().active) && recording == old(recording)
    {
      var found, best, start, end := FindNextMeal(now);
      if found {
        NextMealIsEarliest(meals, now, offset);
        meal, startMs, endMs, recording := best, start, end, false;
      }
    }

    method Tick(now: nat, earlier: real)
      modifies this
      ensures State() == TickStep(old(State()), meals, offset, now, earlier)
      ensures old(startMs != 0 && recording && now >= endMs) ==>
                var intake, m := old(initialWeight - Weight(bowls, meal.bowl)), old(meal);
                signals == old(signals)
                           + (if intake > 5.0 then [MealIntake(m.mealId, intake, old(startMs)), DayIntake(earlier + intake, now)]
                              else [MealSkipped(m.mealId, old(startMs), ToleranceMinutes(m.start, m.end))])
    {
      if startMs == 0 {
        InitializeNextMeal(now);
        return;
      }
      if !recording {
        if now >= startMs {
          recording := true;
          initialWeight := Weight(bowls, meal.bowl);
        }
      } else if now >= endMs {
        var intake := initialWeight - Weight(bowls, meal.bowl);
        var tolerance := ToleranceMinutes(meal.start, meal.end);
        finished := finished + [Finished(Window(meal, startMs, endMs), intake, earlier, now)];
        if intake > INTAKE_MIN_G {
          signals := signals + [MealIntake(meal.mealId, intake, startMs), DayIntake(earlier + intake, now)];
        } else {
          signals := signals + [MealSkipped(meal.mealId, startMs, tolerance)];
        }
        InitializeNextMeal(now);
      }
    }

    method UpdateBowlWeight(bowl: string, grams: real, at: nat)
      modifies this`bowls, this`signals
      ensures State() == WeighStep(old(State()), bowl, grams, at)
    {
      var current := Weight(bowls, bowl);
      if current == 0.0 {
        bowls := bowls[bowl := grams];
        return;
      }
      if grams > current + SERVED_MIN_G {
        signals := signals + [FoodServed(bowl, grams - current, at), ServedConfirmation(bowl, at)];
      }
      bowls := bowls[bowl := grams];
    }
  }
}
