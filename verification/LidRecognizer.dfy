/** Manual lid moves recognised from lid readings and motor messages. */
module LidRecognizer {
  const DEBOUNCE_MS := 1000
  const OPEN_SIGNAL := 84
  const CLOSE_SIGNAL := 123

  /** A lid reading (0 closed, 1 open, 3 in transition) or a motor message. */
  datatype Body = Reading(value: real) | Motor(running: bool)

  /** `at` is the steady clock in nanoseconds. */
  datatype Message = Message(body: Body, at: int)

  datatype Event = Event(signal: int, at: int)

  /** The fields of one lid; `fired` lists recognised moves before the debounce, `emitted` those pushed to the queue. */
  datatype Lid = Lid(state: real, stable: real, motorRunning: bool, systemActuating: bool, manual: bool, lastEvent: int,
                     fired: seq<Event>, emitted: seq<Event>)

  const UNKNOWN := Lid(-1.0, -1.0, false, false, false, 0, [], [])

  predicate Suppressed(lastEvent: int, now: int) {
    lastEvent > 0 && (now - lastEvent) / 1_000_000 < DEBOUNCE_MS
  }

  function Fire(l: Lid, signal: int, now: int): Lid {
    var f := l.(fired := l.fired + [Event(signal, now)]);
    if Suppressed(l.lastEvent, now) then f
    else f.(lastEvent := now, emitted := l.emitted + [Event(signal, now)])
  }

  function Step(l: Lid, m: Message): Lid {
    match m.body
    case Motor(running) =>
      var l' := l.(motorRunning := running);
      if running then l'.(manual := false, systemActuating := true) else l'
    case Reading(v) =>
      var armed := if v == 3.0 then l.(manual := true) else l;
      if v == 1.0 then
        (if armed.manual && armed.stable == 0.0 then Fire(armed, OPEN_SIGNAL, m.at) else armed)
        .(stable := 1.0, manual := false, state := v)
      else if v == 0.0 then
        (if armed.manual && armed.stable == 1.0 then Fire(armed, CLOSE_SIGNAL, m.at) else armed)
        .(stable := 0.0, manual := false, state := v)
      else armed.(state := v)
  }

  function After(h: seq<Message>): Lid {
    if |h| == 0 then UNKNOWN else Step(After(h[..|h| - 1]), h[|h| - 1])
  }

  // ----- The recogniser, stated on the history -----

  predicate IsStable(b: Body) { b.Reading? && (b.value == 0.0 || b.value == 1.0) }

  /** The latest stable reading of the history is `v`. */
  ghost predicate LastStableIs(h: seq<Message>, v: real) {
    exists k :: 0 <= k < |h| && h[k].body == Reading(v) && IsStable(h[k].body) && forall j :: k < j < |h| ==> !IsStable(h[j].body)
  }

  /** A transition reading came after the latest stable reading and after the latest motor-running message. */
  ghost predicate Armed(h: seq<Message>) {
    exists k :: 0 <= k < |h| && h[k].body == Reading(3.0)
                && forall j :: k < j < |h| ==> !IsStable(h[j].body) && h[j].body != Motor(true)
  }

  /** The flag and the stable state say exactly what the history says. */
  lemma {:induction false} FlagsMatchHistory(h: seq<Message>)
    ensures After(h).manual <==> Armed(h)
    ensures After(h).stable == 0.0 <==> LastStableIs(h, 0.0)
    ensures After(h).stable == 1.0 <==> LastStableIs(h, 1.0)
  {
    if |h| > 0 {
      FlagsMatchHistory(h[..|h| - 1]);
      ArmedSnoc(h);
      LastStableSnoc(h, 0.0);
      LastStableSnoc(h, 1.0);
    }
  }

  lemma ArmedSnoc(h: seq<Message>)
    requires |h| > 0
    ensures var front, b := h[..|h| - 1], h[|h| - 1].body;
            Armed(h) <==> b == Reading(3.0) || (Armed(front) && !IsStable(b) && b != Motor(true))
  {
    var n := |h| - 1;
    var front := h[..n];
    if h[n].body == Reading(3.0) {
      assert Armed(h);
    } else {
      if Armed(front) && !IsStable(h[n].body) && h[n].body != Motor(true) {
        var k :| 0 <= k < |front| && front[k].body == Reading(3.0)
                 && forall j :: k < j < |front| ==> !IsStable(front[j].body) && front[j].body != Motor(true);
        forall j | k < j < |h| ensures !IsStable(h[j].body) && h[j].body != Motor(true) {
          assert j < n ==> h[j] == front[j];
        }
        assert h[k] == front[k];
      }
      if Armed(h) {
        var k :| 0 <= k < |h| && h[k].body == Reading(3.0)
                 && forall j :: k < j < |h| ==> !IsStable(h[j].body) && h[j].body != Motor(true);
        assert front[k] == h[k];
        forall j | k < j < |front| ensures !IsStable(front[j].body) && front[j].body != Motor(true) {
          assert front[j] == h[j];
        }
      }
    }
  }

  lemma LastStableSnoc(h: seq<Message>, v: real)
    requires |h| > 0 && (v == 0.0 || v == 1.0)
    ensures var front, b := h[..|h| - 1], h[|h| - 1].body;
            LastStableIs(h, v) <==> if IsStable(b) then b == Reading(v) else LastStableIs(front, v)
  {
    var n := |h| - 1;
    var front := h[..n];
    if IsStable(h[n].body) {
      if h[n].body == Reading(v) {
        assert LastStableIs(h, v);
      }
    } else {
      if LastStableIs(front, v) {
        var k :| 0 <= k < |front| && front[k].body == Reading(v) && IsStable(front[k].body)
                 && forall j :: k < j < |front| ==> !IsStable(front[j].body);
        forall j | k < j < |h| ensures !IsStable(h[j].body) {
          assert j < n ==> h[j] == front[j];
        }
        assert h[k] == front[k];
      }
      if LastStableIs(h, v) {
        var k :| 0 <= k < |h| && h[k].body == Reading(v) && IsStable(h[k].body)
                 && forall j :: k < j < |h| ==> !IsStable(h[j].body);
        assert front[k] == h[k];
        forall j | k < j < |front| ensures !IsStable(front[j].body) {
          assert front[j] == h[j];
        }
      }
    }
  }

  /** What the history says a message should fire. */
  ghost function Expected(h: seq<Message>, m: Message): seq<Event> {
    if m.body == Reading(1.0) && LastStableIs(h, 0.0) && Armed(h) then [Event(OPEN_SIGNAL, m.at)]
    else if m.body == Reading(0.0) && LastStableIs(h, 1.0) && Armed(h) then [Event(CLOSE_SIGNAL, m.at)]
    else []
  }

  ghost function ExpectedAll(h: seq<Message>): seq<Event> {
    if |h| == 0 then [] else ExpectedAll(h[..|h| - 1]) + Expected(h[..|h| - 1], h[|h| - 1])
  }

  /** Before the debounce the machine fires exactly the moves the history defines. */
  lemma {:induction false} FiresExactly(h: seq<Message>)
    ensures After(h).fired == ExpectedAll(h)
  {
    if |h| > 0 {
      FiresExactly(h[..|h| - 1]);
      FlagsMatchHistory(h[..|h| - 1]);
    }
  }

  /** The motor guard is not there: a move made while the motor runs is reported as manual. */
  lemma MotorMoveReportedManual()
    ensures var h := [Message(Reading(0.0), 1), Message(Motor(true), 2), Message(Reading(3.0), 3), Message(Reading(1.0), 4)];
            After(h).motorRunning && After(h).emitted == [Event(OPEN_SIGNAL, 4)]
  {
    var a, b, c, d := Message(Reading(0.0), 1), Message(Motor(true), 2), Message(Reading(3.0), 3), Message(Reading(1.0), 4);
    assert [a][..0] == [] && [a, b][..1] == [a] && [a, b, c][..2] == [a, b] && [a, b, c, d][..3] == [a, b, c];
    assert After([a]) == Step(UNKNOWN, a);
    assert After([a, b]) == Step(After([a]), b);
    assert After([a, b, c]) == Step(After([a, b]), c);
  }

  /** The latest motor message of the history says that the motor runs. */
  ghost predicate MotorOn(h: seq<Message>) {
    exists k :: 0 <= k < |h| && h[k].body == Motor(true) && forall j :: k < j < |h| ==> !h[j].body.Motor?
  }

  lemma MotorOnSnoc(h: seq<Message>)
    requires |h| > 0
    ensures var front, b := h[..|h| - 1], h[|h| - 1].body; MotorOn(h) <==> if b.Motor? then b == Motor(true) else MotorOn(front)
  {
    var n := |h| - 1;
    var front := h[..n];
    if h[n].body.Motor? {
      if h[n].body == Motor(true) {
        assert MotorOn(h);
      }
    } else {
      if MotorOn(front) {
        var k :| 0 <= k < |front| && front[k].body == Motor(true) && forall j :: k < j < |front| ==> !front[j].body.Motor?;
        forall j | k < j < |h| ensures !h[j].body.Motor? {
          assert j < n ==> h[j] == front[j];
        }
        assert h[k] == front[k];
      }
      if MotorOn(h) {
        var k :| 0 <= k < |h| && h[k].body == Motor(true) && forall j :: k < j < |h| ==> !h[j].body.Motor?;
        assert front[k] == h[k];
        forall j | k < j < |front| ensures !front[j].body.Motor? {
          assert front[j] == h[j];
        }
      }
    }
  }

  lemma {:induction false} MotorMatchesHistory(h: seq<Message>)
    ensures After(h).motorRunning <==> MotorOn(h)
  {
    if |h| > 0 {
      MotorMatchesHistory(h[..|h| - 1]);
      MotorOnSnoc(h);
    }
  }

  /** A message fires an event while the motor runs exactly when the recogniser expects it and the last motor message is a start. */
  lemma FiresWhileRunningIff(h: seq<Message>, m: Message)
    ensures After(h + [m]).fired != After(h).fired && After(h + [m]).motorRunning <==> Expected(h, m) != [] && MotorOn(h)
  {
    var whole := h + [m];
    assert whole[..|h|] == h;
    FiresExactly(h);
    FiresExactly(whole);
    MotorMatchesHistory(h);
    MotorMatchesHistory(whole);
    MotorOnSnoc(whole);
    if Expected(h, m) != [] {
      assert |ExpectedAll(whole)| > |ExpectedAll(h)|;
    }
  }

  /** The value of the latest reading, -1 before the first. */
  function LastReading(h: seq<Message>): real {
    if |h| == 0 then -1.0 else match h[|h| - 1].body case Reading(v) => v case Motor(_) => LastReading(h[..|h| - 1])
  }

  /** The state field is the latest reading, and the actuation flag, once a motor has started, stays set. */
  lemma {:induction false} StateMatchesHistory(h: seq<Message>)
    ensures After(h).state == LastReading(h)
    ensures After(h).systemActuating <==> exists k :: 0 <= k < |h| && h[k].body == Motor(true)
  {
    if |h| > 0 {
      var front, m := h[..|h| - 1], h[|h| - 1];
      assert h == front + [m];
      StateMatchesHistory(front);
      StartedSnoc(front, m);
    }
  }

  lemma StartedSnoc(h: seq<Message>, m: Message)
    ensures (exists k :: 0 <= k < |h + [m]| && (h + [m])[k].body == Motor(true))
            <==> m.body == Motor(true) || exists k :: 0 <= k < |h| && h[k].body == Motor(true)
  {
    var longer := h + [m];
    assert longer[|h|] == m && forall k :: 0 <= k < |h| ==> longer[k] == h[k];
  }

  // ----- Debounce -----

  predicate Timed(h: seq<Message>) {
    |h| == 0 ||
    (Timed(h[..|h| - 1]) && h[|h| - 1].at > 0 && (|h| > 1 ==> h[|h| - 2].at <= h[|h| - 1].at))
  }

  ghost predicate Spaced(l: Lid, now: int) {
    && (if |l.emitted| == 0 then l.lastEvent == 0 else 0 < l.lastEvent == l.emitted[|l.emitted| - 1].at <= now)
    && (forall i :: 0 < i < |l.emitted| ==> l.emitted[i].at - l.emitted[i - 1].at >= DEBOUNCE_MS * 1_000_000)
  }

  lemma {:induction false} EmittedSpaced(h: seq<Message>)
    requires Timed(h)
    ensures Spaced(After(h), if |h| == 0 then 0 else h[|h| - 1].at)
  {
    if |h| > 0 {
      EmittedSpaced(h[..|h| - 1]);
    }
  }

  /** Emitted events of a lid are at least one second apart, however far apart they are in the list. */
  lemma EventsApart(h: seq<Message>, i: nat, j: nat)
    requires Timed(h) && i < j < |After(h).emitted|
    ensures After(h).emitted[j].at - After(h).emitted[i].at >= DEBOUNCE_MS * 1_000_000
    decreases j
  {
    EmittedSpaced(h);
    if i < j - 1 {
      EventsApart(h, i, j - 1);
    }
  }

  lemma FireSpaced(l: Lid, now: int, signal: int)
    requires Spaced(l, now)
    ensures Fire(l, signal, now).emitted ==
              (if |l.emitted| > 0 && now - l.emitted[|l.emitted| - 1].at < DEBOUNCE_MS * 1_000_000
               then l.emitted else l.emitted + [Event(signal, now)])
  {
  }

  lemma StepEmits(l: Lid, m: Message, signal: int)
    requires m.body == Reading(if signal == OPEN_SIGNAL then 1.0 else 0.0) && (signal == OPEN_SIGNAL || signal == CLOSE_SIGNAL)
    requires l.manual && l.stable == (if signal == OPEN_SIGNAL then 0.0 else 1.0)
    ensures Step(l, m).emitted == Fire(l, signal, m.at).emitted
  {
  }

  /** A fired move is emitted unless less than a second has passed since the last emitted one. */
  lemma FiredIsEmittedUnlessRecent(h: seq<Message>, m: Message)
    requires Timed(h) && m.at > 0 && (|h| > 0 ==> h[|h| - 1].at <= m.at) && Expected(h, m) != []
    ensures var l := After(h);
            After(h + [m]).emitted ==
              (if |l.emitted| > 0 && m.at - l.emitted[|l.emitted| - 1].at < DEBOUNCE_MS * 1_000_000
               then l.emitted else l.emitted + Expected(h, m))
  {
    assert (h + [m])[..|h|] == h;
    var l, signal := After(h), Expected(h, m)[0].signal;
    EmittedSpaced(h);
    FlagsMatchHistory(h);
    assert Spaced(l, m.at);
    FireSpaced(l, m.at, signal);
    StepEmits(l, m, signal);
  }

  // ----- Two lids -----

  /** A message on one of the four topics, or one whose topic or size is not recognised. */
  datatype Frame = ForLid(lid: nat, message: Message) | Ignored

  datatype Lids = Lids(lid1: Lid, lid2: Lid)

  function Dispatch(s: Lids, f: Frame): Lids {
    if f.ForLid? && f.lid == 1 then s.(lid1 := Step(s.lid1, f.message))
    else if f.ForLid? && f.lid == 2 then s.(lid2 := Step(s.lid2, f.message))
    else s
  }

  function AfterFrames(fs: seq<Frame>): Lids {
    if |fs| == 0 then Lids(UNKNOWN, UNKNOWN) else Dispatch(AfterFrames(fs[..|fs| - 1]), fs[|fs| - 1])
  }

  function MessagesFor(fs: seq<Frame>, lid: nat): seq<Message> {
    if |fs| == 0 then []
    else
      var front, last := MessagesFor(fs[..|fs| - 1], lid), fs[|fs| - 1];
      if last.ForLid? && last.lid == lid then front + [last.message] else front
  }

  /** Lids do not interfere: each behaves as if its own messages were the only ones. */
  lemma {:induction false} LidsDoNotInterfere(fs: seq<Frame>)
    ensures AfterFrames(fs) == Lids(After(MessagesFor(fs, 1)), After(MessagesFor(fs, 2)))
  {
    if |fs| > 0 {
      LidsDoNotInterfere(fs[..|fs| - 1]);
      var last := fs[|fs| - 1];
      if last.ForLid? {
        var h := MessagesFor(fs[..|fs| - 1], last.lid);
        assert (h + [last.message])[..|h|] == h;
      }
    }
  }

  // ----- The subscriber -----

  class LidMachine {
    var state: real
    var stable: real
    var motorRunning: bool
    var systemActuating: bool
    var manual: bool
    var lastEvent: int
    var emitted: seq<Event>
    ghost var fired: seq<Event>

    ghost function Current(): Lid
      reads this
    {
      Lid(state, stable, motorRunning, systemActuating, manual, lastEvent, fired, emitted)
    }

    constructor ()
      ensures Current() == UNKNOWN
    {
      state, stable, motorRunning, systemActuating, manual := -1.0, -1.0, false, false, false;
      lastEvent, emitted, fired := 0, [], [];
    }

    method HandleMotor(running: bool, at: int)
      modifies this
      ensures Current() == Step(old(Current()), Message(Motor(running), at))
    {
      motorRunning := running;
      if motorRunning {
        manual := false;
        systemActuating := true;
      }
    }

    method HandleReading(value: real, at: int)
      modifies this
      ensures Current() == Step(old(Current()), Message(Reading(value), at))
    {
      if value == 3.0 {
        manual := true;
      }
      if value == 1.0 {
        if manual && stable == 0.0 {
          EmitManualEvent(OPEN_SIGNAL, at);
        }
        stable := 1.0;
        manual := false;
      } else if value == 0.0 {
        if manual && stable == 1.0 {
          EmitManualEvent(CLOSE_SIGNAL, at);
        }
        stable := 0.0;
        manual := false;
      }
      state := value;
    }

    method EmitManualEvent(signal: int, now: int)
      modifies this`lastEvent, this`emitted, this`fired
      ensures Current() == Fire(old(Current()), signal, now)
    {
      fired := fired + [Event(signal, now)];
      var elapsed := (now - lastEvent) / 1_000_000;
      if lastEvent > 0 && elapsed < DEBOUNCE_MS {
        return;
      }
      lastEvent := now;
      emitted := emitted + [Event(signal, now)];
    }
  }

  class StatusSubscriber {
    const lid1: LidMachine
    const lid2: LidMachine

    ghost function Current(): Lids
      reads lid1, lid2
    {
      Lids(lid1.Current(), lid2.Current())
    }

    constructor ()
      ensures lid1 != lid2 && fresh(lid1) && fresh(lid2) && Current() == Lids(UNKNOWN, UNKNOWN)
    {
      lid1 := new LidMachine();
      lid2 := new LidMachine();
    }

    method HandleMessage(f: Frame)
      requires lid1 != lid2
      modifies lid1, lid2
      ensures Current() == Dispatch(old(Current()), f)
    {
      if f.Ignored? {
        return;
      }
      if f.lid == 1 {
        match f.message.body {
          case Motor(running) => lid1.HandleMotor(running, f.message.at);
          case Reading(value) => lid1.HandleReading(value, f.message.at);
        }
      } else if f.lid == 2 {
        match f.message.body {
          case Motor(running) => lid2.HandleMotor(running, f.message.at);
          case Reading(value) => lid2.HandleReading(value, f.message.at);
        }
      }
    }
  }
}
