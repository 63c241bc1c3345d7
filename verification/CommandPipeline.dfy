/** Commands from the wire and from hardware: validation, one FIFO queue, one worker, one answer each. */
module CommandPipeline {
  import opened Sequences

  // ----- The signal table -----

  datatype Direction = Inbound | Outbound
  datatype Descriptor = Descriptor(signalId: nat, direction: Direction)

  /** Twenty slots with nineteen initialisers: the last slot is zero, that is signal 0, inbound. */
  const REGISTRY: seq<Descriptor> := [
    Descriptor(84, Inbound), Descriptor(85, Inbound), Descriptor(123, Inbound), Descriptor(64, Inbound),
    Descriptor(65, Outbound), Descriptor(125, Outbound), Descriptor(126, Outbound), Descriptor(91, Inbound),
    Descriptor(93, Outbound), Descriptor(88, Inbound), Descriptor(133, Inbound), Descriptor(98, Inbound),
    Descriptor(134, Inbound), Descriptor(135, Inbound), Descriptor(136, Outbound), Descriptor(137, Inbound),
    Descriptor(138, Inbound), Descriptor(139, Inbound), Descriptor(140, Inbound), Descriptor(0, Inbound)]

  /** The first descriptor of the signal decides. */
  predicate InboundIn(table: seq<Descriptor>, signalId: nat) {
    |table| > 0 &&
    (if table[0].signalId == signalId then table[0].direction == Inbound else InboundIn(table[1..], signalId))
  }

  /** The signals the worker has a handler for. */
  predicate Handled(signalId: nat) {
    signalId in {84, 123, 64, 85, 88, 91, 98, 133, 134, 135, 139, 137, 138, 140}
  }

  lemma {:induction false} InboundFrom(k: nat, signalId: nat)
    requires k <= 20
    ensures InboundIn(REGISTRY[k..], signalId)
            <==> exists i :: k <= i < 20 && REGISTRY[i] == Descriptor(signalId, Inbound)
    decreases 20 - k
  {
    if k < 20 {
      InboundFrom(k + 1, signalId);
      assert REGISTRY[k..][1..] == REGISTRY[k + 1..] && REGISTRY[k..][0] == REGISTRY[k];
      DistinctSignals(k);
    }
  }

  lemma DistinctSignals(k: nat)
    requires k < 20
    ensures forall i :: k < i < 20 ==> REGISTRY[i].signalId != REGISTRY[k].signalId
  {
  }

  /** Where the table lists a handled signal, or signal 0. */
  function SlotOf(signalId: nat): nat {
    match signalId
    case 84 => 0 case 85 => 1 case 123 => 2 case 64 => 3 case 91 => 7 case 88 => 9 case 133 => 10 case 98 => 11
    case 134 => 12 case 135 => 13 case 137 => 15 case 138 => 16 case 139 => 17 case 140 => 18 case _ => 19
  }

  lemma ListedAt(signalId: nat)
    requires Handled(signalId) || signalId == 0
    ensures SlotOf(signalId) < 20 && REGISTRY[SlotOf(signalId)] == Descriptor(signalId, Inbound)
  {
  }

  lemma ListedIsHandled(i: nat)
    requires i < 20 && REGISTRY[i].direction == Inbound
    ensures Handled(REGISTRY[i].signalId) || REGISTRY[i].signalId == 0
  {
  }

  /** Every inbound signal has a handler except signal 0, which the table admits by accident; nothing else is handled. */
  lemma InboundIffHandledOrZero(signalId: nat)
    ensures InboundIn(REGISTRY, signalId) <==> Handled(signalId) || signalId == 0
  {
    InboundFrom(0, signalId);
    assert REGISTRY[0..] == REGISTRY;
    if i :| 0 <= i < 20 && REGISTRY[i] == Descriptor(signalId, Inbound) {
      ListedIsHandled(i);
    } else if Handled(signalId) || signalId == 0 {
      ListedAt(signalId);
    }
  }

  // ----- Parsing -----

  /** A received payload: not JSON, JSON without a header, or the header fields that matter here. */
  datatype Wire =
    | NotJson
    | NoHeader
    | Header(signalId: Option<int>, commandId: Option<string>, issuedBy: Option<string>)

  /** `ticket` numbers parsed and hardware commands in order of arrival. */
  datatype Command = Command(ticket: nat, signalId: nat, commandId: string, issuedBy: string, fromWire: bool)

  /** Signal ids are 16 bits wide; a missing command id is generated. */
  function Parse(w: Wire, ticket: nat, generated: string): Option<Command> {
    if !w.Header? then None
    else
      Some(Command(ticket, (if w.signalId.Some? then w.signalId.value else 0) % 0x1_0000,
                   if w.commandId.Some? then w.commandId.value else generated,
                   if w.issuedBy.Some? then w.issuedBy.value else "unknown_sender", true))
  }

  /** Inbound signal and both essential fields present. */
  predicate Acceptable(c: Command) {
    InboundIn(REGISTRY, c.signalId) && c.commandId != "" && c.issuedBy != ""
  }

  // ----- The pipeline -----

  datatype Status = Success | Failed | RejectedStatus
  datatype Answer = Answer(ticket: nat, commandId: string, status: Status)

  /** What validation decided about a parsed wire command. */
  datatype Receipt = Receipt(command: Command, accepted: bool)

  datatype State = State(
    active: set<string>, queue: seq<Command>, held: Option<Command>, answers: seq<Answer>, tickets: nat,
    receipts: seq<Receipt>, pushed: seq<Command>, finished: seq<Command>)

  const INITIAL := State({}, [], None, [], 0, [], [], [])

  datatype Ev =
    | Receive(wire: Wire, generated: string)
    | Hardware(signalId: nat, commandId: string)
    | WorkerPops
    | WorkerFinishes(success: bool)

  function Push(s: State, c: Command): State {
    s.(queue := s.queue + [c], pushed := s.pushed + [c], tickets := s.tickets + 1)
  }

  /** The worker's answer: failed without a handler, otherwise what the handler reports. */
  function AnswerFor(c: Command, success: bool): Answer {
    Answer(c.ticket, c.commandId, if Handled(c.signalId) && success then Success else Failed)
  }

  function Step(s: State, e: Ev): State {
    match e
    case Receive(w, generated) =>
      (match Parse(w, s.tickets, generated)
       case None => s
       case Some(c) =>
         if Acceptable(c) && c.commandId !in s.active then
           Push(s, c).(active := s.active + {c.commandId}, receipts := s.receipts + [Receipt(c, true)])
         else
           s.(answers := s.answers + [Answer(c.ticket, c.commandId, RejectedStatus)], tickets := s.tickets + 1,
              receipts := s.receipts + [Receipt(c, false)]))
    case Hardware(signalId, commandId) => Push(s, Command(s.tickets, signalId, commandId, "status_subscriber", false))
    case WorkerPops =>
      if s.held.Some? || |s.queue| == 0 then s else s.(held := Some(s.queue[0]), queue := s.queue[1..])
    case WorkerFinishes(success) =>
      if s.held.None? then s
      else
        var c := s.held.value;
        s.(held := None, finished := s.finished + [c], answers := s.answers + [AnswerFor(c, success)])
  }

  function After(run: seq<Ev>): State {
    if |run| == 0 then INITIAL else Step(After(run[..|run| - 1]), run[|run| - 1])
  }

  // ----- FIFO -----

  function HeldPart(s: State): seq<Command> { if s.held.Some? then [s.held.value] else [] }

  /** Commands leave the queue in push order: finished, held and queued together are all pushed, in order. */
  lemma {:induction false} FirstInFirstOut(run: seq<Ev>)
    ensures var s := After(run); s.pushed == s.finished + HeldPart(s) + s.queue
  {
    if |run| > 0 {
      FirstInFirstOut(run[..|run| - 1]);
      FifoKept(After(run[..|run| - 1]), run[|run| - 1]);
    }
  }

  lemma FifoKept(s: State, e: Ev)
    requires s.pushed == s.finished + HeldPart(s) + s.queue
    ensures var s' := Step(s, e); s'.pushed == s'.finished + HeldPart(s') + s'.queue
  {
    if e.WorkerPops? && s.held.None? && |s.queue| > 0 {
      assert s.queue == [s.queue[0]] + s.queue[1..];
    }
  }

  function Executed(): Answer -> bool { (a: Answer) => a.status != RejectedStatus }

  function Tickets(cs: seq<Command>): (ts: seq<nat>)
    ensures |ts| == |cs| && forall i :: 0 <= i < |cs| ==> ts[i] == cs[i].ticket
  {
    if |cs| == 0 then [] else Tickets(cs[..|cs| - 1]) + [cs[|cs| - 1].ticket]
  }

  function AnswerTickets(xs: seq<Answer>): (ts: seq<nat>)
    ensures |ts| == |xs| && forall i :: 0 <= i < |xs| ==> ts[i] == xs[i].ticket
  {
    if |xs| == 0 then [] else AnswerTickets(xs[..|xs| - 1]) + [xs[|xs| - 1].ticket]
  }

  ghost predicate InOrder(s: State) {
    AnswerTickets(Filter(Executed(), s.answers)) == Tickets(s.finished)
  }

  lemma FinishInOrder(s: State, success: bool)
    requires InOrder(s)
    ensures InOrder(Step(s, WorkerFinishes(success)))
  {
    if s.held.Some? {
      var c := s.held.value;
      FilterSnoc(Executed(), s.answers, AnswerFor(c, success));
    }
  }

  lemma RejectInOrder(s: State, a: Answer)
    requires a.status == RejectedStatus
    ensures Filter(Executed(), s.answers + [a]) == Filter(Executed(), s.answers)
  {
    FilterSnoc(Executed(), s.answers, a);
  }

  lemma InOrderKept(s: State, e: Ev)
    requires InOrder(s)
    ensures InOrder(Step(s, e))
  {
    match e
    case Receive(w, generated) =>
      var parsed := Parse(w, s.tickets, generated);
      if parsed.Some? {
        RejectInOrder(s, Answer(parsed.value.ticket, parsed.value.commandId, RejectedStatus));
      }
    case WorkerFinishes(success) => FinishInOrder(s, success);
    case _ =>
  }

  lemma {:induction false} AlwaysInOrder(run: seq<Ev>)
    ensures InOrder(After(run))
  {
    if |run| > 0 {
      AlwaysInOrder(run[..|run| - 1]);
      InOrderKept(After(run[..|run| - 1]), run[|run| - 1]);
    }
  }

  lemma OrderedPrefix(pushed: seq<Command>, finished: seq<Command>, held: seq<Command>, queue: seq<Command>)
    requires pushed == finished + held + queue
    ensures Tickets(finished) <= Tickets(pushed)
  {
    assert pushed == finished + (held + queue);
    TicketsPrefix(finished, held + queue);
  }

  lemma TicketsPrefix(xs: seq<Command>, ys: seq<Command>)
    ensures Tickets(xs) <= Tickets(xs + ys)
  {
    assert forall i :: 0 <= i < |xs| ==> (xs + ys)[i] == xs[i];
  }

  /** Queued commands are answered in push order: the executed answers carry the tickets of a prefix of the pushes. */
  lemma AnsweredInOrder(run: seq<Ev>)
    ensures var s := After(run); AnswerTickets(Filter(Executed(), s.answers)) == Tickets(s.finished) <= Tickets(s.pushed)
  {
    AlwaysInOrder(run);
    FirstInFirstOut(run);
    var s := After(run);
    OrderedPrefix(s.pushed, s.finished, HeldPart(s), s.queue);
  }

  // ----- Conservation -----

  function Upto(n: nat): seq<nat> { seq(n, i => i) }

  /**
   * Every parsed wire command and every hardware command is in exactly one place: answered once, queued, or held.
   */
  lemma {:induction false} EveryCommandOnce(run: seq<Ev>)
    ensures var s := After(run);
            multiset(AnswerTickets(s.answers)) + multiset(Tickets(HeldPart(s))) + multiset(Tickets(s.queue))
            == multiset(Upto(s.tickets))
  {
    if |run| > 0 {
      EveryCommandOnce(run[..|run| - 1]);
      OnceKept(After(run[..|run| - 1]), run[|run| - 1]);
    }
  }

  ghost predicate Once(s: State) {
    multiset(AnswerTickets(s.answers)) + multiset(Tickets(HeldPart(s))) + multiset(Tickets(s.queue)) == multiset(Upto(s.tickets))
  }

  lemma TicketsSnoc(cs: seq<Command>, c: Command)
    ensures multiset(Tickets(cs + [c])) == multiset(Tickets(cs)) + multiset{c.ticket}
  {
    assert Tickets(cs + [c]) == Tickets(cs) + [c.ticket];
  }

  lemma AnswersSnoc(xs: seq<Answer>, a: Answer)
    ensures multiset(AnswerTickets(xs + [a])) == multiset(AnswerTickets(xs)) + multiset{a.ticket}
  {
    assert AnswerTickets(xs + [a]) == AnswerTickets(xs) + [a.ticket];
  }

  lemma UptoSnoc(n: nat)
    ensures multiset(Upto(n + 1)) == multiset(Upto(n)) + multiset{n}
  {
    assert Upto(n + 1) == Upto(n) + [n];
  }

  lemma PushOnce(s: State, s': State, c: Command)
    requires Once(s) && c.ticket == s.tickets
    requires s'.queue == s.queue + [c] && s'.tickets == s.tickets + 1 && s'.answers == s.answers && s'.held == s.held
    ensures Once(s')
  {
    UptoSnoc(s.tickets);
    TicketsSnoc(s.queue, c);
  }

  lemma RejectOnce(s: State, s': State, a: Answer)
    requires Once(s) && a.ticket == s.tickets
    requires s'.queue == s.queue && s'.tickets == s.tickets + 1 && s'.answers == s.answers + [a] && s'.held == s.held
    ensures Once(s')
  {
    UptoSnoc(s.tickets);
    AnswersSnoc(s.answers, a);
  }

  lemma PopOnce(s: State)
    requires Once(s)
    ensures Once(Step(s, WorkerPops))
  {
    if s.held.None? && |s.queue| > 0 {
      TicketsHead(s.queue);
    }
  }

  lemma TicketsHead(cs: seq<Command>)
    requires |cs| > 0
    ensures multiset(Tickets(cs)) == multiset(Tickets([cs[0]])) + multiset(Tickets(cs[1..]))
  {
    assert Tickets(cs) == [cs[0].ticket] + Tickets(cs[1..]);
    assert Tickets([cs[0]]) == [cs[0].ticket];
  }

  lemma FinishOnce(s: State, s': State, a: Answer)
    requires Once(s) && s.held.Some? && a.ticket == s.held.value.ticket
    requires s'.queue == s.queue && s'.tickets == s.tickets && s'.answers == s.answers + [a] && s'.held.None?
    ensures Once(s')
  {
    assert Tickets([s.held.value]) == [a.ticket];
    AnswersSnoc(s.answers, a);
  }

  lemma ReceiveOnce(s: State, w: Wire, generated: string)
    requires Once(s)
    ensures Once(Step(s, Receive(w, generated)))
  {
    var parsed, s' := Parse(w, s.tickets, generated), Step(s, Receive(w, generated));
    if parsed.Some? {
      var c := parsed.value;
      if Acceptable(c) && c.commandId !in s.active {
        PushOnce(s, s', c);
      } else {
        RejectOnce(s, s', Answer(c.ticket, c.commandId, RejectedStatus));
      }
    }
  }

  lemma HardwareOnce(s: State, signalId: nat, commandId: string)
    requires Once(s)
    ensures Once(Step(s, Hardware(signalId, commandId)))
  {
    PushOnce(s, Step(s, Hardware(signalId, commandId)), Command(s.tickets, signalId, commandId, "status_subscriber", false));
  }

  lemma OnceKept(s: State, e: Ev)
    requires Once(s)
    ensures Once(Step(s, e))
  {
    match e
    case Receive(w, generated) => ReceiveOnce(s, w, generated);
    case Hardware(signalId, commandId) => HardwareOnce(s, signalId, commandId);
    case WorkerPops => PopOnce(s);
    case WorkerFinishes(success) =>
      if s.held.Some? {
        FinishOnce(s, Step(s, e), AnswerFor(s.held.value, success));
      }
  }

  // ----- Acceptance -----

  /** Some earlier accepted command carried the id. */
  predicate AcceptedBefore(rs: seq<Receipt>, id: string) {
    exists i :: 0 <= i < |rs| && rs[i].accepted && rs[i].command.commandId == id
  }

  ghost predicate ReceiptsSound(s: State) {
    && (forall id :: id in s.active <==> AcceptedBefore(s.receipts, id))
    && (forall i :: 0 <= i < |s.receipts| ==>
          (s.receipts[i].accepted <==>
             Acceptable(s.receipts[i].command) && !AcceptedBefore(s.receipts[..i], s.receipts[i].command.commandId)))
  }

  lemma {:induction false} ReceiptsAreSound(run: seq<Ev>)
    ensures ReceiptsSound(After(run))
  {
    if |run| > 0 {
      ReceiptsAreSound(run[..|run| - 1]);
      var s, s' := After(run[..|run| - 1]), After(run);
      if |s'.receipts| > |s.receipts| {
        ReceiptAdded(s, s'.receipts[|s.receipts|], s');
      }
    }
  }

  lemma ReceiptAdded(s: State, r: Receipt, s': State)
    requires ReceiptsSound(s) && s'.receipts == s.receipts + [r]
    requires r.accepted <==> Acceptable(r.command) && r.command.commandId !in s.active
    requires s'.active == if r.accepted then s.active + {r.command.commandId} else s.active
    ensures ReceiptsSound(s')
  {
    forall id ensures AcceptedBefore(s'.receipts, id) <==> AcceptedBefore(s.receipts, id) || (r.accepted && r.command.commandId == id) {
      if AcceptedBefore(s.receipts, id) {
        var i :| 0 <= i < |s.receipts| && s.receipts[i].accepted && s.receipts[i].command.commandId == id;
        assert s'.receipts[i] == s.receipts[i];
      }
      assert s'.receipts[|s.receipts|] == r;
    }
    forall i | 0 <= i < |s'.receipts|
      ensures s'.receipts[i].accepted <==>
                Acceptable(s'.receipts[i].command) && !AcceptedBefore(s'.receipts[..i], s'.receipts[i].command.commandId)
    {
      assert s'.receipts[..i] == s.receipts[..i];
      assert s.receipts[..|s.receipts|] == s.receipts;
      if i < |s.receipts| {
        assert s'.receipts[i] == s.receipts[i];
      }
    }
  }

  /**
   * A parsed command is accepted iff its signal is handled (or is signal 0), its fields are present, and no earlier
   * accepted command had its id.
   */
  lemma AcceptedIff(run: seq<Ev>, i: nat)
    requires i < |After(run).receipts|
    ensures var rs := After(run).receipts;
            var c := rs[i].command;
            rs[i].accepted <==>
              (Handled(c.signalId) || c.signalId == 0) && c.commandId != "" && c.issuedBy != "" && !AcceptedBefore(rs[..i], c.commandId)
  {
    ReceiptsAreSound(run);
    InboundIffHandledOrZero(After(run).receipts[i].command.signalId);
  }

  function WireOnly(): Command -> bool { (c: Command) => c.fromWire }

  /** The accepted wire commands are exactly the pushed ones that came from the wire. */
  function AcceptedCommands(rs: seq<Receipt>): seq<Command> {
    if |rs| == 0 then []
    else
      var front, last := AcceptedCommands(rs[..|rs| - 1]), rs[|rs| - 1];
      if last.accepted then front + [last.command] else front
  }

  lemma {:induction false} PushedAreAccepted(run: seq<Ev>)
    ensures Filter(WireOnly(), After(run).pushed) == AcceptedCommands(After(run).receipts)
  {
    if |run| > 0 {
      PushedAreAccepted(run[..|run| - 1]);
      AcceptedKept(After(run[..|run| - 1]), run[|run| - 1]);
    }
  }

  lemma AcceptedKept(s: State, e: Ev)
    requires Filter(WireOnly(), s.pushed) == AcceptedCommands(s.receipts)
    ensures Filter(WireOnly(), Step(s, e).pushed) == AcceptedCommands(Step(s, e).receipts)
  {
    match e
    case Receive(w, generated) =>
      var parsed := Parse(w, s.tickets, generated);
      if parsed.Some? {
        FilterSnoc(WireOnly(), s.pushed, parsed.value);
        AcceptedSnoc(s.receipts, Receipt(parsed.value, true));
        AcceptedSnoc(s.receipts, Receipt(parsed.value, false));
      }
    case Hardware(signalId, commandId) =>
      FilterSnoc(WireOnly(), s.pushed, Command(s.tickets, signalId, commandId, "status_subscriber", false));
    case _ =>
  }

  lemma AcceptedSnoc(rs: seq<Receipt>, r: Receipt)
    ensures AcceptedCommands(rs + [r]) == AcceptedCommands(rs) + (if r.accepted then [r.command] else [])
  {
    assert (rs + [r])[..|rs|] == rs;
  }

  function IsRejection(): Answer -> bool { (a: Answer) => a.status == RejectedStatus }

  /** The rejections that the receipts call for. */
  function Rejections(rs: seq<Receipt>): seq<Answer> {
    if |rs| == 0 then []
    else
      var front, last := Rejections(rs[..|rs| - 1]), rs[|rs| - 1];
      if last.accepted then front else front + [Answer(last.command.ticket, last.command.commandId, RejectedStatus)]
  }

  lemma RejectionsSnoc(rs: seq<Receipt>, c: Command)
    ensures Rejections(rs + [Receipt(c, true)]) == Rejections(rs)
    ensures Rejections(rs + [Receipt(c, false)]) == Rejections(rs) + [Answer(c.ticket, c.commandId, RejectedStatus)]
  {
    assert (rs + [Receipt(c, true)])[..|rs|] == rs;
    assert (rs + [Receipt(c, false)])[..|rs|] == rs;
  }

  /** The commands answered as rejected are exactly those that validation did not accept, in order of arrival. */
  lemma {:induction false} RejectedIffNotAccepted(run: seq<Ev>)
    ensures Filter(IsRejection(), After(run).answers) == Rejections(After(run).receipts)
  {
    if |run| > 0 {
      var s, e := After(run[..|run| - 1]), run[|run| - 1];
      RejectedIffNotAccepted(run[..|run| - 1]);
      match e
      case Receive(w, generated) =>
        var parsed := Parse(w, s.tickets, generated);
        if parsed.Some? {
          FilterSnoc(IsRejection(), s.answers, Answer(parsed.value.ticket, parsed.value.commandId, RejectedStatus));
          RejectionsSnoc(s.receipts, parsed.value);
        }
      case WorkerFinishes(success) =>
        if s.held.Some? {
          FilterSnoc(IsRejection(), s.answers, AnswerFor(s.held.value, success));
        }
      case _ =>
    }
  }

  ghost predicate DistinctIds(cs: seq<Command>) {
    forall i, j :: 0 <= i < j < |cs| ==> cs[i].commandId != cs[j].commandId
  }

  lemma {:induction false} AcceptedCommandsWereAccepted(rs: seq<Receipt>, c: Command)
    requires c in AcceptedCommands(rs)
    ensures AcceptedBefore(rs, c.commandId)
  {
    var n := |rs| - 1;
    if c in AcceptedCommands(rs[..n]) {
      AcceptedCommandsWereAccepted(rs[..n], c);
      var i :| 0 <= i < n && rs[..n][i].accepted && rs[..n][i].command.commandId == c.commandId;
      assert rs[i].accepted && rs[i].command.commandId == c.commandId;
    } else {
      assert rs[n].accepted && rs[n].command == c;
    }
  }

  lemma {:induction false} AcceptedIdsDistinct(rs: seq<Receipt>)
    requires forall i :: 0 <= i < |rs| && rs[i].accepted ==> !AcceptedBefore(rs[..i], rs[i].command.commandId)
    ensures DistinctIds(AcceptedCommands(rs))
  {
    if |rs| > 0 {
      var n := |rs| - 1;
      var front, cs := rs[..n], AcceptedCommands(rs[..n]);
      forall i | 0 <= i < n && front[i].accepted ensures !AcceptedBefore(front[..i], front[i].command.commandId) {
        assert front[..i] == rs[..i];
      }
      AcceptedIdsDistinct(front);
      forall i | 0 <= i < |cs| && rs[n].accepted ensures cs[i].commandId != rs[n].command.commandId {
        AcceptedCommandsWereAccepted(front, cs[i]);
      }
    }
  }

  lemma {:induction false} FilterPrefix(xs: seq<Command>, ys: seq<Command>)
    ensures Filter(WireOnly(), xs) <= Filter(WireOnly(), xs + ys)
  {
    FilterAppend(WireOnly(), xs, ys);
  }

  lemma AcceptedWireIdsDistinct(s: State)
    requires ReceiptsSound(s)
    ensures DistinctIds(AcceptedCommands(s.receipts))
  {
    AcceptedIdsDistinct(s.receipts);
  }

  lemma PrefixDistinct(done: seq<Command>, all: seq<Command>)
    requires done <= all && DistinctIds(all)
    ensures DistinctIds(done)
  {
    forall i | 0 <= i < |done| ensures done[i] == all[i] {
    }
  }

  lemma ExecutedDistinct(s: State)
    requires ReceiptsSound(s) && Filter(WireOnly(), s.pushed) == AcceptedCommands(s.receipts)
    requires s.pushed == s.finished + HeldPart(s) + s.queue
    ensures DistinctIds(Filter(WireOnly(), s.finished))
  {
    AcceptedWireIdsDistinct(s);
    var rest := HeldPart(s) + s.queue;
    assert s.pushed == s.finished + rest;
    FilterPrefix(s.finished, rest);
    PrefixDistinct(Filter(WireOnly(), s.finished), AcceptedCommands(s.receipts));
  }

  /** No accepted wire id is executed twice. */
  lemma ExecutedAtMostOnce(run: seq<Ev>)
    ensures DistinctIds(Filter(WireOnly(), After(run).finished))
  {
    ReceiptsAreSound(run);
    PushedAreAccepted(run);
    FirstInFirstOut(run);
    ExecutedDistinct(After(run));
  }

  // ----- Commands without a handler -----

  /** The command was pushed to the queue or refused by validation. */
  predicate Known(s: State, c: Command) { c in s.pushed || Receipt(c, false) in s.receipts }

  /** The answer is about the command: refused iff it was never pushed, a success only with a handler. */
  predicate IsAnswerTo(s: State, a: Answer, c: Command) {
    && a.ticket == c.ticket && a.commandId == c.commandId
    && (a.status == RejectedStatus <==> c !in s.pushed) && (a.status == Success ==> Handled(c.signalId))
  }

  ghost predicate TicketsUnique(s: State) {
    && (forall c :: Known(s, c) ==> c.ticket < s.tickets)
    && (forall c, d :: Known(s, c) && Known(s, d) && c.ticket == d.ticket ==> c == d)
  }

  ghost predicate AnswersKnown(s: State) { forall a :: a in s.answers ==> exists c :: Known(s, c) && IsAnswerTo(s, a, c) }

  lemma TicketTaken(s: State, s': State, n: Command)
    requires TicketsUnique(s) && n.ticket == s.tickets && s'.tickets == s.tickets + 1
    requires forall c :: Known(s', c) ==> Known(s, c) || c == n
    ensures TicketsUnique(s')
  {
  }

  lemma AnswerStays(s: State, s': State, a: Answer)
    requires TicketsUnique(s) && exists c :: Known(s, c) && IsAnswerTo(s, a, c)
    requires forall c :: Known(s, c) ==> Known(s', c) && (c in s'.pushed <==> c in s.pushed)
    ensures exists c :: Known(s', c) && IsAnswerTo(s', a, c)
  {
  }

  lemma PushKnown(s: State, s': State, n: Command)
    requires TicketsUnique(s) && AnswersKnown(s) && n.ticket == s.tickets && s'.tickets == s.tickets + 1 && s'.answers == s.answers
    requires s'.pushed == s.pushed + [n] && (s'.receipts == s.receipts || s'.receipts == s.receipts + [Receipt(n, true)])
    ensures TicketsUnique(s') && AnswersKnown(s')
  {
    TicketTaken(s, s', n);
    forall a | a in s'.answers ensures exists c :: Known(s', c) && IsAnswerTo(s', a, c) {
      AnswerStays(s, s', a);
    }
  }

  lemma RefuseKnown(s: State, s': State, n: Command)
    requires TicketsUnique(s) && AnswersKnown(s) && n.ticket == s.tickets && s'.tickets == s.tickets + 1
    requires s'.pushed == s.pushed && s'.receipts == s.receipts + [Receipt(n, false)]
    requires s'.answers == s.answers + [Answer(n.ticket, n.commandId, RejectedStatus)]
    ensures TicketsUnique(s') && AnswersKnown(s')
  {
    TicketTaken(s, s', n);
    forall a | a in s'.answers ensures exists c :: Known(s', c) && IsAnswerTo(s', a, c) {
      if a in s.answers {
        AnswerStays(s, s', a);
      } else {
        assert Receipt(n, false) in s'.receipts;
        assert Known(s', n) && IsAnswerTo(s', a, n);
      }
    }
  }

  lemma FinishKnown(s: State, s': State, n: Command, success: bool)
    requires TicketsUnique(s) && AnswersKnown(s) && n in s.pushed
    requires s'.tickets == s.tickets && s'.pushed == s.pushed && s'.receipts == s.receipts && s'.answers == s.answers + [AnswerFor(n, success)]
    ensures TicketsUnique(s') && AnswersKnown(s')
  {
    assert forall c :: Known(s', c) <==> Known(s, c);
    forall a | a in s'.answers ensures exists c :: Known(s', c) && IsAnswerTo(s', a, c) {
      if a in s.answers {
        AnswerStays(s, s', a);
      } else {
        assert Known(s', n) && IsAnswerTo(s', a, n);
      }
    }
  }

  lemma KnownKept(s: State, e: Ev)
    requires TicketsUnique(s) && AnswersKnown(s) && (s.held.Some? ==> s.held.value in s.pushed)
    ensures TicketsUnique(Step(s, e)) && AnswersKnown(Step(s, e))
  {
    match e
    case Receive(w, generated) =>
      var parsed := Parse(w, s.tickets, generated);
      if parsed.Some? {
        if Acceptable(parsed.value) && parsed.value.commandId !in s.active {
          PushKnown(s, Step(s, e), parsed.value);
        } else {
          RefuseKnown(s, Step(s, e), parsed.value);
        }
      }
    case Hardware(signalId, commandId) =>
      PushKnown(s, Step(s, e), Command(s.tickets, signalId, commandId, "status_subscriber", false));
    case WorkerPops => PopKnown(s);
    case WorkerFinishes(success) =>
      if s.held.Some? {
        FinishKnown(s, Step(s, e), s.held.value, success);
      }
  }

  lemma PopKnown(s: State)
    requires TicketsUnique(s) && AnswersKnown(s)
    ensures TicketsUnique(Step(s, WorkerPops)) && AnswersKnown(Step(s, WorkerPops))
  {
    var s' := Step(s, WorkerPops);
    assert forall c :: Known(s', c) <==> Known(s, c);
    forall a | a in s'.answers ensures exists c :: Known(s', c) && IsAnswerTo(s', a, c) {
      AnswerStays(s, s', a);
    }
  }

  lemma HeldWasPushed(s: State)
    requires s.pushed == s.finished + HeldPart(s) + s.queue && s.held.Some?
    ensures s.held.value in s.pushed
  {
    assert s.pushed[|s.finished|] == s.held.value;
  }

  lemma {:induction false} AnswersAreKnown(run: seq<Ev>)
    ensures TicketsUnique(After(run)) && AnswersKnown(After(run))
  {
    if |run| > 0 {
      var s := After(run[..|run| - 1]);
      AnswersAreKnown(run[..|run| - 1]);
      FirstInFirstOut(run[..|run| - 1]);
      if s.held.Some? {
        HeldWasPushed(s);
      }
      KnownKept(s, run[|run| - 1]);
    }
  }

  /**
   * In every run, a command without a handler is answered as failed if it reached the queue and as rejected if it did
   * not, and never as a success, whatever a handler would do.
   */
  lemma UnhandledNeverSucceeds(run: seq<Ev>, c: Command, a: Answer)
    requires Known(After(run), c) && !Handled(c.signalId) && a in After(run).answers && a.ticket == c.ticket
    ensures a == Answer(c.ticket, c.commandId, if c in After(run).pushed then Failed else RejectedStatus)
  {
    AnswersAreKnown(run);
    var d :| Known(After(run), d) && IsAnswerTo(After(run), a, d);
  }

  /**
   * Signal 0 passes validation when its fields are present and its id is new, but has no handler: every run answers
   * such a command as failed if it answers it at all.
   */
  lemma SignalZeroAlwaysFails(run: seq<Ev>, i: nat, a: Answer)
    requires i < |After(run).receipts| && After(run).receipts[i].command.signalId == 0
    requires a in After(run).answers && a.ticket == After(run).receipts[i].command.ticket
    ensures var rs := After(run).receipts;
            var c := rs[i].command;
            a == Answer(c.ticket, c.commandId,
                        if c.commandId != "" && c.issuedBy != "" && !AcceptedBefore(rs[..i], c.commandId) then Failed else RejectedStatus)
  {
    var s := After(run);
    var r := s.receipts[i];
    AcceptedIff(run, i);
    AnswersAreKnown(run);
    ReceiptIsKnown(run, i);
    UnhandledNeverSucceeds(run, r.command, a);
  }

  /** An accepted wire command is in the queue's history, a refused one is not. */
  lemma {:induction false} ReceiptIsKnown(run: seq<Ev>, i: nat)
    requires i < |After(run).receipts|
    ensures var s := After(run); Known(s, s.receipts[i].command) && (s.receipts[i].accepted <==> s.receipts[i].command in s.pushed)
  {
    var s, e := After(run[..|run| - 1]), run[|run| - 1];
    AnswersAreKnown(run[..|run| - 1]);
    if i < |s.receipts| {
      ReceiptIsKnown(run[..|run| - 1], i);
      ReceiptStays(s, e, i);
    } else {
      assert e.Receive? && Parse(e.wire, s.tickets, e.generated).Some?;
      NewReceipt(s, e.wire, e.generated);
    }
  }

  lemma ReceiptStays(s: State, e: Ev, i: nat)
    requires TicketsUnique(s) && i < |s.receipts| && Known(s, s.receipts[i].command)
    ensures var s' := Step(s, e);
            && i < |s'.receipts| && s'.receipts[i] == s.receipts[i] && Known(s', s.receipts[i].command)
            && (s.receipts[i].command in s'.pushed <==> s.receipts[i].command in s.pushed)
  {
  }

  lemma NewReceipt(s: State, w: Wire, generated: string)
    requires TicketsUnique(s) && Parse(w, s.tickets, generated).Some?
    ensures var s', c := Step(s, Receive(w, generated)), Parse(w, s.tickets, generated).value;
            && |s'.receipts| == |s.receipts| + 1 && s'.receipts[|s.receipts|].command == c
            && Known(s', c) && (s'.receipts[|s.receipts|].accepted <==> c in s'.pushed)
  {
    var s', c := Step(s, Receive(w, generated)), Parse(w, s.tickets, generated).value;
    assert Known(s, c) ==> c.ticket < s.tickets;
    assert s'.receipts[|s.receipts|] in s'.receipts;
  }

  // ----- What the executed answers say -----

  /** The events of the run at which the worker finished a command that it held. */
  function FinishedAt(run: seq<Ev>): (ts: seq<nat>)
    ensures forall k :: 0 <= k < |ts| ==> ts[k] < |run| && run[ts[k]].WorkerFinishes?
  {
    if |run| == 0 then []
    else
      var ts := FinishedAt(run[..|run| - 1]);
      if run[|run| - 1].WorkerFinishes? && After(run[..|run| - 1]).held.Some? then ts + [|run| - 1] else ts
  }

  /** The answer to a command whose handler reported `success`. */
  predicate AnswersCommand(a: Answer, c: Command, success: bool) {
    && a.ticket == c.ticket && a.commandId == c.commandId && a.status != RejectedStatus
    && (a.status == Success <==> success && Handled(c.signalId))
  }

  ghost predicate AnsweredAsReported(xs: seq<Answer>, cs: seq<Command>, run: seq<Ev>, ts: seq<nat>) {
    && |xs| == |cs| == |ts| && (forall k :: 0 <= k < |ts| ==> ts[k] < |run| && run[ts[k]].WorkerFinishes?)
    && forall k :: 0 <= k < |ts| ==> AnswersCommand(xs[k], cs[k], run[ts[k]].success)
  }

  lemma OneMoreAnswered(xs: seq<Answer>, cs: seq<Command>, run: seq<Ev>, ts: seq<nat>, e: Ev, a: Answer, c: Command)
    requires AnsweredAsReported(xs, cs, run, ts) && e.WorkerFinishes? && AnswersCommand(a, c, e.success)
    ensures AnsweredAsReported(xs + [a], cs + [c], run + [e], ts + [|run|])
  {
  }

  lemma AnswerAnswers(c: Command, success: bool)
    ensures AnswersCommand(AnswerFor(c, success), c, success)
  {
  }

  lemma ExecutedGrows(xs: seq<Answer>, a: Answer)
    requires a.status != RejectedStatus
    ensures Filter(Executed(), xs + [a]) == Filter(Executed(), xs) + [a]
  {
    FilterSnoc(Executed(), xs, a);
  }

  lemma FinishAnswers(s: State, success: bool)
    requires s.held.Some?
    ensures var s', a := Step(s, WorkerFinishes(success)), AnswerFor(s.held.value, success);
            && AnswersCommand(a, s.held.value, success) && s'.finished == s.finished + [s.held.value]
            && Filter(Executed(), s'.answers) == Filter(Executed(), s.answers) + [a]
  {
    AnswerAnswers(s.held.value, success);
    ExecutedGrows(s.answers, AnswerFor(s.held.value, success));
  }

  lemma OthersExecuteNothing(s: State, e: Ev)
    requires !(e.WorkerFinishes? && s.held.Some?)
    ensures Filter(Executed(), Step(s, e).answers) == Filter(Executed(), s.answers) && Step(s, e).finished == s.finished
  {
    if e.Receive? && Parse(e.wire, s.tickets, e.generated).Some? {
      var c := Parse(e.wire, s.tickets, e.generated).value;
      RejectInOrder(s, Answer(c.ticket, c.commandId, RejectedStatus));
    }
  }

  /**
   * In every run the executed answers are, in order, those of the finished commands, one for each event at which the
   * worker finished one: a success if and only if that event reports success and the command has a handler, otherwise
   * a failure.
   */
  lemma {:induction false} AnswersAsReported(run: seq<Ev>)
    ensures AnsweredAsReported(Filter(Executed(), After(run).answers), After(run).finished, run, FinishedAt(run))
  {
    if |run| > 0 {
      var front, e := run[..|run| - 1], run[|run| - 1];
      var s := After(front);
      AnswersAsReported(front);
      assert run == front + [e];
      if e.WorkerFinishes? && s.held.Some? {
        FinishAnswers(s, e.success);
        OneMoreAnswered(Filter(Executed(), s.answers), s.finished, front, FinishedAt(front), e, AnswerFor(s.held.value, e.success), s.held.value);
      } else {
        OthersExecuteNothing(s, e);
        AnsweredStays(Filter(Executed(), s.answers), s.finished, front, FinishedAt(front), e);
      }
    }
  }

  lemma AnsweredStays(xs: seq<Answer>, cs: seq<Command>, run: seq<Ev>, ts: seq<nat>, e: Ev)
    requires AnsweredAsReported(xs, cs, run, ts)
    ensures AnsweredAsReported(xs, cs, run + [e], ts)
  {
  }

  /** The worker takes and finishes as many commands as there are outcomes. */
  function Work(s: State, outcomes: seq<bool>): State
    decreases |outcomes|
  {
    if |outcomes| == 0 then s else Work(Step(Step(s, WorkerPops), WorkerFinishes(outcomes[0])), outcomes[1..])
  }

  /** An idle worker that goes round as often as the queue is long has finished every pushed command. */
  lemma {:induction false} WorkerDrains(s: State, outcomes: seq<bool>)
    requires s.held.None? && |outcomes| >= |s.queue| && s.pushed == s.finished + HeldPart(s) + s.queue
    ensures Work(s, outcomes).queue == [] && Work(s, outcomes).held.None? && Work(s, outcomes).finished == s.pushed
    decreases |outcomes|
  {
    if |outcomes| > 0 {
      var taken := Step(s, WorkerPops);
      FifoKept(s, WorkerPops);
      FifoKept(taken, WorkerFinishes(outcomes[0]));
      WorkerDrains(Step(taken, WorkerFinishes(outcomes[0])), outcomes[1..]);
    }
  }

  // ----- What a header becomes -----

  /**
   * What a command takes from its header: the signal id, unchanged below 65536, otherwise congruent to it, and 0 if
   * absent; the command id or the generated one; the issuer or "unknown_sender".
   */
  predicate Carries(c: Command, w: Wire, generated: string)
    requires w.Header?
  {
    && c.fromWire && c.signalId < 65536
    && (match w.signalId case Some(v) => (v - c.signalId) % 65536 == 0 && (0 <= v < 65536 ==> c.signalId == v) case None => c.signalId == 0)
    && (match w.commandId case Some(id) => c.commandId == id case None => c.commandId == generated)
    && (match w.issuedBy case Some(name) => c.issuedBy == name case None => c.issuedBy == "unknown_sender")
  }

  lemma ParsedCarries(w: Wire, ticket: nat, generated: string)
    ensures var c := Parse(w, ticket, generated);
            (c.Some? <==> w.Header?) && (w.Header? ==> Carries(c.value, w, generated) && c.value.ticket == ticket)
  {
    if w.Header? && w.signalId.Some? {
      Congruent(w.signalId.value);
    }
  }

  lemma Congruent(v: int)
    ensures (v - v % 0x1_0000) % 65536 == 0
  {
    assert v - v % 0x1_0000 == v / 0x1_0000 * 65536;
  }

  /** The command was queued, or answered as rejected. */
  predicate QueuedOrRefused(s: State, s': State, r: Receipt) {
    && s'.receipts == s.receipts + [r]
    && if r.accepted then s'.queue == s.queue + [r.command] && s'.answers == s.answers
       else s'.queue == s.queue && s'.answers == s.answers + [Answer(r.command.ticket, r.command.commandId, RejectedStatus)]
  }

  lemma ReceiveStep(s: State, w: Wire, generated: string) returns (r: Receipt)
    requires w.Header?
    ensures QueuedOrRefused(s, Step(s, Receive(w, generated)), r) && Carries(r.command, w, generated) && r.command.ticket == s.tickets
  {
    ParsedCarries(w, s.tickets, generated);
    var c := Parse(w, s.tickets, generated).value;
    r := Receipt(c, Acceptable(c) && c.commandId !in s.active);
  }

  /** In every run, a received header becomes one command with the next ticket, queued or refused. */
  lemma HeaderBecomesCommand(run: seq<Ev>, w: Wire, generated: string) returns (r: Receipt)
    requires w.Header?
    ensures QueuedOrRefused(After(run), After(run + [Receive(w, generated)]), r)
    ensures Carries(r.command, w, generated) && r.command.ticket == After(run).tickets
  {
    assert (run + [Receive(w, generated)])[..|run|] == run;
    r := ReceiveStep(After(run), w, generated);
  }

  /** A payload that is not JSON or has no header changes nothing. */
  lemma OtherPayloadsIgnored(run: seq<Ev>, w: Wire, generated: string)
    requires !w.Header?
    ensures After(run + [Receive(w, generated)]) == After(run)
  {
    assert (run + [Receive(w, generated)])[..|run|] == run;
  }

  /** A wire id that an accepted command carried before is refused, whatever else the header says. */
  lemma RepeatedIdRefused(run: seq<Ev>, i: nat, w: Wire, generated: string)
    requires i < |After(run).receipts| && After(run).receipts[i].accepted
    requires w.Header? && w.commandId == Some(After(run).receipts[i].command.commandId)
    ensures var s, s' := After(run), After(run + [Receive(w, generated)]);
            && s'.queue == s.queue && s'.pushed == s.pushed
            && s'.answers == s.answers + [Answer(s.tickets, w.commandId.value, RejectedStatus)]
  {
    assert (run + [Receive(w, generated)])[..|run|] == run;
    ReceiptsAreSound(run);
    assert AcceptedBefore(After(run).receipts, w.commandId.value);
  }

  // ----- Queue, dispatcher, worker and main loop -----

  class CommandQueue {
    var items: seq<Command>

    constructor ()
      ensures items == []
    {
      items := [];
    }

    method PushBack(c: Command)
      modifies this
      ensures items == old(items) + [c]
    {
      items := items + [c];
    }

    /** Times out on an empty queue. */
    method Pop() returns (c: Option<Command>)
      modifies this
      ensures if |old(items)| == 0 then c == None && items == old(items)
              else c == Some(old(items)[0]) && items == old(items)[1..]
    {
      if |items| == 0 {
        return None;
      }
      c := Some(items[0]);
      items := items[1..];
    }
  }

  class CommandDispatcher {
    var activeIds: set<string>

    constructor ()
      ensures activeIds == {}
    {
      activeIds := {};
    }

    /** Scans a table up to the first descriptor of the signal. */
    method Scan(table: seq<Descriptor>, signalId: nat) returns (valid: bool)
      ensures valid <==> InboundIn(table, signalId)
    {
      var i := 0;
      while i < |table|
        invariant 0 <= i <= |table| && InboundIn(table, signalId) == InboundIn(table[i..], signalId)
      {
        assert table[i..][0] == table[i] && table[i..][1..] == table[i + 1..];
        if table[i].signalId == signalId {
          return table[i].direction == Inbound;
        }
        i := i + 1;
      }
      valid := false;
    }

    method FindInbound(signalId: nat) returns (valid: bool)
      ensures valid <==> InboundIn(REGISTRY, signalId)
    {
      valid := Scan(REGISTRY, signalId);
    }

    method Validate(c: Command) returns (ok: bool)
      modifies this
      ensures ok <==> Acceptable(c) && c.commandId !in old(activeIds)
      ensures activeIds == if ok then old(activeIds) + {c.commandId} else old(activeIds)
    {
      var inbound := FindInbound(c.signalId);
      if !inbound {
        return false;
      }
      if c.commandId == "" || c.issuedBy == "" {
        return false;
      }
      if c.commandId in activeIds {
        return false;
      }
      activeIds := activeIds + {c.commandId};
      ok := true;
    }
  }

  class Pipeline {
    const queue: CommandQueue
    const dispatcher: CommandDispatcher
    var held: Option<Command>
    var answers: seq<Answer>
    var tickets: nat
    ghost var receipts: seq<Receipt>
    ghost var pushed: seq<Command>
    ghost var finished: seq<Command>

    ghost function Current(): State
      reads this, queue, dispatcher
    {
      State(dispatcher.activeIds, queue.items, held, answers, tickets, receipts, pushed, finished)
    }

    constructor ()
      ensures fresh(queue) && fresh(dispatcher) && Current() == INITIAL
    {
      queue := new CommandQueue();
      dispatcher := new CommandDispatcher();
      held, answers, tickets, receipts, pushed, finished := None, [], 0, [], [], [];
    }

    /** One pass of the receive loop. */
    method ReceiveMessage(w: Wire, generated: string)
      modifies this, queue, dispatcher
      ensures Current() == Step(old(Current()), Receive(w, generated))
    {
      var parsed := Parse(w, tickets, generated);
      if parsed.None? {
        return;
      }
      var c := parsed.value;
      var ok := dispatcher.Validate(c);
      receipts := receipts + [Receipt(c, ok)];
      tickets := tickets + 1;
      if !ok {
        answers := answers + [Answer(c.ticket, c.commandId, RejectedStatus)];
        return;
      }
      queue.PushBack(c);
      pushed := pushed + [c];
    }

    /** Hardware events bypass the dispatcher. */
    method PushHardwareEvent(signalId: nat, commandId: string)
      modifies this, queue
      ensures Current() == Step(old(Current()), Hardware(signalId, commandId))
    {
      var c := Command(tickets, signalId, commandId, "status_subscriber", false);
      queue.PushBack(c);
      pushed := pushed + [c];
      tickets := tickets + 1;
    }

    method TakeNext()
      requires held.None?
      modifies this, queue
      ensures Current() == Step(old(Current()), WorkerPops)
    {
      held := queue.Pop();
    }

    /** Dispatch, set the status, answer. */
    method Complete(handlerSuccess: bool)
      requires held.Some?
      modifies this
      ensures Current() == Step(old(Current()), WorkerFinishes(handlerSuccess))
      ensures var c := old(held).value;
              answers == old(answers) + [Answer(c.ticket, c.commandId, if Handled(c.signalId) && handlerSuccess then Success else Failed)]
    {
      var c := held.value;
      var success := false;
      if Handled(c.signalId) {
        success := handlerSuccess;
      }
      answers := answers + [Answer(c.ticket, c.commandId, if success then Success else Failed)];
      finished := finished + [c];
      held := None;
    }
  }
}
