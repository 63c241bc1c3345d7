/** The process launcher: a restart budget per node and capped exponential backoff. */
module Launcher {
  import opened Sequences

  const MAX_RESTARTS := 20
  const MAX_BACKOFF := 30

  function Pow2(n: nat): nat { if n == 0 then 1 else 2 * Pow2(n - 1) }

  /** Seconds to wait before the given restart. */
  function Backoff(restarts: nat): nat {
    if restarts == 0 then 0 else if Pow2(restarts - 1) < MAX_BACKOFF then Pow2(restarts - 1) else MAX_BACKOFF
  }

  /** A managed node; `launches` lists the times of successful spawns. */
  datatype Node = Node(restarts: nat, hasProcess: bool, lastStart: real, launches: seq<real>)

  datatype State = State(nodes: map<string, Node>, shuttingDown: bool)

  /** What the operating system does during one start: when the wait ends, whether the spawn works, when it is recorded. */
  datatype Spawn = Spawn(now: real, woke: real, interrupted: bool, ok: bool, started: real)

  datatype Ev =
    | Start(name: string, spawn: Spawn)
    | Poll(name: string, exited: bool, spawn: Spawn)
    | Shutdown

  /** The wait is over once the backoff since the last start has passed. */
  function Deadline(n: Node, now: real): real {
    var backoff := Backoff(n.restarts) as real;
    var elapsed := now - n.lastStart;
    if n.restarts > 0 && elapsed < backoff then now + (backoff - elapsed) else now
  }

  function Waits(n: Node, now: real): bool { n.restarts > 0 && now - n.lastStart < Backoff(n.restarts) as real }

  /** start_process for a known node; an interrupted wait or a failed spawn launches nothing. */
  function Launch(n: Node, p: Spawn): Node {
    if (Waits(n, p.now) && p.interrupted) || !p.ok then n
    else n.(hasProcess := true, lastStart := p.started, launches := n.launches + [p.started])
  }

  /** start_process at boot, one pass of the monitor over one node, or the shutdown flag. */
  function Step(s: State, e: Ev): State {
    match e
    case Shutdown => s.(shuttingDown := true)
    case Start(name, p) =>
      if s.shuttingDown then s
      else
        s.(nodes := s.nodes[name := Launch(NodeOf(s, name), p)])
    case Poll(name, exited, p) =>
      if s.shuttingDown || name !in s.nodes || !s.nodes[name].hasProcess || !exited || s.nodes[name].restarts >= MAX_RESTARTS then s
      else
        var n := s.nodes[name];
        s.(nodes := s.nodes[name := Launch(n.(restarts := n.restarts + 1), p)])
  }

  /** Nodes are started once at boot, and the monotonic clock orders the readings of one start. */
  predicate Possible(s: State, e: Ev) {
    match e
    case Shutdown => true
    case Start(name, p) => name !in s.nodes && p.now <= p.woke <= p.started
    case Poll(name, _, p) =>
      && p.now <= p.woke <= p.started
      && (name in s.nodes && !p.interrupted ==>
            Deadline(s.nodes[name].(restarts := s.nodes[name].restarts + 1), p.now) <= p.woke)
  }

  function After(run: seq<Ev>): State {
    if |run| == 0 then State(map[], false) else Step(After(run[..|run| - 1]), run[|run| - 1])
  }

  predicate PossibleRun(run: seq<Ev>) {
    |run| == 0 || (PossibleRun(run[..|run| - 1]) && Possible(After(run[..|run| - 1]), run[|run| - 1]))
  }

  // ----- Budget and spacing -----

  lemma {:induction false} PowMonotone(a: nat, b: nat)
    requires a <= b
    ensures Pow2(a) <= Pow2(b)
    decreases b - a
  {
    if a < b {
      PowMonotone(a + 1, b);
    }
  }

  lemma BackoffMonotone(a: nat, b: nat)
    requires a <= b
    ensures Backoff(a) <= Backoff(b)
  {
    if a > 0 {
      PowMonotone(a - 1, b - 1);
    }
  }

  ghost predicate NodeInv(n: Node) {
    && n.restarts <= MAX_RESTARTS && |n.launches| <= n.restarts + 1
    && (n.hasProcess <==> |n.launches| > 0)
    && (|n.launches| > 0 ==> n.lastStart == n.launches[|n.launches| - 1])
    && (n.launches == [] ==> n.restarts == 0)
    && (forall k :: 0 < k < |n.launches| ==> n.launches[k] - n.launches[k - 1] >= Backoff(k) as real)
  }

  lemma RelaunchSpaced(n: Node, p: Spawn)
    requires NodeInv(n) && |n.launches| > 0 && n.restarts < MAX_RESTARTS
    requires p.now <= p.woke <= p.started
    requires !p.interrupted ==> Deadline(n.(restarts := n.restarts + 1), p.now) <= p.woke
    ensures NodeInv(Launch(n.(restarts := n.restarts + 1), p))
  {
    var m := n.(restarts := n.restarts + 1);
    var k := |n.launches|;
    BackoffMonotone(k, m.restarts);
    if !(Waits(m, p.now) && p.interrupted) {
      assert p.started - n.lastStart >= Backoff(m.restarts) as real;
    }
  }

  lemma {:induction false} NodesInv(run: seq<Ev>, name: string)
    requires PossibleRun(run) && name in After(run).nodes
    ensures NodeInv(After(run).nodes[name])
  {
    if |run| > 0 {
      var front, e := run[..|run| - 1], run[|run| - 1];
      var s := After(front);
      if name in s.nodes {
        NodesInv(front, name);
        if e.Poll? && e.name == name && s.nodes[name].hasProcess && s.nodes[name].restarts < MAX_RESTARTS {
          RelaunchSpaced(s.nodes[name], e.spawn);
        }
      }
    }
  }

  /** A node is launched at most 21 times in any run. */
  lemma LaunchBudget(run: seq<Ev>, name: string)
    requires PossibleRun(run) && name in After(run).nodes
    ensures |After(run).nodes[name].launches| <= MAX_RESTARTS + 1
  {
    NodesInv(run, name);
  }

  /** Least total delay of the k-th relaunch after the first launch. */
  function TotalBackoff(k: nat): nat { if k == 0 then 0 else TotalBackoff(k - 1) + Backoff(k) }

  /** 2^k - 1 seconds up to the fifth relaunch, then 30 more for each. */
  lemma {:induction false} TotalBackoffClosedForm(k: nat)
    ensures TotalBackoff(k) == if k <= 5 then Pow2(k) - 1 else 31 + 30 * (k - 5)
  {
    if k > 0 {
      TotalBackoffClosedForm(k - 1);
      if k > 5 {
        PowMonotone(5, k - 1);
      }
      assert Pow2(5) == 32 && Pow2(4) == 16;
      if k <= 5 {
        PowMonotone(k - 1, 4);
      }
    }
  }

  lemma {:induction false} SpacedFrom(n: Node, k: nat)
    requires NodeInv(n) && k < |n.launches|
    ensures n.launches[k] - n.launches[0] >= TotalBackoff(k) as real
  {
    if k > 0 {
      SpacedFrom(n, k - 1);
    }
  }

  /** The k-th relaunch happens no earlier than the summed backoffs after the first launch, failed spawns in between or not. */
  lemma RelaunchDelay(run: seq<Ev>, name: string, k: nat)
    requires PossibleRun(run) && name in After(run).nodes && k < |After(run).nodes[name].launches|
    ensures var launches := After(run).nodes[name].launches;
            launches[k] - launches[0] >= (if k <= 5 then Pow2(k) - 1 else 31 + 30 * (k - 5)) as real
  {
    NodesInv(run, name);
    SpacedFrom(After(run).nodes[name], k);
    TotalBackoffClosedForm(k);
  }

  /** After the shutdown flag nothing is launched any more. */
  lemma {:induction false} NothingAfterShutdown(run: seq<Ev>, more: seq<Ev>)
    requires After(run).shuttingDown
    ensures After(run + more) == After(run)
  {
    if |more| == 0 {
      assert run + more == run;
    } else {
      assert (run + more)[..|run + more| - 1] == run + more[..|more| - 1];
      NothingAfterShutdown(run, more[..|more| - 1]);
    }
  }

  /** The launches of a node so far. */
  function LaunchesOf(s: State, name: string): seq<real> { if name in s.nodes then s.nodes[name].launches else [] }

  /** A relaunch comes sooner after the last launch than its backoff. */
  predicate MustWait(n: Node, now: real) {
    |n.launches| > 0 && now - n.launches[|n.launches| - 1] < Backoff(n.restarts + 1) as real
  }

  /** A relaunch waits until its backoff has passed since the last launch, and no longer. */
  lemma WaitsExactly(run: seq<Ev>, name: string, now: real)
    requires PossibleRun(run) && name in After(run).nodes && After(run).nodes[name].launches != []
    ensures var n := After(run).nodes[name];
            var due := n.launches[|n.launches| - 1] + Backoff(n.restarts + 1) as real;
            Deadline(n.(restarts := n.restarts + 1), now) == if due > now then due else now
  {
    NodesInv(run, name);
  }

  /** What an event adds to the launches of a node. */
  function Launched(s: State, e: Ev, name: string): seq<real> {
    if e.Shutdown? || e.name != name || s.shuttingDown || !e.spawn.ok then []
    else if e.Start? then [e.spawn.started]
    else if name in s.nodes && s.nodes[name].launches != [] && e.exited && s.nodes[name].restarts < 20
            && !(MustWait(s.nodes[name], e.spawn.now) && e.spawn.interrupted)
    then [e.spawn.started] else []
  }

  lemma StartLaunches(s: State, e: Ev, name: string)
    requires e.Start? && Possible(s, e)
    ensures LaunchesOf(Step(s, e), name) == LaunchesOf(s, name) + Launched(s, e, name)
  {
  }

  lemma PollLaunches(s: State, e: Ev, name: string)
    requires e.Poll? && (name in s.nodes ==> NodeInv(s.nodes[name]))
    ensures LaunchesOf(Step(s, e), name) == LaunchesOf(s, name) + Launched(s, e, name)
  {
  }

  /**
   * In every run, an event launches a node, and then once and at the time it records, if and only if the flag is not
   * set, the spawn works, and it is the node's start, or finds the node exited with restarts left and its wait, if one
   * is due, not interrupted.
   */
  lemma LaunchedIff(run: seq<Ev>, e: Ev, name: string)
    requires PossibleRun(run + [e])
    ensures LaunchesOf(After(run + [e]), name) == LaunchesOf(After(run), name) + Launched(After(run), e, name)
  {
    assert (run + [e])[..|run|] == run;
    if name in After(run).nodes {
      NodesInv(run, name);
    }
    match e
    case Start(_, _) => StartLaunches(After(run), e, name);
    case Poll(_, _, _) => PollLaunches(After(run), e, name);
    case Shutdown =>
  }

  /** The event finds the node exited; the spawn works and no wait is interrupted. */
  predicate Crash(e: Ev, name: string) {
    e.Poll? && e.name == name && e.exited && e.spawn.ok && !e.spawn.interrupted
  }

  ghost predicate Relaunched(s: State, name: string, times: nat) {
    !s.shuttingDown && name in s.nodes && NodeInv(s.nodes[name]) && s.nodes[name].restarts == times && |s.nodes[name].launches| == 1 + times
  }

  lemma CrashStep(s: State, e: Ev, name: string, times: nat)
    requires Relaunched(s, name, times) && Crash(e, name) && Possible(s, e)
    ensures Relaunched(Step(s, e), name, if times < 20 then times + 1 else times)
  {
    if times < 20 {
      RelaunchSpaced(s.nodes[name], e.spawn);
    }
  }

  /**
   * A node that runs and then exits before each of a number of polls is launched again at each of them until its
   * restarts are used up: 20 in all, neither more nor fewer.
   */
  lemma {:induction false} CrashesRelaunched(run: seq<Ev>, crashes: seq<Ev>, name: string)
    requires PossibleRun(run + crashes) && Relaunched(After(run), name, 0) && forall e :: e in crashes ==> Crash(e, name)
    ensures Relaunched(After(run + crashes), name, if |crashes| < 20 then |crashes| else 20)
  {
    if |crashes| == 0 {
      assert run + crashes == run;
    } else {
      var front, e := crashes[..|crashes| - 1], crashes[|crashes| - 1];
      assert (run + crashes)[..|run + crashes| - 1] == run + front;
      assert e in crashes;
      CrashesRelaunched(run, front, name);
      CrashStep(After(run + front), e, name, if |front| < 20 then |front| else 20);
    }
  }

  /** The first start of a node that works is such a beginning. */
  lemma StartRuns(run: seq<Ev>, e: Ev)
    requires PossibleRun(run + [e]) && e.Start? && e.spawn.ok && !After(run).shuttingDown
    ensures Relaunched(After(run + [e]), e.name, 0)
  {
    assert (run + [e])[..|run|] == run;
  }

  /** A shutdown ends every node's history: no launch, restart or backoff of any later event changes it. */
  lemma ShutdownEndsHistory(run: seq<Ev>, more: seq<Ev>)
    ensures After(run + [Shutdown] + more).nodes == After(run).nodes
  {
    assert (run + [Shutdown])[..|run|] == run;
    NothingAfterShutdown(run + [Shutdown], more);
  }

  /** The events about one node, and the shutdown flag. */
  function OnNode(name: string): Ev -> bool {
    (e: Ev) => e.Shutdown? || e.name == name
  }

  function NodeView(s: State, name: string): (Option<Node>, bool) {
    (if name in s.nodes then Some(s.nodes[name]) else None, s.shuttingDown)
  }

  /** An event about another node leaves this one alone; any other event looks at nothing but this node. */
  lemma ViewStep(s: State, t: State, e: Ev, name: string)
    requires NodeView(s, name) == NodeView(t, name)
    ensures NodeView(Step(s, e), name) == (if OnNode(name)(e) then NodeView(Step(t, e), name) else NodeView(t, name))
  {
  }

  /** Nodes do not interfere: budget, backoff and launches of a node are those of its own events alone. */
  lemma {:induction false} NodesDoNotInterfere(run: seq<Ev>, name: string)
    ensures NodeView(After(run), name) == NodeView(After(Filter(OnNode(name), run)), name)
  {
    if |run| > 0 {
      var front, e := run[..|run| - 1], run[|run| - 1];
      var kept := Filter(OnNode(name), front);
      NodesDoNotInterfere(front, name);
      ViewStep(After(front), After(kept), e, name);
      assert (kept + [e])[..|kept|] == kept;
    }
  }

  // ----- The process manager -----

  /** The clock readings of a wait reach the deadline, or the shutdown flag is seen at one of them. */
  predicate WaitEnds(deadline: real, readings: seq<real>, flagAt: Option<nat>) {
    |readings| > 0 && (readings[|readings| - 1] >= deadline || (flagAt.Some? && flagAt.value < |readings|))
  }

  function NodeOf(s: State, name: string): Node { if name in s.nodes then s.nodes[name] else Node(0, false, 0.0, []) }

  class ProcessManager {
    var nodes: map<string, Node>
    var shuttingDown: bool

    function Current(): State
      reads this
    {
      State(nodes, shuttingDown)
    }

    constructor ()
      ensures Current() == State(map[], false)
    {
      nodes, shuttingDown := map[], false;
    }

    /** The half-second sleep loop, on the clock readings it makes; it ends at the deadline or on the shutdown flag. */
    method AwaitDeadline(deadline: real, readings: seq<real>, flagAt: Option<nat>) returns (woke: real, interrupted: bool)
      requires WaitEnds(deadline, readings, flagAt)
      ensures woke in readings
      ensures exists i :: 0 <= i < |readings| && woke == readings[i] && (woke >= deadline || interrupted)
                          && forall j :: 0 <= j < i ==> readings[j] < deadline && flagAt != Some(j)
      ensures !interrupted ==> woke >= deadline
      ensures interrupted ==> flagAt.Some? && flagAt.value < |readings| && woke == readings[flagAt.value]
    {
      var i := 0;
      interrupted := flagAt == Some(0);
      while readings[i] < deadline && !interrupted
        invariant i < |readings| && forall j :: 0 <= j < i ==> readings[j] < deadline && flagAt != Some(j)
        invariant interrupted <==> flagAt == Some(i)
        invariant flagAt.Some? && flagAt.value < |readings| ==> i <= flagAt.value
        decreases |readings| - i
      {
        i := i + 1;
        interrupted := flagAt == Some(i);
      }
      woke := readings[i];
    }

    /** Starts a node after its backoff; reports what the clock and the operating system did. */
    method StartProcess(name: string, now: real, readings: seq<real>, flagAt: Option<nat>, ok: bool, started: real)
      returns (ghost p: Spawn)
      requires var n := NodeOf(Current(), name); Waits(n, now) ==> WaitEnds(Deadline(n, now), readings, flagAt)
      requires now <= started && forall r :: r in readings ==> now <= r <= started
      modifies this
      ensures Current() == if old(shuttingDown) then old(Current())
                           else State(old(nodes)[name := Launch(NodeOf(old(Current()), name), p)], false)
      ensures p.now == now <= p.woke <= p.started == started && p.ok == ok
      ensures !p.interrupted ==> Deadline(NodeOf(old(Current()), name), now) <= p.woke
    {
      p := Spawn(now, now, true, ok, started);
      if shuttingDown {
        return;
      }
      if name !in nodes {
        nodes := nodes[name := Node(0, false, 0.0, [])];
      }
      var info := nodes[name];
      p := Spawn(now, now, false, ok, started);
      if info.restarts > 0 {
        var backoff := if Pow2(info.restarts - 1) < MAX_BACKOFF then Pow2(info.restarts - 1) else MAX_BACKOFF;
        var elapsed := now - info.lastStart;
        if elapsed < backoff as real {
          var woke, interrupted := AwaitDeadline(now + (backoff as real - elapsed), readings, flagAt);
          p := Spawn(now, woke, interrupted, ok, started);
          if interrupted {
            return;
          }
        }
      }
      if ok {
        nodes := nodes[name := info.(hasProcess := true, lastStart := started, launches := info.launches + [started])];
      }
    }

    /** One node of one monitor pass. */
    method PollNode(name: string, exited: bool, now: real, readings: seq<real>, flagAt: Option<nat>, ok: bool, started: real)
      returns (ghost p: Spawn)
      requires var n := NodeOf(Current(), name);
               var m := n.(restarts := n.restarts + 1); Waits(m, now) ==> WaitEnds(Deadline(m, now), readings, flagAt)
      requires now <= started && forall r :: r in readings ==> now <= r <= started
      modifies this
      ensures Current() == Step(old(Current()), Poll(name, exited, p))
      ensures Possible(old(Current()), Poll(name, exited, p))
    {
      p := Spawn(now, now, true, ok, started);
      if shuttingDown || name !in nodes || !nodes[name].hasProcess || !exited {
        return;
      }
      if nodes[name].restarts >= MAX_RESTARTS {
        return;
      }
      nodes := nodes[name := nodes[name].(restarts := nodes[name].restarts + 1)];
      p := StartProcess(name, now, readings, flagAt, ok, started);
    }
  }
}
