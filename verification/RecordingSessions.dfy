/** The continuous recording protocol: start threads, 30 s watchers and stop threads over five guarded fields. */
module RecordingSessions {
  import opened Sequences

  /** The storage path is empty or names the video after its start time. */
  datatype FilePath = NoFile | Video(stamp: int)

  /** The five `continuous_*` fields. */
  datatype Session = Session(path: FilePath, fileId: string, commandId: string, device: string, dog: Option<string>) {
    predicate Active() { path.Video? }
  }

  const CLEARED := Session(NoFile, "", "", "", None)

  /** An accepted start command, handed to its own thread. */
  datatype Request = Request(commandId: string, device: string, dog: Option<string>)

  function SessionOf(r: Request, stamp: int): Session {
    Session(Video(stamp), "VID_" + r.commandId, r.commandId, r.device, r.dog)
  }

  const STOP_GRACE_MS := 500
  const CAP_MS := 30_000

  /** Threads in flight, the shared fields, and what became of every session. */
  datatype World = World(
    privacy: bool, clock: int,
    asked: set<string>, pending: set<Request>, launched: set<string>, watchers: map<string, int>, fired: set<string>,
    stops: nat,
    session: Session,
    performed: seq<Session>, superseded: seq<Session>, stopped: seq<Session>, watched: seq<Session>)

  const INITIAL := World(false, 0, {}, {}, {}, map[], {}, 0, CLEARED, [], [], [], [])

  /** One atomic step; a critical section of the mutex is one step. */
  datatype Ev =
    | SetPrivacy(on: bool)
    | AskStart(request: Request)
    | AskStop
    | BeginStart(request: Request, at: int, stamp: int)
    | SpawnWatcher(id: string, at: int)
    | WatcherFires(id: string, at: int)
    | StopRuns(at: int)

  function Step(w: World, e: Ev): World {
    match e
    case SetPrivacy(on) => w.(privacy := on)
    case AskStart(r) => if w.privacy then w else w.(asked := w.asked + {r.commandId}, pending := w.pending + {r})
    case AskStop => if w.privacy || !w.session.Active() then w else w.(stops := w.stops + 1)
    case BeginStart(r, at, stamp) =>
      var s := SessionOf(r, stamp);
      w.(clock := stamp, pending := w.pending - {r}, launched := w.launched + {r.commandId},
         superseded := if w.session.Active() then w.superseded + [w.session] else w.superseded,
         session := s, performed := w.performed + [s])
    case SpawnWatcher(id, at) =>
      w.(clock := at, launched := w.launched - {id}, watchers := w.watchers[id := at + CAP_MS])
    case WatcherFires(id, at) =>
      var w' := w.(clock := at, watchers := w.watchers - {id}, fired := w.fired + {id});
      if w.session.Active() && w.session.commandId == id
      then w'.(watched := w.watched + [w.session], session := CLEARED) else w'
    case StopRuns(at) =>
      var w' := w.(clock := at, stops := if w.stops > 0 then w.stops - 1 else 0);
      if w.session.Active() then w'.(stopped := w.stopped + [w.session], session := CLEARED) else w'
  }

  /** Threads exist before they run, clocks do not run back, and accepted start commands have fresh ids. */
  predicate Enabled(w: World, e: Ev) {
    match e
    case SetPrivacy(_) => true
    case AskStart(r) => r.commandId !in w.asked
    case AskStop => true
    case BeginStart(r, at, stamp) => r in w.pending && w.clock <= at && at + STOP_GRACE_MS <= stamp
    case SpawnWatcher(id, at) => id in w.launched && w.clock <= at
    case WatcherFires(id, at) => id in w.watchers && w.clock <= at && w.watchers[id] <= at
    case StopRuns(at) => w.stops > 0 && w.clock <= at
  }

  function After(run: seq<Ev>): World {
    if |run| == 0 then INITIAL else Step(After(run[..|run| - 1]), run[|run| - 1])
  }

  predicate Possible(run: seq<Ev>) {
    |run| == 0 || (Possible(run[..|run| - 1]) && Enabled(After(run[..|run| - 1]), run[|run| - 1]))
  }

  // ----- The invariant -----

  function ActivePart(s: Session): multiset<Session> { if s.Active() then multiset{s} else multiset{} }

  ghost predicate SessionShape(w: World) {
    && (w.session == CLEARED || (|w.performed| > 0 && w.session == w.performed[|w.performed| - 1]))
    && (forall i :: 0 <= i < |w.performed| ==>
          w.performed[i].Active() && w.performed[i].fileId == "VID_" + w.performed[i].commandId
          && w.performed[i].path.stamp <= w.clock)
    && (forall i, j :: 0 <= i < j < |w.performed| ==>
          w.performed[i].path.stamp < w.performed[j].path.stamp && w.performed[i].commandId != w.performed[j].commandId)
  }

  ghost predicate Conserved(w: World) {
    multiset(w.performed)
    == multiset(w.superseded) + multiset(w.stopped) + multiset(w.watched) + ActivePart(w.session)
  }

  ghost predicate IdsKnown(w: World) {
    && (forall r :: r in w.pending ==> r.commandId in w.asked)
    && (forall r, q :: r in w.pending && q in w.pending && r.commandId == q.commandId ==> r == q)
    && (forall i :: 0 <= i < |w.performed| ==> w.performed[i].commandId in w.asked)
    && (forall i, r :: 0 <= i < |w.performed| && r in w.pending ==> w.performed[i].commandId != r.commandId)
  }

  predicate Performed(w: World, id: string) {
    exists i :: 0 <= i < |w.performed| && w.performed[i].commandId == id
  }

  ghost predicate WatchersKnown(w: World) {
    && w.launched !! w.watchers.Keys && w.launched !! w.fired && w.watchers.Keys !! w.fired
    && (forall id :: id in w.launched + w.watchers.Keys + w.fired ==>
          Performed(w, id))
    && (w.session.Active() ==> w.session.commandId in w.launched + w.watchers.Keys)
  }

  /** A watcher is due no earlier than 30 s after its start. */
  ghost predicate WatchersLate(w: World) {
    forall i :: 0 <= i < |w.performed| && w.performed[i].Active() && w.performed[i].commandId in w.watchers ==>
      w.performed[i].path.stamp + CAP_MS <= w.watchers[w.performed[i].commandId]
  }

  ghost predicate Inv(w: World) {
    SessionShape(w) && Conserved(w) && IdsKnown(w) && WatchersKnown(w) && WatchersLate(w)
  }

  /** Every interleaving keeps the invariant. */
  lemma {:induction false} InvHolds(run: seq<Ev>)
    requires Possible(run)
    ensures Inv(After(run))
  {
    if |run| > 0 {
      var before, e := After(run[..|run| - 1]), run[|run| - 1];
      InvHolds(run[..|run| - 1]);
      ShapeKept(before, e);
      ConservedKept(before, e);
      WatchersKept(before, e);
      LateKept(before, e);
    }
  }

  lemma ShapeKept(w: World, e: Ev)
    requires SessionShape(w) && IdsKnown(w) && Enabled(w, e)
    ensures SessionShape(Step(w, e)) && IdsKnown(Step(w, e))
  {
    var w' := Step(w, e);
    if e.BeginStart? {
      forall i | 0 <= i < |w.performed|
        ensures w'.performed[i] == w.performed[i] && w.performed[i].path.stamp < e.stamp
                && w.performed[i].commandId != e.request.commandId
      {
      }
    } else {
      assert w'.performed == w.performed && w.clock <= w'.clock;
    }
  }

  lemma OneMore(xs: seq<Session>, s: Session)
    ensures multiset(xs + [s]) == multiset(xs) + multiset{s}
  {
  }

  lemma StartConserved(w: World, r: Request, at: int, stamp: int)
    requires Conserved(w)
    ensures Conserved(Step(w, BeginStart(r, at, stamp)))
  {
    OneMore(w.performed, SessionOf(r, stamp));
    if w.session.Active() {
      OneMore(w.superseded, w.session);
    }
  }

  lemma WatcherConserved(w: World, id: string, at: int)
    requires Conserved(w)
    ensures Conserved(Step(w, WatcherFires(id, at)))
  {
    OneMore(w.watched, w.session);
  }

  lemma StopConserved(w: World, at: int)
    requires Conserved(w)
    ensures Conserved(Step(w, StopRuns(at)))
  {
    OneMore(w.stopped, w.session);
  }

  lemma ConservedKept(w: World, e: Ev)
    requires Conserved(w)
    ensures Conserved(Step(w, e))
  {
    match e
    case BeginStart(r, at, stamp) => StartConserved(w, r, at, stamp);
    case WatcherFires(id, at) => WatcherConserved(w, id, at);
    case StopRuns(at) => StopConserved(w, at);
    case _ =>
  }

  lemma StillPerformed(w: World, e: Ev)
    ensures forall id :: Performed(w, id) ==> Performed(Step(w, e), id)
    ensures e.BeginStart? ==> Performed(Step(w, e), e.request.commandId)
  {
    var w' := Step(w, e);
    forall id | Performed(w, id) ensures Performed(w', id) {
      var i :| 0 <= i < |w.performed| && w.performed[i].commandId == id;
      assert w'.performed[i].commandId == id;
    }
    if e.BeginStart? {
      assert w'.performed[|w.performed|].commandId == e.request.commandId;
    }
  }

  lemma WatchersKept(w: World, e: Ev)
    requires IdsKnown(w) && WatchersKnown(w) && Enabled(w, e)
    ensures WatchersKnown(Step(w, e))
  {
    StillPerformed(w, e);
    match e
    case BeginStart(r, at, stamp) => StartWatched(w, r, at, stamp);
    case SpawnWatcher(id, at) => assert Step(w, e).watchers.Keys == w.watchers.Keys + {id};
    case WatcherFires(id, at) => FiringWatched(w, id, at);
    case _ =>
  }

  lemma StartWatched(w: World, r: Request, at: int, stamp: int)
    requires IdsKnown(w) && WatchersKnown(w) && Enabled(w, BeginStart(r, at, stamp))
    ensures WatchersKnown(Step(w, BeginStart(r, at, stamp)))
  {
    StillPerformed(w, BeginStart(r, at, stamp));
    assert !Performed(w, r.commandId);
  }

  lemma FiringWatched(w: World, id: string, at: int)
    requires WatchersKnown(w) && Enabled(w, WatcherFires(id, at))
    ensures WatchersKnown(Step(w, WatcherFires(id, at)))
  {
    StillPerformed(w, WatcherFires(id, at));
    assert Step(w, WatcherFires(id, at)).watchers.Keys == w.watchers.Keys - {id};
  }

  lemma LateKept(w: World, e: Ev)
    requires SessionShape(w) && IdsKnown(w) && WatchersKnown(w) && WatchersLate(w) && Enabled(w, e)
    ensures WatchersLate(Step(w, e))
  {
    if e.BeginStart? {
      assert !Performed(w, e.request.commandId);
    }
  }

  // ----- Guarantees over every interleaving -----

  /** The session describes, field by field, a start command that ran, with the time it read. */
  ghost predicate StartedIn(run: seq<Ev>, s: Session) {
    exists r, at, stamp :: BeginStart(r, at, stamp) in run
      && s == Session(Video(stamp), "VID_" + r.commandId, r.commandId, r.device, r.dog)
  }

  lemma {:induction false} PerformedFromStarts(run: seq<Ev>, s: Session)
    requires s in After(run).performed
    ensures StartedIn(run, s)
  {
    var front, e := run[..|run| - 1], run[|run| - 1];
    if s in After(front).performed {
      PerformedFromStarts(front, s);
      var r, at, stamp :| BeginStart(r, at, stamp) in front && s == SessionOf(r, stamp);
      assert BeginStart(r, at, stamp) in run;
    } else {
      assert BeginStart(e.request, e.at, e.stamp) in run && s == SessionOf(e.request, e.stamp);
    }
  }

  /** Whenever the mutex is free the five fields are all cleared or all describe one start command: the last that ran. */
  lemma FieldsAgree(run: seq<Ev>)
    requires Possible(run)
    ensures var w := After(run);
            w.session == CLEARED ||
            (|w.performed| > 0 && w.session == w.performed[|w.performed| - 1] && StartedIn(run, w.session))
  {
    InvHolds(run);
    var w := After(run);
    if w.session != CLEARED {
      PerformedFromStarts(run, w.session);
    }
  }

  /** Starts performed = taken by a stop + taken by a watcher + superseded + the active one. */
  lemma SessionsConserved(run: seq<Ev>)
    requires Possible(run)
    ensures var w := After(run);
            && multiset(w.performed)
               == multiset(w.superseded) + multiset(w.stopped) + multiset(w.watched) + ActivePart(w.session)
            && |w.performed| == |w.superseded| + |w.stopped| + |w.watched| + (if w.session.Active() then 1 else 0)
  {
    InvHolds(run);
    var w := After(run);
    assert |multiset(w.performed)| == |multiset(w.superseded)| + |multiset(w.stopped)| + |multiset(w.watched)| + |ActivePart(w.session)|;
  }

  lemma {:induction false} DistinctOnce(ss: seq<Session>, s: Session)
    requires forall i, j :: 0 <= i < j < |ss| ==> ss[i] != ss[j]
    ensures multiset(ss)[s] <= 1
  {
    if |ss| > 0 {
      var front, last := ss[..|ss| - 1], ss[|ss| - 1];
      assert ss == front + [last];
      DistinctOnce(front, s);
      assert last in multiset(front) ==> last in front;
    }
  }

  lemma {:induction false} TwiceCountsTwo(ss: seq<Session>, i: nat, j: nat)
    requires i < j < |ss| && ss[i] == ss[j]
    ensures multiset(ss)[ss[i]] >= 2
  {
    assert ss == ss[..j] + ss[j..];
    assert ss[i] in ss[..j] && ss[j] in ss[j..];
  }

  lemma EachOnce(performed: seq<Session>, others: multiset<Session>, uploads: seq<Session>)
    requires multiset(performed) == others + multiset(uploads)
    requires forall i, j :: 0 <= i < j < |performed| ==> performed[i] != performed[j]
    ensures forall i :: 0 <= i < |uploads| ==> uploads[i] in performed && uploads[i] !in others
    ensures forall i, j :: 0 <= i < j < |uploads| ==> uploads[i] != uploads[j]
  {
    forall i | 0 <= i < |uploads| ensures uploads[i] in performed && uploads[i] !in others {
      assert uploads[i] in multiset(uploads);
      assert uploads[i] in multiset(performed);
      DistinctOnce(performed, uploads[i]);
    }
    forall i, j | 0 <= i < j < |uploads| ensures uploads[i] != uploads[j] {
      if uploads[i] == uploads[j] {
        TwiceCountsTwo(uploads, i, j);
        DistinctOnce(performed, uploads[i]);
      }
    }
  }

  /** Each start's file is handed to upload at most once, under the ids of that start, and never after being superseded. */
  lemma UploadedAtMostOnce(run: seq<Ev>)
    requires Possible(run)
    ensures var w := After(run);
            var uploads := w.stopped + w.watched;
            && (forall i :: 0 <= i < |uploads| ==>
                  uploads[i] in w.performed && uploads[i] !in w.superseded && uploads[i] != w.session)
            && (forall i, j :: 0 <= i < j < |uploads| ==>
                  uploads[i].path != uploads[j].path && uploads[i].commandId != uploads[j].commandId)
  {
    InvHolds(run);
    var w := After(run);
    var uploads := w.stopped + w.watched;
    var others := multiset(w.superseded) + ActivePart(w.session);
    assert multiset(uploads) == multiset(w.stopped) + multiset(w.watched);
    assert multiset(w.performed) == others + multiset(uploads);
    EachOnce(w.performed, others, uploads);
    assert forall s :: s in w.superseded ==> s in multiset(w.superseded);
    forall i | 0 <= i < |uploads| ensures uploads[i] !in w.superseded && uploads[i] != w.session {
      assert uploads[i] !in others && uploads[i].Active();
    }
    forall i, j | 0 <= i < j < |uploads|
      ensures uploads[i].path != uploads[j].path && uploads[i].commandId != uploads[j].commandId
    {
      PerformedDistinct(w, uploads[i], uploads[j]);
    }
  }

  lemma PerformedDistinct(w: World, s: Session, t: Session)
    requires SessionShape(w) && s in w.performed && t in w.performed && s != t
    ensures s.path != t.path && s.commandId != t.commandId
  {
    var p :| 0 <= p < |w.performed| && w.performed[p] == s;
    var q :| 0 <= q < |w.performed| && w.performed[q] == t;
    assert p < q || q < p;
  }

  /** A firing watcher leaves the session alone or ends its own start's, which has then run for at least 30 s. */
  lemma WatcherEndsOwnSession(run: seq<Ev>, id: string, at: int)
    requires Possible(run) && Enabled(After(run), WatcherFires(id, at))
    ensures var w, w' := After(run), Step(After(run), WatcherFires(id, at));
            if w.session.Active() && w.session.commandId == id
            then w'.session == CLEARED && w'.watched == w.watched + [w.session] && w.session.path.stamp + CAP_MS <= at
            else w'.session == w.session && w'.watched == w.watched
  {
    InvHolds(run);
  }

  /** No session is active once its own watcher has fired. */
  lemma NoSessionOutlivesItsWatcher(run: seq<Ev>)
    requires Possible(run)
    ensures After(run).session.Active() ==> After(run).session.commandId !in After(run).fired
  {
    InvHolds(run);
  }

  // ----- What becomes of each session -----

  datatype Place = Active | Superseded | Stopped | Watched

  /** The event would end an active session of the command: a later start, a stop, or its own watcher. */
  predicate Takes(e: Ev, id: string) {
    e.BeginStart? || e.StopRuns? || (e.WatcherFires? && e.id == id)
  }

  function PlaceAfter(e: Ev): Place {
    if e.BeginStart? then Superseded else if e.StopRuns? then Stopped else Watched
  }

  /** The session is in this place and in no other. */
  ghost predicate At(w: World, s: Session, p: Place) {
    && (w.session == s <==> p == Active) && (s in w.superseded <==> p == Superseded)
    && (s in w.stopped <==> p == Stopped) && (s in w.watched <==> p == Watched)
  }

  lemma StartedActive(w: World, e: Ev)
    requires Inv(w) && Enabled(w, e) && e.BeginStart?
    ensures At(Step(w, e), SessionOf(e.request, e.stamp), Active)
  {
    forall t | t in w.superseded || t in w.stopped || t in w.watched || (t == w.session && t.Active())
      ensures t.commandId != e.request.commandId
    {
      assert t in multiset(w.superseded) || t in multiset(w.stopped) || t in multiset(w.watched) || t in ActivePart(w.session);
      assert t in multiset(w.performed);
    }
  }

  /** One more event moves a session only if it is active and the event takes it. */
  lemma PlaceStep(w: World, e: Ev, s: Session, p: Place)
    requires SessionShape(w) && IdsKnown(w) && Enabled(w, e) && s in w.performed && At(w, s, p)
    ensures At(Step(w, e), s, if p == Active && Takes(e, s.commandId) then PlaceAfter(e) else p)
  {
    if e.BeginStart? {
      var i :| 0 <= i < |w.performed| && w.performed[i] == s;
      assert w.performed[i].commandId != e.request.commandId;
    }
  }

  function PlaceOf(run: seq<Ev>, i: nat): Place
    requires i < |run| && run[i].BeginStart?
  {
    if |run| == i + 1 then Active
    else
      var front, e := run[..|run| - 1], run[|run| - 1];
      var p := PlaceOf(front, i);
      if p == Active && Takes(e, run[i].request.commandId) then PlaceAfter(e) else p
  }

  lemma {:induction false} SessionAtPlace(run: seq<Ev>, i: nat)
    requires Possible(run) && i < |run| && run[i].BeginStart?
    ensures At(After(run), SessionOf(run[i].request, run[i].stamp), PlaceOf(run, i))
    ensures SessionOf(run[i].request, run[i].stamp) in After(run).performed
  {
    var front, e := run[..|run| - 1], run[|run| - 1];
    InvHolds(front);
    if |run| == i + 1 {
      StartedActive(After(front), e);
    } else {
      SessionAtPlace(front, i);
      PlaceStep(After(front), e, SessionOf(run[i].request, run[i].stamp), PlaceOf(front, i));
    }
  }

  /** The first event after the start at i that takes its session. */
  ghost predicate FirstTaker(run: seq<Ev>, i: nat, j: int) {
    && i < j < |run| && run[i].BeginStart? && Takes(run[j], run[i].request.commandId)
    && forall k :: i < k < j ==> !Takes(run[k], run[i].request.commandId)
  }

  lemma {:induction false} PlaceMeaning(run: seq<Ev>, i: nat) returns (j: int)
    requires i < |run| && run[i].BeginStart?
    ensures if PlaceOf(run, i) == Active then forall k :: i < k < |run| ==> !Takes(run[k], run[i].request.commandId)
            else FirstTaker(run, i, j) && PlaceOf(run, i) == PlaceAfter(run[j])
  {
    j := |run| - 1;
    if j > i {
      var front := run[..|run| - 1];
      var k := PlaceMeaning(front, i);
      if PlaceOf(front, i) != Active {
        j := k;
      }
    }
  }

  /**
   * The session of a start ends superseded, stopped or watched according to the first later event among a start, a
   * stop and its own watcher; without one it is still active.
   */
  lemma SessionFate(run: seq<Ev>, i: nat)
    requires Possible(run) && i < |run| && run[i].BeginStart?
    ensures var s, w := SessionOf(run[i].request, run[i].stamp), After(run);
            && (s in w.superseded <==> exists j :: FirstTaker(run, i, j) && run[j].BeginStart?)
            && (s in w.stopped <==> exists j :: FirstTaker(run, i, j) && run[j].StopRuns?)
            && (s in w.watched <==> exists j :: FirstTaker(run, i, j) && run[j].WatcherFires?)
            && (w.session == s <==> forall k :: i < k < |run| ==> !Takes(run[k], run[i].request.commandId))
  {
    SessionAtPlace(run, i);
    var j := PlaceMeaning(run, i);
    if PlaceOf(run, i) != Active {
      forall k | FirstTaker(run, i, k) ensures k == j {
        OneFirstTaker(run, i, j, k);
      }
    }
  }

  lemma OneFirstTaker(run: seq<Ev>, i: nat, j: int, k: int)
    requires FirstTaker(run, i, j) && FirstTaker(run, i, k)
    ensures j == k
  {
  }

  lemma {:induction false} SupersededStays(run: seq<Ev>, more: seq<Ev>, s: Session)
    requires s in After(run).superseded
    ensures s in After(run + more).superseded
  {
    if |more| == 0 {
      assert run + more == run;
    } else {
      assert (run + more)[..|run + more| - 1] == run + more[..|more| - 1];
      SupersededStays(run, more[..|more| - 1], s);
    }
  }

  /** A superseded recording is not uploaded in any continuation. */
  lemma SupersededNeverUploaded(run: seq<Ev>, more: seq<Ev>, s: Session)
    requires Possible(run + more) && s in After(run).superseded
    ensures s !in After(run + more).stopped && s !in After(run + more).watched
  {
    SupersededStays(run, more, s);
    UploadedAtMostOnce(run + more);
    var w := After(run + more);
    forall t | t in w.stopped + w.watched ensures t !in w.superseded {
    }
    assert forall t :: t in w.stopped || t in w.watched ==> t in w.stopped + w.watched;
  }

  /** Two commands start recording in turn. */
  function TwoStarts(a: Request, b: Request): seq<Ev> {
    [AskStart(a), AskStart(b), BeginStart(a, 0, 500), BeginStart(b, 500, 1000)]
  }

  /** The input at which a recording is lost: the first of two starts is uploaded in no continuation. */
  lemma FirstOfTwoStartsLost(a: Request, b: Request, more: seq<Ev>)
    requires a.commandId != b.commandId
    ensures Possible(TwoStarts(a, b)) && SessionOf(a, 500) in After(TwoStarts(a, b)).superseded
    ensures Possible(TwoStarts(a, b) + more) ==>
              SessionOf(a, 500) !in After(TwoStarts(a, b) + more).stopped + After(TwoStarts(a, b) + more).watched
  {
    var run := TwoStarts(a, b);
    var e0, e1, e2, e3 := run[0], run[1], run[2], run[3];
    assert [e0][..0] == [] && [e0, e1][..1] == [e0] && [e0, e1, e2][..2] == [e0, e1] && run[..3] == [e0, e1, e2];
    var w1 := Step(INITIAL, e0);
    assert After([e0]) == w1 && Possible([e0]);
    var w2 := Step(w1, e1);
    assert After([e0, e1]) == w2 && Possible([e0, e1]);
    assert w2.pending == {a, b} && w2.clock == 0;
    var w3 := Step(w2, e2);
    assert After([e0, e1, e2]) == w3 && Possible([e0, e1, e2]);
    assert w3.session == SessionOf(a, 500) && b in w3.pending && w3.clock == 500;
    assert After(run) == Step(w3, e3);
    if Possible(run + more) {
      SupersededNeverUploaded(run, more, SessionOf(a, 500));
    }
  }

  /** Without fresh ids the guarantee fails: the watcher of a stopped recording ends a later one that reuses its id. */
  lemma ReusedIdEndsLaterSession(device: string)
    ensures var r := Request("c", device, None);
            var w := Step(Step(Step(Step(INITIAL, AskStart(r)), BeginStart(r, 0, 500)), SpawnWatcher("c", 500)), AskStop);
            var w' := Step(Step(Step(w, StopRuns(600)), AskStart(r)), BeginStart(r, 600, 1100));
            && !Enabled(Step(w, StopRuns(600)), AskStart(r))
            && w'.session == SessionOf(r, 1100) && Enabled(w', WatcherFires("c", 30_500))
            && Step(w', WatcherFires("c", 30_500)).watched == [SessionOf(r, 1100)] && 30_500 < 1100 + CAP_MS
  {
    var r := Request("c", device, None);
    var w2 := Step(Step(INITIAL, AskStart(r)), BeginStart(r, 0, 500));
    assert w2.session == SessionOf(r, 500);
    var w3 := Step(w2, SpawnWatcher("c", 500));
    assert w3.watchers == map["c" := 30_500] && w3.session == SessionOf(r, 500);
    var w5 := Step(Step(w3, AskStop), StopRuns(600));
    assert w5.session == CLEARED && w5.watchers == map["c" := 30_500] && w5.watched == [];
    var w7 := Step(Step(w5, AskStart(r)), BeginStart(r, 600, 1100));
    assert w7.watchers == map["c" := 30_500] && w7.session == SessionOf(r, 1100);
  }

  // ----- What is handed to upload -----

  /** What a taking thread passes to upload and confirmation. */
  datatype Upload = Upload(path: FilePath, fileId: string, commandId: string)

  function UploadOf(s: Session): Upload { Upload(s.path, s.fileId, s.commandId) }

  /** The start of the run whose session is active. */
  lemma ActiveStart(run: seq<Ev>) returns (i: nat)
    requires Possible(run) && After(run).session.Active()
    ensures i < |run| && run[i].BeginStart? && After(run).session == SessionOf(run[i].request, run[i].stamp)
    ensures forall k :: i < k < |run| ==> !Takes(run[k], run[i].request.commandId)
  {
    var w := After(run);
    InvHolds(run);
    assert w.session in w.performed;
    PerformedFromStarts(run, w.session);
    var r, at, stamp :| BeginStart(r, at, stamp) in run && w.session == Session(Video(stamp), "VID_" + r.commandId, r.commandId, r.device, r.dog);
    i :| 0 <= i < |run| && run[i] == BeginStart(r, at, stamp);
    SessionFate(run, i);
  }

  /** The session that an event takes for upload, if any. */
  function TakenBy(w: World, e: Ev): Option<Session> {
    if w.session.Active() && (e.StopRuns? || (e.WatcherFires? && e.id == w.session.commandId)) then Some(w.session) else None
  }

  /**
   * In every run, a stop or a watcher takes a session if and only if it is the first later event to take that of some
   * start; it then hands over the video named after that start's time, under the file id and command id of its command.
   */
  lemma UploadedIsOfStart(run: seq<Ev>, e: Ev) returns (i: nat)
    requires Possible(run + [e]) && !e.BeginStart? && TakenBy(After(run), e).Some?
    ensures FirstTaker(run + [e], i, |run|)
    ensures var r := (run + [e])[i].request;
            UploadOf(TakenBy(After(run), e).value) == Upload(Video((run + [e])[i].stamp), "VID_" + r.commandId, r.commandId)
  {
    assert (run + [e])[..|run|] == run;
    i := ActiveStart(run);
    assert (run + [e])[i] == run[i];
    forall k | i < k < |run| ensures !Takes((run + [e])[k], run[i].request.commandId) {
      assert (run + [e])[k] == run[k];
    }
  }

  /** And such an event leaves the session it takes where it belongs: with the stopped or with the watched ones. */
  lemma TakenIsRecorded(w: World, e: Ev)
    requires e.StopRuns? || e.WatcherFires?
    ensures var taken, w' := TakenBy(w, e), Step(w, e);
            && w'.stopped == w.stopped + (if e.StopRuns? && taken.Some? then [taken.value] else [])
            && w'.watched == w.watched + (if e.WatcherFires? && taken.Some? then [taken.value] else [])
            && w'.session == (if taken.Some? then CLEARED else w.session)
  {
  }

  /** A watcher that a start has spawned is due 30 s later, and stays so until it fires. */
  lemma {:induction false} WatcherStaysDue(run: seq<Ev>, more: seq<Ev>, id: string, at: int)
    requires Possible(run + [SpawnWatcher(id, at)] + more)
    requires forall e :: e in more ==> !(e.WatcherFires? && e.id == id)
    ensures var w := After(run + [SpawnWatcher(id, at)] + more); id in w.watchers && w.watchers[id] == at + 30_000
  {
    var begun := run + [SpawnWatcher(id, at)];
    if |more| == 0 {
      assert begun + more == begun && begun[..|run|] == run;
    } else {
      var front, e := more[..|more| - 1], more[|more| - 1];
      assert (begun + more)[..|begun + more| - 1] == begun + front;
      assert e in more;
      WatcherStaysDue(run, front, id, at);
      InvHolds(begun + front);
      WatcherKeptDue(After(begun + front), e, id);
    }
  }

  lemma WatcherKeptDue(w: World, e: Ev, id: string)
    requires WatchersKnown(w) && Enabled(w, e) && id in w.watchers && !(e.WatcherFires? && e.id == id)
    ensures id in Step(w, e).watchers && Step(w, e).watchers[id] == w.watchers[id]
  {
  }

  /** An active session is never without a watcher: its start has still to spawn it, or it is due. */
  lemma ActiveIsWatched(run: seq<Ev>)
    requires Possible(run) && After(run).session.Active()
    ensures var w := After(run); w.session.commandId in w.launched || w.session.commandId in w.watchers
  {
    InvHolds(run);
  }

  // ----- Privacy mode -----

  /** A start command counts only when it came outside privacy mode. */
  predicate AskedOutsidePrivacy(run: seq<Ev>, r: Request) {
    exists k :: 0 <= k < |run| && run[k] == AskStart(r) && !After(run[..k]).privacy
  }

  lemma AskedStays(run: seq<Ev>, e: Ev, r: Request)
    requires AskedOutsidePrivacy(run, r)
    ensures AskedOutsidePrivacy(run + [e], r)
  {
    var k :| 0 <= k < |run| && run[k] == AskStart(r) && !After(run[..k]).privacy;
    assert (run + [e])[k] == run[k] && (run + [e])[..k] == run[..k];
  }

  lemma {:induction false} PendingAsked(run: seq<Ev>, r: Request)
    requires Possible(run) && r in After(run).pending
    ensures AskedOutsidePrivacy(run, r)
  {
    var front, e := run[..|run| - 1], run[|run| - 1];
    assert run == front + [e];
    if r in After(front).pending {
      PendingAsked(front, r);
      AskedStays(front, e, r);
    } else {
      assert run[|front|] == AskStart(r) && run[..|front|] == front;
    }
  }

  /** No session comes from a start command that was received in privacy mode. */
  lemma StartedOutsidePrivacy(run: seq<Ev>, i: nat)
    requires Possible(run) && i < |run| && run[i].BeginStart?
    ensures AskedOutsidePrivacy(run[..i], run[i].request)
  {
    PossiblePrefix(run, i);
    PendingAsked(run[..i], run[i].request);
  }

  lemma {:induction false} PossiblePrefix(run: seq<Ev>, i: nat)
    requires Possible(run) && i < |run|
    ensures Possible(run[..i]) && Enabled(After(run[..i]), run[i])
  {
    var front := run[..|run| - 1];
    if i < |front| {
      PossiblePrefix(front, i);
      assert front[..i] == run[..i];
    }
  }

  // ----- The handlers and threads -----

  class VideoCapture {
    var privacy: bool
    var path: FilePath
    var fileId: string
    var commandId: string
    var device: string
    var dog: Option<string>
    ghost var world: World

    ghost predicate Valid()
      reads this
    {
      world.privacy == privacy && world.session == Session(path, fileId, commandId, device, dog)
    }

    constructor ()
      ensures Valid() && world == INITIAL
    {
      privacy, path, fileId, commandId, device, dog := false, NoFile, "", "", "", None;
      world := INITIAL;
    }

    method HandleStart(r: Request) returns (failure: Option<string>)
      requires Valid()
      modifies this`world
      ensures Valid() && world == Step(old(world), AskStart(r))
      ensures failure == if privacy then Some("privacy_mode_active") else None
    {
      world := Step(world, AskStart(r));
      failure := if privacy then Some("privacy_mode_active") else None;
    }

    method HandleStop() returns (failure: Option<string>)
      requires Valid()
      modifies this`world
      ensures Valid() && world == Step(old(world), AskStop)
      ensures failure == if privacy then Some("privacy_mode_active")
                         else if !old(world).session.Active() then Some("no_active_continuous_recording") else None
      ensures failure.None? <==> world.stops == old(world).stops + 1
    {
      world := Step(world, AskStop);
      if privacy {
        return Some("privacy_mode_active");
      }
      if path.NoFile? {
        return Some("no_active_continuous_recording");
      }
      failure := None;
    }

    /** The start thread's critical section: any earlier recorder is killed and all five fields are overwritten. */
    method StartThread(r: Request, at: int, stamp: int) returns (storage: FilePath)
      requires Valid() && Enabled(world, BeginStart(r, at, stamp))
      modifies this
      ensures Valid() && world == Step(old(world), BeginStart(r, at, stamp)) && privacy == old(privacy)
      ensures storage == Video(stamp)
    {
      path := Video(stamp);
      fileId := "VID_" + r.commandId;
      commandId := r.commandId;
      device := r.device;
      dog := r.dog;
      storage := path;
      world := Step(world, BeginStart(r, at, stamp));
    }

    method ClearFields()
      modifies this`path, this`fileId, this`commandId, this`device, this`dog
      ensures Session(path, fileId, commandId, device, dog) == CLEARED
    {
      path, fileId, commandId, device, dog := NoFile, "", "", "", None;
    }

    /** The watcher's critical section after its 30 s sleep. */
    method WatcherThread(id: string, at: int) returns (upload: Option<Upload>)
      requires Valid() && Enabled(world, WatcherFires(id, at))
      modifies this
      ensures Valid() && world == Step(old(world), WatcherFires(id, at)) && privacy == old(privacy)
      ensures var taken := TakenBy(old(world), WatcherFires(id, at)); upload == if taken.Some? then Some(UploadOf(taken.value)) else None
    {
      upload := None;
      if path != NoFile && commandId == id {
        upload := Some(Upload(path, fileId, commandId));
        ClearFields();
      }
      world := Step(world, WatcherFires(id, at));
    }

    /** The stop thread's critical section; it returns early when another thread already took the session. */
    method StopThread(at: int) returns (upload: Option<Upload>)
      requires Valid() && Enabled(world, StopRuns(at))
      modifies this
      ensures Valid() && world == Step(old(world), StopRuns(at)) && privacy == old(privacy)
      ensures var taken := TakenBy(old(world), StopRuns(at)); upload == if taken.Some? then Some(UploadOf(taken.value)) else None
    {
      if path == NoFile {
        world := Step(world, StopRuns(at));
        return None;
      }
      upload := Some(Upload(path, fileId, commandId));
      ClearFields();
      world := Step(world, StopRuns(at));
    }
  }
}
