/** Leases on jobs kept in the lock table, used by many owners that can crash or miss a reply. */
module JobLocks {
  import opened Sequences
  import opened Statements

  datatype Row = Row(key: string, lockedAt: int, until: int, owner: string)

  type Table = map<string, Row>

  // ----- The three statements -----

  /** INSERT .. ON CONFLICT DO UPDATE .. WHERE locked_until < NOW() yields a row exactly in this case. */
  predicate Grants(t: Table, job: string, now: int) {
    job !in t || t[job].until < now
  }

  function AcquireRows(t: Table, job: string, key: string, owner: string, ttl: int, now: int): Table {
    if Grants(t, job, now) then t[job := Row(key, now, now + ttl * 1000, owner)] else t
  }

  function ReleaseRows(t: Table, job: string, owner: string): Table {
    if job in t && t[job].owner == owner then t - {job} else t
  }

  function ExtendRows(t: Table, job: string, owner: string, seconds: int, now: int): Table {
    if job in t && t[job].owner == owner then t[job := t[job].(until := now + seconds * 1000)] else t
  }

  // ----- Many owners -----

  /** One grant of a job: from `start` until it is released or expires. */
  datatype Lease = Lease(owner: string, start: int, until: int, released: Option<int>) {
    function End(): int { if released.Some? then released.value else until }
  }

  /**
   * `holders` maps each (owner, job) between a successful acquire and its release to the end of its lease,
   * as the table has it; `grants` is the history of grants per job.
   */
  datatype World = World(now: int, rows: Table, holders: map<(string, string), int>, crashed: set<string>,
                         grants: map<string, seq<Lease>>)

  const INITIAL := World(0, map[], map[], {}, map[])

  datatype Ev =
    | Tick(ms: nat)
    | Acquire(owner: string, job: string, ttl: nat, key: string, fate: Fate)
    | Extend(owner: string, job: string, seconds: nat, sent: bool)
    | Release(owner: string, job: string, sent: bool)
    | Crash(owner: string)

  function GrantsOf(w: World, job: string): seq<Lease> { if job in w.grants then w.grants[job] else [] }

  predicate Owns(t: Table, job: string, owner: string) { job in t && t[job].owner == owner }

  function AmendLast(g: seq<Lease>, until: int, released: Option<int>): seq<Lease> {
    if |g| == 0 then g else g[..|g| - 1] + [Lease(g[|g| - 1].owner, g[|g| - 1].start, until, released)]
  }

  function LastOf(g: seq<Lease>): Lease { if |g| == 0 then Lease("", 0, 0, None) else g[|g| - 1] }

  /** The history of a job with its last grant amended. */
  function Amend(w: World, job: string, until: int, released: Option<int>): map<string, seq<Lease>> {
    w.grants[job := AmendLast(GrantsOf(w, job), until, released)]
  }

  function Step(w: World, e: Ev): World {
    match e
    case Tick(ms) => w.(now := w.now + ms)
    case Acquire(o, job, ttl, key, fate) =>
      if fate.NotSent? || !Grants(w.rows, job, w.now) then w
      else
        var until := w.now + ttl * 1000;
        w.(rows := AcquireRows(w.rows, job, key, o, ttl, w.now),
           grants := w.grants[job := GrantsOf(w, job) + [Lease(o, w.now, until, None)]],
           holders := if fate.Answered? then w.holders[(o, job) := until] else w.holders)
    case Extend(o, job, seconds, sent) =>
      if !sent || !Owns(w.rows, job, o) then w
      else
        var until := w.now + seconds * 1000;
        w.(rows := ExtendRows(w.rows, job, o, seconds, w.now),
           grants := Amend(w, job, until, LastOf(GrantsOf(w, job)).released),
           holders := w.holders[(o, job) := until])
    case Release(o, job, sent) =>
      var w' := w.(holders := w.holders - {(o, job)});
      if !sent || !Owns(w.rows, job, o) then w'
      else w'.(rows := ReleaseRows(w.rows, job, o), grants := Amend(w, job, LastOf(GrantsOf(w, job)).until, Some(w.now)))
    case Crash(o) =>
      w.(crashed := w.crashed + {o}, holders := map k | k in w.holders && k.0 != o :: w.holders[k])
  }

  /** Owners act only while alive, acquire a job only when not already inside its bracket, and extend or release only inside it. */
  predicate Enabled(w: World, e: Ev) {
    match e
    case Tick(_) => true
    case Acquire(o, job, _, _, _) => o !in w.crashed && (o, job) !in w.holders
    case Extend(o, job, _, _) => (o, job) in w.holders
    case Release(o, job, _) => (o, job) in w.holders
    case Crash(_) => true
  }

  function After(run: seq<Ev>): World {
    if |run| == 0 then INITIAL else Step(After(run[..|run| - 1]), run[|run| - 1])
  }

  predicate Possible(run: seq<Ev>) {
    |run| == 0 || (Possible(run[..|run| - 1]) && Enabled(After(run[..|run| - 1]), run[|run| - 1]))
  }

  // ----- The invariant -----

  /** An unexpired holder still has its row, with that very expiry. */
  ghost predicate HoldersBacked(w: World) {
    forall k :: k in w.holders ==>
      (if Owns(w.rows, k.1, k.0) then w.rows[k.1].until == w.holders[k] else w.holders[k] < w.now) && k.0 !in w.crashed
  }

  /** Grants of a job follow one another: each is released, or has expired, before the next begins. */
  ghost predicate Separated(g: seq<Lease>, now: int) {
    && (forall i :: 0 <= i < |g| ==>
          g[i].start <= g[i].End() && g[i].start <= now && (g[i].released.Some? ==> g[i].released.value <= now))
    && (forall i :: 0 < i < |g| ==>
          if g[i - 1].released.Some? then g[i - 1].End() <= g[i].start else g[i - 1].End() < g[i].start)
  }

  /** The row of a job is its latest grant; without a row the latest grant has been released. */
  ghost predicate JobOk(w: World, job: string) { ViewOk(ViewOf(w, job)) }

  ghost predicate Inv(w: World) { HoldersBacked(w) && forall job :: JobOk(w, job) }

  lemma {:induction false} InvHolds(run: seq<Ev>)
    requires Possible(run)
    ensures Inv(After(run))
  {
    if |run| > 0 {
      var w, e := After(run[..|run| - 1]), run[|run| - 1];
      InvHolds(run[..|run| - 1]);
      HoldersKept(w, e);
      forall job ensures JobOk(After(run), job) {
        JobKept(w, e, job);
      }
    }
  }

  lemma HoldersKept(w: World, e: Ev)
    requires HoldersBacked(w) && Enabled(w, e)
    ensures HoldersBacked(Step(w, e))
  {
  }

  lemma SeparatedLater(g: seq<Lease>, now: int, later: int)
    requires Separated(g, now) && now <= later
    ensures Separated(g, later)
  {
  }

  lemma SeparatedGrant(g: seq<Lease>, now: int, l: Lease)
    requires Separated(g, now) && l.start == now <= l.until && l.released.None?
    requires |g| > 0 ==> var last := g[|g| - 1]; last.released.Some? || last.until < now
    ensures Separated(g + [l], now)
  {
  }

  lemma SeparatedAmend(g: seq<Lease>, now: int, l: Lease)
    requires Separated(g, now) && |g| > 0 && l.start == g[|g| - 1].start
    requires if l.released.Some? then l.released.value == now else now <= l.until
    ensures Separated(g[..|g| - 1] + [l], now)
  {
    var g' := g[..|g| - 1] + [l];
    forall i | 0 <= i < |g| - 1 ensures g'[i] == g[i] {
    }
  }

  /** What the table and the history say about one job. */
  datatype View = View(now: int, row: Option<Row>, grants: seq<Lease>)

  function ViewOf(w: World, job: string): View {
    View(w.now, if job in w.rows then Some(w.rows[job]) else None, GrantsOf(w, job))
  }

  /** How a call on the job changes its view. */
  function ViewStep(v: View, e: Ev, job: string): View {
    match e
    case Tick(ms) => v.(now := v.now + ms)
    case Acquire(o, j, ttl, key, fate) =>
      if j != job || fate.NotSent? || (v.row.Some? && v.row.value.until >= v.now) then v
      else
        var until := v.now + ttl * 1000;
        View(v.now, Some(Row(key, v.now, until, o)), v.grants + [Lease(o, v.now, until, None)])
    case Extend(o, j, seconds, sent) =>
      if j != job || !sent || v.row.None? || v.row.value.owner != o then v
      else
        var until := v.now + seconds * 1000;
        View(v.now, Some(v.row.value.(until := until)), AmendLast(v.grants, until, LastOf(v.grants).released))
    case Release(o, j, sent) =>
      if j != job || !sent || v.row.None? || v.row.value.owner != o then v
      else View(v.now, None, AmendLast(v.grants, LastOf(v.grants).until, Some(v.now)))
    case Crash(_) => v
  }

  lemma AcquireView(w: World, e: Ev, job: string)
    requires e.Acquire?
    ensures ViewOf(Step(w, e), job) == ViewStep(ViewOf(w, job), e, job)
  {
  }

  lemma ExtendView(w: World, e: Ev, job: string)
    requires e.Extend?
    ensures ViewOf(Step(w, e), job) == ViewStep(ViewOf(w, job), e, job)
  {
  }

  lemma ReleaseView(w: World, e: Ev, job: string)
    requires e.Release?
    ensures ViewOf(Step(w, e), job) == ViewStep(ViewOf(w, job), e, job)
  {
  }

  lemma ViewFollows(w: World, e: Ev, job: string)
    ensures ViewOf(Step(w, e), job) == ViewStep(ViewOf(w, job), e, job)
  {
    match e
    case Acquire(_, _, _, _, _) => AcquireView(w, e, job);
    case Extend(_, _, _, _) => ExtendView(w, e, job);
    case Release(_, _, _) => ReleaseView(w, e, job);
    case _ =>
  }

  lemma JobKept(w: World, e: Ev, job: string)
    requires JobOk(w, job)
    ensures JobOk(Step(w, e), job)
  {
    ViewFollows(w, e, job);
    ViewKept(ViewOf(w, job), e, job);
  }

  ghost predicate ViewOk(v: View) {
    && Separated(v.grants, v.now)
    && (if v.row.Some? then
          |v.grants| > 0 && LastOf(v.grants) == Lease(v.row.value.owner, v.row.value.lockedAt, v.row.value.until, None)
        else |v.grants| > 0 ==> LastOf(v.grants).released.Some?)
  }

  lemma ViewKept(v: View, e: Ev, job: string)
    requires ViewOk(v)
    ensures ViewOk(ViewStep(v, e, job))
  {
    var v' := ViewStep(v, e, job);
    match e
    case Tick(ms) => SeparatedLater(v.grants, v.now, v.now + ms);
    case Acquire(o, _, ttl, key, _) =>
      if v' != v {
        GrantKept(v, Lease(o, v.now, v.now + ttl * 1000, None), Row(key, v.now, v.now + ttl * 1000, o));
      }
    case Extend(_, _, seconds, _) =>
      if v' != v {
        AmendKept(v, v.now + seconds * 1000, None, Some(v.row.value.(until := v.now + seconds * 1000)));
      }
    case Release(_, _, _) =>
      if v' != v {
        AmendKept(v, LastOf(v.grants).until, Some(v.now), None);
      }
    case Crash(_) =>
  }

  lemma GrantKept(v: View, l: Lease, row: Row)
    requires ViewOk(v) && (v.row.Some? ==> v.row.value.until < v.now)
    requires l == Lease(row.owner, row.lockedAt, row.until, None) && l.start == v.now <= l.until
    ensures ViewOk(View(v.now, Some(row), v.grants + [l]))
  {
    SeparatedGrant(v.grants, v.now, l);
  }

  lemma AmendKept(v: View, until: int, released: Option<int>, row: Option<Row>)
    requires ViewOk(v) && v.row.Some?
    requires if released.Some? then released == Some(v.now) && row == None
             else v.now <= until && row == Some(v.row.value.(until := until))
    ensures ViewOk(View(v.now, row, AmendLast(v.grants, until, released)))
  {
    SeparatedAmend(v.grants, v.now, Lease(LastOf(v.grants).owner, LastOf(v.grants).start, until, released));
  }

  // ----- Guarantees over every run -----

  /** At most one owner of a job is inside its bracket with an unexpired lease, and the table names that owner. */
  lemma MutualExclusion(run: seq<Ev>, job: string, o: string, p: string)
    requires Possible(run)
    requires (o, job) in After(run).holders && After(run).holders[(o, job)] >= After(run).now
    ensures Owns(After(run).rows, job, o) && After(run).rows[job].until == After(run).holders[(o, job)]
    ensures (p, job) in After(run).holders && After(run).holders[(p, job)] >= After(run).now ==> p == o
  {
    InvHolds(run);
    var w := After(run);
    assert w.holders[(o, job)] >= w.now;
  }

  lemma {:induction false} SeparatedPairs(g: seq<Lease>, now: int, i: nat, j: nat)
    requires Separated(g, now) && i < j < |g|
    ensures g[i].End() <= g[j].start && (g[i].released.None? ==> g[i].until < g[j].start)
  {
    if i < j - 1 {
      SeparatedPairs(g, now, i, j - 1);
    }
  }

  /** Any two grants of a job are separated by a release or an expiry of the earlier one. */
  lemma GrantsNeverOverlap(run: seq<Ev>, job: string, i: nat, j: nat)
    requires Possible(run) && i < j < |GrantsOf(After(run), job)|
    ensures var g := GrantsOf(After(run), job);
            g[i].End() <= g[j].start && (g[i].released.None? ==> g[i].until < g[j].start)
  {
    InvHolds(run);
    assert JobOk(After(run), job);
    SeparatedPairs(GrantsOf(After(run), job), After(run).now, i, j);
  }

  /** A late release or extend by an owner whose lock was taken over changes no row and no later grant. */
  lemma LateCallsHarmless(run: seq<Ev>, o: string, p: string, job: string, seconds: nat, sent: bool)
    requires Possible(run) && Owns(After(run).rows, job, p) && p != o
    ensures Step(After(run), Release(o, job, sent)).rows == After(run).rows
    ensures Step(After(run), Extend(o, job, seconds, sent)).rows == After(run).rows
    ensures Step(After(run), Extend(o, job, seconds, sent)).grants == Step(After(run), Release(o, job, sent)).grants == After(run).grants
    ensures (o, job) in After(run).holders ==> After(run).holders[(o, job)] < After(run).now
  {
    InvHolds(run);
  }

  /** The events of one job, and the clock. */
  function OnJob(job: string): Ev -> bool {
    (e: Ev) => match e
      case Tick(_) => true
      case Acquire(_, j, _, _, _) => j == job
      case Extend(_, j, _, _) => j == job
      case Release(_, j, _) => j == job
      case Crash(_) => false
  }

  /** Locks of different jobs do not interfere: a job's row and grants depend only on that job's calls and the clock. */
  lemma {:induction false} JobsDoNotInterfere(run: seq<Ev>, job: string)
    ensures ViewOf(After(run), job) == ViewOf(After(Filter(OnJob(job), run)), job)
  {
    if |run| > 0 {
      var front, e := run[..|run| - 1], run[|run| - 1];
      var kept := Filter(OnJob(job), front);
      JobsDoNotInterfere(front, job);
      ViewFollows(After(front), e, job);
      if OnJob(job)(e) {
        assert (kept + [e])[..|kept|] == kept;
        ViewFollows(After(kept), e, job);
      }
    }
  }

  /** Nobody but a crashed owner has asked for the job. */
  ghost predicate Untouched(more: seq<Ev>, job: string) {
    forall e :: e in more && e.Acquire? ==> e.job != job
  }

  lemma {:induction false} CrashedRowStays(run: seq<Ev>, more: seq<Ev>, job: string, o: string)
    requires Possible(run + more) && o in After(run).crashed && Owns(After(run).rows, job, o) && Untouched(more, job)
    ensures var w, v := After(run), After(run + more);
            job in v.rows && v.rows[job] == w.rows[job] && o in v.crashed && w.now <= v.now
  {
    if |more| == 0 {
      assert run + more == run;
    } else {
      var front, e := more[..|more| - 1], more[|more| - 1];
      assert (run + more)[..|run + more| - 1] == run + front;
      assert e in more;
      CrashedRowStays(run, front, job, o);
      InvHolds(run + front);
      CrashedOwnerIdle(After(run + front), e, job, o);
    }
  }

  /** A crashed owner's row changes only when somebody asks for the job. */
  lemma CrashedOwnerIdle(w: World, e: Ev, job: string, o: string)
    requires HoldersBacked(w) && Enabled(w, e) && o in w.crashed && Owns(w.rows, job, o)
    requires e.Acquire? ==> e.job != job
    ensures var v := Step(w, e); job in v.rows && v.rows[job] == w.rows[job] && o in v.crashed && w.now <= v.now
  {
  }

  /** A crashed owner's job stays locked until its TTL passes and is then granted to the next owner that asks. */
  lemma CrashedJobRecovers(run: seq<Ev>, more: seq<Ev>, job: string, o: string, q: string, ttl: nat, key: string)
    requires Possible(run + more) && o in After(run).crashed && Owns(After(run).rows, job, o) && Untouched(more, job)
    ensures var v := After(run + more);
            var v' := Step(v, Acquire(q, job, ttl, key, Answered));
            if After(run).rows[job].until < v.now then v'.rows[job] == Row(key, v.now, v.now + ttl * 1000, q) && (q, job) in v'.holders
            else v' == v
  {
    CrashedRowStays(run, more, job, o);
  }

  /** The job's row is this one, and its owner is not inside the bracket. */
  predicate Orphaned(w: World, job: string, row: Row) { job in w.rows && w.rows[job] == row && (row.owner, job) !in w.holders }

  lemma OrphanedStep(w: World, e: Ev, job: string, row: Row)
    requires Enabled(w, e) && Orphaned(w, job, row) && (e.Acquire? && e.job == job ==> w.now <= row.until)
    ensures Orphaned(Step(w, e), job, row) && GrantsOf(Step(w, e), job) == GrantsOf(w, job)
  {
  }

  lemma ClockStep(w: World, e: Ev)
    ensures w.now <= Step(w, e).now
  {
  }

  /** Such a row stays, and the job is not granted, until it expires and somebody asks. */
  lemma {:induction false} OrphanedStays(run: seq<Ev>, more: seq<Ev>, job: string, row: Row)
    requires Possible(run + more) && Orphaned(After(run), job, row)
    requires After(run + more).now <= row.until || Untouched(more, job)
    ensures Orphaned(After(run + more), job, row) && GrantsOf(After(run + more), job) == GrantsOf(After(run), job)
  {
    if |more| == 0 {
      assert run + more == run;
    } else {
      var front, e := more[..|more| - 1], more[|more| - 1];
      assert (run + more)[..|run + more| - 1] == run + front;
      assert e in more;
      ClockStep(After(run + front), e);
      OrphanedStays(run, front, job, row);
      OrphanedStep(After(run + front), e, job, row);
    }
  }

  /** An acquire that commits but loses its reply. */
  lemma LostReplyOrphans(run: seq<Ev>, job: string, o: string, ttl: nat, key: string)
    requires Grants(After(run).rows, job, After(run).now) && (o, job) !in After(run).holders
    ensures var w, v := After(run), After(run + [Acquire(o, job, ttl, key, ReplyLost)]);
            Orphaned(v, job, Row(key, w.now, w.now + ttl * 1000, o)) && v.now == w.now
  {
    assert (run + [Acquire(o, job, ttl, key, ReplyLost)])[..|run|] == run;
  }

  lemma {:induction false} PossiblePrefix(run: seq<Ev>, more: seq<Ev>)
    requires Possible(run + more)
    ensures Possible(run)
  {
    if |more| == 0 {
      assert run + more == run;
    } else {
      assert (run + more)[..|run + more| - 1] == run + more[..|more| - 1];
      PossiblePrefix(run, more[..|more| - 1]);
    }
  }

  /** A possible acquire comes from an owner that is not inside the bracket of the job. */
  lemma AcquirerOutside(run: seq<Ev>, e: Ev, more: seq<Ev>)
    requires Possible(run + [e] + more)
    ensures Enabled(After(run), e)
  {
    PossiblePrefix(run + [e], more);
    assert (run + [e])[..|run|] == run;
  }

  /**
   * After a committed acquire whose reply is lost, in every continuation: until the lease expires the row stays, no
   * owner is inside the bracket with a lease, the job is not granted and any acquire is refused; once it has expired,
   * the first owner that asks gets the job.
   */
  lemma LostReplyBlocks(run: seq<Ev>, more: seq<Ev>, job: string, o: string, q: string, ttl: nat, key: string, t: nat, k: string)
    requires var lost := Acquire(o, job, ttl, key, ReplyLost);
             Possible(run + [lost] + more) && Grants(After(run).rows, job, After(run).now)
    ensures var w, now := After(run + [Acquire(o, job, ttl, key, ReplyLost)]), After(run).now;
            var v := After(run + [Acquire(o, job, ttl, key, ReplyLost)] + more);
            var until, again := now + ttl * 1000, Step(v, Acquire(q, job, t, k, Answered));
            && (v.now <= until || Untouched(more, job) ==>
                  job in v.rows && v.rows[job] == Row(key, now, until, o) && (o, job) !in v.holders && GrantsOf(v, job) == GrantsOf(w, job)
                  && (forall p :: (p, job) in v.holders ==> v.holders[(p, job)] < v.now))
            && (v.now <= until ==> again == v)
            && (until < v.now && Untouched(more, job) ==> again.rows[job] == Row(k, v.now, v.now + t * 1000, q) && (q, job) in again.holders)
  {
    var lost, now := Acquire(o, job, ttl, key, ReplyLost), After(run).now;
    var row := Row(key, now, now + ttl * 1000, o);
    AcquirerOutside(run, lost, more);
    LostReplyOrphans(run, job, o, ttl, key);
    InvHolds(run + [lost] + more);
    if After(run + [lost] + more).now <= row.until || Untouched(more, job) {
      OrphanedStays(run + [lost], more, job, row);
    }
  }

  // ----- The lock manager and the executor -----

  class LockTable {
    var rows: Table

    constructor ()
      ensures rows == map[]
    {
      rows := map[];
    }
  }

  class LockManager {
    const table: LockTable
    const owner: string

    constructor (table: LockTable, owner: string)
      ensures this.table == table && this.owner == owner
    {
      this.table, this.owner := table, owner;
    }

    /** True exactly when a row came back, so a lost reply reads as a busy lock. */
    method TryAcquire(job: string, ttl: nat, key: string, now: int, fate: Fate) returns (acquired: bool)
      modifies table
      ensures table.rows == if fate.NotSent? then old(table.rows) else AcquireRows(old(table.rows), job, key, owner, ttl, now)
      ensures acquired <==> fate.Answered? && Grants(old(table.rows), job, now)
    {
      acquired := false;
      if !fate.NotSent? {
        if job !in table.rows || table.rows[job].until < now {
          table.rows := table.rows[job := Row(key, now, now + ttl * 1000, owner)];
          acquired := fate.Answered?;
        }
      }
    }

    method Release(job: string, sent: bool)
      modifies table
      ensures table.rows == if sent then ReleaseRows(old(table.rows), job, owner) else old(table.rows)
    {
      if sent && job in table.rows && table.rows[job].owner == owner {
        table.rows := map j | j in table.rows && j != job :: table.rows[j];
      }
    }

    /** The reported success only says that the statement ran. */
    method Extend(job: string, seconds: nat, now: int, sent: bool) returns (ok: bool)
      modifies table
      ensures table.rows == if sent then ExtendRows(old(table.rows), job, owner, seconds, now) else old(table.rows)
      ensures ok <==> sent
    {
      ok := sent;
      if sent && job in table.rows && table.rows[job].owner == owner {
        table.rows := table.rows[job := table.rows[job].(until := now + seconds * 1000)];
      }
    }
  }

  /** A sent extend always reports success, but the caller ends up with the extended lease only if it still owned the row. */
  lemma ExtendEffectiveIff(t: Table, job: string, owner: string, seconds: nat, now: int)
    ensures var t' := ExtendRows(t, job, owner, seconds, now);
            && (Owns(t', job, owner) && t'[job].until == now + seconds * 1000 <==> Owns(t, job, owner))
            && (!Owns(t, job, owner) ==> t' == t)
  {
  }

  datatype Outcome = Returned(success: bool, items: nat, error: string) | Threw(what: string) | NoHandler
  datatype JobResult = JobResult(success: bool, items: nat, error: string)
  datatype Execution = Execution(job: string, status: string, items: nat, error: string, owner: string)

  function ResultOf(h: Outcome): JobResult {
    match h
    case Returned(success, items, error) => JobResult(success, items, error)
    case Threw(what) => JobResult(false, 0, "Exception: " + what)
    case NoHandler => JobResult(false, 0, "No handler registered")
  }

  /** The entry of a job's outcome in the execution log. */
  function Entry(job: string, h: Outcome, owner: string): Execution {
    var r := ResultOf(h);
    Execution(job, if r.success then "completed" else "failed", r.items, r.error, owner)
  }

  /** A job is logged as completed if and only if its handler returned success; an entry says no more than the outcome. */
  lemma CompletedIff(job: string, h: Outcome, owner: string)
    ensures var e := Entry(job, h, owner);
            && (e.status == "completed" <==> h.Returned? && h.success) && (e.status == "failed" <==> !(h.Returned? && h.success))
            && (h.Threw? ==> e.items == 0 && e.error == "Exception: " + h.what)
            && (h.NoHandler? ==> e.items == 0 && e.error == "No handler registered")
            && (h.Returned? ==> e.items == h.items && e.error == h.error)
  {
    assert "completed" != "failed";
  }

  const LOCK_MARGIN_S := 30

  class JobExecutor {
    const locks: LockManager
    var executions: seq<Execution>

    constructor (locks: LockManager)
      ensures this.locks == locks && executions == []
    {
      this.locks, executions := locks, [];
    }

    /** A log write that fails is swallowed. */
    method Log(entry: Execution, written: bool)
      modifies this`executions
      ensures executions == old(executions) + (if written then [entry] else [])
    {
      if written {
        executions := executions + [entry];
      }
    }

    /** The first half of execute: take the lock, or log the run as skipped. */
    method Begin(job: string, timeout: nat, key: string, now: int, fate: Fate, logged: bool) returns (busy: Option<JobResult>)
      modifies this`executions, locks.table
      ensures var granted := Grants(old(locks.table.rows), job, now);
              && (busy.None? <==> fate.Answered? && granted)
              && (busy.Some? ==> busy.value == JobResult(false, 0, "Lock busy"))
              && locks.table.rows == (if fate.NotSent? then old(locks.table.rows)
                   else AcquireRows(old(locks.table.rows), job, key, locks.owner, timeout + LOCK_MARGIN_S, now))
              && executions == old(executions)
                   + (if busy.Some? && logged then [Execution(job, "skipped", 0, "Lock busy", locks.owner)] else [])
    {
      var acquired := locks.TryAcquire(job, timeout + LOCK_MARGIN_S, key, now, fate);
      if acquired {
        return None;
      }
      Log(Execution(job, "skipped", 0, "Lock busy", locks.owner), logged);
      busy := Some(JobResult(false, 0, "Lock busy"));
    }

    /** The second half, after the handler: log the outcome, then release whatever the handler did. */
    method Finish(job: string, handler: Outcome, logged: bool, sent: bool) returns (r: JobResult)
      modifies this`executions, locks.table
      ensures r == ResultOf(handler)
      ensures r.success <==> handler.Returned? && handler.success
      ensures r.items == (if handler.Returned? then handler.items else 0)
      ensures r.error == (if handler.Returned? then handler.error
                          else if handler.Threw? then "Exception: " + handler.what else "No handler registered")
      ensures executions == old(executions)
                + (if logged then [Entry(job, handler, locks.owner)] else [])
      ensures locks.table.rows == if sent then ReleaseRows(old(locks.table.rows), job, locks.owner) else old(locks.table.rows)
      ensures sent ==> !Owns(locks.table.rows, job, locks.owner)
    {
      match handler {
        case Returned(success, items, error) => r := JobResult(success, items, error);
        case Threw(what) => r := JobResult(false, 0, "Exception: " + what);
        case NoHandler => r := JobResult(false, 0, "No handler registered");
      }
      Log(Execution(job, if r.success then "completed" else "failed", r.items, r.error, locks.owner), logged);
      locks.Release(job, sent);
    }
  }
}
