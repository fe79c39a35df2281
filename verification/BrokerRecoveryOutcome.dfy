/** What a recovery pass leaves behind when no other process comes between its calls. */
module BrokerRecoveryOutcome {
  import opened Options
  import opened TaskRows
  import opened TaskTracking
  import opened BrokerRecoveryPass
  import opened RunRollbacks
  import DispatchReconciler
  import RunStorage

  /** The listing is a snapshot of active rows, each once. */
  ghost predicate Lists(rows: map<nat, TaskRow>, listing: seq<Listed>) {
    && (forall k :: 0 <= k < |listing| ==>
          listing[k].id in rows && rows[listing[k].id] == listing[k].row && Active(listing[k].row.status))
    && (forall i, j :: 0 <= i < j < |listing| ==> listing[i].id != listing[j].id)
  }

  /** No active row is missing. */
  ghost predicate ListsAll(rows: map<nat, TaskRow>, listing: seq<Listed>) {
    && Lists(rows, listing)
    && forall id :: id in rows && Active(rows[id].status) ==> exists k :: 0 <= k < |listing| && listing[k].id == id
  }

  predicate Obsolete(r: TaskRow, generations: set<Epoch>) {
    Active(r.status) && r.generation.Some? && r.generation.value in generations
  }

  /** How a lost row ends: compensated, or owing its compensation. */
  function Recovered(r: TaskRow, x: Weather): TaskRow {
    r.(status := Failed, finishedAt := Some(x.now), token := None,
       code := Some(if Records(x) then BrokerLost else BrokerCleanup),
       message := Some(Other(if Records(x) then "Broker storage was replaced; use manual retry"
                             else "Broker replacement recovery requires compensation")))
  }

  // ---- The closed form ----

  /** The row of the `k`-th listed task as the pass leaves it. */
  function LeftRow(c: Pass, k: nat): TaskRow
    requires k < |c.listing|
  {
    if c.Lost(k) then Recovered(c.listing[k].row, c.task(k)) else c.listing[k].row
  }

  function TurnOf(c: Pass, k: nat): Turn
    requires k < |c.listing|
  {
    Turn(c.listing[k].id, c.listing[k].row, c.Lost(k), c.Lost(k) && c.task(k).rollback != DispatchReconciler.RaisesBefore)
  }

  function TurnsOf(c: Pass): seq<Turn> {
    seq(|c.listing|, k requires 0 <= k < |c.listing| => TurnOf(c, k))
  }

  /** The first `n` listed rows are left as they should be, and every other row is untouched. */
  ghost predicate RowsRecovered(rows: map<nat, TaskRow>, after: map<nat, TaskRow>, c: Pass, n: nat)
    requires n <= |c.listing|
  {
    && (forall k :: 0 <= k < n ==> c.listing[k].id in after && after[c.listing[k].id] == LeftRow(c, k))
    && (forall k :: n <= k < |c.listing| ==> c.listing[k].id in after && after[c.listing[k].id] == c.listing[k].row)
    && (forall id :: id in rows && (forall k :: 0 <= k < |c.listing| ==> c.listing[k].id != id) ==>
          id in after && after[id] == rows[id])
  }

  function CancelOf(c: Pass, k: nat): seq<UsageCall>
    requires k < |c.listing|
  {
    if c.Lost(k) && c.task(k).rollback.Returns? && !c.task(k).cancel.RaisesBefore?
    then [Cancel(c.listing[k].row.celeryId)] else []
  }

  /** One cancel for every lost task whose rollback answered and whose cancel was made. */
  function CancelsTo(c: Pass, n: nat): seq<UsageCall>
    requires n <= |c.listing|
  {
    if n == 0 then [] else CancelsTo(c, n - 1) + CancelOf(c, n - 1)
  }

  /** How many of the first `n` listed tasks were lost. */
  function LostTo(c: Pass, n: nat): nat
    requires n <= |c.listing|
  {
    if n == 0 then 0 else LostTo(c, n - 1) + if c.Lost(n - 1) then 1 else 0
  }

  /** How many of them were compensated without a call raising. */
  function CompletedTo(c: Pass, n: nat): nat
    requires n <= |c.listing|
  {
    if n == 0 then 0 else CompletedTo(c, n - 1) + if c.Lost(n - 1) && c.task(n - 1).Completes() then 1 else 0
  }

  ghost predicate TablesRecovered(w: World, v: World, c: Pass, n: nat)
    requires n <= |c.listing|
  {
    && v.store == w.store.(rows := v.store.rows) && RowsRecovered(w.store.rows, v.store.rows, c, n)
    && RowsStand(w.store.rows, v.store.rows, TurnsOf(c), n)
    && RunsFailed(w, v.runs, TurnsOf(c), n)
    && v.usage == w.usage + CancelsTo(c, n)
  }

  /** What the first `n` listed tasks leave. */
  ghost predicate Undisturbed(w: World, p: Progress, c: Pass, n: nat)
    requires n <= |c.listing|
  {
    && TablesRecovered(w, p.world, c, n)
    && p.failed == CompletedTo(c, n) && p.failed + p.failures == LostTo(c, n)
  }

  // ---- Rows ----

  /** A task of an active row, with no one in between. */
  lemma CalmTask(w: World, t: Listed, x: Weather)
    requires Indexed(w.store) && t.id in w.store.rows && x.Calm() && w.store.rows[t.id] == t.row && Active(t.row.status)
    ensures Marks(w, t)
    ensures var after := Compensated(w, t, x);
            && after.store == w.store.(rows := w.store.rows[t.id := Recovered(t.row, x)])
            && after.usage == w.usage + (if x.rollback.Returns? && !x.cancel.RaisesBefore?
                                         then [Cancel(t.row.celeryId)] else [])
            && after.runs == Rolled(w, t, x).runs
  {
    MarkingKeepsOwner(w, t, x);
  }

  /** Marking the row itself does not decide who owns its run. */
  lemma MarkingKeepsOwner(w: World, t: Listed, x: Weather)
    requires Indexed(w.store) && t.id in w.store.rows && w.store.rows[t.id] == t.row && Active(t.row.status)
    ensures Rolled(Marked(w, t, x), t, x) == Marked(w, t, x).(runs := Rolled(w, t, x).runs)
  {
    forall other | other in w.store.rows
      ensures Newer(Marked(w, t, x).store, t.id, other) == Newer(w.store, t.id, other)
    {
    }
  }

  lemma RecoveredIsSettled(r: TaskRow, x: Weather)
    requires Records(x)
    ensures LeftLost(Recovered(r, x))
  {
  }

  lemma RecoveredOwes(r: TaskRow, x: Weather)
    requires !Records(x)
    ensures LeftOwing(Recovered(r, x))
  {
  }

  lemma RecoveredOwesOrIsSettled(r: TaskRow, x: Weather)
    ensures if Records(x) then LeftLost(Recovered(r, x)) else LeftOwing(Recovered(r, x))
  {
    if Records(x) {
      RecoveredIsSettled(r, x);
    } else {
      RecoveredOwes(r, x);
    }
  }

  /**
   How a task ends that nobody else touches: it owes its compensation, so that
   a reconciler can make up for what failed, exactly unless rollback and cancel
   answered and the record was made; then it is settled.
   */
  lemma CompensationOwesOrSettles(w: World, t: Listed, x: Weather)
    requires Indexed(w.store) && t.id in w.store.rows && x.Calm() && w.store.rows[t.id] == t.row && Active(t.row.status)
    ensures Marks(w, t)
    ensures var rows := Compensated(w, t, x).store.rows;
            t.id in rows && if Records(x) then LeftLost(rows[t.id]) else LeftOwing(rows[t.id])
  {
    CalmTask(w, t, x);
    RecoveredOwesOrIsSettled(t.row, x);
  }

  lemma ListsAreTurns(rows: map<nat, TaskRow>, c: Pass)
    requires Lists(rows, c.listing)
    ensures Turns(rows, TurnsOf(c))
  {
  }

  lemma LeftRowStands(c: Pass, n: nat)
    requires n < |c.listing| && Active(c.listing[n].row.status)
    ensures var r, left := c.listing[n].row, LeftRow(c, n);
            && left.celeryId == r.celeryId && left.runId == r.runId && left.taskType == r.taskType
            && (Stands(left) <==> !c.Lost(n))
  {
  }

  lemma RowsRecoveredMore(rows: map<nat, TaskRow>, after: map<nat, TaskRow>, c: Pass, n: nat)
    requires Turns(rows, TurnsOf(c)) && n < |c.listing| && RowsRecovered(rows, after, c, n)
    ensures RowsRecovered(rows, after[c.listing[n].id := LeftRow(c, n)], c, n + 1)
  {
    forall k | 0 <= k < |c.listing| && k != n
      ensures c.listing[k].id != c.listing[n].id
    {
      assert TurnsOf(c)[k].id == c.listing[k].id && TurnsOf(c)[n].id == c.listing[n].id;
    }
  }

  lemma StandMore(rows: map<nat, TaskRow>, before: map<nat, TaskRow>, after: map<nat, TaskRow>, c: Pass, n: nat, left: TaskRow)
    requires Turns(rows, TurnsOf(c)) && n < |c.listing| && c.listing[n].id in before
    requires RowsStand(rows, before, TurnsOf(c), n) && after == before[c.listing[n].id := left]
    requires left.celeryId == c.listing[n].row.celeryId && left.runId == c.listing[n].row.runId
    requires left.taskType == c.listing[n].row.taskType
    requires Stands(left) <==> !c.Lost(n) && Stands(c.listing[n].row)
    ensures RowsStand(rows, after, TurnsOf(c), n + 1)
  {
    RowsStandMore(rows, before, after, TurnsOf(c), n);
  }

  lemma StandingKeepsIndexed(s: Store, after: map<nat, TaskRow>, c: Pass, n: nat)
    requires Indexed(s) && n <= |c.listing| && RowsStand(s.rows, after, TurnsOf(c), n)
    ensures Indexed(s.(rows := after))
  {
  }

  // ---- The whole pass ----

  /** What handling the `n`-th task changes. */
  ghost predicate Follows(p: Progress, q: Progress, c: Pass, n: nat)
    requires n < |c.listing| && c.listing[n].id in p.world.store.rows
  {
    && q.world.store == p.world.store.(rows := p.world.store.rows[c.listing[n].id := LeftRow(c, n)])
    && q.world.usage == p.world.usage + CancelOf(c, n)
    && q.world.runs == RunsAfter(p.world, TurnOf(c, n))
    && q.failed == p.failed + (if c.Lost(n) && c.task(n).Completes() then 1 else 0)
    && q.failed + q.failures == p.failed + p.failures + (if c.Lost(n) then 1 else 0)
  }

  lemma NextFollows(p: Progress, c: Pass, n: nat)
    requires n < |c.listing| && c.task(n).Calm() && Indexed(p.world.store)
    requires c.listing[n].id in p.world.store.rows && p.world.store.rows[c.listing[n].id] == c.listing[n].row
    requires Active(c.listing[n].row.status)
    ensures Follows(p, RecoverNext(p, c, n), c, n)
  {
    if c.Lost(n) {
      CalmTask(p.world, c.listing[n], c.task(n));
    } else {
      assert p.world.store.rows[c.listing[n].id := c.listing[n].row] == p.world.store.rows;
    }
  }

  lemma RunsRecoveredMore(w: World, v: World, c: Pass, n: nat)
    requires Indexed(w.store) && Turns(w.store.rows, TurnsOf(c)) && n < |c.listing| && TablesRecovered(w, v, c, n)
    ensures RunsFailed(w, RunsAfter(v, TurnOf(c, n)), TurnsOf(c), n + 1)
  {
    RunsFailedMore(w, v, TurnsOf(c), n);
  }

  lemma TablesMore(w: World, v: World, u: World, c: Pass, n: nat)
    requires Indexed(w.store) && Turns(w.store.rows, TurnsOf(c)) && n < |c.listing| && TablesRecovered(w, v, c, n)
    requires Active(c.listing[n].row.status)
    requires c.listing[n].id in v.store.rows
    requires u.store == v.store.(rows := v.store.rows[c.listing[n].id := LeftRow(c, n)])
    requires u.usage == w.usage + CancelsTo(c, n + 1) && RunsFailed(w, u.runs, TurnsOf(c), n + 1)
    ensures TablesRecovered(w, u, c, n + 1)
  {
    RowsRecoveredMore(w.store.rows, v.store.rows, c, n);
    LeftRowStands(c, n);
    StandMore(w.store.rows, v.store.rows, u.store.rows, c, n, LeftRow(c, n));
  }

  lemma CancelsMore(c: Pass, n: nat, before: seq<UsageCall>)
    requires n < |c.listing|
    ensures before + CancelsTo(c, n) + CancelOf(c, n) == before + CancelsTo(c, n + 1)
  {
  }

  lemma TablesFollow(w: World, v: World, u: World, c: Pass, n: nat)
    requires Indexed(w.store) && Turns(w.store.rows, TurnsOf(c)) && n < |c.listing| && TablesRecovered(w, v, c, n)
    requires Active(c.listing[n].row.status)
    requires c.listing[n].id in v.store.rows
    requires u.store == v.store.(rows := v.store.rows[c.listing[n].id := LeftRow(c, n)])
    requires u.usage == v.usage + CancelOf(c, n) && u.runs == RunsAfter(v, TurnOf(c, n))
    ensures TablesRecovered(w, u, c, n + 1)
  {
    RunsRecoveredMore(w, v, c, n);
    CancelsMore(c, n, w.usage);
    TablesMore(w, v, u, c, n);
  }

  lemma StepFollows(w: World, p: Progress, q: Progress, c: Pass, n: nat)
    requires Indexed(w.store) && Turns(w.store.rows, TurnsOf(c)) && n < |c.listing| && Undisturbed(w, p, c, n)
    requires Active(c.listing[n].row.status)
    requires c.listing[n].id in p.world.store.rows && Follows(p, q, c, n)
    ensures Undisturbed(w, q, c, n + 1)
  {
    TablesFollow(w, p.world, q.world, c, n);
  }

  lemma UndisturbedStep(w: World, p: Progress, q: Progress, c: Pass, n: nat)
    requires Indexed(w.store) && Lists(w.store.rows, c.listing) && Turns(w.store.rows, TurnsOf(c))
    requires n < |c.listing| && c.task(n).Calm()
    requires Undisturbed(w, p, c, n) && q == RecoverNext(p, c, n)
    ensures Undisturbed(w, q, c, n + 1)
  {
    StandingKeepsIndexed(w.store, p.world.store.rows, c, n);
    NextFollows(p, c, n);
    StepFollows(w, p, q, c, n);
  }

  lemma NothingYet(w: World, c: Pass, p: Progress)
    requires Lists(w.store.rows, c.listing) && Turns(w.store.rows, TurnsOf(c)) && p == Progress(w, 0, 0)
    ensures Undisturbed(w, p, c, 0)
  {
  }

  /** Every stage of a pass that nobody disturbs is told exactly. */
  lemma UndisturbedStages(w: World, c: Pass, n: nat, ps: seq<Progress>)
    requires Indexed(w.store) && Lists(w.store.rows, c.listing) && Turns(w.store.rows, TurnsOf(c))
    requires n <= |c.listing| && forall k :: c.task(k).Calm()
    requires Stages(w, c, n, ps)
    ensures Undisturbed(w, ps[n], c, n)
  {
    NothingYet(w, c, ps[0]);
    for k := 0 to n
      invariant Undisturbed(w, ps[k], c, k)
    {
      UndisturbedStep(w, ps[k], ps[k + 1], c, k);
    }
  }

  /** The rows that a whole pass fails are those that were lost. */
  lemma FailedIsObsolete(rows: map<nat, TaskRow>, c: Pass, id: nat)
    requires ListsAll(rows, c.listing) && id in rows
    ensures FailedBy(TurnsOf(c), |c.listing|, id) <==> Obsolete(rows[id], c.generations)
  {
    if Obsolete(rows[id], c.generations) {
      var k :| 0 <= k < |c.listing| && c.listing[k].id == id;
      assert TurnsOf(c)[k].fails;
    }
  }

  lemma NothingLostIsLeft(rows: map<nat, TaskRow>, after: map<nat, TaskRow>, c: Pass, id: nat)
    requires ListsAll(rows, c.listing) && RowsRecovered(rows, after, c, |c.listing|) && id in rows
    ensures id in after && !Obsolete(after[id], c.generations)
  {
    if k :| 0 <= k < |c.listing| && c.listing[k].id == id {
      assert after[id] == LeftRow(c, k);
    }
  }

  /**
   What a pass with evidence leaves: every row, every run, the ledger and both
   counters are told exactly, no lost row is active any more and the backlog is
   empty.
   */
  lemma UndisturbedRecovery(w: World, previous: Option<Epoch>, snapshot: Snapshot, e: Environment)
    requires Indexed(w.store) && e.Calm() && snapshot.EvidenceComplete() && ListsAll(w.store.rows, e.query(w))
    ensures var c := Pass(e.query(w), w.store.obsolete, e.task);
            var (after, result) := Recovery(w, previous, snapshot, e);
            && after.store == w.store.(rows := after.store.rows, obsolete := {})
            && RowsRecovered(w.store.rows, after.store.rows, c, |c.listing|)
            && RunsFailed(w, after.runs, TurnsOf(c), |c.listing|)
            && after.usage == w.usage + CancelsTo(c, |c.listing|)
            && !result.deferred && result.failed == CompletedTo(c, |c.listing|)
            && result.failed + result.failures == LostTo(c, |c.listing|)
            && forall id :: id in after.store.rows ==> !Obsolete(after.store.rows[id], c.generations)
  {
    var c := Pass(e.query(w), w.store.obsolete, e.task);
    ListsAreTurns(w.store.rows, c);
    var ps := StagesOf(w, c, |c.listing|);
    StagesFollow(w, c, |c.listing|);
    UndisturbedStages(w, c, |c.listing|, ps);
    var p := RecoveredTo(w, c, |c.listing|);
    forall id | id in p.world.store.rows
      ensures !Obsolete(p.world.store.rows[id], c.generations)
    {
      NothingLostIsLeft(w.store.rows, p.world.store.rows, c, id);
    }
  }

  /**
   Every lost task of the listing ends owing its compensation, or settled if its
   rollback and cancel answered and its record was made; every other row is
   untouched.
   */
  lemma LostTasksOweOrAreSettled(w: World, previous: Option<Epoch>, snapshot: Snapshot, e: Environment, k: nat)
    requires Indexed(w.store) && e.Calm() && snapshot.EvidenceComplete() && ListsAll(w.store.rows, e.query(w))
    requires k < |e.query(w)|
    ensures var t, after := e.query(w)[k], Recovery(w, previous, snapshot, e).0.store.rows;
            && t.id in after
            && if !Obsolete(t.row, w.store.obsolete) then after[t.id] == t.row
               else if Records(e.task(k)) then LeftLost(after[t.id]) else LeftOwing(after[t.id])
  {
    var c := Pass(e.query(w), w.store.obsolete, e.task);
    UndisturbedRecovery(w, previous, snapshot, e);
    RecoveredOwesOrIsSettled(c.listing[k].row, e.task(k));
  }

  /**
   Undisturbed, the epoch is persisted exactly for a consistent snapshot that
   need not wait; then it is the observed one, the epoch it replaces joins the
   backlog with the active generations, and the first epoch ever observed is
   given to the active rows that have none.
   */
  lemma UndisturbedSnapshot(w: World, fallback: Option<Epoch>, snapshot: Snapshot, e: Environment)
    requires Indexed(w.store) && e.Calm()
    ensures var durable := if w.store.observed.Some? then w.store.observed else fallback;
            && durable == Durable(w, fallback)
            && (Persists(w, fallback, snapshot, e) <==>
                  && (snapshot.confirmed.None? || snapshot.confirmed == Some(snapshot.epoch))
                  && (durable.None? || durable == Some(snapshot.epoch)
                      || (snapshot.queueLength == 0 && snapshot.workersOnline > 0)))
    ensures Persists(w, fallback, snapshot, e) ==>
              var s := Announced(w, fallback, snapshot, e).store;
              && Indexed(s) && s.observed == Some(snapshot.epoch) && s.rows.Keys == w.store.rows.Keys
              && (forall id :: id in s.rows ==>
                    s.rows[id] == if w.store.observed.Some? then w.store.rows[id]
                                  else Backfill(w.store.rows[id], if fallback.Some? then fallback.value else snapshot.epoch))
              && s.obsolete == w.store.obsolete + (
                   if Durable(w, fallback).Some? && Durable(w, fallback).value != snapshot.epoch
                   then snapshot.active + {Durable(w, fallback).value} - {snapshot.epoch} else {})
  {
  }

  /** Only empty queues and a worker that answers let a pass recover anything. */
  lemma NoEvidenceNoRecovery(w: World, previous: Option<Epoch>, snapshot: Snapshot, e: Environment)
    requires snapshot.queueLength != 0 || snapshot.workersOnline <= 0
    ensures Recovery(w, previous, snapshot, e)
            == (w, Result(0, previous.Some? && previous != Some(snapshot.epoch), 0))
  {
  }

  /** A snapshot over which the broker changed leaves everything as it was. */
  lemma InconsistentChangesNothing(w: World, fallback: Option<Epoch>, snapshot: Snapshot, e: Environment)
    requires snapshot.confirmed.Some? && snapshot.confirmed != Some(snapshot.epoch)
    ensures Snapshotted(w, fallback, snapshot, e) == (w, Result(0, true, 0), false)
  {
  }

  // ---- Which runs fail ----

  /** A lost attempt with no newer one that still stands: every newer one is lost as well. */
  ghost predicate LostForGood(s: Store, generations: set<Epoch>, run: int, id: nat) {
    && id in s.rows && Obsolete(s.rows[id], generations)
    && s.rows[id].runId == run && s.rows[id].taskType in RunLevelTypes
    && forall other :: other in s.rows && Newer(s, id, other) ==> Obsolete(s.rows[other], generations)
  }

  function NewerThan(s: Store, id: nat): set<nat>
    requires id in s.rows
  {
    set other | other in s.rows && Newer(s, id, other)
  }

  lemma {:induction false} SubsetSize(a: set<nat>, b: set<nat>)
    requires a <= b
    ensures |a| <= |b|
    decreases a
  {
    if a != {} {
      var x :| x in a;
      SubsetSize(a - {x}, b - {x});
    }
  }

  lemma NewerShrinks(s: Store, id: nat, other: nat)
    requires id in s.rows && other in NewerThan(s, id)
    ensures NewerThan(s, other) <= NewerThan(s, id) && |NewerThan(s, other)| < |NewerThan(s, id)|
  {
    SubsetSize(NewerThan(s, other), NewerThan(s, id) - {other});
  }

  /** The newest of the attempts lost for good has nothing newer at all. */
  lemma {:induction false} NewestLost(s: Store, generations: set<Epoch>, run: int, id: nat) returns (newest: nat)
    requires LostForGood(s, generations, run, id)
    ensures LostForGood(s, generations, run, newest) && NewerThan(s, newest) == {}
    decreases |NewerThan(s, id)|
  {
    newest := id;
    if NewerThan(s, id) != {} {
      var other :| other in NewerThan(s, id);
      NewerShrinks(s, id, other);
      newest := NewestLost(s, generations, run, other);
    }
  }

  lemma FailingIsLostForGood(s: Store, c: Pass, k: nat, run: int)
    requires ListsAll(s.rows, c.listing) && k < |c.listing| && FailsAt(s, TurnsOf(c), k, run)
    ensures LostForGood(s, c.generations, run, c.listing[k].id)
  {
    forall other | other in s.rows && Newer(s, c.listing[k].id, other)
      ensures Obsolete(s.rows[other], c.generations)
    {
      assert FailedBy(TurnsOf(c), k, other);
      FailedIsObsolete(s.rows, c, other);
    }
  }

  lemma NewestFails(s: Store, c: Pass, run: int, id: nat) returns (k: nat)
    requires ListsAll(s.rows, c.listing) && LostForGood(s, c.generations, run, id) && NewerThan(s, id) == {}
    requires forall k :: 0 <= k < |c.listing| ==> !c.task(k).rollback.RaisesBefore?
    ensures k < |c.listing| && FailsAt(s, TurnsOf(c), k, run)
  {
    k :| 0 <= k < |c.listing| && c.listing[k].id == id;
    forall other | other in s.rows
      ensures !Newer(s, id, other)
    {
      assert other !in NewerThan(s, id);
    }
  }

  /**
   When every rollback is made, the runs that fail do not depend on the order
   of the listing: those that still work and have a lost attempt which no newer
   row of the same run and type shields, by being successful or by being active
   under a generation that is not lost.
   */
  lemma FailedRunsExactly(w: World, c: Pass, run: int)
    requires ListsAll(w.store.rows, c.listing)
    requires forall k :: 0 <= k < |c.listing| ==> !c.task(k).rollback.RaisesBefore?
    ensures Fails(w, TurnsOf(c), |c.listing|, run)
            <==> Working(w.runs, run) && exists id :: LostForGood(w.store, c.generations, run, id)
  {
    if k :| 0 <= k < |c.listing| && FailsAt(w.store, TurnsOf(c), k, run) {
      FailingIsLostForGood(w.store, c, k, run);
    }
    if id :| LostForGood(w.store, c.generations, run, id) {
      var newest := NewestLost(w.store, c.generations, run, id);
      var k := NewestFails(w.store, c, run, newest);
    }
  }

  /** When a rollback fails, the order of the listing decides: an attempt listed before the newer one is shielded by it. */
  lemma OrderDecidesWhenARollbackFails() returns (w: World, c: Pass, d: Pass)
    ensures |c.listing| == 2 && d == Pass([c.listing[1], c.listing[0]], c.generations, d.task)
    ensures d.task(0) == c.task(1) && d.task(1) == c.task(0)
    ensures ListsAll(w.store.rows, c.listing) && Lists(w.store.rows, d.listing)
    ensures !Fails(w, TurnsOf(c), 2, 1) && Fails(w, TurnsOf(d), 2, 1)
  {
    var row := TaskRow("a", 1, "render_video", Queued, None, None, None, 1, None, None, 0, Some(0));
    var older, newer := DispatchReconciler.Listed(1, row), DispatchReconciler.Listed(2, row.(celeryId := "b"));
    var s := Store(map[1 := older.row, 2 := newer.row], map["a" := 1, "b" := 2], 3, Some(1), {0});
    w := World(s, map[1 := RunStorage.Run("RENDER_GENERATING", "running", None, 1, 0)], []);
    var ok := DispatchReconciler.Returns;
    var x := Weather(ok, ok, ok, 0, [], [], [], []);
    var lost := x.(rollback := DispatchReconciler.RaisesBefore);
    c := Pass([older, newer], {0}, k => if k == 0 then x else lost);
    d := Pass([newer, older], {0}, k => if k == 0 then lost else x);
    assert Newer(s, 1, 2) && !FailedBy(TurnsOf(c), 0, 2);
    assert TurnsOf(d)[0].fails && FailedBy(TurnsOf(d), 1, 2);
    assert FailsAt(s, TurnsOf(d), 1, 1);
  }
}
