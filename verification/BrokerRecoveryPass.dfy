/**
 The recovery calls themselves, on the in-memory storage.  Other processes may
 take any steps between any two of their storage calls, and the rollback, the
 cancel and the final record may each fail for every task.
 */
module BrokerRecoveryPass {
  import opened Options
  import opened TaskRows
  import opened TaskTracking
  import opened TaskStorage
  import BrokerRecovery
  import DispatchReconciler
  import RunStorage

  type Listed = DispatchReconciler.Listed
  type Fate = DispatchReconciler.Fate

  /** How the listing query answers in each world. */
  type Query = World -> seq<Listed>

  datatype Snapshot = Snapshot(epoch: Epoch, queueLength: int, workersOnline: int,
                               confirmed: Option<Epoch>, active: set<Epoch>)
  {
    /** The queues are empty and a worker answers. */
    predicate EvidenceComplete() {
      queueLength == 0 && workersOnline > 0
    }

    /** The broker answered under the epoch the snapshot began with. */
    predicate Consistent() {
      confirmed.Some? ==> confirmed.value == epoch
    }

    /** A replaced broker whose old queue may still be there. */
    predicate MustWait(durable: Option<Epoch>) {
      durable.Some? && durable.value != epoch && !EvidenceComplete()
    }
  }

  datatype Result = Result(failed: nat, deferred: bool, failures: nat)

  datatype Outcome = Skipped | Completed | Incomplete

  /** What the environment does while one task is recovered. */
  datatype Weather = Weather(rollback: Fate, cancel: Fate, record: Fate, now: int,
                             afterMark: seq<Step>, between: seq<Step>, beforeRecord: seq<Step>, after: seq<Step>)
  {
    /** Rollback and cancel went through, as far as the pass can tell. */
    predicate Compensates() {
      rollback.Returns? && cancel.Returns?
    }

    predicate Completes() {
      Compensates() && record.Returns?
    }

    /** No other process comes between. */
    predicate Calm() {
      afterMark == [] && between == [] && beforeRecord == [] && after == []
    }
  }

  /** What the environment does during a pass, and what the listing query answers. */
  datatype Environment = Environment(beforeFill: seq<Step>, beforePersist: seq<Step>, beforeBacklog: seq<Step>,
                                     beforeListing: seq<Step>, query: Query, task: nat -> Weather)
  {
    ghost predicate Calm() {
      && beforeFill == [] && beforePersist == [] && beforeBacklog == [] && beforeListing == []
      && forall k :: task(k).Calm()
    }
  }

  // ---- One task ----

  function FinalWrite(now: int): Write {
    Write(Failed, None, Some(now), None, Some(BrokerLost), Some(Other("Broker storage was replaced; use manual retry")))
  }

  predicate Marks(w: World, t: Listed) {
    Known(w.store, t.row.celeryId) && Active(RowOf(w.store, t.row.celeryId).status)
  }

  function Marked(w: World, t: Listed, x: Weather): World {
    w.(store := EditByTask(w.store, t.row.celeryId, SetIfActive(BrokerRecovery.LostWrite(x.now)), 0))
  }

  function Rolled(w: World, t: Listed, x: Weather): World {
    if x.rollback.RaisesBefore? then w
    else RolledBack(w, t.row.celeryId, RunLevelTypes, FailCas(t.row.runId, RollbackStages, ClosedRun))
  }

  function Cancelled(w: World, t: Listed, x: Weather): World {
    if x.cancel.RaisesBefore? then w else w.(usage := w.usage + [Cancel(t.row.celeryId)])
  }

  function Recorded(w: World, t: Listed, x: Weather): World {
    if x.record.RaisesBefore? then w
    else w.(store := EditByTask(w.store, t.row.celeryId, SetStatus(FinalWrite(x.now)), 0))
  }

  /** Mark, roll back, cancel, record; a call that raises ends the task, and so does a refused mark. */
  function Compensated(w: World, t: Listed, x: Weather): World
    requires Marks(w, t)
  {
    var rolled := Rolled(Run(Marked(w, t, x), x.afterMark), t, x);
    if !x.rollback.Returns? then rolled
    else
      var cancelled := Cancelled(Run(rolled, x.between), t, x);
      if !x.cancel.Returns? then cancelled else Recorded(Run(cancelled, x.beforeRecord), t, x)
  }

  /** The row is failed and owes its compensation: a reconciler can lease it at any time, and no worker can start it. */
  ghost predicate LeftOwing(r: TaskRow) {
    && r.status == Failed && r.token == None && r.code == Some(BrokerCleanup) && Owed(r) == Some(BrokerCleanup)
    && (forall token, lease, now :: Effect(ClaimCleanup(token, lease), r, now).Some?)
    && (forall token, expected, at, attempt, now :: Effect(ClaimRun(token, expected, at, attempt), r, now).None?)
    && (forall q, now :: Effect(Recreate(q), r, now).None?)
  }

  /** The row is failed for good: nothing is owed, and only a new task takes up the work. */
  ghost predicate LeftLost(r: TaskRow) {
    && r.status == Failed && r.token == None && r.code == Some(BrokerLost) && Owed(r) == None
    && (forall token, lease, now :: Effect(ClaimCleanup(token, lease), r, now).None?)
    && (forall token, expected, at, attempt, now :: Effect(ClaimRun(token, expected, at, attempt), r, now).None?)
    && (forall q, now :: Effect(Recreate(q), r, now).None?)
  }

  /** Rollback and cancel answered, and the final record was made. */
  predicate Records(x: Weather) {
    x.rollback == DispatchReconciler.Returns && x.cancel == DispatchReconciler.Returns
    && x.record != DispatchReconciler.RaisesBefore
  }

  /** From the mark on, whatever fails, the row owes its compensation until the final record is made. */
  lemma MarkOwes(w: World, t: Listed, x: Weather)
    requires Marks(w, t)
    ensures Known(Marked(w, t, x).store, t.row.celeryId) && LeftOwing(RowOf(Marked(w, t, x).store, t.row.celeryId))
  {
  }

  function Ends(w: World, t: Listed, x: Weather): Outcome {
    if !Marks(w, t) then Skipped else if x.Completes() then Completed else Incomplete
  }

  method CompensateTask(t: Listed, tracking: InMemoryTaskTrackingStorage, runs: RunStorage.Storage, usage: UsageStorage,
                        x: Weather)
    returns (outcome: Outcome)
    modifies tracking, runs, usage
    ensures outcome == Ends(old(tracking.Joined(runs, usage)), t, x)
    ensures outcome.Skipped? ==> tracking.Joined(runs, usage) == old(tracking.Joined(runs, usage))
    ensures !outcome.Skipped? ==> tracking.Joined(runs, usage) == Compensated(old(tracking.Joined(runs, usage)), t, x)
  {
    var celeryId := t.row.celeryId;
    var marked := tracking.UpdateTaskStatusIfActive(celeryId, BrokerRecovery.LostWrite(x.now));
    if marked.None? {
      return Skipped;
    }
    tracking.Interfere(runs, usage, x.afterMark);
    if !x.rollback.RaisesBefore? {
      var _ := tracking.RollbackRunIfTaskOwner(runs, usage, celeryId, RunLevelTypes,
                                               FailCas(t.row.runId, RollbackStages, ClosedRun));
    }
    if !x.rollback.Returns? {
      return Incomplete;
    }
    tracking.Interfere(runs, usage, x.between);
    if !x.cancel.RaisesBefore? {
      usage.calls := usage.calls + [Cancel(celeryId)];
    }
    if !x.cancel.Returns? {
      return Incomplete;
    }
    tracking.Interfere(runs, usage, x.beforeRecord);
    if !x.record.RaisesBefore? {
      var found := tracking.Locate(celeryId);
      if found.Some? {
        var _ := tracking.UpdateTaskStatus(found.value, FinalWrite(x.now));
      }
    }
    return if x.record.Returns? then Completed else Incomplete;
  }

  // ---- The listed tasks, one after the other ----

  datatype Progress = Progress(world: World, failed: nat, failures: nat)

  /** What a pass has read, and the weather of each listed task. */
  datatype Pass = Pass(listing: seq<Listed>, generations: set<Epoch>, task: nat -> Weather)
  {
    /** The listed generation decides whether the task is touched at all. */
    predicate Lost(k: nat)
      requires k < |listing|
    {
      listing[k].row.generation.Some? && listing[k].row.generation.value in generations
    }
  }

  function RecoverNext(p: Progress, c: Pass, n: nat): Progress
    requires n < |c.listing|
  {
    var t, x := c.listing[n], c.task(n);
    if !c.Lost(n) || !Marks(p.world, t) then p.(world := Run(p.world, x.after))
    else
      Progress(Run(Compensated(p.world, t, x), x.after),
               p.failed + if x.Completes() then 1 else 0, p.failures + if x.Completes() then 0 else 1)
  }

  function RecoveredTo(w: World, c: Pass, n: nat): Progress
    requires n <= |c.listing|
  {
    if n == 0 then Progress(w, 0, 0) else RecoverNext(RecoveredTo(w, c, n - 1), c, n - 1)
  }

  /** Each of these progresses is the next after the one before it. */
  ghost predicate Stages(w: World, c: Pass, n: nat, ps: seq<Progress>)
    requires n <= |c.listing|
  {
    && |ps| == n + 1 && ps[0] == Progress(w, 0, 0)
    && forall k :: 0 <= k < n ==> ps[k + 1] == RecoverNext(ps[k], c, k)
  }

  /** The progress before each of the first `n` tasks, and after the last of them. */
  function StagesOf(w: World, c: Pass, n: nat): seq<Progress>
    requires n <= |c.listing|
  {
    seq(n + 1, k requires 0 <= k <= n => RecoveredTo(w, c, k))
  }

  lemma StagesFollow(w: World, c: Pass, n: nat)
    requires n <= |c.listing|
    ensures Stages(w, c, n, StagesOf(w, c, n))
  {
  }

  /** Every generation in the set that has no active task leaves the backlog. */
  ghost function BacklogCleared(s: Store, generations: set<Epoch>): Store {
    s.(obsolete := set g | g in s.obsolete && (g in generations ==> HasActive(s, g)))
  }

  ghost function Recovery(w: World, previous: Option<Epoch>, snapshot: Snapshot, e: Environment): (World, Result) {
    if !snapshot.EvidenceComplete() then (w, Result(0, previous.Some? && previous.value != snapshot.epoch, 0))
    else
      var v := Run(w, e.beforeBacklog);
      var u := Run(v, e.beforeListing);
      var c := Pass(e.query(u), v.store.obsolete, e.task);
      var p := RecoveredTo(u, c, |c.listing|);
      (p.world.(store := BacklogCleared(p.world.store, v.store.obsolete)), Result(p.failed, false, p.failures))
  }

  /** Fail and compensate every active task of an obsolete generation, if the old queue is known to be gone. */
  method RecoverLostTasks(previous: Option<Epoch>, snapshot: Snapshot, tracking: InMemoryTaskTrackingStorage,
                          runs: RunStorage.Storage, usage: UsageStorage, e: Environment)
    returns (result: Result)
    modifies tracking, runs, usage
    ensures (tracking.Joined(runs, usage), result)
            == Recovery(old(tracking.Joined(runs, usage)), previous, snapshot, e)
  {
    if !snapshot.EvidenceComplete() {
      return Result(0, previous.Some? && previous.value != snapshot.epoch, 0);
    }
    tracking.Interfere(runs, usage, e.beforeBacklog);
    var generations := tracking.pendingBrokerCleanupGenerations;
    tracking.Interfere(runs, usage, e.beforeListing);
    ghost var u := tracking.Joined(runs, usage);
    var listing := e.query(tracking.Joined(runs, usage));
    var c := Pass(listing, generations, e.task);
    var failed: nat, failures: nat := 0, 0;
    for n := 0 to |listing|
      invariant Progress(tracking.Joined(runs, usage), failed, failures)
                == RecoveredTo(u, c, n)
    {
      var t, x := listing[n], e.task(n);
      if c.Lost(n) {
        var outcome := CompensateTask(t, tracking, runs, usage, x);
        failed := failed + if outcome.Completed? then 1 else 0;
        failures := failures + if outcome.Incomplete? then 1 else 0;
      }
      tracking.Interfere(runs, usage, x.after);
    }
    CompleteAll(tracking, generations);
    result := Result(failed, false, failures);
  }

  method CompleteAll(tracking: InMemoryTaskTrackingStorage, generations: set<Epoch>)
    modifies tracking
    ensures tracking.View() == BacklogCleared(old(tracking.View()), generations)
  {
    var rest := generations;
    ghost var before := tracking.View();
    while rest != {}
      invariant rest <= generations && tracking.View() == BacklogCleared(before, generations - rest)
      decreases |rest|
    {
      var g :| g in rest;
      var _ := tracking.CompleteBrokerCleanup(g);
      rest := rest - {g};
      assert HasActive(tracking.View(), g) == HasActive(before, g);
    }
  }

  // ---- The epoch before the recovery ----

  /** An unset durable epoch is filled from the epoch file. */
  predicate Fills(w: World, fallback: Option<Epoch>) {
    w.store.observed.None? && fallback.Some?
  }

  function Durable(w: World, fallback: Option<Epoch>): Option<Epoch> {
    if w.store.observed.None? then fallback else w.store.observed
  }

  /** The world once the fill was attempted. */
  function Filled(w: World, fallback: Option<Epoch>, e: Environment): World {
    if Fills(w, fallback) then
      var v := Run(w, e.beforeFill);
      v.(store := WithEpoch(v.store, fallback.value, None, {}))
    else w
  }

  /** Another process filled it first. */
  predicate FillLost(w: World, fallback: Option<Epoch>, e: Environment) {
    Fills(w, fallback) && Run(w, e.beforeFill).store.observed.Some?
  }

  /** The world in which the snapshot's epoch is compared and set. */
  function AtPersist(w: World, fallback: Option<Epoch>, e: Environment): World {
    Run(Filled(w, fallback, e), e.beforePersist)
  }

  predicate Persists(w: World, fallback: Option<Epoch>, snapshot: Snapshot, e: Environment) {
    && snapshot.Consistent() && !FillLost(w, fallback, e) && !snapshot.MustWait(Durable(w, fallback))
    && AtPersist(w, fallback, e).store.observed == Durable(w, fallback)
  }

  /** The world with the snapshot's epoch persisted. */
  function Announced(w: World, fallback: Option<Epoch>, snapshot: Snapshot, e: Environment): World {
    var v := AtPersist(w, fallback, e);
    v.(store := WithEpoch(v.store, snapshot.epoch, Durable(w, fallback), snapshot.active))
  }

  /** The whole call: the world it leaves, its result, and whether the epoch was persisted. */
  ghost function Snapshotted(w: World, fallback: Option<Epoch>, snapshot: Snapshot, e: Environment): (World, Result, bool) {
    if Persists(w, fallback, snapshot, e) then
      var (after, result) := Recovery(Announced(w, fallback, snapshot, e), Durable(w, fallback), snapshot, e);
      (after, result, true)
    else
      (if !snapshot.Consistent() then w
       else if FillLost(w, fallback, e) || snapshot.MustWait(Durable(w, fallback)) then Filled(w, fallback, e)
       else AtPersist(w, fallback, e),
       Result(0, true, 0), false)
  }

  /**
   Persist the snapshot's epoch by compare-and-set, then recover.  The returned
   flag says whether the epoch was persisted; if not, the pass has filled in
   the durable epoch at most.
   */
  method RecoverBrokerSnapshot(fallback: Option<Epoch>, snapshot: Snapshot, tracking: InMemoryTaskTrackingStorage,
                               runs: RunStorage.Storage, usage: UsageStorage, e: Environment)
    returns (result: Result, persisted: bool)
    modifies tracking, runs, usage
    ensures (tracking.Joined(runs, usage), result, persisted)
            == Snapshotted(old(tracking.Joined(runs, usage)), fallback, snapshot, e)
    ensures persisted == Persists(old(tracking.Joined(runs, usage)), fallback, snapshot, e)
  {
    if !snapshot.Consistent() {
      return Result(0, true, 0), false;
    }
    var durable := tracking.observedBrokerEpoch;
    if durable.None? && fallback.Some? {
      tracking.Interfere(runs, usage, e.beforeFill);
      var initialized := tracking.SetObservedBrokerEpoch(fallback.value, None, {});
      if !initialized {
        return Result(0, true, 0), false;
      }
      durable := fallback;
    }
    if durable.Some? && durable.value != snapshot.epoch && !snapshot.EvidenceComplete() {
      result := RecoverLostTasks(durable, snapshot, tracking, runs, usage, e);
      return result, false;
    }
    tracking.Interfere(runs, usage, e.beforePersist);
    persisted := tracking.SetObservedBrokerEpoch(snapshot.epoch, durable, snapshot.active);
    if !persisted {
      return Result(0, true, 0), false;
    }
    result := RecoverLostTasks(durable, snapshot, tracking, runs, usage, e);
  }
}
