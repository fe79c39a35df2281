/** The in-memory task storage: its fields, and its methods updating them in place. */
module TaskStorage {
  import opened Options
  import opened TaskRows
  import opened TaskTracking
  import RunStorage

  /** The usage ledger as the tracking storage sees it: the calls that went through. */
  class UsageStorage {
    var calls: seq<UsageCall>
  }

  class InMemoryTaskTrackingStorage {
    var rows: map<nat, TaskRow>
    var rowsByCeleryTaskId: map<string, nat>
    var nextId: nat
    var observedBrokerEpoch: Option<Epoch>
    var pendingBrokerCleanupGenerations: set<Epoch>

    function View(): Store
      reads this
    {
      Store(rows, rowsByCeleryTaskId, nextId, observedBrokerEpoch, pendingBrokerCleanupGenerations)
    }

    function Joined(runs: RunStorage.Storage, usage: UsageStorage): World
      reads this, runs, usage
    {
      World(View(), runs.rows, usage.calls)
    }

    constructor ()
      ensures View() == EmptyStore
    {
      rows, rowsByCeleryTaskId, nextId := map[], map[], 1;
      observedBrokerEpoch, pendingBrokerCleanupGenerations := None, {};
    }

    method Locate(celeryId: string) returns (id: Option<nat>)
      ensures id == if Known(View(), celeryId) then Some(rowsByCeleryTaskId[celeryId]) else None
    {
      if celeryId in rowsByCeleryTaskId && rowsByCeleryTaskId[celeryId] in rows {
        return Some(rowsByCeleryTaskId[celeryId]);
      }
      return None;
    }

    method CreateTask(q: Request, now: int) returns (row: Option<TaskRow>)
      modifies this
      ensures View() == Created(old(View()), q, now)
      ensures row == CreateResult(old(View()), q, now)
    {
      var existing := Locate(q.celeryId);
      if existing.Some? {
        var id := existing.value;
        var r := rows[id];
        if r.status == Success || r.status == Running || Blocks(r.code) {
          return None;
        }
        r := r.(status := q.status);
        if q.generation.Some? {
          r := r.(generation := q.generation);
        }
        if q.status == Queued {
          r := r.(token := None, attempt := r.attempt + 1, startedAt := None, finishedAt := None);
          r := r.(code := None, message := None);
        } else if q.status == Running {
          r := r.(token := q.token, startedAt := q.startedAt, finishedAt := None);
          r := r.(code := None, message := None);
        }
        rows := rows[id := r];
        return Some(r);
      }
      var saved := TaskRow(q.celeryId, q.runId, q.taskType, q.status, None, None, q.token, 1,
                           q.startedAt, None, now, q.generation);
      rows := rows[nextId := saved];
      rowsByCeleryTaskId := rowsByCeleryTaskId[q.celeryId := nextId];
      nextId := nextId + 1;
      return Some(saved);
    }

    /** The run moves first; a refused row puts the run back before the error is raised. */
    method TransitionRunAndCreatePending(runs: RunStorage.Storage, usage: UsageStorage,
                                         q: Request, cas: RunCas, now: int)
      returns (ok: bool, raised: bool)
      modifies this, runs
      ensures Joined(runs, usage) == Transitioned(old(Joined(runs, usage)), q, cas, now)
      ensures ok == (CasAccepted(old(runs.rows), cas) && CreateResult(old(View()), q, now).Some?)
      ensures raised == (CasAccepted(old(runs.rows), cas) && CreateResult(old(View()), q, now).None?)
    {
      var before := runs.rows;
      var accepted, _ := runs.ConditionalUpdateRun(cas.runId, cas.updates, cas.expected, cas.workspace, cas.rejected);
      if !accepted {
        return false, false;
      }
      var pending := CreateTask(q, now);
      if pending.None? {
        runs.rows := runs.rows[cas.runId := before[cas.runId]];
        assert runs.rows == before;
        return false, true;
      }
      return true, false;
    }

    method UpdateTaskStatus(id: nat, w: Write) returns (row: Option<TaskRow>)
      modifies this
      ensures View() == Edit(old(View()), id, SetStatus(w), 0)
      ensures row == EditResult(old(View()), id, SetStatus(w), 0)
    {
      if id !in rows {
        return None;
      }
      var r := rows[id];
      if r.status == Success || (w.status == Running && r.status == Running) {
        return None;
      }
      r := WriteFields(r, w);
      rows := rows[id := r];
      return Some(r);
    }

    method UpdateTaskStatusIfRunning(id: nat, w: Write) returns (row: Option<TaskRow>)
      modifies this
      ensures View() == Edit(old(View()), id, SetIfRunning(w), 0)
      ensures row == EditResult(old(View()), id, SetIfRunning(w), 0)
    {
      if id !in rows || rows[id].status != Running {
        return None;
      }
      var r := WriteFields(rows[id], w);
      rows := rows[id := r];
      return Some(r);
    }

    static method WriteFields(row: TaskRow, w: Write) returns (r: TaskRow)
      ensures r == Assign(row, w)
    {
      r := row.(status := w.status);
      if w.startedAt.Some? {
        r := r.(startedAt := w.startedAt);
      }
      if w.finishedAt.Some? {
        r := r.(finishedAt := w.finishedAt);
      }
      if w.attempt.Some? {
        r := r.(attempt := w.attempt.value);
      }
      r := r.(code := w.code, message := w.message);
    }

    method UpdateTaskStatusIfPending(id: nat, w: Write) returns (row: Option<TaskRow>)
      modifies this
      ensures View() == Edit(old(View()), id, SetIfPending(w), 0)
      ensures row == EditResult(old(View()), id, SetIfPending(w), 0)
    {
      if id !in rows || rows[id].status != Pending {
        return None;
      }
      var r := rows[id].(status := w.status, finishedAt := w.finishedAt);
      r := r.(code := w.code, message := w.message);
      rows := rows[id := r];
      return Some(r);
    }

    method UpdateTaskStatusIfActive(celeryId: string, w: Write) returns (row: Option<TaskRow>)
      modifies this
      ensures View() == EditByTask(old(View()), celeryId, SetIfActive(w), 0)
      ensures row == EditByTaskResult(old(View()), celeryId, SetIfActive(w), 0)
    {
      var found := Locate(celeryId);
      if found.None? || !Active(rows[found.value].status) {
        return None;
      }
      var r := rows[found.value].(status := w.status, finishedAt := w.finishedAt, token := None);
      r := r.(code := w.code, message := w.message);
      rows := rows[found.value := r];
      return Some(r);
    }

    method FinishIfClaimed(celeryId: string, token: Token, status: Status,
                           code: Option<Text>, message: Option<Text>, now: int)
      returns (row: Option<TaskRow>)
      modifies this
      ensures View() == EditByTask(old(View()), celeryId, FinishClaim(token, status, code, message), now)
      ensures row == EditByTaskResult(old(View()), celeryId, FinishClaim(token, status, code, message), now)
    {
      var found := Locate(celeryId);
      if found.None? {
        return None;
      }
      var r := rows[found.value];
      if r.status != Running || r.token != Some(token) {
        return None;
      }
      r := r.(status := status, token := None, finishedAt := Some(now));
      r := r.(code := code, message := message);
      rows := rows[found.value := r];
      return Some(r);
    }

    method FinishClaimedRun(runs: RunStorage.Storage, usage: UsageStorage, celeryId: string, token: Token,
                            status: Status, cas: RunCas, code: Option<Text>, message: Option<Text>, now: int)
      returns (applied: bool)
      modifies this, runs
      ensures Joined(runs, usage)
              == FinishedRun(old(Joined(runs, usage)), celeryId, token, status, cas, code, message, now)
      ensures applied == (&& old(Holds(View(), celeryId, token) && RowOf(View(), celeryId).runId == cas.runId)
                          && CasAccepted(old(runs.rows), cas))
    {
      var found := Locate(celeryId);
      if found.None? {
        return false;
      }
      var r := rows[found.value];
      if r.status != Running || r.token != Some(token) || r.runId != cas.runId {
        return false;
      }
      var visible;
      applied, visible := runs.ConditionalUpdateRun(cas.runId, cas.updates, cas.expected, cas.workspace, cas.rejected);
      var _ := FinishIfClaimed(celeryId, token, status, code, message, now);
    }

    /** The run fails first, then the reservation is billed; a billing error leaves the row running. */
    method FailClaimedAndCancelQuota(runs: RunStorage.Storage, usage: UsageStorage, celeryId: string, token: Token,
                                     code: Option<Text>, message: Option<Text>, failing: Option<RunCas>,
                                     billing: Option<Billing>, usageOk: bool, now: int)
      returns (done: bool)
      modifies this, runs, usage
      ensures Joined(runs, usage) == FailedClaim(old(Joined(runs, usage)), celeryId, token, code, message,
                                                 failing, billing, usageOk, now)
      ensures done == (old(Holds(View(), celeryId, token)) && usageOk)
    {
      var found := Locate(celeryId);
      if found.None? {
        return false;
      }
      var r := rows[found.value];
      if r.status != Running || r.token != Some(token) {
        return false;
      }
      if failing.Some? {
        var cas := failing.value;
        var _, _ := runs.ConditionalUpdateRun(cas.runId, cas.updates, cas.expected, cas.workspace, cas.rejected);
      }
      if !usageOk {
        return false;
      }
      usage.calls := usage.calls + [Bill(celeryId, billing)];
      var _ := FinishIfClaimed(celeryId, token, Failed, code, message, now);
      return true;
    }

    method ClaimRunning(id: nat, newToken: Option<Token>, expected: Option<Token>, startedAt: int, attempt: Option<int>)
      returns (row: Option<TaskRow>)
      modifies this
      ensures View() == Edit(old(View()), id, ClaimRun(newToken, expected, startedAt, attempt), 0)
      ensures row == EditResult(old(View()), id, ClaimRun(newToken, expected, startedAt, attempt), 0)
    {
      if id !in rows {
        return None;
      }
      var r := rows[id];
      if r.status != Pending && r.status != Queued && r.status != Failed {
        return None;
      }
      if r.token != expected || Blocks(r.code) {
        return None;
      }
      r := r.(status := Running, token := newToken, startedAt := Some(startedAt), finishedAt := None);
      r := r.(code := None, message := None);
      if attempt.Some? {
        r := r.(attempt := attempt.value);
      }
      rows := rows[id := r];
      return Some(r);
    }

    method ClaimReconciliation(id: nat, token: Token, lease: nat, now: int) returns (row: Option<TaskRow>)
      modifies this
      ensures View() == Edit(old(View()), id, ClaimCleanup(token, lease), now)
      ensures row == EditResult(old(View()), id, ClaimCleanup(token, lease), now)
    {
      if id !in rows || rows[id].status != Failed {
        return None;
      }
      var r := rows[id];
      if !(r.code.Some? && IsMarker(r.code.value)) && !LeaseExpired(r, lease, now) {
        return None;
      }
      if r.code != Some(CleanupClaimed) {
        r := r.(message := r.code);
      }
      r := r.(code := Some(CleanupClaimed));
      r := r.(token := Some(token), finishedAt := Some(now));
      rows := rows[id := r];
      return Some(r);
    }

    method FinishReconciliation(celeryId: string, token: Token, code: Text, message: Text)
      returns (row: Option<TaskRow>)
      modifies this
      ensures View() == EditByTask(old(View()), celeryId, FinishCleanup(token, code, message), 0)
      ensures row == EditByTaskResult(old(View()), celeryId, FinishCleanup(token, code, message), 0)
    {
      var found := Locate(celeryId);
      if found.None? {
        return None;
      }
      var r := rows[found.value];
      if r.code != Some(CleanupClaimed) || r.token != Some(token) {
        return None;
      }
      r := r.(code := Some(code), message := Some(message), token := None);
      rows := rows[found.value := r];
      return Some(r);
    }

    method ReleaseReconciliation(celeryId: string, token: Token) returns (row: Option<TaskRow>)
      modifies this
      ensures View() == EditByTask(old(View()), celeryId, ReleaseCleanup(token), 0)
      ensures row == EditByTaskResult(old(View()), celeryId, ReleaseCleanup(token), 0)
    {
      var found := Locate(celeryId);
      if found.None? {
        return None;
      }
      var r := rows[found.value];
      if r.code != Some(CleanupClaimed) || r.token != Some(token) {
        return None;
      }
      var marker := r.message;
      if marker.None? || !IsMarker(marker.value) {
        return None;
      }
      r := r.(code := marker, message := Some(Other("Cleanup retry required")), token := None);
      rows := rows[found.value := r];
      return Some(r);
    }

    method RollbackRunIfTaskOwner(runs: RunStorage.Storage, usage: UsageStorage,
                                  celeryId: string, types: set<string>, cas: RunCas)
      returns (ok: bool)
      requires cas.updates == RunStorage.FailRun
      modifies runs
      ensures Joined(runs, usage) == RolledBack(old(Joined(runs, usage)), celeryId, types, cas)
      ensures ok == (OwnsRun(View(), celeryId, cas.runId, types) && CasAccepted(old(runs.rows), cas))
    {
      var found := Locate(celeryId);
      if found.None? || rows[found.value].runId != cas.runId || rows[found.value].taskType !in types {
        return false;
      }
      var owner := found.value;
      var newer := exists other :: other in rows && Newer(View(), owner, other);
      if newer {
        return false;
      }
      var visible;
      ok, visible := runs.ConditionalUpdateRun(cas.runId, cas.updates, cas.expected, cas.workspace, cas.rejected);
    }

    method SetObservedBrokerEpoch(epoch: Epoch, previous: Option<Epoch>, active: set<Epoch>) returns (ok: bool)
      modifies this
      ensures View() == WithEpoch(old(View()), epoch, previous, active)
      ensures ok == EpochAccepted(old(View()), previous)
    {
      if observedBrokerEpoch.None? {
        if previous.Some? {
          return false;
        }
        rows := map id | id in rows :: Backfill(rows[id], epoch);
        observedBrokerEpoch := Some(epoch);
        return true;
      }
      if observedBrokerEpoch != previous {
        return false;
      }
      if Some(epoch) != previous {
        pendingBrokerCleanupGenerations := pendingBrokerCleanupGenerations
          + ((active + {observedBrokerEpoch.value}) - {epoch});
      }
      observedBrokerEpoch := Some(epoch);
      return true;
    }

    method CompleteBrokerCleanup(generation: Epoch) returns (ok: bool)
      modifies this
      ensures View() == Completed(old(View()), generation)
      ensures ok == !HasActive(old(View()), generation)
    {
      var hasActive := exists id :: id in rows && rows[id].generation == Some(generation) && Active(rows[id].status);
      if hasActive {
        return false;
      }
      pendingBrokerCleanupGenerations := pendingBrokerCleanupGenerations - {generation};
      return true;
    }

    method PromotePendingToQueued(celeryId: string) returns (row: Option<TaskRow>)
      modifies this
      ensures View() == EditByTask(old(View()), celeryId, Promote, 0)
      ensures row == EditByTaskResult(old(View()), celeryId, Promote, 0)
    {
      var found := Locate(celeryId);
      if found.None? || rows[found.value].status != Pending {
        return None;
      }
      var r := rows[found.value].(status := Queued);
      rows := rows[found.value := r];
      return Some(r);
    }

    /** Other processes run: any schedule of their steps is applied to the tables. */
    method Interfere(runs: RunStorage.Storage, usage: UsageStorage, steps: seq<Step>)
      modifies this, runs, usage
      ensures Joined(runs, usage) == Run(old(Joined(runs, usage)), steps)
    {
      var w := Run(Joined(runs, usage), steps);
      rows, rowsByCeleryTaskId, nextId := w.store.rows, w.store.index, w.store.nextId;
      observedBrokerEpoch, pendingBrokerCleanupGenerations := w.store.observed, w.store.obsolete;
      runs.rows, usage.calls := w.runs, w.usage;
    }
  }
}
