/**
 Dispatching a task: reserve quota, move the run's stage, enqueue, confirm; and
 undo all of it when any call on the way fails.
 */
module DispatchCas {
  import opened Options
  import RunStorage

  datatype ReadFate = ReadFails | Missing | Cancelled | Fine

  /** A call that writes may also raise, before or after it has committed. */
  datatype Fate = Answers | FailsBefore | FailsAfter

  /** `Unheard`: the reservation was made, but its answer was lost. */
  datatype QuotaFate = Granted | Refused | Unheard

  /** `WrongId`: the dispatcher enqueued the task under another id. */
  datatype DispatchFate = SyncFailure | Raises | WrongId | Enqueued

  datatype BrokerFate = Unreadable | Changed | Same

  /** How every external call of one dispatch ends, and what others do to the runs meanwhile. */
  datatype Weather = Weather(
    preRead: ReadFate, quota: QuotaFate, brokerReadable: bool, stage: Fate, dispatch: DispatchFate,
    broker: BrokerFate, promoteRaises: bool, postRead: ReadFate, rollback: Fate, cancel: Fate,
    beforeStage: seq<Change>, afterStage: seq<Change>)

  /** A conditional update that another process makes. */
  datatype Change = Change(id: int, updates: RunStorage.Updates, expected: set<string>,
                           workspace: Option<int>, rejected: set<string>)

  datatype Plan = Plan(runId: int, expected: set<string>, target: string, rollbackStage: string,
                       rollbackRestart: Option<string>, restartFromStage: Option<string>,
                       operation: Option<string>, workspace: Option<int>, preowned: bool, queued: bool)

  /** A failing exit raises. */
  datatype Exit = Dispatched | Failed

  /** The runs, the open reservations, and how often a cancel and a rollback were attempted. */
  datatype State = State(runs: map<int, RunStorage.Run>, outstanding: int, cancels: nat, rollbacks: nat)

  // ---- The steps of a dispatch ----

  function Applied(runs: map<int, RunStorage.Run>, cs: seq<Change>): map<int, RunStorage.Run> {
    if cs == [] then runs
    else
      var c := cs[|cs| - 1];
      RunStorage.Updated(Applied(runs, cs[..|cs| - 1]), c.id, c.updates, c.expected, c.workspace, c.rejected)
  }

  /** What the call writes when it moves the stage. */
  function Move(p: Plan): RunStorage.Updates {
    var from := if p.restartFromStage.Some? then p.restartFromStage.value else p.target;
    RunStorage.Updates(Some(p.target), None, if p.rollbackStage == from then Some(Some(p.target)) else None)
  }

  function Undo(p: Plan): RunStorage.Updates {
    RunStorage.Updates(Some(p.rollbackStage), None, Some(p.rollbackRestart))
  }

  predicate CanMove(runs: map<int, RunStorage.Run>, p: Plan) {
    RunStorage.Accepts(runs, p.runId, p.expected, p.workspace, {"cancelled"})
  }

  function Moved(runs: map<int, RunStorage.Run>, p: Plan): map<int, RunStorage.Run> {
    RunStorage.Updated(runs, p.runId, Move(p), p.expected, p.workspace, {"cancelled"})
  }

  /** The run still stands where this dispatch put it. */
  predicate AtTarget(runs: map<int, RunStorage.Run>, p: Plan) {
    RunStorage.Accepts(runs, p.runId, {p.target}, p.workspace, {})
  }

  /** Without an operation type there is no reservation to cancel. */
  function QuotaCancelled(s: State, p: Plan, x: Weather): State {
    if p.operation.None? then s
    else s.(cancels := s.cancels + 1, outstanding := if x.cancel == FailsBefore then s.outstanding else s.outstanding - 1)
  }

  /** The conditional stage rollback: it acts only while the run is still at the target stage. */
  function RolledBack(s: State, p: Plan, x: Weather): State {
    s.(rollbacks := s.rollbacks + 1,
       runs := if x.rollback == FailsBefore then s.runs
               else RunStorage.Updated(s.runs, p.runId, Undo(p), {p.target}, p.workspace, {}))
  }

  /** The run may be dispatched, and the quota, if any, answered that it is reserved. */
  predicate Prepares(p: Plan, x: Weather) {
    x.preRead == Fine && (p.operation.Some? ==> x.quota == Granted)
  }

  /** Check the run and reserve quota; a preowned reservation is given back if that fails. */
  function Prepared(s: State, p: Plan, x: Weather): State {
    var reserves := x.preRead == Fine && p.operation.Some? && !p.preowned && x.quota != Refused;
    var t := s.(outstanding := s.outstanding + if reserves then 1 else 0);
    if !Prepares(p, x) && p.preowned then RolledBack(QuotaCancelled(t, p, x), p, x) else t
  }

  /** Everything after the stage move goes through. */
  predicate Completes(p: Plan, x: Weather) {
    x.dispatch == Enqueued && (p.queued ==> x.broker == Same) && !x.promoteRaises && x.postRead == Fine
  }

  /** What follows an answered stage move. */
  function Finished(s: State, p: Plan, x: Weather): (State, Exit) {
    if x.dispatch == SyncFailure then (QuotaCancelled(s, p, x), Failed)
    else if Completes(p, x) then (s, Dispatched)
    else (RolledBack(QuotaCancelled(s, p, x), p, x), Failed)
  }

  /** The whole dispatch. */
  function Dispatch(s: State, p: Plan, x: Weather): (State, Exit) {
    var t := Prepared(s, p, x);
    if !Prepares(p, x) then (t, Failed)
    else
      var u := t.(runs := Applied(t.runs, x.beforeStage));
      if (p.queued && !x.brokerReadable) || x.stage == FailsBefore then (QuotaCancelled(u, p, x), Failed)
      else
        var v := u.(runs := Moved(u.runs, p));
        if x.stage == FailsAfter then (QuotaCancelled(v, p, x), Failed)
        else if !CanMove(u.runs, p) then (QuotaCancelled(u, p, x), Failed)
        else Finished(v.(runs := Applied(v.runs, x.afterStage)), p, x)
  }

  // ---- The dispatcher ----

  class Dispatcher {
    const runs: RunStorage.Storage
    /** Quota reservations outstanding in the ledger. */
    var outstanding: int
    var quotaCancels: nat
    var rollbackAttempts: nat

    constructor (runs: RunStorage.Storage)
      ensures this.runs == runs && outstanding == 0 && quotaCancels == 0 && rollbackAttempts == 0
    {
      this.runs := runs;
      outstanding, quotaCancels, rollbackAttempts := 0, 0, 0;
    }

    function Now(): State
      reads this, runs
    {
      State(runs.rows, outstanding, quotaCancels, rollbackAttempts)
    }

    method CancelQuota(p: Plan, x: Weather)
      modifies this
      ensures Now() == QuotaCancelled(old(Now()), p, x)
    {
      if p.operation.None? {
        return;
      }
      quotaCancels := quotaCancels + 1;
      if x.cancel != FailsBefore {
        outstanding := outstanding - 1;
      }
    }

    method ApplyRollback(p: Plan, x: Weather)
      modifies this, runs
      ensures Now() == RolledBack(old(Now()), p, x)
    {
      rollbackAttempts := rollbackAttempts + 1;
      if x.rollback != FailsBefore {
        var _, _ := runs.ConditionalUpdateRun(p.runId, Undo(p), {p.target}, p.workspace, {});
      }
    }

    method Interfere(cs: seq<Change>)
      modifies runs
      ensures runs.rows == Applied(old(runs.rows), cs)
    {
      ghost var before := runs.rows;
      for k := 0 to |cs|
        invariant runs.rows == Applied(before, cs[..k])
      {
        assert cs[..k + 1][..k] == cs[..k];
        var _, _ := runs.ConditionalUpdateRun(cs[k].id, cs[k].updates, cs[k].expected, cs[k].workspace, cs[k].rejected);
      }
      assert cs[..|cs|] == cs;
    }

    method Prepare(p: Plan, x: Weather) returns (prepared: bool)
      modifies this, runs
      ensures prepared == Prepares(p, x) && Now() == Prepared(old(Now()), p, x)
    {
      prepared := x.preRead == Fine;
      if prepared && p.operation.Some? {
        prepared := x.quota == Granted;
        if x.quota != Refused && !p.preowned {
          outstanding := outstanding + 1;
        }
      }
      if !prepared && p.preowned {
        CancelQuota(p, x);
        ApplyRollback(p, x);
      }
    }

    /** Enqueue, confirm and look at the run again, after the stage has moved. */
    method Finish(p: Plan, x: Weather) returns (exit: Exit)
      modifies this, runs
      ensures (Now(), exit) == Finished(old(Now()), p, x)
    {
      if x.dispatch == SyncFailure {
        CancelQuota(p, x);
        return Failed;
      }
      if x.dispatch != Enqueued || (p.queued && x.broker != Same) || x.promoteRaises {
        CancelQuota(p, x);
        ApplyRollback(p, x);
        return Failed;
      }
      if x.postRead != Fine {
        ApplyRollback(p, x);
        CancelQuota(p, x);
        return Failed;
      }
      return Dispatched;
    }

    method CasDispatchWithRollback(p: Plan, x: Weather) returns (exit: Exit)
      modifies this, runs
      ensures (Now(), exit) == Dispatch(old(Now()), p, x)
    {
      var prepared := Prepare(p, x);
      if !prepared {
        return Failed;
      }
      Interfere(x.beforeStage);
      if (p.queued && !x.brokerReadable) || x.stage == FailsBefore {
        CancelQuota(p, x);
        return Failed;
      }
      var ok, _ := runs.ConditionalUpdateRun(p.runId, Move(p), p.expected, p.workspace, {"cancelled"});
      if x.stage == FailsAfter {
        CancelQuota(p, x);
        return Failed;
      }
      if !ok {
        CancelQuota(p, x);
        return Failed;
      }
      Interfere(x.afterStage);
      exit := Finish(p, x);
    }
  }

  // ---- What each placement of failures leaves ----

  /** The run was there and not cancelled, and the reservation, if one is made, was granted. */
  predicate IsReady(p: Plan, x: Weather) {
    x.preRead == Fine && (p.operation.None? || x.quota == Granted)
  }

  /** The task was enqueued under its id, by a broker that stayed the same, was recorded, and its run was not cancelled meanwhile. */
  predicate IsUnderway(p: Plan, x: Weather) {
    x.dispatch == Enqueued && (!p.queued || x.broker == Same) && !x.promoteRaises && x.postRead == Fine
  }

  /** Exactly when the dispatch succeeds. */
  lemma DispatchedIff(s: State, p: Plan, x: Weather)
    ensures Dispatch(s, p, x).1.Dispatched?
            <==> && IsReady(p, x) && (p.queued ==> x.brokerReadable)
                 && x.stage == Answers && CanMove(Applied(s.runs, x.beforeStage), p) && IsUnderway(p, x)
  {
  }

  /**
   The reservation is cancelled at most once, never on success, and on a failing
   exit exactly when it was preowned or the dispatch heard that it was made.
   */
  lemma CancelledOnceIff(s: State, p: Plan, x: Weather)
    ensures var (t, exit) := Dispatch(s, p, x);
            t.cancels == s.cancels + if exit != Dispatched && p.operation.Some? && (p.preowned || IsReady(p, x))
                                     then 1 else 0
  {
  }

  /** The cancel of this exit goes through, or none is due. */
  predicate Settles(p: Plan, x: Weather) {
    p.operation.None? || (x.cancel != FailsBefore && (p.preowned || x.preRead != Fine || x.quota != Unheard))
  }

  /**
   A failing exit leaves the ledger as if the call had not been made, less a
   preowned reservation, exactly unless the answer to the reservation was lost
   or a due cancel failed.
   */
  lemma LedgerSettledIff(s: State, p: Plan, x: Weather)
    ensures var (t, exit) := Dispatch(s, p, x);
            var due := p.operation.Some? && (p.preowned || (x.preRead == Fine && x.quota != Refused));
            exit != Dispatched ==>
              (t.outstanding == s.outstanding - (if p.operation.Some? && p.preowned then 1 else 0)
               <==> !due || Settles(p, x))
  {
  }

  /** A success leaves one reservation more, unless it was preowned. */
  lemma SuccessKeepsReservation(s: State, p: Plan, x: Weather)
    ensures var (t, exit) := Dispatch(s, p, x);
            exit == Dispatched ==>
              t.outstanding == s.outstanding + (if p.operation.Some? && !p.preowned then 1 else 0)
              && t.rollbacks == s.rollbacks && IsUnderway(p, x)
  {
  }

  /**
   The rollback is attempted at most once.  When preparation failed, exactly for
   a preowned reservation; later exactly when the stage update moved the run and
   answered, and then something failed that was not a synchronous task.
   */
  lemma RollbackAttemptedIff(s: State, p: Plan, x: Weather)
    ensures Dispatch(s, p, x).0.rollbacks
            == s.rollbacks
               + if !IsReady(p, x) then (if p.preowned then 1 else 0)
                 else if && (p.queued ==> x.brokerReadable) && x.stage == Answers
                         && CanMove(Applied(s.runs, x.beforeStage), p)
                         && x.dispatch != SyncFailure && !IsUnderway(p, x)
                      then 1 else 0
  {
  }

  /**
   When nobody else touches the run, a failing exit leaves it at the target
   stage exactly when the stage update moved it, and either its answer was lost,
   or a synchronous task failed, or the rollback itself failed.
   */
  lemma StrandedIff(s: State, p: Plan, x: Weather)
    requires x.beforeStage == [] && x.afterStage == [] && p.rollbackStage != p.target && !AtTarget(s.runs, p)
    ensures var (t, exit) := Dispatch(s, p, x);
            exit.Failed? ==>
              (AtTarget(t.runs, p)
               <==> && IsReady(p, x) && (p.queued ==> x.brokerReadable) && CanMove(s.runs, p)
                    && (|| x.stage == FailsAfter
                        || (x.stage == Answers && (x.dispatch == SyncFailure || x.rollback == FailsBefore))))
  {
    if CanMove(s.runs, p) {
      assert AtTarget(Moved(s.runs, p), p);
    }
  }

  /** A stage update whose answer is lost: the run has moved, the quota is given back, and nobody rolls back. */
  lemma LostAnswerStrandsTheRun(s: State, p: Plan, x: Weather)
    requires Prepares(p, x) && (p.queued ==> x.brokerReadable) && x.stage == FailsAfter
    requires CanMove(Applied(s.runs, x.beforeStage), p)
    ensures var (t, exit) := Dispatch(s, p, x);
            && exit == Failed && t.rollbacks == s.rollbacks
            && t.runs == Moved(Applied(s.runs, x.beforeStage), p) && AtTarget(t.runs, p)
  {
  }

  /**
   What a success leaves when nobody else touches the run: it is at the target
   stage, one version on, with the target as its restart point exactly when the
   dispatch would roll back to the stage it restarts from, and otherwise with the
   restart point it had; every other run is as it was.
   */
  lemma DispatchMovesTheRun(s: State, p: Plan, x: Weather)
    requires x.beforeStage == [] && x.afterStage == [] && Dispatch(s, p, x).1.Dispatched?
    ensures p.runId in s.runs
    ensures var runs, run := Dispatch(s, p, x).0.runs, s.runs[p.runId];
            && run.stage in p.expected && run.status != "cancelled"
            && (p.workspace.Some? ==> run.workspace == p.workspace.value)
            && var restarts := p.rollbackStage == if p.restartFromStage.Some? then p.restartFromStage.value else p.target;
               runs == s.runs[p.runId := run.(stage := p.target, version := run.version + 1,
                                              restartFrom := if restarts then Some(p.target) else run.restartFrom)]
  {
  }

  /**
   Undoing a stage move with nobody in between restores the stage and the
   restart point that the caller named, and nothing else but the version.
   */
  lemma RollbackUndoesMove(runs: map<int, RunStorage.Run>, p: Plan)
    requires RunStorage.Accepts(runs, p.runId, p.expected, p.workspace, {"cancelled"})
    requires runs[p.runId].stage == p.rollbackStage && runs[p.runId].restartFrom == p.rollbackRestart
    ensures var moved := RunStorage.Updated(runs, p.runId, Move(p), p.expected, p.workspace, {"cancelled"});
            var undone := RunStorage.Updated(moved, p.runId, Undo(p), {p.target}, p.workspace, {});
            && AtTarget(moved, p) && undone.Keys == runs.Keys
            && undone[p.runId] == runs[p.runId].(version := runs[p.runId].version + 2)
            && forall id :: id in runs && id != p.runId ==> undone[id] == runs[id]
  {
  }

  /** Once another process has moved the run on, the rollback leaves its stage alone. */
  lemma RollbackSparesOthers(runs: map<int, RunStorage.Run>, p: Plan)
    requires p.runId in runs && runs[p.runId].stage != p.target
    ensures RunStorage.Updated(runs, p.runId, Undo(p), {p.target}, p.workspace, {}) == runs
  {
  }
}
