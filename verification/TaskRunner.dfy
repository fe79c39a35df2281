/**
 The worker process of one delivery: claim the row, check the run's stage, do
 the work, and finish row and run together under the claim.
 */
module TaskRunner {
  import opened Options
  import opened TaskRows
  import opened TaskTracking
  import opened TaskStorage
  import opened TaskTheorems
  import RunStorage

  datatype Config = Config(taskType: string, allowed: set<string>, safe: set<string>, safeFailure: set<string>,
                           successStage: string, successStatus: string, skipStageGuard: bool)

  datatype Work = Succeeds | Fails(reported: string) | Raises

  /** How the work ends, and what all other processes do at each point where they can. */
  datatype Weather = Weather(work: Work, admitted: bool, now: int, beforeStart: seq<Step>, duringStart: seq<Step>,
                             beforeGuard: seq<Step>, duringWork: seq<Step>)
  {
    predicate Good() {
      forall st :: st in beforeStart + duringStart + beforeGuard + duringWork ==> GoodStep(st)
    }
  }

  datatype Verdict = Skipped | Refused | WorkRaised | Finished(accepted: bool)

  function FinishCas(c: Config, runId: int, success: bool): RunCas {
    if success then
      var updates := RunStorage.Updates(Some(c.successStage), Some(c.successStatus), None);
      RunCas(runId, updates, c.safe, None, {"cancelled"})
    else FailCas(runId, c.safeFailure, {"cancelled"})
  }

  function FinishStatus(success: bool): Status {
    if success then Success else Failed
  }

  function FinishCode(success: bool): Option<Text> {
    if success then None else Some(Other("task_result"))
  }

  function FinishMessage(work: Work): Option<Text> {
    if work.Fails? then Some(Other("status=" + work.reported)) else None
  }

  /** The row of an earlier delivery that succeeded at the same work. */
  predicate AlreadyDone(s: Store, celeryId: string, runId: int, taskType: string) {
    && Known(s, celeryId) && RowOf(s, celeryId).status == Success
    && RowOf(s, celeryId).runId == runId && RowOf(s, celeryId).taskType == taskType
  }

  function StartRequest(celeryId: string, runId: int, taskType: string, token: Token, now: int): Request {
    Request(celeryId, runId, taskType, Running, None, Some(token), Some(now))
  }

  function ClaimOf(r: TaskRow, token: Token, now: int): RowOp {
    ClaimRun(Some(token), r.token, now, Some(r.attempt))
  }

  /** The world a start leaves: the lookup sees `seen`, the write happens in `w`; `None` if it is refused. */
  function Started(seen: Store, w: World, celeryId: string, runId: int, taskType: string, token: Token, now: int)
    : Option<World>
  {
    if !Known(seen, celeryId) then
      var q := StartRequest(celeryId, runId, taskType, token, now);
      if CreateResult(w.store, q, now).Some? then Some(w.(store := Created(w.store, q, now))) else None
    else
      var id, op := seen.index[celeryId], ClaimOf(RowOf(seen, celeryId), token, now);
      if RowOf(seen, celeryId).status != Success && Edits(w.store, id, op, 0)
      then Some(w.(store := Edit(w.store, id, op, 0))) else None
  }

  predicate GuardPasses(runs: map<int, RunStorage.Run>, runId: int, c: Config) {
    || c.skipStageGuard
    || (runId in runs && runs[runId].stage in c.allowed && runs[runId].status != "cancelled")
  }

  // ---- What start and end come to ----

  /** A delivery that is started runs under its token, whether its row is new or was claimed. */
  lemma StartedRunsUnder(seen: Store, w: World, celeryId: string, runId: int, taskType: string, token: Token, now: int)
    requires Indexed(w.store) && Started(seen, w, celeryId, runId, taskType, token, now).Some?
    requires Known(seen, celeryId) ==> Known(w.store, celeryId) && w.store.index[celeryId] == seen.index[celeryId]
    ensures var after := Started(seen, w, celeryId, runId, taskType, token, now).value;
            && after == w.(store := after.store) && Known(after.store, celeryId)
            && var r := RowOf(after.store, celeryId);
               && r.status == Running && r.token == Some(token) && r.startedAt == Some(now) && r.finishedAt == None
               && r.code == None && r.message == None
               && (!Known(w.store, celeryId) ==> r.runId == runId && r.taskType == taskType && r.attempt == 1)
  {
  }

  /**
   The end of a delivery that still holds its claim on the run: the row is
   successful, or failed with what the work reported; and the run goes on to the
   stage after the work, or fails, if it is in a stage that allows it and has not
   been cancelled.
   */
  lemma DeliveryEnds(w: World, celeryId: string, runId: int, c: Config, token: Token, work: Work, now: int)
    requires Known(w.store, celeryId) && RowOf(w.store, celeryId).runId == runId
    requires RowOf(w.store, celeryId).status == Running && RowOf(w.store, celeryId).token == Some(token)
    ensures var success := work.Succeeds?;
            var after := FinishedRun(w, celeryId, token, FinishStatus(success), FinishCas(c, runId, success),
                                     FinishCode(success), FinishMessage(work), now);
            && after.usage == w.usage && Known(after.store, celeryId)
            && RowOf(after.store, celeryId)
               == RowOf(w.store, celeryId).(
                    status := if success then Success else Failed, token := None, finishedAt := Some(now),
                    code := if success then None else Some(Other("task_result")),
                    message := match work case Fails(reported) => Some(Other("status=" + reported)) case _ => None)
            && after.runs.Keys == w.runs.Keys && (forall id :: id in w.runs && id != runId ==> after.runs[id] == w.runs[id])
            && (runId in w.runs ==>
                  var run := w.runs[runId];
                  after.runs[runId]
                  == if run.status == "cancelled" || run.stage !in (if success then c.safe else c.safeFailure) then run
                     else run.(stage := if success then c.successStage else "FAILED",
                               status := if success then c.successStatus else "failed", version := run.version + 1))
  {
  }

  /** What others do keeps the row, its task id and its place in the index. */
  lemma {:induction false} RunKeepsRow(w: World, steps: seq<Step>, id: nat)
    requires StoreOk(w.store) && id in w.store.rows && forall st :: st in steps ==> GoodStep(st)
    ensures StoreOk(Run(w, steps).store) && id in Run(w, steps).store.rows
    ensures Run(w, steps).store.rows[id].celeryId == w.store.rows[id].celeryId
    decreases |steps|
  {
    if steps != [] {
      NextKeepsStoreOk(w, steps[0]);
      IdentityStep(w, steps[0], id);
      RunKeepsRow(Next(w, steps[0]), steps[1..], id);
    }
  }

  /** While a row runs under a claim, no start of it succeeds. */
  lemma StartIsExclusive(op: RowOp, r: TaskRow, now: int, t: Token)
    requires RunsUnder(r, t) && (op.ClaimRun? || op.Recreate?)
    ensures Effect(op, r, now).None?
  {
  }

  /**
   A later claim fences an earlier one for good: once another token runs the
   row, a completion by the earlier token changes nothing, unless a start
   installs that token again.
   */
  lemma LaterClaimFencesEarlier(ws: seq<World>, steps: seq<Step>, b: nat, n: nat, id: nat, earlier: Token, later: Token)
    requires IsRun(ws, steps) && b < n < |steps| && earlier != later
    requires UnderClaim(ws[b], id, later)
    requires forall m :: b <= m < n ==> !InstallsClaim(ws[m], steps[m], id, earlier)
    requires CompletesBy(ws[n], steps[n], id, earlier)
    ensures ws[n + 1] == ws[n]
  {
    assert !UnderClaim(ws[b], id, earlier);
    if ws[n + 1] != ws[n] {
      assert ws[n + 1] == Next(ws[n], steps[n]);
      RunIsOk(ws, steps, n);
      var m := UnderClaimSince(ws, steps, n, id, earlier);
    }
  }

  class Worker {
    const tracking: InMemoryTaskTrackingStorage
    const runs: RunStorage.Storage
    const usage: UsageStorage

    constructor (tracking: InMemoryTaskTrackingStorage, runs: RunStorage.Storage, usage: UsageStorage)
      ensures this.tracking == tracking && this.runs == runs && this.usage == usage
    {
      this.tracking, this.runs, this.usage := tracking, runs, usage;
    }

    ghost function Now(): World
      reads tracking, runs, usage
    {
      tracking.Joined(runs, usage)
    }

    method Others(steps: seq<Step>)
      requires StoreOk(tracking.View()) && forall st :: st in steps ==> GoodStep(st)
      modifies tracking, runs, usage
      ensures Now() == Run(old(Now()), steps) && StoreOk(tracking.View())
    {
      RunKeepsStoreOk(Now(), steps);
      tracking.Interfere(runs, usage, steps);
    }

    method StartNew(celeryId: string, runId: int, taskType: string, token: Token, now: int) returns (started: bool)
      requires StoreOk(tracking.View())
      modifies tracking
      ensures StoreOk(tracking.View())
      ensures started ==> Holds(tracking.View(), celeryId, token)
      ensures var q := StartRequest(celeryId, runId, taskType, token, now);
              && tracking.View() == Created(old(tracking.View()), q, now)
              && started == CreateResult(old(tracking.View()), q, now).Some?
      ensures !started ==> tracking.View() == old(tracking.View())
    {
      var q := StartRequest(celeryId, runId, taskType, token, now);
      CreatedKeepsStoreOk(tracking.View(), q, now);
      var row := tracking.CreateTask(q, now);
      return row.Some?;
    }

    method StartExisting(id: nat, celeryId: string, token: Token, seen: TaskRow, now: int) returns (started: bool)
      requires StoreOk(tracking.View()) && id in tracking.rows && tracking.rows[id].celeryId == celeryId
      modifies tracking
      ensures StoreOk(tracking.View())
      ensures started ==> Holds(tracking.View(), celeryId, token)
      ensures tracking.View() == Edit(old(tracking.View()), id, ClaimOf(seen, token, now), 0)
      ensures started == Edits(old(tracking.View()), id, ClaimOf(seen, token, now), 0)
    {
      EditKeepsStoreOk(tracking.View(), id, ClaimOf(seen, token, now), 0);
      var row := tracking.ClaimRunning(id, Some(token), seen.token, now, Some(seen.attempt));
      return row.Some?;
    }

    /**
     Look the row up, then create it running or claim it under the token; others
     act in between.  A start leaves the row running under the token, or changes
     nothing.
     */
    method RecordTaskStart(celeryId: string, runId: int, taskType: string, token: Token, others: seq<Step>, now: int)
      returns (started: bool)
      requires StoreOk(tracking.View()) && forall st :: st in others ==> GoodStep(st)
      modifies tracking, runs, usage
      ensures StoreOk(tracking.View())
      ensures started ==> Holds(tracking.View(), celeryId, token)
      ensures var seen, w := old(tracking.View()), Run(old(Now()), others);
              var start := Started(seen, w, celeryId, runId, taskType, token, now);
              && started == start.Some?
              && Now() == if started then start.value
                          else if Known(seen, celeryId) && RowOf(seen, celeryId).status == Success then old(Now()) else w
    {
      var existing := tracking.Locate(celeryId);
      if existing.None? {
        Others(others);
        started := StartNew(celeryId, runId, taskType, token, now);
        return;
      }
      var id, seen := existing.value, tracking.rows[existing.value];
      if seen.status == Success {
        return false;
      }
      RunKeepsRow(Now(), others, id);
      Others(others);
      started := StartExisting(id, celeryId, token, seen, now);
    }

    /** Whether the run is there, in an allowed stage and not cancelled. */
    method StageGuard(runId: int, config: Config) returns (passes: bool)
      ensures passes == GuardPasses(runs.rows, runId, config)
    {
      if config.skipStageGuard {
        return true;
      }
      if runId !in runs.rows || runs.rows[runId].stage !in config.allowed {
        return false;
      }
      return runs.rows[runId].status != "cancelled";
    }

    /** The delivery's end, in the state `last`: row and run together if the claim still holds, else nothing. */
    ghost predicate Ended(last: World, celeryId: string, runId: int, config: Config, token: Token, x: Weather, accepted: bool)
      reads tracking, runs, usage
    {
      var success := x.work.Succeeds?;
      var holds := Holds(last.store, celeryId, token) && RowOf(last.store, celeryId).runId == runId;
      && Now() == FinishedRun(last, celeryId, token, FinishStatus(success), FinishCas(config, runId, success),
                              FinishCode(success), FinishMessage(x.work), x.now)
      && (!holds ==> Now() == last)
      && (holds ==> Known(tracking.View(), celeryId)
                    && RowOf(tracking.View(), celeryId).status == FinishStatus(success)
                    && RowOf(tracking.View(), celeryId).token == None)
      && (accepted <==> holds && CasAccepted(last.runs, FinishCas(config, runId, success)))
    }

    method Finish(celeryId: string, runId: int, config: Config, token: Token, x: Weather) returns (accepted: bool)
      requires StoreOk(tracking.View())
      modifies tracking, runs
      ensures StoreOk(tracking.View()) && Ended(old(Now()), celeryId, runId, config, token, x, accepted)
    {
      var success := x.work.Succeeds?;
      NextKeepsStoreOk(Now(), FinishRunStep(celeryId, token, FinishStatus(success), FinishCas(config, runId, success),
                                            FinishCode(success), FinishMessage(x.work), x.now));
      accepted := tracking.FinishClaimedRun(runs, usage, celeryId, token, FinishStatus(success),
                                            FinishCas(config, runId, success), FinishCode(success),
                                            FinishMessage(x.work), x.now);
    }

    /**
     One delivery.  The work runs exactly when the row was not done, the start
     was accepted, the guard passes and the reservation is admitted, and then
     only after a claim (`claimed`).  A skipped delivery changes nothing.  At the
     end, in the state `last`, the delivery finishes row and run together if it
     still holds the claim, and does nothing otherwise.
     */
    method RunTask(celeryId: string, runId: int, config: Config, token: Token, x: Weather)
      returns (verdict: Verdict, worked: bool, ghost claimed: World, ghost last: World)
      requires StoreOk(tracking.View()) && x.Good()
      modifies tracking, runs, usage
      ensures worked ==> Holds(claimed.store, celeryId, token)
      ensures worked <==> verdict.WorkRaised? || verdict.Finished?
      ensures if AlreadyDone(old(tracking.View()), celeryId, runId, config.taskType)
              then verdict == Skipped && Now() == old(Now())
              else
                var seen := Run(old(Now()), x.beforeStart);
                var start := Started(seen.store, Run(seen, x.duringStart), celeryId, runId, config.taskType, token, x.now);
                if start.None? then verdict == Skipped && (Now() == seen || Now() == Run(seen, x.duringStart))
                else
                  var guarded := Run(start.value, x.beforeGuard);
                  && claimed == start.value
                  && if !GuardPasses(guarded.runs, runId, config) || !x.admitted then verdict == Refused && Now() == guarded
                     else
                       && last == Run(guarded, x.duringWork)
                       && if x.work.Raises? then verdict == WorkRaised && Now() == last
                          else verdict.Finished? && Ended(last, celeryId, runId, config, token, x, verdict.accepted)
      ensures StoreOk(tracking.View())
    {
      claimed, last := Now(), Now();
      var found := tracking.Locate(celeryId);
      if found.Some? && tracking.rows[found.value].status == Success
         && tracking.rows[found.value].runId == runId && tracking.rows[found.value].taskType == config.taskType {
        return Skipped, false, claimed, last;
      }
      Others(x.beforeStart);
      var started := RecordTaskStart(celeryId, runId, config.taskType, token, x.duringStart, x.now);
      if !started {
        return Skipped, false, claimed, last;
      }
      claimed := Now();
      Others(x.beforeGuard);
      var passes := StageGuard(runId, config);
      if !passes || !x.admitted {
        return Refused, false, claimed, last;
      }
      Others(x.duringWork);
      last := Now();
      if x.work.Raises? {
        return WorkRaised, true, claimed, last;
      }
      var accepted := Finish(celeryId, runId, config, token, x);
      return Finished(accepted), true, claimed, last;
    }
  }
}
