/**
 What the reconciler's pass does to a task it has leased, told as the plain
 sequence of its storage calls with the steps of others in between.
 */
module ReconcileSchedule {
  import opened Options
  import opened TaskRows
  import opened TaskTracking
  import opened TaskTheorems
  import opened DispatchReconciler

  /** The owner rollback, if it is made. */
  function RollbackCall(t: Listed, x: Weather): seq<Step> {
    if x.rollbackOk
    then [RollbackStep(t.row.celeryId, RunLevelTypes, FailCas(t.row.runId, RollbackStages, ClosedRun))] else []
  }

  /** The cancel of the task's own reservation, if it is made. */
  function CancelCall(t: Listed, x: Weather): seq<Step> {
    if x.cancelOk then [LedgerStep(Cancel(t.row.celeryId))] else []
  }

  /** Phase one rolls back before it cancels, phase two the other way round. */
  function CompensationCalls(first: bool, t: Listed, x: Weather): seq<Step> {
    if first then RollbackCall(t, x) + x.between + CancelCall(t, x)
    else CancelCall(t, x) + x.between + RollbackCall(t, x)
  }

  /** A row that was listed as owing compensation is not marked again. */
  predicate OwesAlready(r: TaskRow) {
    var marker := if r.code == Some(CleanupClaimed) then r.message else r.code;
    marker == Some(PendingCleanup) || marker == Some(StuckCleanup) || marker == Some(BrokerCleanup)
  }

  /** The call that fails the row under its marker. */
  function MarkCall(first: bool, t: Listed, x: Weather): seq<Step> {
    if first && OwesAlready(t.row) then []
    else if first then
      [RowStep(t.id, SetIfPending(Write(Failed, None, Some(x.now), None, Some(PendingCleanup),
                                        Some(Other("Stale pending task requires compensation")))), 0)]
    else
      [RowStep(t.id, SetIfRunning(Write(Failed, None, Some(x.now), None, Some(StuckCleanup),
                                        Some(Other("Task stuck in running state")))), 0)]
  }

  /** The code a task ends under, by the marker it carried. */
  function EndCode(first: bool, r: TaskRow): Text {
    var marker := if r.code == Some(CleanupClaimed) then r.message else r.code;
    if !first then StuckTimeout
    else if marker == Some(StuckCleanup) then StuckTimeout
    else if marker == Some(BrokerCleanup) then BrokerLost
    else ReconcilerRollback
  }

  /** Finalization is called for only after both rollback and cancel were made. */
  function FinishCall(first: bool, t: Listed, x: Weather, token: Token): seq<Step> {
    if x.rollbackOk && x.cancelOk && x.finish != RaisesBefore
    then [RowStep(t.id, FinishCleanup(token, EndCode(first, t.row), Other("compensated")), 0)] else []
  }

  /** The release of the lease, if it is called. */
  function ReleaseCall(t: Listed, token: Token, released: bool): seq<Step> {
    if released then [RowStep(t.id, ReleaseCleanup(token), 0)] else []
  }

  /** Up to the lease: others, the mark and others again. */
  function UpToLease(first: bool, t: Listed, x: Weather, token: Token): seq<Step> {
    x.atStart + MarkCall(first, t, x) + (if first && OwesAlready(t.row) then [] else x.afterMark)
    + [RowStep(t.id, ClaimCleanup(token, 300), x.now)] + x.afterClaim
  }

  /** From the settling of the lease on. */
  function Settling(first: bool, t: Listed, x: Weather, token: Token, released: bool): seq<Step> {
    FinishCall(first, t, x, token) + x.afterFinish + ReleaseCall(t, token, released)
  }

  lemma CallsAreCompensation(first: bool, w: World, t: Listed, x: Weather)
    ensures Run(w, CompensationCalls(first, t, x)) == Compensated(w, t, x, first)
  {
    var a := if first then RollbackCall(t, x) else CancelCall(t, x);
    var b := if first then CancelCall(t, x) else RollbackCall(t, x);
    RunConcat(w, a + x.between, b);
    RunConcat(w, a, x.between);
    RunOne(w, RollbackStep(t.row.celeryId, RunLevelTypes, FailCas(t.row.runId, RollbackStages, ClosedRun)));
    RunOne(w, LedgerStep(Cancel(t.row.celeryId)));
    var v := Run(Run(w, a), x.between);
    RunOne(v, RollbackStep(t.row.celeryId, RunLevelTypes, FailCas(t.row.runId, RollbackStages, ClosedRun)));
    RunOne(v, LedgerStep(Cancel(t.row.celeryId)));
  }

  lemma SettlingIsSettled(first: bool, w: World, t: Listed, x: Weather, token: Token)
    ensures var code := EndCode(first, t.row);
            var released := !Confirms(w, t, x, token, code) && (first || !x.rollbackOk || !x.cancelOk || x.finish != Returns);
            Settled(w, t, x, token, code, first) == Run(w, Settling(first, t, x, token, released))
  {
    var code := EndCode(first, t.row);
    var released := !Confirms(w, t, x, token, code) && (first || !x.rollbackOk || !x.cancelOk || x.finish != Returns);
    RunConcat(w, FinishCall(first, t, x, token) + x.afterFinish, ReleaseCall(t, token, released));
    RunConcat(w, FinishCall(first, t, x, token), x.afterFinish);
    RunOne(w, RowStep(t.id, FinishCleanup(token, code, Other("compensated")), 0));
    RunOne(Run(Run(w, FinishCall(first, t, x, token)), x.afterFinish), RowStep(t.id, ReleaseCleanup(token), 0));
  }

  /** The world in which the row is leased. */
  function BeforeLease(first: bool, w: World, t: Listed, x: Weather): World {
    Run(w, x.atStart + MarkCall(first, t, x) + if first && OwesAlready(t.row) then [] else x.afterMark)
  }

  lemma LeaseIsReached(first: bool, w: World, t: Listed, x: Weather, token: Token)
    ensures Run(w, UpToLease(first, t, x, token))
            == Run(Own(BeforeLease(first, w, t, x), t, ClaimCleanup(token, 300), x.now), x.afterClaim)
  {
    var head := x.atStart + MarkCall(first, t, x) + if first && OwesAlready(t.row) then [] else x.afterMark;
    RunConcat(w, head + [RowStep(t.id, ClaimCleanup(token, 300), x.now)], x.afterClaim);
    RunConcat(w, head, [RowStep(t.id, ClaimCleanup(token, 300), x.now)]);
    RunOne(Run(w, head), RowStep(t.id, ClaimCleanup(token, 300), x.now));
  }

  lemma MarkIsReached(first: bool, w: World, t: Listed, x: Weather)
    ensures BeforeLease(first, w, t, x)
            == if first && OwesAlready(t.row) then Run(w, x.atStart)
               else Run(Own(Run(w, x.atStart), t, MarkOf(first, x.now), 0), x.afterMark)
  {
    if first && OwesAlready(t.row) {
      assert x.atStart + MarkCall(first, t, x) + [] == x.atStart;
    } else {
      RunConcat(w, x.atStart + MarkCall(first, t, x), x.afterMark);
      RunConcat(w, x.atStart, MarkCall(first, t, x));
      RunOne(Run(w, x.atStart), RowStep(t.id, MarkOf(first, x.now), 0));
    }
  }

  lemma LeasedIsSettled(first: bool, w: World, t: Listed, x: Weather, token: Token)
    requires var outcome := Handle(first, w, t, x, token).outcome; outcome == Discharged || outcome == NotConfirmed
    ensures var ready := Ready(BeforeLease(first, w, t, x), t, x, token, first);
            var h := Handle(first, w, t, x, token);
            && h.world == Settled(ready, t, x, token, EndCode(first, t.row), first)
            && (h.outcome == Discharged <==> Confirms(ready, t, x, token, EndCode(first, t.row)))
  {
    MarkIsReached(first, w, t, x);
  }

  lemma ReadyIsRun(first: bool, w: World, t: Listed, x: Weather, token: Token)
    ensures Run(w, UpToLease(first, t, x, token) + CompensationCalls(first, t, x) + x.beforeFinish)
            == Ready(BeforeLease(first, w, t, x), t, x, token, first)
  {
    var leased := Run(w, UpToLease(first, t, x, token));
    RunConcat(w, UpToLease(first, t, x, token) + CompensationCalls(first, t, x), x.beforeFinish);
    RunConcat(w, UpToLease(first, t, x, token), CompensationCalls(first, t, x));
    LeaseIsReached(first, w, t, x, token);
    CallsAreCompensation(first, leased, t, x);
  }

  /**
   A leased task is handled by exactly these calls: the mark, the lease, rollback
   and cancel in the order of the phase, the finalization if both were made, and
   the release of the lease unless the finalization was confirmed; in phase two
   an answered finalization counts as confirmed.
   */
  lemma LeasedTaskIsCalls(first: bool, w: World, t: Listed, x: Weather, token: Token) returns (released: bool)
    requires var outcome := Handle(first, w, t, x, token).outcome; outcome == Discharged || outcome == NotConfirmed
    ensures var h := Handle(first, w, t, x, token);
            && h.world == Run(w, UpToLease(first, t, x, token) + CompensationCalls(first, t, x) + x.beforeFinish
                                 + Settling(first, t, x, token, released))
            && released == (h.outcome != Discharged
                            && (first || !x.rollbackOk || !x.cancelOk || x.finish != Returns))
  {
    LeasedIsSettled(first, w, t, x, token);
    ReadyIsRun(first, w, t, x, token);
    var ready := Ready(BeforeLease(first, w, t, x), t, x, token, first);
    released := !Confirms(ready, t, x, token, EndCode(first, t.row))
                && (first || !x.rollbackOk || !x.cancelOk || x.finish != Returns);
    SettlingIsSettled(first, ready, t, x, token);
    RunConcat(w, UpToLease(first, t, x, token) + CompensationCalls(first, t, x) + x.beforeFinish,
                Settling(first, t, x, token, released));
  }

  /**
   Whatever discharges an obligation, confirmed or not, comes after the rollback
   and the cancel of the same task, and these after the lease: phase one rolls
   back first, phase two cancels first.
   */
  lemma DischargeIsCompensated(first: bool, w: World, t: Listed, x: Weather, token: Token) returns (released: bool)
    requires var outcome := Handle(first, w, t, x, token).outcome; outcome == Discharged || outcome == NotConfirmed
    requires FinishCall(first, t, x, token) != []
    ensures Handle(first, w, t, x, token).outcome == Discharged ==> !released
    ensures var rollback := RollbackStep(t.row.celeryId, RunLevelTypes, FailCas(t.row.runId, RollbackStages, ClosedRun));
            var cancel := LedgerStep(Cancel(t.row.celeryId));
            Handle(first, w, t, x, token).world
            == Run(w, UpToLease(first, t, x, token)
                      + (if first then [rollback] + x.between + [cancel] else [cancel] + x.between + [rollback])
                      + x.beforeFinish + Settling(first, t, x, token, released))
  {
    released := LeasedTaskIsCalls(first, w, t, x, token);
  }

  /**
   A leased task counts as discharged exactly if rollback and cancel were made and
   the finalization answered, and the row was still leased under the task's token
   when it was called.
   */
  lemma ConfirmedIff(first: bool, w: World, t: Listed, x: Weather, token: Token)
    requires var outcome := Handle(first, w, t, x, token).outcome; outcome == Discharged || outcome == NotConfirmed
    ensures var ready := Run(w, UpToLease(first, t, x, token) + CompensationCalls(first, t, x) + x.beforeFinish);
            Handle(first, w, t, x, token).outcome == Discharged
            <==> && x.rollbackOk && x.cancelOk && x.finish == Returns
                 && t.id in ready.store.rows && ready.store.rows[t.id].code == Some(CleanupClaimed)
                 && ready.store.rows[t.id].token == Some(token)
  {
    LeasedIsSettled(first, w, t, x, token);
    ReadyIsRun(first, w, t, x, token);
  }
}
