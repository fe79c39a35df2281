/**
 One reconciliation pass over stale, owed and stuck tasks.  Other processes may
 take any steps between any two of its own, and the enqueue, the rollback, the
 quota cancel and the finalization may each fail for every task.
 */
module DispatchReconciler {
  import opened Options
  import opened TaskRows
  import opened TaskTracking
  import opened TaskTheorems
  import opened TaskStorage
  import RunStorage

  /** A row as a listing query returned it. */
  datatype Listed = Listed(id: nat, row: TaskRow)

  /** How the call that finalizes a row ends: it may also commit and then raise. */
  datatype Fate = Returns | RaisesBefore | RaisesAfter

  /** Everything the environment decides while one task is handled. */
  datatype Weather = Weather(
    enqueueOk: bool, promoteOk: bool, markOk: bool, rollbackOk: bool, cancelOk: bool, finish: Fate, now: int,
    atStart: seq<Step>, afterMark: seq<Step>, afterClaim: seq<Step>, between: seq<Step>,
    beforeFinish: seq<Step>, afterFinish: seq<Step>)

  datatype Outcome = Skipped | Reenqueued | Discharged | NotConfirmed

  /** The world a task leaves behind, what became of the task, and whether phase two failed it. */
  datatype Handled = Handled(world: World, outcome: Outcome, marked: bool)

  const LeaseSeconds: nat := 300

  function MarkedFailed(code: Text, message: string, now: int): Write {
    Write(Failed, None, Some(now), None, Some(code), Some(Other(message)))
  }

  /** The marker of a listed row that already owes compensation. */
  function ListedMarker(r: TaskRow): Option<Text> {
    var m := if r.code == Some(CleanupClaimed) then r.message else r.code;
    if m.Some? && IsMarker(m.value) then m else None
  }

  function FinalCode(marker: Text): Text {
    if marker == StuckCleanup then StuckTimeout
    else if marker == BrokerCleanup then BrokerLost
    else ReconcilerRollback
  }

  function RollbackOf(t: Listed): Step {
    RollbackStep(t.row.celeryId, RunLevelTypes, FailCas(t.row.runId, RollbackStages, ClosedRun))
  }

  // ---- The pass as a function of its environment ----

  function Own(w: World, t: Listed, op: RowOp, now: int): World {
    Next(w, RowStep(t.id, op, now))
  }

  /** The effects of compensation, in the order of the phase, with failures skipped. */
  function Compensated(w: World, t: Listed, x: Weather, rollbackFirst: bool): World {
    var rollback := (v: World) => if x.rollbackOk then Next(v, RollbackOf(t)) else v;
    var cancel := (v: World) => if x.cancelOk then Next(v, LedgerStep(Cancel(t.row.celeryId))) else v;
    if rollbackFirst then cancel(Run(rollback(w), x.between)) else rollback(Run(cancel(w), x.between))
  }

  function Finish(token: Token, code: Text): RowOp {
    FinishCleanup(token, code, Other("compensated"))
  }

  /** Compensation went through, so the pass calls for finalization. */
  predicate Attempts(x: Weather) {
    x.rollbackOk && x.cancelOk
  }

  /** The call returned the finalized row. */
  predicate Confirms(w: World, t: Listed, x: Weather, token: Token, code: Text) {
    Attempts(x) && x.finish == Returns && Edits(w.store, t.id, Finish(token, code), 0)
  }

  function Finalized(w: World, t: Listed, x: Weather, token: Token, code: Text): World {
    if Attempts(x) && x.finish != RaisesBefore then Own(w, t, Finish(token, code), 0) else w
  }

  /** Finalize or release.  Phase two takes a refused finalization for success, and does not release. */
  function Settled(w: World, t: Listed, x: Weather, token: Token, code: Text, first: bool): World {
    var later := Run(Finalized(w, t, x, token, code), x.afterFinish);
    if Confirms(w, t, x, token, code) || (!first && Attempts(x) && x.finish == Returns) then later
    else Own(later, t, ReleaseCleanup(token), 0)
  }

  /** The world just before the lease is settled. */
  function Ready(w: World, t: Listed, x: Weather, token: Token, first: bool): World {
    var claimed := Run(Own(w, t, ClaimCleanup(token, LeaseSeconds), x.now), x.afterClaim);
    Run(Compensated(claimed, t, x, first), x.beforeFinish)
  }

  function Compensate(w: World, t: Listed, x: Weather, token: Token, code: Text, first: bool): Handled {
    if !Edits(w.store, t.id, ClaimCleanup(token, LeaseSeconds), x.now) then Handled(w, Skipped, false)
    else
      var ready := Ready(w, t, x, token, first);
      Handled(Settled(ready, t, x, token, code, first),
              if Confirms(ready, t, x, token, code) then Discharged else NotConfirmed, false)
  }

  function MarkOf(first: bool, now: int): RowOp {
    if first then SetIfPending(MarkedFailed(PendingCleanup, "Stale pending task requires compensation", now))
    else SetIfRunning(MarkedFailed(StuckCleanup, "Task stuck in running state", now))
  }

  /** Phase one: re-enqueue a stale pending task, or else fail and compensate it. */
  function StartOne(w: World, t: Listed, x: Weather, token: Token): Handled {
    var marker := ListedMarker(t.row);
    if marker.Some? then Compensate(w, t, x, token, FinalCode(marker.value), true)
    else if x.enqueueOk then
      if x.promoteOk && Edits(w.store, t.id, Promote, 0) then Handled(Own(w, t, Promote, 0), Reenqueued, false)
      else Handled(w, Skipped, false)
    else if !Edits(w.store, t.id, MarkOf(true, x.now), 0) then Handled(w, Skipped, false)
    else Compensate(Run(Own(w, t, MarkOf(true, x.now), 0), x.afterMark), t, x, token, FinalCode(PendingCleanup), true)
  }

  /** Phase two: fail a task stuck in running, and compensate it. */
  function StartTwo(w: World, t: Listed, x: Weather, token: Token): Handled {
    if !x.markOk || !Edits(w.store, t.id, MarkOf(false, x.now), 0) then Handled(w, Skipped, false)
    else Compensate(Run(Own(w, t, MarkOf(false, x.now), 0), x.afterMark), t, x, token, StuckTimeout, false).(marked := true)
  }

  function Handle(first: bool, w: World, t: Listed, x: Weather, token: Token): Handled {
    var started := Run(w, x.atStart);
    if first then StartOne(started, t, x, token) else StartTwo(started, t, x, token)
  }

  /** A phase so far: the world it leaves and the counts of the pass. */
  datatype Tally = Tally(world: World, reenqueued: nat, rolledBack: nat, stuckFailed: nat)

  function Tallied(y: Tally, h: Handled): Tally {
    Tally(h.world,
          y.reenqueued + (if h.outcome == Reenqueued then 1 else 0),
          y.rolledBack + (if h.outcome == Discharged then 1 else 0),
          y.stuckFailed + (if h.marked then 1 else 0))
  }

  /** The first `n` tasks of a phase, each handled by `h`. */
  function Fold(h: (World, nat) -> Handled, w: World, n: nat): Tally {
    if n == 0 then Tally(w, 0, 0, 0)
    else
      var y := Fold(h, w, n - 1);
      Tallied(y, h(y.world, n - 1))
  }

  /** The token that task `k` of a phase draws. */
  function Draw(me: nat, base: nat, k: nat): Token {
    Token(me, base + k)
  }

  /** `h` handles the listed tasks. */
  ghost predicate Handles(h: (World, nat) -> Handled, first: bool, ts: seq<Listed>, xs: seq<Weather>, me: nat, base: nat) {
    forall w: World, k: nat {:trigger Handle(first, w, ts[k], xs[k], Draw(me, base, k))} ::
      k < |ts| && k < |xs| ==> h(w, k) == Handle(first, w, ts[k], xs[k], Draw(me, base, k))
  }

  /** Past the listing nothing happens. */
  function HandlerOf(first: bool, ts: seq<Listed>, xs: seq<Weather>, me: nat, base: nat): (World, nat) -> Handled {
    (w: World, k: nat) =>
      if k < |ts| && k < |xs| then Handle(first, w, ts[k], xs[k], Draw(me, base, k)) else Handled(w, Skipped, false)
  }

  function Phase(first: bool, w: World, ts: seq<Listed>, xs: seq<Weather>, me: nat, base: nat): Tally {
    Fold(HandlerOf(first, ts, xs, me, base), w, |ts|)
  }

  // ---- What is assumed of the environment ----

  /** Another process never draws our tokens: it never leases a row under one. */
  predicate Foreign(st: Step, me: nat) {
    GoodStep(st) && !(st.RowStep? && st.op.ClaimCleanup? && st.op.token.issuer == me)
  }

  ghost predicate ForeignAll(steps: seq<Step>, me: nat) {
    forall st :: st in steps ==> Foreign(st, me)
  }

  ghost predicate FairWeather(x: Weather, me: nat) {
    && ForeignAll(x.atStart, me) && ForeignAll(x.afterMark, me) && ForeignAll(x.afterClaim, me)
    && ForeignAll(x.between, me) && ForeignAll(x.beforeFinish, me) && ForeignAll(x.afterFinish, me)
  }

  /** The listed row exists in the table under its id. */
  predicate Tracks(w: World, t: Listed) {
    t.id in w.store.rows && w.store.rows[t.id].celeryId == t.row.celeryId
  }

  ghost predicate TracksAll(w: World, ts: seq<Listed>) {
    forall t :: t in ts ==> Tracks(w, t)
  }

  /** No row is leased under a token of this pass, except possibly one row under one token. */
  ghost predicate OnlyLease(w: World, me: nat, exception: Option<(nat, Token)>) {
    forall id :: id in w.store.rows ==>
      w.store.rows[id].code == Some(CleanupClaimed) && w.store.rows[id].token.Some?
      && w.store.rows[id].token.value.issuer == me ==>
        exception == Some((id, w.store.rows[id].token.value))
  }

  ghost predicate NoLease(w: World, me: nat) {
    OnlyLease(w, me, None)
  }

  /** What holds between the tasks of a pass. */
  ghost predicate Standing(w: World, ts: seq<Listed>, me: nat) {
    StoreOk(w.store) && NoLease(w, me) && TracksAll(w, ts)
  }

  /** A listing query answers with rows of the table it sees. */
  ghost predicate Queries(listing: World -> seq<Listed>) {
    forall w :: TracksAll(w, listing(w))
  }

  function FirstOf(xs: nat -> Weather, n: nat): seq<Weather> {
    seq(n, k requires 0 <= k => xs(k))
  }

  // ---- Steps of others keep our books ----

  lemma ForeignStep(w: World, st: Step, me: nat, e: Option<(nat, Token)>)
    requires StoreOk(w.store) && OnlyLease(w, me, e) && Foreign(st, me)
    ensures StoreOk(Next(w, st).store) && OnlyLease(Next(w, st), me, e)
    ensures forall t :: Tracks(w, t) ==> Tracks(Next(w, st), t)
  {
    NextKeepsStoreOk(w, st);
    var after := Next(w, st);
    forall id | id in after.store.rows && after.store.rows[id].code == Some(CleanupClaimed)
                && after.store.rows[id].token.Some? && after.store.rows[id].token.value.issuer == me
      ensures e == Some((id, after.store.rows[id].token.value))
    {
      ForeignLease(w, st, me, id, after.store.rows[id].token.value);
    }
    forall t | Tracks(w, t)
      ensures Tracks(after, t)
    {
      IdentityStep(w, st, t.id);
    }
  }

  lemma ForeignLease(w: World, st: Step, me: nat, id: nat, t: Token)
    requires StoreOk(w.store) && Foreign(st, me) && t.issuer == me && UnderLease(Next(w, st), id, t)
    ensures UnderLease(w, id, t)
  {
    if id in w.store.rows {
      RowAfter(w, st, id);
      var touch := Touch(w, st, id);
      if !UnderLease(w, id, t) && touch.Some? {
        LeaseEntry(touch.value.0, w.store.rows[id], touch.value.1, t);
      }
    } else {
      NewRow(w, st, id);
    }
  }

  lemma {:induction false} ForeignRun(w: World, steps: seq<Step>, me: nat, e: Option<(nat, Token)>)
    requires StoreOk(w.store) && OnlyLease(w, me, e) && ForeignAll(steps, me)
    ensures StoreOk(Run(w, steps).store) && OnlyLease(Run(w, steps), me, e)
    ensures forall t :: Tracks(w, t) ==> Tracks(Run(w, steps), t)
    decreases |steps|
  {
    if steps != [] {
      ForeignStep(w, steps[0], me, e);
      ForeignRun(Next(w, steps[0]), steps[1..], me, e);
    }
  }

  // ---- Our own steps ----

  lemma OwnClaim(w: World, t: Listed, token: Token, now: int)
    requires StoreOk(w.store) && NoLease(w, token.issuer) && Tracks(w, t)
    ensures var after := Own(w, t, ClaimCleanup(token, LeaseSeconds), now);
            StoreOk(after.store) && OnlyLease(after, token.issuer, Some((t.id, token)))
    ensures forall u :: Tracks(w, u) ==> Tracks(Own(w, t, ClaimCleanup(token, LeaseSeconds), now), u)
  {
    NextKeepsStoreOk(w, RowStep(t.id, ClaimCleanup(token, LeaseSeconds), now));
  }

  lemma CompensatedKeeps(w: World, t: Listed, x: Weather, first: bool, me: nat, e: Option<(nat, Token)>)
    requires StoreOk(w.store) && OnlyLease(w, me, e) && FairWeather(x, me)
    ensures StoreOk(Compensated(w, t, x, first).store) && OnlyLease(Compensated(w, t, x, first), me, e)
    ensures forall u :: Tracks(w, u) ==> Tracks(Compensated(w, t, x, first), u)
  {
    var v := if first then (if x.rollbackOk then Next(w, RollbackOf(t)) else w)
             else (if x.cancelOk then Next(w, LedgerStep(Cancel(t.row.celeryId))) else w);
    ForeignStep(w, RollbackOf(t), me, e);
    ForeignRun(v, x.between, me, e);
    ForeignStep(Run(v, x.between), RollbackOf(t), me, e);
  }

  /** Releasing a row that is leased to us restores a marker, because the lease kept it. */
  lemma ReleaseEndsLease(w: World, t: Listed, token: Token)
    requires StoreOk(w.store) && Tracks(w, t)
    ensures var after := Own(w, t, ReleaseCleanup(token), 0);
            && !UnderLease(after, t.id, token)
            && (UnderLease(w, t.id, token) ==> after.store.rows[t.id].code == Owed(w.store.rows[t.id])
                                               && Owed(w.store.rows[t.id]).Some?)
            && (!UnderLease(w, t.id, token) ==> after == w)
  {
    assert RowOk(w.store.rows[t.id]);
  }

  lemma NothingLeft(w: World, me: nat, id: nat, token: Token)
    requires OnlyLease(w, me, Some((id, token))) && !UnderLease(w, id, token)
    ensures NoLease(w, me)
  {
  }

  lemma FinishEndsLease(w: World, t: Listed, token: Token, code: Text)
    requires StoreOk(w.store) && Tracks(w, t) && code != CleanupClaimed && !IsMarker(code)
    ensures var after := Own(w, t, Finish(token, code), 0);
            && !UnderLease(after, t.id, token)
            && (UnderLease(w, t.id, token) <==> Edits(w.store, t.id, Finish(token, code), 0))
            && (UnderLease(w, t.id, token) ==> after.store.rows[t.id].code == Some(code)
                                               && Owed(after.store.rows[t.id]).None?)
  {
  }

  /** A lease exception that is dropped once the row is no longer under the lease. */
  function Rest(w: World, t: Listed, token: Token): Option<(nat, Token)> {
    if UnderLease(w, t.id, token) then Some((t.id, token)) else None
  }

  lemma FinalizedKeeps(w: World, t: Listed, x: Weather, token: Token, code: Text)
    requires StoreOk(w.store) && Tracks(w, t) && code != CleanupClaimed && !IsMarker(code)
    requires OnlyLease(w, token.issuer, Some((t.id, token)))
    ensures var finished := Finalized(w, t, x, token, code);
            StoreOk(finished.store) && OnlyLease(finished, token.issuer, Rest(finished, t, token))
            && forall u :: Tracks(w, u) ==> Tracks(finished, u)
  {
    ForeignStep(w, RowStep(t.id, Finish(token, code), 0), token.issuer, Some((t.id, token)));
    var finished := Finalized(w, t, x, token, code);
    if !UnderLease(finished, t.id, token) {
      NothingLeft(finished, token.issuer, t.id, token);
    }
  }

  lemma ReleasedKeeps(w: World, t: Listed, token: Token, e: Option<(nat, Token)>)
    requires StoreOk(w.store) && Tracks(w, t)
    requires OnlyLease(w, token.issuer, e) && (e.None? || e == Some((t.id, token)))
    ensures var after := Own(w, t, ReleaseCleanup(token), 0);
            StoreOk(after.store) && NoLease(after, token.issuer)
            && forall u :: Tracks(w, u) ==> Tracks(after, u)
  {
    ForeignStep(w, RowStep(t.id, ReleaseCleanup(token), 0), token.issuer, e);
    ReleaseEndsLease(w, t, token);
    if e.Some? {
      NothingLeft(Own(w, t, ReleaseCleanup(token), 0), token.issuer, t.id, token);
    }
  }

  /** Where the pass does not release, the finalization call has ended the lease. */
  lemma NoReleaseNoLease(w: World, t: Listed, x: Weather, token: Token, code: Text)
    requires StoreOk(w.store) && Tracks(w, t) && code != CleanupClaimed && !IsMarker(code)
    requires Attempts(x) && x.finish == Returns
    ensures Rest(Finalized(w, t, x, token, code), t, token).None?
  {
    FinishEndsLease(w, t, token, code);
  }

  lemma SettledLeavesNoLease(w: World, t: Listed, x: Weather, token: Token, code: Text, first: bool)
    requires StoreOk(w.store) && Tracks(w, t) && code != CleanupClaimed && !IsMarker(code)
    requires OnlyLease(w, token.issuer, Some((t.id, token))) && FairWeather(x, token.issuer)
    ensures var after := Settled(w, t, x, token, code, first);
            StoreOk(after.store) && NoLease(after, token.issuer)
            && forall u :: Tracks(w, u) ==> Tracks(after, u)
  {
    var finished := Finalized(w, t, x, token, code);
    FinalizedKeeps(w, t, x, token, code);
    var rest := Rest(finished, t, token);
    ForeignRun(finished, x.afterFinish, token.issuer, rest);
    ReleasedKeeps(Run(finished, x.afterFinish), t, token, rest);
    if Attempts(x) && x.finish == Returns {
      NoReleaseNoLease(w, t, x, token, code);
    }
  }

  lemma ReadyKeeps(w: World, t: Listed, x: Weather, token: Token, first: bool)
    requires StoreOk(w.store) && Tracks(w, t) && NoLease(w, token.issuer) && FairWeather(x, token.issuer)
    ensures var ready := Ready(w, t, x, token, first);
            StoreOk(ready.store) && OnlyLease(ready, token.issuer, Some((t.id, token)))
            && forall u :: Tracks(w, u) ==> Tracks(ready, u)
  {
    var me, e := token.issuer, Some((t.id, token));
    var leased := Own(w, t, ClaimCleanup(token, LeaseSeconds), x.now);
    OwnClaim(w, t, token, x.now);
    ForeignRun(leased, x.afterClaim, me, e);
    var claimed := Run(leased, x.afterClaim);
    CompensatedKeeps(claimed, t, x, first, me, e);
    ForeignRun(Compensated(claimed, t, x, first), x.beforeFinish, me, e);
  }

  lemma CompensateLeavesNoLease(w: World, t: Listed, x: Weather, token: Token, code: Text, first: bool)
    requires StoreOk(w.store) && Tracks(w, t) && code != CleanupClaimed && !IsMarker(code)
    requires NoLease(w, token.issuer) && FairWeather(x, token.issuer)
    ensures var after := Compensate(w, t, x, token, code, first).world;
            StoreOk(after.store) && NoLease(after, token.issuer)
            && forall u :: Tracks(w, u) ==> Tracks(after, u)
  {
    ReadyKeeps(w, t, x, token, first);
    SettledLeavesNoLease(Ready(w, t, x, token, first), t, x, token, code, first);
  }

  lemma MarkKeeps(w: World, t: Listed, x: Weather, op: RowOp, me: nat)
    requires StoreOk(w.store) && NoLease(w, me) && GoodOp(op) && !op.ClaimCleanup? && FairWeather(x, me)
    ensures var after := Run(Own(w, t, op, 0), x.afterMark);
            StoreOk(after.store) && NoLease(after, me) && forall u :: Tracks(w, u) ==> Tracks(after, u)
  {
    ForeignStep(w, RowStep(t.id, op, 0), me, None);
    ForeignRun(Own(w, t, op, 0), x.afterMark, me, None);
  }

  /** However those calls fail and whoever interferes, handling a listed row leaves none leased under its token. */
  lemma HandleLeavesNoLease(first: bool, w0: World, t: Listed, x: Weather, token: Token)
    requires StoreOk(w0.store) && Tracks(w0, t) && NoLease(w0, token.issuer) && FairWeather(x, token.issuer)
    ensures var after := Handle(first, w0, t, x, token).world;
            StoreOk(after.store) && NoLease(after, token.issuer)
            && forall u :: Tracks(w0, u) ==> Tracks(after, u)
  {
    ForeignRun(w0, x.atStart, token.issuer, None);
    if first {
      PhaseOneLeavesNoLease(Run(w0, x.atStart), t, x, token);
    } else {
      PhaseTwoLeavesNoLease(Run(w0, x.atStart), t, x, token);
    }
  }

  lemma PhaseOneLeavesNoLease(w: World, t: Listed, x: Weather, token: Token)
    requires StoreOk(w.store) && Tracks(w, t) && NoLease(w, token.issuer) && FairWeather(x, token.issuer)
    ensures var after := StartOne(w, t, x, token).world;
            StoreOk(after.store) && NoLease(after, token.issuer)
            && forall u :: Tracks(w, u) ==> Tracks(after, u)
  {
    if ListedMarker(t.row).Some? {
      CompensateLeavesNoLease(w, t, x, token, FinalCode(ListedMarker(t.row).value), true);
    } else if x.enqueueOk {
      ForeignStep(w, RowStep(t.id, Promote, 0), token.issuer, None);
    } else {
      MarkKeeps(w, t, x, MarkOf(true, x.now), token.issuer);
      CompensateLeavesNoLease(Run(Own(w, t, MarkOf(true, x.now), 0), x.afterMark), t, x, token,
                              FinalCode(PendingCleanup), true);
    }
  }

  lemma PhaseTwoLeavesNoLease(w: World, t: Listed, x: Weather, token: Token)
    requires StoreOk(w.store) && Tracks(w, t) && NoLease(w, token.issuer) && FairWeather(x, token.issuer)
    ensures var after := StartTwo(w, t, x, token).world;
            StoreOk(after.store) && NoLease(after, token.issuer)
            && forall u :: Tracks(w, u) ==> Tracks(after, u)
  {
    MarkKeeps(w, t, x, MarkOf(false, x.now), token.issuer);
    CompensateLeavesNoLease(Run(Own(w, t, MarkOf(false, x.now), 0), x.afterMark), t, x, token, StuckTimeout, false);
  }

  ghost predicate Within(ts: seq<Listed>, all: seq<Listed>) {
    forall t :: t in ts ==> t in all
  }

  lemma HandleKeepsStanding(first: bool, w: World, t: Listed, x: Weather, token: Token, all: seq<Listed>)
    requires Standing(w, all, token.issuer) && t in all && FairWeather(x, token.issuer)
    ensures Standing(Handle(first, w, t, x, token).world, all, token.issuer)
  {
    HandleLeavesNoLease(first, w, t, x, token);
  }

  /** However these calls fail and whoever interferes, no task of a phase leaves a row leased under a token of the pass. */
  lemma {:induction false} PhaseKeepsStanding(first: bool, w: World, ts: seq<Listed>, xs: seq<Weather>,
                                              me: nat, base: nat, n: nat, all: seq<Listed>)
    requires n <= |ts| == |xs| && Standing(w, all, me) && Within(ts, all)
    requires forall x :: x in xs ==> FairWeather(x, me)
    ensures Standing(Fold(HandlerOf(first, ts, xs, me, base), w, n).world, all, me)
  {
    if n > 0 {
      PhaseKeepsStanding(first, w, ts, xs, me, base, n - 1, all);
      assert ts[n - 1] in ts && xs[n - 1] in xs;
      HandleKeepsStanding(first, Fold(HandlerOf(first, ts, xs, me, base), w, n - 1).world, ts[n - 1], xs[n - 1],
                          Draw(me, base, n - 1), all);
    }
  }

  /**
   A pass that dies holding a lease, as when the claim or the release itself
   raises, leaves the row leased.  Another pass takes it over exactly once the
   lease has run out, and still finds the marker.
   */
  lemma AbandonedLeaseIsTakenOver(r: TaskRow, token: Token, now: int, other: Token, later: int)
    requires Effect(ClaimCleanup(token, LeaseSeconds), r, now).Some?
    ensures var leased := Effect(ClaimCleanup(token, LeaseSeconds), r, now).value;
            var again := Effect(ClaimCleanup(other, LeaseSeconds), leased, later);
            && (again.Some? <==> now < later - LeaseSeconds)
            && (again.Some? ==> again.value == leased.(token := Some(other), finishedAt := Some(later)))
            && leased.message == if r.code == Some(CleanupClaimed) then r.message else r.code
  {
  }

  // ---- Finalized, restored, or held by another ----

  /** The steps neither overwrite the row's status nor finish its cleanup. */
  ghost predicate Quiet(steps: seq<Step>, id: nat) {
    forall st :: st in steps ==>
      GoodStep(st) && !(st.RowStep? && st.id == id && (st.op.SetStatus? || st.op.FinishCleanup?))
  }

  lemma {:induction false} QuietRun(w: World, steps: seq<Step>, id: nat, marker: Text)
    requires StoreOk(w.store) && OwedIn(w, id, marker) && Quiet(steps, id)
    ensures StoreOk(Run(w, steps).store) && OwedIn(Run(w, steps), id, marker)
    decreases |steps|
  {
    if steps != [] {
      NextKeepsStoreOk(w, steps[0]);
      ObligationStep(w, steps[0], id, marker);
      QuietRun(Next(w, steps[0]), steps[1..], id, marker);
    }
  }

  lemma QuietCompensation(w: World, t: Listed, x: Weather, first: bool, marker: Text)
    requires StoreOk(w.store) && OwedIn(w, t.id, marker) && Quiet(x.between, t.id)
    ensures StoreOk(Compensated(w, t, x, first).store) && OwedIn(Compensated(w, t, x, first), t.id, marker)
  {
    QuietRun(if first then (if x.rollbackOk then Next(w, RollbackOf(t)) else w)
             else (if x.cancelOk then Next(w, LedgerStep(Cancel(t.row.celeryId))) else w), x.between, t.id, marker);
  }

  lemma ReadyOwes(w: World, t: Listed, x: Weather, token: Token, first: bool, marker: Text)
    requires StoreOk(w.store) && OwedIn(w, t.id, marker)
    requires Edits(w.store, t.id, ClaimCleanup(token, LeaseSeconds), x.now)
    requires Quiet(x.afterClaim, t.id) && Quiet(x.between, t.id) && Quiet(x.beforeFinish, t.id)
    ensures var ready := Ready(w, t, x, token, first);
            StoreOk(ready.store) && OwedIn(ready, t.id, marker)
  {
    var st := RowStep(t.id, ClaimCleanup(token, LeaseSeconds), x.now);
    NextKeepsStoreOk(w, st);
    ObligationStep(w, st, t.id, marker);
    QuietRun(Next(w, st), x.afterClaim, t.id, marker);
    var claimed := Run(Next(w, st), x.afterClaim);
    QuietCompensation(claimed, t, x, first, marker);
    QuietRun(Compensated(claimed, t, x, first), x.beforeFinish, t.id, marker);
  }

  lemma SettledOwes(w: World, t: Listed, x: Weather, token: Token, code: Text, first: bool, marker: Text)
    requires StoreOk(w.store) && OwedIn(w, t.id, marker) && Quiet(x.afterFinish, t.id)
    requires Finalized(w, t, x, token, code) == w
    ensures OwedIn(Settled(w, t, x, token, code, first), t.id, marker)
  {
    QuietRun(w, x.afterFinish, t.id, marker);
    ReleaseKeepsOwed(Run(w, x.afterFinish), t, token, marker);
  }

  /** The finalization commits: the lease is still ours, and compensation went through. */
  predicate Commits(w: World, t: Listed, x: Weather, token: Token) {
    UnderLease(w, t.id, token) && Attempts(x) && x.finish != RaisesBefore
  }

  lemma NoCommitNoChange(w: World, t: Listed, x: Weather, token: Token, code: Text)
    requires StoreOk(w.store) && Tracks(w, t) && !Commits(w, t, x, token)
    ensures Finalized(w, t, x, token, code) == w
  {
  }

  /**
   What becomes of the obligation of a row the pass has leased, while nobody
   else finishes the row or overwrites its status: it is discharged, under the
   final code, exactly when the lease is still ours, compensation went through
   and the finalization committed; otherwise it is still owed under the marker
   it had, restored or in the hands of whoever took the lease over.
   */
  lemma ObligationSettledIff(w: World, t: Listed, x: Weather, token: Token, code: Text, first: bool, marker: Text)
    requires StoreOk(w.store) && Tracks(w, t) && OwedIn(w, t.id, marker) && NoLease(w, token.issuer)
    requires code != CleanupClaimed && !IsMarker(code) && FairWeather(x, token.issuer)
    requires Edits(w.store, t.id, ClaimCleanup(token, LeaseSeconds), x.now)
    requires Quiet(x.afterClaim, t.id) && Quiet(x.between, t.id) && Quiet(x.beforeFinish, t.id)
    requires Quiet(x.afterFinish, t.id)
    ensures var ready := Ready(w, t, x, token, first);
            var final := Settled(ready, t, x, token, code, first);
            if Commits(ready, t, x, token)
            then var done := Finalized(ready, t, x, token, code);
                 t.id in done.store.rows && done.store.rows[t.id].code == Some(code)
                 && Owed(done.store.rows[t.id]).None?
            else OwedIn(final, t.id, marker)
  {
    ReadyOwes(w, t, x, token, first, marker);
    ReadyKeeps(w, t, x, token, first);
    var ready := Ready(w, t, x, token, first);
    if Commits(ready, t, x, token) {
      FinishEndsLease(ready, t, token, code);
    } else {
      NoCommitNoChange(ready, t, x, token, code);
      SettledOwes(ready, t, x, token, code, first, marker);
    }
  }

  lemma ReleaseKeepsOwed(w: World, t: Listed, token: Token, marker: Text)
    requires StoreOk(w.store) && OwedIn(w, t.id, marker)
    ensures OwedIn(Own(w, t, ReleaseCleanup(token), 0), t.id, marker)
  {
    ObligationStep(w, RowStep(t.id, ReleaseCleanup(token), 0), t.id, marker);
  }

  // ---- The pass itself ----

  datatype ReconcileResult = ReconcileResult(reenqueued: nat, rolledBack: nat, stuckFailed: nat)

  /** A task id and the row id of a listed row name the same row. */
  lemma ByTaskIsById(w: World, t: Listed, op: RowOp, now: int)
    requires StoreOk(w.store) && Tracks(w, t)
    ensures w.(store := EditByTask(w.store, t.row.celeryId, op, now)) == Own(w, t, op, now)
    ensures EditByTaskResult(w.store, t.row.celeryId, op, now).Some? == Edits(w.store, t.id, op, now)
  {
  }

  class Reconciler {
    const tracking: InMemoryTaskTrackingStorage
    const runs: RunStorage.Storage
    const usage: UsageStorage
    const me: nat

    constructor (tracking: InMemoryTaskTrackingStorage, runs: RunStorage.Storage, usage: UsageStorage, me: nat)
      ensures this.tracking == tracking && this.runs == runs && this.usage == usage && this.me == me
    {
      this.tracking, this.runs, this.usage, this.me := tracking, runs, usage, me;
    }

    function Now(): World
      reads tracking, runs, usage
    {
      tracking.Joined(runs, usage)
    }

    method CallRollback(t: Listed, ok: bool)
      modifies runs
      ensures Now() == if ok then Next(old(Now()), RollbackOf(t)) else old(Now())
    {
      if ok {
        var _ := tracking.RollbackRunIfTaskOwner(runs, usage, t.row.celeryId, RunLevelTypes,
                                                 FailCas(t.row.runId, RollbackStages, ClosedRun));
      }
    }

    method CallCancel(t: Listed, ok: bool)
      modifies usage
      ensures Now() == if ok then Next(old(Now()), LedgerStep(Cancel(t.row.celeryId))) else old(Now())
    {
      if ok {
        usage.calls := usage.calls + [Cancel(t.row.celeryId)];
      }
    }

    /** Claim the cleanup lease and try to compensate the task. */
    method TakeAndCompensate(t: Listed, x: Weather, token: Token, first: bool) returns (claimed: bool)
      requires StoreOk(Now().store) && Tracks(Now(), t) && NoLease(Now(), token.issuer) && FairWeather(x, token.issuer)
      modifies tracking, runs, usage
      ensures claimed == Edits(old(Now()).store, t.id, ClaimCleanup(token, LeaseSeconds), x.now)
      ensures Now() == if claimed then Ready(old(Now()), t, x, token, first) else old(Now())
    {
      var row := tracking.ClaimReconciliation(t.id, token, LeaseSeconds, x.now);
      if row.None? {
        return false;
      }
      tracking.Interfere(runs, usage, x.afterClaim);
      if first {
        CallRollback(t, x.rollbackOk);
        tracking.Interfere(runs, usage, x.between);
        CallCancel(t, x.cancelOk);
      } else {
        CallCancel(t, x.cancelOk);
        tracking.Interfere(runs, usage, x.between);
        CallRollback(t, x.rollbackOk);
      }
      tracking.Interfere(runs, usage, x.beforeFinish);
      return true;
    }

    /** Finalize the row, or release the lease. */
    method Settle(t: Listed, x: Weather, token: Token, code: Text, first: bool) returns (confirmed: bool)
      requires StoreOk(Now().store) && Tracks(Now(), t) && OnlyLease(Now(), token.issuer, Some((t.id, token)))
      requires FairWeather(x, token.issuer) && code != CleanupClaimed && !IsMarker(code)
      modifies tracking, runs, usage
      ensures Now() == Settled(old(Now()), t, x, token, code, first)
      ensures confirmed == Confirms(old(Now()), t, x, token, code)
    {
      var cleanupOk := x.rollbackOk && x.cancelOk;
      confirmed := false;
      ByTaskIsById(Now(), t, Finish(token, code), 0);
      FinalizedKeeps(Now(), t, x, token, code);
      ghost var finished := Finalized(Now(), t, x, token, code);
      ForeignRun(finished, x.afterFinish, token.issuer, Rest(finished, t, token));
      if cleanupOk {
        if x.finish == RaisesBefore {
          cleanupOk := false;
        } else {
          var row := tracking.FinishReconciliation(t.row.celeryId, token, code, Other("compensated"));
          confirmed := x.finish == Returns && row.Some?;
          cleanupOk := x.finish == Returns && (row.Some? || !first);
        }
      }
      assert Now() == finished;
      tracking.Interfere(runs, usage, x.afterFinish);
      if !cleanupOk {
        ByTaskIsById(Now(), t, ReleaseCleanup(token), 0);
        var _ := tracking.ReleaseReconciliation(t.row.celeryId, token);
      }
    }

    method CompensateTask(t: Listed, x: Weather, token: Token, code: Text, first: bool) returns (outcome: Outcome)
      requires StoreOk(Now().store) && Tracks(Now(), t) && NoLease(Now(), token.issuer) && FairWeather(x, token.issuer)
      requires code != CleanupClaimed && !IsMarker(code)
      modifies tracking, runs, usage
      ensures Now() == Compensate(old(Now()), t, x, token, code, first).world
      ensures outcome == Compensate(old(Now()), t, x, token, code, first).outcome
    {
      ReadyKeeps(Now(), t, x, token, first);
      var claimed := TakeAndCompensate(t, x, token, first);
      if !claimed {
        return Skipped;
      }
      var confirmed := Settle(t, x, token, code, first);
      outcome := if confirmed then Discharged else NotConfirmed;
    }

    method TryPromote(t: Listed, x: Weather) returns (promoted: bool)
      requires StoreOk(Now().store) && Tracks(Now(), t)
      modifies tracking
      ensures promoted == (x.promoteOk && Edits(old(Now()).store, t.id, Promote, 0))
      ensures Now() == if promoted then Own(old(Now()), t, Promote, 0) else old(Now())
    {
      if !x.promoteOk {
        return false;
      }
      ByTaskIsById(Now(), t, Promote, 0);
      var row := tracking.PromotePendingToQueued(t.row.celeryId);
      return row.Some?;
    }

    /** Fail the row under a compensation marker, unless it has already moved on. */
    method Mark(t: Listed, x: Weather, first: bool) returns (marked: bool)
      requires StoreOk(Now().store) && NoLease(Now(), me) && FairWeather(x, me)
      modifies tracking, runs, usage
      ensures marked == Edits(old(Now()).store, t.id, MarkOf(first, x.now), 0)
      ensures Now() == if marked then Run(Own(old(Now()), t, MarkOf(first, x.now), 0), x.afterMark) else old(Now())
      ensures StoreOk(Now().store) && NoLease(Now(), me)
      ensures forall u :: Tracks(old(Now()), u) ==> Tracks(Now(), u)
    {
      MarkKeeps(Now(), t, x, MarkOf(first, x.now), me);
      var row;
      if first {
        row := tracking.UpdateTaskStatusIfPending(t.id, MarkOf(true, x.now).w);
      } else {
        row := tracking.UpdateTaskStatusIfRunning(t.id, MarkOf(false, x.now).w);
      }
      if row.None? {
        return false;
      }
      tracking.Interfere(runs, usage, x.afterMark);
      return true;
    }

    method StartStale(t: Listed, x: Weather, token: Token) returns (outcome: Outcome)
      requires StoreOk(Now().store) && Tracks(Now(), t) && NoLease(Now(), me) && FairWeather(x, me)
      requires token.issuer == me
      modifies tracking, runs, usage
      ensures Now() == StartOne(old(Now()), t, x, token).world
      ensures outcome == StartOne(old(Now()), t, x, token).outcome
    {
      var marker := ListedMarker(t.row);
      if marker.Some? {
        outcome := CompensateTask(t, x, token, FinalCode(marker.value), true);
      } else if x.enqueueOk {
        var promoted := TryPromote(t, x);
        outcome := if promoted then Reenqueued else Skipped;
      } else {
        var marked := Mark(t, x, true);
        if !marked {
          return Skipped;
        }
        outcome := CompensateTask(t, x, token, FinalCode(PendingCleanup), true);
      }
    }

    method StartStuck(t: Listed, x: Weather, token: Token) returns (marked: bool)
      requires StoreOk(Now().store) && Tracks(Now(), t) && NoLease(Now(), me) && FairWeather(x, me)
      requires token.issuer == me
      modifies tracking, runs, usage
      ensures Now() == StartTwo(old(Now()), t, x, token).world
      ensures marked == StartTwo(old(Now()), t, x, token).marked
    {
      if !x.markOk {
        return false;
      }
      marked := Mark(t, x, false);
      if marked {
        var _ := CompensateTask(t, x, token, StuckTimeout, false);
      }
    }

    method HandleStale(ghost ts: seq<Listed>, t: Listed, x: Weather, token: Token) returns (outcome: Outcome)
      requires Standing(Now(), ts, me) && t in ts && FairWeather(x, me) && token.issuer == me
      modifies tracking, runs, usage
      ensures Now() == Handle(true, old(Now()), t, x, token).world
      ensures outcome == Handle(true, old(Now()), t, x, token).outcome
      ensures Standing(Now(), ts, me)
    {
      HandleLeavesNoLease(true, Now(), t, x, token);
      ForeignRun(Now(), x.atStart, me, None);
      tracking.Interfere(runs, usage, x.atStart);
      outcome := StartStale(t, x, token);
    }

    method HandleStuck(ghost ts: seq<Listed>, t: Listed, x: Weather, token: Token) returns (marked: bool)
      requires Standing(Now(), ts, me) && t in ts && FairWeather(x, me) && token.issuer == me
      modifies tracking, runs, usage
      ensures Now() == Handle(false, old(Now()), t, x, token).world
      ensures marked == Handle(false, old(Now()), t, x, token).marked
      ensures Standing(Now(), ts, me)
    {
      HandleLeavesNoLease(false, Now(), t, x, token);
      ForeignRun(Now(), x.atStart, me, None);
      tracking.Interfere(runs, usage, x.atStart);
      marked := StartStuck(t, x, token);
    }

    method HandleNth(first: bool, ghost h: (World, nat) -> Handled, ts: seq<Listed>, xs: seq<Weather>, base: nat,
                     k: nat, ghost all: seq<Listed>)
      returns (outcome: Outcome, marked: bool)
      requires k < |ts| == |xs| && Handles(h, first, ts, xs, me, base)
      requires Standing(Now(), all, me) && ts[k] in all && FairWeather(xs[k], me)
      modifies tracking, runs, usage
      ensures Standing(Now(), all, me) && Now() == h(old(Now()), k).world
      ensures first ==> outcome == h(old(Now()), k).outcome
      ensures !first ==> marked == h(old(Now()), k).marked
    {
      outcome, marked := Skipped, false;
      if first {
        outcome := HandleStale(all, ts[k], xs[k], Draw(me, base, k));
      } else {
        marked := HandleStuck(all, ts[k], xs[k], Draw(me, base, k));
      }
    }

    method HandleAllStale(ghost h: (World, nat) -> Handled, stale: seq<Listed>, xs: seq<Weather>, ghost all: seq<Listed>)
      returns (reenqueued: nat, rolledBack: nat)
      requires |stale| == |xs| && Standing(Now(), all, me) && Within(stale, all)
      requires Handles(h, true, stale, xs, me, 0)
      requires forall x :: x in xs ==> FairWeather(x, me)
      modifies tracking, runs, usage
      ensures Standing(Now(), all, me)
      ensures var y := Fold(h, old(Now()), |stale|);
              Now() == y.world && reenqueued == y.reenqueued && rolledBack == y.rolledBack
    {
      reenqueued, rolledBack := 0, 0;
      ghost var w0 := Now();
      for k := 0 to |stale|
        invariant Standing(Now(), all, me)
        invariant var y := Fold(h, w0, k);
                  Now() == y.world && reenqueued == y.reenqueued && rolledBack == y.rolledBack
      {
        var outcome, _ := HandleNth(true, h, stale, xs, 0, k, all);
        rolledBack := rolledBack + if outcome == Discharged then 1 else 0;
        reenqueued := reenqueued + if outcome == Reenqueued then 1 else 0;
      }
    }

    method HandleAllStuck(ghost h: (World, nat) -> Handled, stuck: seq<Listed>, ys: seq<Weather>, base: nat,
                          ghost all: seq<Listed>)
      returns (stuckFailed: nat)
      requires |stuck| == |ys| && Standing(Now(), all, me) && Within(stuck, all)
      requires Handles(h, false, stuck, ys, me, base)
      requires forall x :: x in ys ==> FairWeather(x, me)
      modifies tracking, runs, usage
      ensures Standing(Now(), all, me)
      ensures var y := Fold(h, old(Now()), |stuck|); Now() == y.world && stuckFailed == y.stuckFailed
    {
      stuckFailed := 0;
      ghost var w0 := Now();
      for k := 0 to |stuck|
        invariant Standing(Now(), all, me)
        invariant var y := Fold(h, w0, k); Now() == y.world && stuckFailed == y.stuckFailed
      {
        var _, marked := HandleNth(false, h, stuck, ys, base, k, all);
        if marked {
          stuckFailed := stuckFailed + 1;
        }
      }
    }

    /**
     One pass.  `stale` is the first listing: the stale pending rows followed by
     the rows owing cleanup.  The stuck rows are listed after phase one, in a
     world that others may have changed by then.  However the calls fail and
     whatever other processes do, no row is left leased under a token of this
     pass, and `rolledBack` counts the confirmed finalizations of phase one.
     */
    method Reconcile(stale: seq<Listed>, xs: seq<Weather>, between: seq<Step>,
                     stuckOf: World -> seq<Listed>, ys: nat -> Weather)
      returns (result: ReconcileResult)
      requires |stale| == |xs| && Standing(Now(), stale, me) && Queries(stuckOf) && ForeignAll(between, me)
      requires (forall x :: x in xs ==> FairWeather(x, me)) && forall k :: FairWeather(ys(k), me)
      modifies tracking, runs, usage
      ensures NoLease(Now(), me) && StoreOk(Now().store)
      ensures var one := Phase(true, old(Now()), stale, xs, me, 0);
              var listed := Run(one.world, between);
              var two := Phase(false, listed, stuckOf(listed), FirstOf(ys, |stuckOf(listed)|), me, |stale|);
              && Now() == two.world
              && result == ReconcileResult(one.reenqueued, one.rolledBack, two.stuckFailed)
    {
      var reenqueued, rolledBack := HandleAllStale(HandlerOf(true, stale, xs, me, 0), stale, xs, stale);
      ForeignRun(Now(), between, me, None);
      tracking.Interfere(runs, usage, between);
      var stuck := stuckOf(tracking.Joined(runs, usage));
      var weather := FirstOf(ys, |stuck|);
      var stuckFailed := HandleAllStuck(HandlerOf(false, stuck, weather, me, |stale|), stuck, weather, |stale|, stuck);
      result := ReconcileResult(reenqueued, rolledBack, stuckFailed);
    }
  }
}
