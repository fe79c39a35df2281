/**
 What holds over every run of the task system: claim and lease fencing,
 absorbing success, obligations that are kept until they are discharged once,
 and retries that cleanup cannot clobber.
 */
module TaskTheorems {
  import opened Options
  import opened TaskRows
  import opened TaskTracking
  import RunStorage
  import Traces

  /** A run: states and the steps between them, from an empty task table. */
  ghost predicate IsRun(ws: seq<World>, steps: seq<Step>) {
    && |ws| == |steps| + 1
    && ws[0].store == EmptyStore
    && forall k :: 0 <= k < |steps| ==> GoodStep(steps[k]) && ws[k + 1] == Next(ws[k], steps[k])
  }

  lemma {:induction false} RunIsOk(ws: seq<World>, steps: seq<Step>, n: nat)
    requires IsRun(ws, steps) && n < |ws|
    ensures StoreOk(ws[n].store)
  {
    if n > 0 {
      RunIsOk(ws, steps, n - 1);
      NextKeepsStoreOk(ws[n - 1], steps[n - 1]);
    }
  }

  // ---- What one step does to one row ----

  /** The single-row change that a step asks of a row, with its time. */
  function Touch(w: World, st: Step, id: nat): Option<(RowOp, int)> {
    match st
    case RowStep(i, op, now) => if i == id then Some((op, now)) else None
    case CreateStep(q, now) =>
      if Known(w.store, q.celeryId) && w.store.index[q.celeryId] == id then Some((Recreate(q), now)) else None
    case TransitionStep(q, cas, now) =>
      if CasAccepted(w.runs, cas) && Known(w.store, q.celeryId) && w.store.index[q.celeryId] == id
      then Some((Recreate(q), now)) else None
    case FinishRunStep(c, t, status, cas, code, message, now) =>
      if Holds(w.store, c, t) && RowOf(w.store, c).runId == cas.runId && w.store.index[c] == id
      then Some((FinishClaim(t, status, code, message), now)) else None
    case FailClaimStep(c, t, code, message, _, _, ok, now) =>
      if Holds(w.store, c, t) && ok && w.store.index[c] == id
      then Some((FinishClaim(t, Failed, code, message), now)) else None
    case _ => None
  }

  /** The row a step inserts, if it inserts one under this id. */
  function Insertion(w: World, st: Step, id: nat): Option<Request> {
    match st
    case CreateStep(q, _) => if !Known(w.store, q.celeryId) && id == w.store.nextId then Some(q) else None
    case TransitionStep(q, cas, _) =>
      if CasAccepted(w.runs, cas) && !Known(w.store, q.celeryId) && id == w.store.nextId then Some(q) else None
    case _ => None
  }

  lemma RowAfter(w: World, st: Step, id: nat)
    requires StoreOk(w.store) && GoodStep(st) && id in w.store.rows
    ensures id in Next(w, st).store.rows
    ensures var r, after, touch := w.store.rows[id], Next(w, st).store.rows[id], Touch(w, st, id);
            if touch.Some? then
              && GoodOp(touch.value.0)
              && var e := Effect(touch.value.0, r, touch.value.1);
                 after == if e.Some? then e.value else r
            else after == r || (st.EpochStep? && after == Backfill(r, st.epoch))
  {
    match st
    case RowStep(i, op, now) => EditAfter(w.store, i, op, now, id);
    case CreateStep(q, now) => CreatedAfter(w.store, q, now, id);
    case TransitionStep(q, cas, now) => CreatedAfter(w.store, q, now, id);
    case FinishRunStep(c, t, status, cas, code, message, now) =>
      if Known(w.store, c) {
        EditAfter(w.store, w.store.index[c], FinishClaim(t, status, code, message), now, id);
      }
    case FailClaimStep(c, t, code, message, failing, billing, ok, now) =>
      if Known(w.store, c) {
        EditAfter(w.store, w.store.index[c], FinishClaim(t, Failed, code, message), now, id);
      }
    case EpochStep(_, _, _) =>
    case _ =>
  }

  lemma EditAfter(s: Store, i: nat, op: RowOp, now: int, id: nat)
    requires id in s.rows
    ensures id in Edit(s, i, op, now).rows
    ensures Edit(s, i, op, now).rows[id]
            == if i == id && Effect(op, s.rows[id], now).Some? then Effect(op, s.rows[id], now).value else s.rows[id]
  {
  }

  lemma CreatedAfter(s: Store, q: Request, now: int, id: nat)
    requires StoreOk(s) && id in s.rows
    ensures id in Created(s, q, now).rows
    ensures Created(s, q, now).rows[id]
            == if Known(s, q.celeryId) && s.index[q.celeryId] == id && Effect(Recreate(q), s.rows[id], now).Some?
               then Effect(Recreate(q), s.rows[id], now).value else s.rows[id]
  {
  }

  lemma NewRow(w: World, st: Step, id: nat)
    requires StoreOk(w.store) && GoodStep(st)
    requires id !in w.store.rows && id in Next(w, st).store.rows
    ensures Insertion(w, st, id).Some? && id == w.store.nextId
    ensures exists now :: Next(w, st).store.rows[id] == FreshRow(Insertion(w, st, id).value, now)
  {
    assert Next(w, st).store.rows[id] == FreshRow(Insertion(w, st, id).value, st.now);
  }

  // ---- Claim epochs ----

  predicate UnderClaim(w: World, id: nat, t: Token) {
    id in w.store.rows && RunsUnder(w.store.rows[id], t)
  }

  /** The step installs the claim on the row, by starting it. */
  predicate InstallsClaim(w: World, st: Step, id: nat, t: Token) {
    if id in w.store.rows then Touch(w, st, id).Some? && Installs(Touch(w, st, id).value.0, t)
    else Insertion(w, st, id).Some? && Installs(Recreate(Insertion(w, st, id).value), t)
  }

  /** The step is a worker completing the row by token. */
  predicate CompletesBy(w: World, st: Step, id: nat, t: Token) {
    match st
    case RowStep(i, op, _) => i == id && op.FinishClaim? && op.token == t
    case FinishRunStep(c, token, _, _, _, _, _) => Known(w.store, c) && w.store.index[c] == id && token == t
    case FailClaimStep(c, token, _, _, _, _, _, _) => Known(w.store, c) && w.store.index[c] == id && token == t
    case _ => false
  }

  lemma ClaimStepEntry(w: World, st: Step, id: nat, t: Token)
    requires StoreOk(w.store) && GoodStep(st)
    requires !UnderClaim(w, id, t) && UnderClaim(Next(w, st), id, t)
    ensures InstallsClaim(w, st, id, t)
  {
    if id in w.store.rows {
      RowAfter(w, st, id);
      var touch := Touch(w, st, id);
      if touch.Some? {
        ClaimEntry(touch.value.0, w.store.rows[id], touch.value.1, t);
      }
    } else {
      NewRow(w, st, id);
    }
  }

  /** The row ran without a gap under the claim since step `m` installed it. */
  ghost predicate RunningSince(ws: seq<World>, steps: seq<Step>, m: nat, n: nat, id: nat, t: Token) {
    && m < n < |ws| && m < |steps|
    && InstallsClaim(ws[m], steps[m], id, t)
    && forall k :: m < k <= n ==> UnderClaim(ws[k], id, t)
  }

  lemma UnderClaimSince(ws: seq<World>, steps: seq<Step>, n: nat, id: nat, t: Token) returns (m: nat)
    requires IsRun(ws, steps) && n < |ws| && UnderClaim(ws[n], id, t)
    ensures RunningSince(ws, steps, m, n, id, t) && !UnderClaim(ws[m], id, t)
  {
    m := Traces.LastEntry(ws, w => UnderClaim(w, id, t), n);
    RunIsOk(ws, steps, m);
    assert GoodStep(steps[m]) && ws[m + 1] == Next(ws[m], steps[m]);
    ClaimStepEntry(ws[m], steps[m], id, t);
  }

  /**
   Fencing over whole runs: a completion by token changes anything at all (row,
   run or ledger) only while the row has run without a gap under that token
   since a start installed it.
   */
  lemma ClaimFenced(ws: seq<World>, steps: seq<Step>, n: nat, id: nat, t: Token)
    requires IsRun(ws, steps) && n < |steps|
    requires CompletesBy(ws[n], steps[n], id, t) && ws[n + 1] != ws[n]
    ensures exists m :: RunningSince(ws, steps, m, n, id, t)
  {
    assert ws[n + 1] == Next(ws[n], steps[n]);
    RunIsOk(ws, steps, n);
    var m := UnderClaimSince(ws, steps, n, id, t);
  }

  /** An epoch ends once: a second completion by the same token needs a second start with it. */
  lemma EpochEndsOnce(ws: seq<World>, steps: seq<Step>, n1: nat, n2: nat, id: nat, t: Token)
    requires IsRun(ws, steps) && n1 < n2 < |steps|
    requires CompletesBy(ws[n2], steps[n2], id, t) && ws[n2 + 1] != ws[n2]
    requires UnderClaim(ws[n1], id, t) && !UnderClaim(ws[n1 + 1], id, t)
    ensures exists m :: n1 < m < n2 && InstallsClaim(ws[m], steps[m], id, t)
  {
    assert ws[n2 + 1] == Next(ws[n2], steps[n2]);
    RunIsOk(ws, steps, n2);
    var m := UnderClaimSince(ws, steps, n2, id, t);
    assert n1 < m;
  }

  lemma SuccessStep(w: World, st: Step, id: nat)
    requires StoreOk(w.store) && GoodStep(st)
    requires id in w.store.rows && w.store.rows[id].status == Success
    ensures id in Next(w, st).store.rows && Next(w, st).store.rows[id] == w.store.rows[id]
  {
    RowAfter(w, st, id);
    var touch := Touch(w, st, id);
    if touch.Some? {
      SuccessIsFinal(touch.value.0, w.store.rows[id], touch.value.1);
    }
  }

  /** Success is absorbing: the row never changes again in any way. */
  lemma {:induction false} SuccessAbsorbing(ws: seq<World>, steps: seq<Step>, a: nat, b: nat, id: nat)
    requires IsRun(ws, steps) && a <= b < |ws|
    requires id in ws[a].store.rows && ws[a].store.rows[id].status == Success
    ensures id in ws[b].store.rows && ws[b].store.rows[id] == ws[a].store.rows[id]
  {
    if a < b {
      SuccessAbsorbing(ws, steps, a, b - 1, id);
      RunIsOk(ws, steps, b - 1);
      SuccessStep(ws[b - 1], steps[b - 1], id);
    }
  }

  // ---- Cleanup leases and obligations ----

  predicate UnderLease(w: World, id: nat, t: Token) {
    id in w.store.rows && LeasedUnder(w.store.rows[id], t)
  }

  predicate TakesLease(w: World, st: Step, id: nat, t: Token) {
    Touch(w, st, id).Some? && var op := Touch(w, st, id).value.0; op.ClaimCleanup? && op.token == t
  }

  predicate EndsLeaseBy(st: Step, id: nat, t: Token) {
    st.RowStep? && st.id == id
    && ((st.op.FinishCleanup? && st.op.token == t) || (st.op.ReleaseCleanup? && st.op.token == t))
  }

  /** Only the latest lease holder can finish or release: no takeover lies between its claim and its step. */
  lemma LeaseFenced(ws: seq<World>, steps: seq<Step>, n: nat, id: nat, t: Token)
    requires IsRun(ws, steps) && n < |steps|
    requires EndsLeaseBy(steps[n], id, t) && ws[n + 1] != ws[n]
    ensures exists m :: 0 <= m < n && TakesLease(ws[m], steps[m], id, t)
                        && forall k :: m < k <= n ==> UnderLease(ws[k], id, t)
  {
    assert ws[n + 1] == Next(ws[n], steps[n]);
    RunIsOk(ws, steps, n);
    var m := Traces.LastEntry(ws, w => UnderLease(w, id, t), n);
    RunIsOk(ws, steps, m);
    assert GoodStep(steps[m]) && ws[m + 1] == Next(ws[m], steps[m]);
    if id in ws[m].store.rows {
      RowAfter(ws[m], steps[m], id);
      var touch := Touch(ws[m], steps[m], id);
      if touch.Some? {
        LeaseEntry(touch.value.0, ws[m].store.rows[id], touch.value.1, t);
      }
    } else {
      NewRow(ws[m], steps[m], id);
    }
    assert TakesLease(ws[m], steps[m], id, t);
  }

  predicate OwedIn(w: World, id: nat, marker: Text) {
    id in w.store.rows && Owed(w.store.rows[id]) == Some(marker)
  }

  /** The step finishes the obligation under the current lease. */
  predicate DischargesIn(w: World, st: Step, id: nat) {
    && st.RowStep? && st.id == id && id in w.store.rows
    && Discharges(st.op, w.store.rows[id])
  }

  /** The step is the one status update that no guard protects. */
  predicate OverwritesStatus(st: Step, id: nat) {
    st.RowStep? && st.id == id && st.op.SetStatus?
  }

  lemma ObligationStep(w: World, st: Step, id: nat, marker: Text)
    requires StoreOk(w.store) && GoodStep(st) && OwedIn(w, id, marker)
    requires !DischargesIn(w, st, id) && !OverwritesStatus(st, id)
    ensures OwedIn(Next(w, st), id, marker)
  {
    RowAfter(w, st, id);
    var touch := Touch(w, st, id);
    if touch.Some? {
      ObligationSurvivesIff(touch.value.0, w.store.rows[id], touch.value.1, marker);
    }
  }

  /**
   An obligation is never lost: through any takeovers, releases and crashes it
   stays, under its original marker, until the current lease holder discharges
   it or the unguarded status update overwrites it.
   */
  lemma {:induction false} ObligationKept(ws: seq<World>, steps: seq<Step>, a: nat, b: nat, id: nat, marker: Text)
    requires IsRun(ws, steps) && a <= b < |ws| && OwedIn(ws[a], id, marker)
    requires forall k :: a <= k < b ==> !DischargesIn(ws[k], steps[k], id) && !OverwritesStatus(steps[k], id)
    ensures OwedIn(ws[b], id, marker)
  {
    if a < b {
      ObligationKept(ws, steps, a, b - 1, id, marker);
      RunIsOk(ws, steps, b - 1);
      ObligationStep(ws[b - 1], steps[b - 1], id, marker);
    }
  }

  /** While it is owed the row is failed, keeps its marker, and no step starts it under any claim. */
  lemma OwedRowIsParked(ws: seq<World>, steps: seq<Step>, n: nat, id: nat, marker: Text, st: Step, t: Token)
    requires IsRun(ws, steps) && n < |ws| && OwedIn(ws[n], id, marker) && GoodStep(st)
    ensures var r := ws[n].store.rows[id];
            && r.status == Failed && IsMarker(marker)
            && (r.code == Some(marker) || (r.code == Some(CleanupClaimed) && r.message == Some(marker)))
    ensures !UnderClaim(Next(ws[n], st), id, t)
  {
    RunIsOk(ws, steps, n);
    ParkedStep(ws[n], st, id, t);
  }

  lemma ParkedStep(w: World, st: Step, id: nat, t: Token)
    requires StoreOk(w.store) && GoodStep(st) && id in w.store.rows && Owed(w.store.rows[id]).Some?
    ensures !UnderClaim(Next(w, st), id, t)
  {
    RowAfter(w, st, id);
    var touch := Touch(w, st, id);
    if UnderClaim(Next(w, st), id, t) && touch.Some? {
      ClaimEntry(touch.value.0, w.store.rows[id], touch.value.1, t);
      OwedRowCannotStart(touch.value.0, w.store.rows[id], touch.value.1);
      assert false;
    }
  }

  /** The step puts a compensation marker on a row that owed nothing. */
  predicate Incurs(w: World, st: Step, id: nat) {
    && id in Next(w, st).store.rows && Owed(Next(w, st).store.rows[id]).Some?
    && (id in w.store.rows ==> Owed(w.store.rows[id]).None?)
  }

  /** Discharged at most once: between two discharges the row incurs a new obligation. */
  lemma DischargedOnce(ws: seq<World>, steps: seq<Step>, n1: nat, n2: nat, id: nat)
    requires IsRun(ws, steps) && n1 < n2 < |steps|
    requires DischargesIn(ws[n1], steps[n1], id) && DischargesIn(ws[n2], steps[n2], id)
    ensures exists m :: n1 < m < n2 && Incurs(ws[m], steps[m], id)
  {
    RunIsOk(ws, steps, n1);
    RunIsOk(ws, steps, n2);
    assert GoodStep(steps[n1]) && ws[n1 + 1] == Next(ws[n1], steps[n1]);
    var owes := (w: World) => id in w.store.rows && Owed(w.store.rows[id]).Some?;
    var m := Traces.LastEntry(ws[n1 + 1..], owes, n2 - n1 - 1);
    var k := m + n1 + 1;
    assert ws[n1 + 1..][m] == ws[k] && ws[n1 + 1..][m + 1] == ws[k + 1];
    assert ws[k + 1] == Next(ws[k], steps[k]);
    assert Incurs(ws[k], steps[k], id);
  }

  // ---- Retries ----

  /** A row that shields its run from cleanup of older tasks of its type. */
  predicate Shields(w: World, id: nat, runId: int, taskType: string) {
    && id in w.store.rows
    && w.store.rows[id].runId == runId && w.store.rows[id].taskType == taskType
    && (Active(w.store.rows[id].status) || w.store.rows[id].status == Success)
  }

  lemma IdentityStep(w: World, st: Step, id: nat)
    requires StoreOk(w.store) && GoodStep(st) && id in w.store.rows
    ensures id in Next(w, st).store.rows
    ensures var r, after := w.store.rows[id], Next(w, st).store.rows[id];
            after.runId == r.runId && after.taskType == r.taskType && after.celeryId == r.celeryId
  {
    RowAfter(w, st, id);
    var touch := Touch(w, st, id);
    if touch.Some? && Effect(touch.value.0, w.store.rows[id], touch.value.1).Some? {
      EffectKeepsIdentity(touch.value.0, w.store.rows[id], touch.value.1);
    }
  }

  lemma {:induction false} IdentityKept(ws: seq<World>, steps: seq<Step>, a: nat, b: nat, id: nat)
    requires IsRun(ws, steps) && a <= b < |ws| && id in ws[a].store.rows
    ensures id in ws[b].store.rows
    ensures ws[b].store.rows[id].runId == ws[a].store.rows[id].runId
    ensures ws[b].store.rows[id].taskType == ws[a].store.rows[id].taskType
    ensures ws[b].store.rows[id].celeryId == ws[a].store.rows[id].celeryId
  {
    if a < b {
      IdentityKept(ws, steps, a, b - 1, id);
      RunIsOk(ws, steps, b - 1);
      IdentityStep(ws[b - 1], steps[b - 1], id);
    }
  }

  /**
   A retry is never clobbered: once a transition for a fresh task id has been
   accepted, and while its row is pending, queued, running or successful, the
   rollback of any task of that type that existed before changes nothing.
   */
  lemma RetryNotClobbered(ws: seq<World>, steps: seq<Step>, a: nat, b: nat)
    requires IsRun(ws, steps) && a < b < |steps|
    requires steps[a].TransitionStep? && CasAccepted(ws[a].runs, steps[a].cas)
    requires !Known(ws[a].store, steps[a].q.celeryId)
    requires Shields(ws[b], ws[a].store.nextId, steps[a].q.runId, steps[a].q.taskType)
    requires steps[b].RollbackStep? && steps[b].cas.runId == steps[a].q.runId
    requires Known(ws[b].store, steps[b].celeryId)
    requires var elder := ws[b].store.index[steps[b].celeryId];
             elder in ws[a].store.rows && ws[a].store.rows[elder].taskType == steps[a].q.taskType
    ensures ws[b + 1] == ws[b]
  {
    RunIsOk(ws, steps, a);
    RunIsOk(ws, steps, b);
    var mine, elder := ws[a].store.nextId, ws[b].store.index[steps[b].celeryId];
    IdentityKept(ws, steps, a, b, elder);
    assert elder < mine;
    assert ws[b + 1] == Next(ws[b], steps[b]);
    if OwnsRun(ws[b].store, steps[b].celeryId, steps[b].cas.runId, steps[b].types) {
      assert Newer(ws[b].store, elder, mine);
    }
  }

  /**
   The transition is all or nothing: either the stage moved and a row with the
   requested status exists for the task, or neither table changed.
   */
  lemma TransitionAllOrNothing(w: World, q: Request, cas: RunCas, now: int)
    requires StoreOk(w.store) && GoodRequest(q)
    ensures var after := Transitioned(w, q, cas, now);
            if CasAccepted(w.runs, cas) && CreateResult(w.store, q, now).Some? then
              && after.runs[cas.runId] == RunStorage.Assign(w.runs[cas.runId], cas.updates)
              && Known(after.store, q.celeryId)
              && RowOf(after.store, q.celeryId).status == q.status
              && after.store.rows.Keys == w.store.rows.Keys + {after.store.index[q.celeryId]}
            else after == w
    ensures !Known(w.store, q.celeryId) ==> CreateResult(w.store, q, now).Some?
  {
  }
}
