/** What a reconciliation pass leaves behind when no other process comes between its calls. */
module ReconcileOutcome {
  import opened Options
  import opened TaskRows
  import opened TaskTracking
  import opened DispatchReconciler
  import opened ReconcileSchedule
  import opened RunRollbacks
  import RunStorage

  predicate Calm(x: Weather) {
    && x.atStart == [] && x.afterMark == [] && x.afterClaim == [] && x.between == []
    && x.beforeFinish == [] && x.afterFinish == []
  }

  // ---- One task ----

  /**
   The pass leases the row: in phase one a row that owes compensation, unless it
   is leased and that lease has not run out, or a pending row whose enqueue
   failed; in phase two a running row that could be marked.
   */
  predicate Leases(first: bool, r: TaskRow, x: Weather) {
    if !first then x.markOk && r.status == Running
    else if OwesAlready(r) then
      && r.status == Failed
      && (r.code == Some(CleanupClaimed) ==> r.finishedAt.Some? && r.finishedAt.value < x.now - 300)
    else !x.enqueueOk && r.status == Pending
  }

  /** A stale task that was enqueued again. */
  predicate Requeues(first: bool, r: TaskRow, x: Weather) {
    first && !OwesAlready(r) && x.enqueueOk && x.promoteOk && r.status == Pending
  }

  /** Rollback and cancel were made, and so was the finalization. */
  predicate Discharges(x: Weather) {
    x.rollbackOk && x.cancelOk && x.finish != RaisesBefore
  }

  function Marker(first: bool, r: TaskRow): Option<Text> {
    if !first then Some(StuckCleanup)
    else if !OwesAlready(r) then Some(PendingCleanup)
    else if r.code == Some(CleanupClaimed) then r.message else r.code
  }

  /** The row as the pass leaves it: discharged, or owing again what it owed. */
  function LeftRow(first: bool, r: TaskRow, x: Weather): TaskRow {
    if Leases(first, r, x) then
      r.(status := Failed, finishedAt := Some(x.now), token := None,
         code := if Discharges(x) then Some(EndCode(first, r)) else Marker(first, r),
         message := Some(Other(if Discharges(x) then "compensated" else "Cleanup retry required")))
    else if Requeues(first, r, x) then r.(status := Queued)
    else r
  }

  function CancelOf(first: bool, t: Listed, x: Weather): seq<UsageCall> {
    if Leases(first, t.row, x) && x.cancelOk then [Cancel(t.row.celeryId)] else []
  }

  function TurnOf(first: bool, t: Listed, x: Weather): Turn {
    Turn(t.id, t.row, Leases(first, t.row, x), Leases(first, t.row, x) && x.rollbackOk)
  }

  /** What handling the task leaves, and how it counts. */
  ghost predicate Leaves(first: bool, w: World, t: Listed, x: Weather, h: Handled)
    requires t.id in w.store.rows
  {
    && h.world.store == w.store.(rows := w.store.rows[t.id := LeftRow(first, t.row, x)])
    && h.world.usage == w.usage + CancelOf(first, t, x)
    && h.world.runs == RunsAfter(w, TurnOf(first, t, x))
    && (h.outcome == Reenqueued <==> Requeues(first, t.row, x))
    && (h.outcome == Discharged <==> Leases(first, t.row, x) && x.rollbackOk && x.cancelOk && x.finish == Returns)
    && (h.marked <==> !first && Leases(first, t.row, x))
  }

  /** Failing a row and leasing it does not decide who owns its run. */
  lemma OwnRowKeepsOwner(w: World, t: Listed, r: TaskRow)
    requires Indexed(w.store) && t.id in w.store.rows && w.store.rows[t.id] == t.row
    requires r.celeryId == t.row.celeryId && r.runId == t.row.runId && r.taskType == t.row.taskType
    ensures var v := w.(store := w.store.(rows := w.store.rows[t.id := r]));
            Next(v, RollbackOf(t)) == v.(runs := Next(w, RollbackOf(t)).runs)
  {
    var v := w.(store := w.store.(rows := w.store.rows[t.id := r]));
    forall other | other in w.store.rows
      ensures Newer(v.store, t.id, other) == Newer(w.store, t.id, other)
    {
    }
  }

  /** The row between lease and settlement. */
  function LeasedRow(first: bool, r: TaskRow, x: Weather, token: Token): TaskRow {
    r.(status := Failed, finishedAt := Some(x.now), token := Some(token), code := Some(CleanupClaimed), message := Marker(first, r))
  }

  lemma LeaseOfMarked(first: bool, r: TaskRow, x: Weather, token: Token)
    requires Leases(first, r, x)
    ensures var marked := if first && OwesAlready(r) then Some(r) else Effect(MarkOf(first, x.now), r, 0);
            && marked.Some?
            && Effect(ClaimCleanup(token, LeaseSeconds), marked.value, x.now) == Some(LeasedRow(first, r, x, token))
  {
  }

  function WithRow(w: World, t: Listed, r: TaskRow): World {
    w.(store := w.store.(rows := w.store.rows[t.id := r]))
  }

  lemma CalmLease(first: bool, w: World, t: Listed, x: Weather, token: Token)
    requires t.id in w.store.rows && w.store.rows[t.id] == t.row && Calm(x) && Leases(first, t.row, x)
    ensures var before := BeforeLease(first, w, t, x);
            && Edits(before.store, t.id, ClaimCleanup(token, LeaseSeconds), x.now)
            && Own(before, t, ClaimCleanup(token, LeaseSeconds), x.now) == WithRow(w, t, LeasedRow(first, t.row, x, token))
  {
    MarkIsReached(first, w, t, x);
    LeaseOfMarked(first, t.row, x, token);
  }

  lemma CalmReady(first: bool, w: World, t: Listed, x: Weather, token: Token)
    requires Indexed(w.store) && t.id in w.store.rows && w.store.rows[t.id] == t.row && Calm(x) && Leases(first, t.row, x)
    ensures Ready(BeforeLease(first, w, t, x), t, x, token, first)
            == WithRow(w, t, LeasedRow(first, t.row, x, token))
               .(runs := RunsAfter(w, TurnOf(first, t, x)), usage := w.usage + CancelOf(first, t, x))
  {
    CalmLease(first, w, t, x, token);
    OwnRowKeepsOwner(w, t, LeasedRow(first, t.row, x, token));
    OwnRowKeepsOwner(w.(usage := w.usage + CancelOf(first, t, x)), t, LeasedRow(first, t.row, x, token));
  }

  lemma CalmSettled(first: bool, v: World, t: Listed, x: Weather, token: Token)
    requires t.id in v.store.rows && Calm(x) && Leases(first, t.row, x)
    requires v.store.rows[t.id] == LeasedRow(first, t.row, x, token)
    ensures Settled(v, t, x, token, EndCode(first, t.row), first) == WithRow(v, t, LeftRow(first, t.row, x))
    ensures Confirms(v, t, x, token, EndCode(first, t.row)) <==> x.rollbackOk && x.cancelOk && x.finish == Returns
  {
  }

  lemma CalmLeased(first: bool, w: World, t: Listed, x: Weather, token: Token)
    requires Indexed(w.store) && t.id in w.store.rows && w.store.rows[t.id] == t.row && Calm(x) && Leases(first, t.row, x)
    ensures Leaves(first, w, t, x, Handle(first, w, t, x, token))
  {
    CalmLease(first, w, t, x, token);
    MarkIsReached(first, w, t, x);
    LeasedOutcome(first, w, t, x, token);
    LeasedIsSettled(first, w, t, x, token);
    CalmReady(first, w, t, x, token);
    CalmSettled(first, Ready(BeforeLease(first, w, t, x), t, x, token, first), t, x, token);
  }

  lemma LeasedOutcome(first: bool, w: World, t: Listed, x: Weather, token: Token)
    requires t.id in w.store.rows && w.store.rows[t.id] == t.row && Calm(x) && Leases(first, t.row, x)
    requires Edits(BeforeLease(first, w, t, x).store, t.id, ClaimCleanup(token, LeaseSeconds), x.now)
    ensures var h := Handle(first, w, t, x, token);
            (h.outcome == Discharged || h.outcome == NotConfirmed) && h.marked == !first
  {
    MarkIsReached(first, w, t, x);
    LeaseOfMarked(first, t.row, x, token);
  }

  lemma UnleasedOwing(w: World, t: Listed, x: Weather, token: Token)
    requires Indexed(w.store) && t.id in w.store.rows && w.store.rows[t.id] == t.row && Calm(x)
    requires OwesAlready(t.row) && !Leases(true, t.row, x)
    ensures Leaves(true, w, t, x, Handle(true, w, t, x, token))
  {
    assert w.store.rows[t.id := t.row] == w.store.rows;
    assert ListedMarker(t.row).Some? && !Edits(w.store, t.id, ClaimCleanup(token, LeaseSeconds), x.now);
  }

  lemma UnleasedPending(w: World, t: Listed, x: Weather, token: Token)
    requires Indexed(w.store) && t.id in w.store.rows && w.store.rows[t.id] == t.row && Calm(x)
    requires !OwesAlready(t.row) && !Leases(true, t.row, x)
    ensures Leaves(true, w, t, x, Handle(true, w, t, x, token))
  {
    assert w.store.rows[t.id := t.row] == w.store.rows;
    assert ListedMarker(t.row).None?;
  }

  lemma UnleasedStuck(w: World, t: Listed, x: Weather, token: Token)
    requires Indexed(w.store) && t.id in w.store.rows && w.store.rows[t.id] == t.row && Calm(x) && !Leases(false, t.row, x)
    ensures Leaves(false, w, t, x, Handle(false, w, t, x, token))
  {
    assert w.store.rows[t.id := t.row] == w.store.rows;
  }

  /** One task that nobody interferes with. */
  lemma CalmTaskLeaves(first: bool, w: World, t: Listed, x: Weather, token: Token)
    requires Indexed(w.store) && t.id in w.store.rows && w.store.rows[t.id] == t.row && Calm(x)
    ensures Leaves(first, w, t, x, Handle(first, w, t, x, token))
  {
    if Leases(first, t.row, x) {
      CalmLeased(first, w, t, x, token);
    } else if first && OwesAlready(t.row) {
      UnleasedOwing(w, t, x, token);
    } else if first {
      UnleasedPending(w, t, x, token);
    } else {
      UnleasedStuck(w, t, x, token);
    }
  }

  // ---- A phase ----

  /** The listing is a snapshot of distinct rows of the table. */
  ghost predicate Lists(rows: map<nat, TaskRow>, ts: seq<Listed>) {
    && (forall k :: 0 <= k < |ts| ==> ts[k].id in rows && rows[ts[k].id] == ts[k].row)
    && (forall i, j :: 0 <= i < j < |ts| ==> ts[i].id != ts[j].id)
  }

  function TurnsOf(first: bool, ts: seq<Listed>, xs: seq<Weather>): seq<Turn>
    requires |ts| == |xs|
  {
    seq(|ts|, k requires 0 <= k < |ts| => TurnOf(first, ts[k], xs[k]))
  }

  /** One cancel for each of the first `n` tasks that were leased and whose cancel was made, in listing order. */
  function CancelsTo(first: bool, ts: seq<Listed>, xs: seq<Weather>, n: nat): seq<UsageCall>
    requires n <= |ts| == |xs|
  {
    if n == 0 then [] else CancelsTo(first, ts, xs, n - 1) + CancelOf(first, ts[n - 1], xs[n - 1])
  }

  /** How many of the first `n` tasks were enqueued again, confirmed as discharged, and failed as stuck. */
  function RequeuedTo(first: bool, ts: seq<Listed>, xs: seq<Weather>, n: nat): nat
    requires n <= |ts| == |xs|
  {
    if n == 0 then 0
    else RequeuedTo(first, ts, xs, n - 1) + if Requeues(first, ts[n - 1].row, xs[n - 1]) then 1 else 0
  }

  function ConfirmedTo(first: bool, ts: seq<Listed>, xs: seq<Weather>, n: nat): nat
    requires n <= |ts| == |xs|
  {
    if n == 0 then 0
    else
      var r, x := ts[n - 1].row, xs[n - 1];
      ConfirmedTo(first, ts, xs, n - 1)
      + if Leases(first, r, x) && x.rollbackOk && x.cancelOk && x.finish == Returns then 1 else 0
  }

  function StuckTo(first: bool, ts: seq<Listed>, xs: seq<Weather>, n: nat): nat
    requires n <= |ts| == |xs|
  {
    if n == 0 then 0
    else StuckTo(first, ts, xs, n - 1) + if !first && Leases(first, ts[n - 1].row, xs[n - 1]) then 1 else 0
  }

  ghost predicate RowsLeft(first: bool, rows: map<nat, TaskRow>, after: map<nat, TaskRow>, ts: seq<Listed>, xs: seq<Weather>, n: nat)
    requires n <= |ts| == |xs|
  {
    && (forall k :: 0 <= k < n ==> ts[k].id in after && after[ts[k].id] == LeftRow(first, ts[k].row, xs[k]))
    && (forall k :: n <= k < |ts| ==> ts[k].id in after && after[ts[k].id] == ts[k].row)
    && (forall id :: id in rows && (forall k :: 0 <= k < |ts| ==> ts[k].id != id) ==> id in after && after[id] == rows[id])
  }

  ghost predicate TablesLeft(first: bool, w: World, v: World, ts: seq<Listed>, xs: seq<Weather>, n: nat)
    requires n <= |ts| == |xs|
  {
    && v.store == w.store.(rows := v.store.rows)
    && RowsLeft(first, w.store.rows, v.store.rows, ts, xs, n)
    && RowsStand(w.store.rows, v.store.rows, TurnsOf(first, ts, xs), n)
    && RunsFailed(w, v.runs, TurnsOf(first, ts, xs), n)
    && v.usage == w.usage + CancelsTo(first, ts, xs, n)
  }

  ghost predicate PhaseCounts(first: bool, ts: seq<Listed>, xs: seq<Weather>, n: nat, y: Tally)
    requires n <= |ts| == |xs|
  {
    && y.reenqueued == RequeuedTo(first, ts, xs, n) && y.rolledBack == ConfirmedTo(first, ts, xs, n)
    && y.stuckFailed == StuckTo(first, ts, xs, n)
  }

  /** What a phase has left, and counted, after its first `n` tasks. */
  ghost predicate PhaseLeaves(first: bool, w: World, ts: seq<Listed>, xs: seq<Weather>, n: nat, y: Tally)
    requires n <= |ts| == |xs|
  {
    TablesLeft(first, w, y.world, ts, xs, n) && PhaseCounts(first, ts, xs, n, y)
  }

  lemma LeftRowStands(first: bool, r: TaskRow, x: Weather)
    ensures var after := LeftRow(first, r, x);
            && after.celeryId == r.celeryId && after.runId == r.runId && after.taskType == r.taskType
            && (Stands(after) <==> Stands(r) && !Leases(first, r, x))
  {
  }

  lemma RowsLeftMore(first: bool, rows: map<nat, TaskRow>, after: map<nat, TaskRow>, ts: seq<Listed>, xs: seq<Weather>, n: nat)
    requires Lists(rows, ts) && n < |ts| == |xs| && RowsLeft(first, rows, after, ts, xs, n)
    ensures RowsLeft(first, rows, after[ts[n].id := LeftRow(first, ts[n].row, xs[n])], ts, xs, n + 1)
  {
  }

  lemma StandingKeepsIndexed(s: Store, after: map<nat, TaskRow>, turns: seq<Turn>, n: nat)
    requires Indexed(s) && n <= |turns| && RowsStand(s.rows, after, turns, n)
    ensures Indexed(s.(rows := after))
  {
  }

  lemma StandMore(first: bool, rows: map<nat, TaskRow>, before: map<nat, TaskRow>, after: map<nat, TaskRow>,
                  ts: seq<Listed>, xs: seq<Weather>, n: nat)
    requires Lists(rows, ts) && n < |ts| == |xs| && ts[n].id in before
    requires RowsStand(rows, before, TurnsOf(first, ts, xs), n)
    requires after == before[ts[n].id := LeftRow(first, ts[n].row, xs[n])]
    ensures RowsStand(rows, after, TurnsOf(first, ts, xs), n + 1)
  {
    LeftRowStands(first, ts[n].row, xs[n]);
    RowsStandMore(rows, before, after, TurnsOf(first, ts, xs), n);
  }

  lemma TablesLeftMore(first: bool, w: World, v: World, u: World, ts: seq<Listed>, xs: seq<Weather>, n: nat)
    requires Indexed(w.store) && Lists(w.store.rows, ts) && n < |ts| == |xs| && TablesLeft(first, w, v, ts, xs, n)
    requires ts[n].id in v.store.rows
    requires u.store == v.store.(rows := v.store.rows[ts[n].id := LeftRow(first, ts[n].row, xs[n])])
    requires u.usage == w.usage + CancelsTo(first, ts, xs, n + 1)
    requires RunsFailed(w, u.runs, TurnsOf(first, ts, xs), n + 1)
    ensures TablesLeft(first, w, u, ts, xs, n + 1)
  {
    RowsLeftMore(first, w.store.rows, v.store.rows, ts, xs, n);
    StandMore(first, w.store.rows, v.store.rows, u.store.rows, ts, xs, n);
  }

  lemma RunsLeftMore(first: bool, w: World, v: World, ts: seq<Listed>, xs: seq<Weather>, n: nat)
    requires Indexed(w.store) && Lists(w.store.rows, ts) && n < |ts| == |xs| && TablesLeft(first, w, v, ts, xs, n)
    ensures RunsFailed(w, RunsAfter(v, TurnOf(first, ts[n], xs[n])), TurnsOf(first, ts, xs), n + 1)
  {
    RunsFailedMore(w, v, TurnsOf(first, ts, xs), n);
  }

  lemma CancelsMore(first: bool, ts: seq<Listed>, xs: seq<Weather>, n: nat, before: seq<UsageCall>)
    requires n < |ts| == |xs|
    ensures before + CancelsTo(first, ts, xs, n) + CancelOf(first, ts[n], xs[n]) == before + CancelsTo(first, ts, xs, n + 1)
  {
  }

  lemma TablesFollow(first: bool, w: World, v: World, u: World, ts: seq<Listed>, xs: seq<Weather>, n: nat)
    requires Indexed(w.store) && Lists(w.store.rows, ts) && n < |ts| == |xs| && TablesLeft(first, w, v, ts, xs, n)
    requires ts[n].id in v.store.rows
    requires u.store == v.store.(rows := v.store.rows[ts[n].id := LeftRow(first, ts[n].row, xs[n])])
    requires u.usage == v.usage + CancelOf(first, ts[n], xs[n]) && u.runs == RunsAfter(v, TurnOf(first, ts[n], xs[n]))
    ensures TablesLeft(first, w, u, ts, xs, n + 1)
  {
    RunsLeftMore(first, w, v, ts, xs, n);
    CancelsMore(first, ts, xs, n, w.usage);
    TablesLeftMore(first, w, v, u, ts, xs, n);
  }

  lemma CountsFollow(first: bool, ts: seq<Listed>, xs: seq<Weather>, n: nat, y: Tally, z: Tally, h: Handled)
    requires n < |ts| == |xs| && PhaseCounts(first, ts, xs, n, y) && z == Tallied(y, h)
    requires h.outcome == Reenqueued <==> Requeues(first, ts[n].row, xs[n])
    requires h.outcome == Discharged
             <==> Leases(first, ts[n].row, xs[n]) && xs[n].rollbackOk && xs[n].cancelOk && xs[n].finish == Returns
    requires h.marked <==> !first && Leases(first, ts[n].row, xs[n])
    ensures PhaseCounts(first, ts, xs, n + 1, z)
  {
  }

  lemma PhaseMore(first: bool, w: World, ts: seq<Listed>, xs: seq<Weather>, n: nat, y: Tally, z: Tally, h: Handled)
    requires Indexed(w.store) && Lists(w.store.rows, ts) && n < |ts| == |xs| && PhaseLeaves(first, w, ts, xs, n, y)
    requires ts[n].id in y.world.store.rows && Leaves(first, y.world, ts[n], xs[n], h) && z == Tallied(y, h)
    ensures PhaseLeaves(first, w, ts, xs, n + 1, z)
  {
    TablesFollow(first, w, y.world, h.world, ts, xs, n);
    CountsFollow(first, ts, xs, n, y, z, h);
  }

  lemma PhaseStep(first: bool, w: World, ts: seq<Listed>, xs: seq<Weather>, n: nat, y: Tally, z: Tally, token: Token)
    requires Indexed(w.store) && Lists(w.store.rows, ts) && n < |ts| == |xs| && PhaseLeaves(first, w, ts, xs, n, y)
    requires Calm(xs[n]) && z == Tallied(y, Handle(first, y.world, ts[n], xs[n], token))
    ensures PhaseLeaves(first, w, ts, xs, n + 1, z)
  {
    var h := Handle(first, y.world, ts[n], xs[n], token);
    StandingKeepsIndexed(w.store, y.world.store.rows, TurnsOf(first, ts, xs), n);
    CalmTaskLeaves(first, y.world, ts[n], xs[n], token);
    PhaseMore(first, w, ts, xs, n, y, z, h);
  }

  /** The tallies of a phase, one after the other. */
  ghost predicate Tallies(ys: seq<Tally>, first: bool, w: World, ts: seq<Listed>, xs: seq<Weather>, me: nat, base: nat, n: nat)
    requires n <= |ts| == |xs|
  {
    && |ys| == n + 1 && ys[0] == Tally(w, 0, 0, 0)
    && forall k :: 0 <= k < n ==> ys[k + 1] == Tallied(ys[k], Handle(first, ys[k].world, ts[k], xs[k], Draw(me, base, k)))
  }

  function TalliesOf(h: (World, nat) -> Handled, w: World, n: nat): seq<Tally> {
    seq(n + 1, k requires 0 <= k => Fold(h, w, k))
  }

  lemma TalliesFollow(first: bool, w: World, ts: seq<Listed>, xs: seq<Weather>, me: nat, base: nat)
    requires |ts| == |xs|
    ensures Tallies(TalliesOf(HandlerOf(first, ts, xs, me, base), w, |ts|), first, w, ts, xs, me, base, |ts|)
  {
  }

  lemma StagesLeave(ys: seq<Tally>, first: bool, w: World, ts: seq<Listed>, xs: seq<Weather>, me: nat, base: nat, n: nat)
    requires Indexed(w.store) && Lists(w.store.rows, ts) && n <= |ts| == |xs| && (forall x :: x in xs ==> Calm(x))
    requires Tallies(ys, first, w, ts, xs, me, base, n)
    ensures PhaseLeaves(first, w, ts, xs, n, ys[n])
  {
    for k := 0 to n
      invariant PhaseLeaves(first, w, ts, xs, k, ys[k])
    {
      assert xs[k] in xs;
      PhaseStep(first, w, ts, xs, k, ys[k], ys[k + 1], Draw(me, base, k));
    }
  }

  /**
   What a phase leaves when nobody interferes: every row, exactly the runs that
   fail, one cancel for each leased task whose cancel was made, in listing order,
   and its three counts.
   */
  lemma UndisturbedPhase(first: bool, w: World, ts: seq<Listed>, xs: seq<Weather>, me: nat, base: nat)
    requires Indexed(w.store) && Lists(w.store.rows, ts) && |ts| == |xs| && forall x :: x in xs ==> Calm(x)
    ensures PhaseLeaves(first, w, ts, xs, |ts|, Phase(first, w, ts, xs, me, base))
  {
    var ys := TalliesOf(HandlerOf(first, ts, xs, me, base), w, |ts|);
    TalliesFollow(first, w, ts, xs, me, base);
    StagesLeave(ys, first, w, ts, xs, me, base, |ts|);
  }

  /** A whole pass: the ledger grows by one cancel for each leased task whose cancel was made, of phase one and then of phase two. */
  lemma UndisturbedPass(w: World, stale: seq<Listed>, xs: seq<Weather>, stuckOf: World -> seq<Listed>, ys: nat -> Weather, me: nat)
    requires Indexed(w.store) && Lists(w.store.rows, stale) && |stale| == |xs| && forall x :: x in xs ==> Calm(x)
    requires (forall k :: Calm(ys(k))) && forall v: World :: Lists(v.store.rows, stuckOf(v))
    ensures var one := Phase(true, w, stale, xs, me, 0);
            var stuck := stuckOf(one.world);
            var zs := FirstOf(ys, |stuck|);
            var two := Phase(false, one.world, stuck, zs, me, |stale|);
            && PhaseLeaves(true, w, stale, xs, |stale|, one)
            && PhaseLeaves(false, one.world, stuck, zs, |stuck|, two)
            && two.world.usage == w.usage + CancelsTo(true, stale, xs, |stale|) + CancelsTo(false, stuck, zs, |stuck|)
  {
    var one := Phase(true, w, stale, xs, me, 0);
    var stuck := stuckOf(one.world);
    UndisturbedPhase(true, w, stale, xs, me, 0);
    StandingKeepsIndexed(w.store, one.world.store.rows, TurnsOf(true, stale, xs), |stale|);
    UndisturbedPhase(false, one.world, stuck, FirstOf(ys, |stuck|), me, |stale|);
  }

  /**
   Nothing is given up: after an undisturbed phase a listed row that was leased is
   discharged, under the code of its marker, exactly if rollback, cancel and
   finalization were made, and then its own reservation was cancelled; otherwise
   it still owes what it owed.
   */
  lemma LeasedTaskIsDischargedIff(first: bool, w: World, ts: seq<Listed>, xs: seq<Weather>, me: nat, base: nat, k: nat)
    requires Indexed(w.store) && Lists(w.store.rows, ts) && |ts| == |xs| && forall x :: x in xs ==> Calm(x)
    requires k < |ts| && Leases(first, ts[k].row, xs[k])
    ensures var after, t, x := Phase(first, w, ts, xs, me, base).world, ts[k], xs[k];
            && t.id in after.store.rows && after.store.rows[t.id].status == Failed
            && (Owed(after.store.rows[t.id]).None? <==> x.rollbackOk && x.cancelOk && x.finish != RaisesBefore)
            && (Owed(after.store.rows[t.id]).Some? ==> Owed(after.store.rows[t.id]) == Marker(first, t.row))
            && (x.cancelOk ==> Cancel(t.row.celeryId) in after.usage)
  {
    UndisturbedPhase(first, w, ts, xs, me, base);
    LeftRowOwes(first, ts[k].row, xs[k]);
    if xs[k].cancelOk {
      CancelIsThere(first, ts, xs, k, |ts|);
    }
  }

  lemma LeftRowOwes(first: bool, r: TaskRow, x: Weather)
    requires Leases(first, r, x)
    ensures Owed(LeftRow(first, r, x)) == if Discharges(x) then None else Marker(first, r)
    ensures Marker(first, r).Some?
  {
  }

  lemma {:induction false} CancelIsThere(first: bool, ts: seq<Listed>, xs: seq<Weather>, k: nat, n: nat)
    requires k < n <= |ts| == |xs| && Leases(first, ts[k].row, xs[k]) && xs[k].cancelOk
    ensures Cancel(ts[k].row.celeryId) in CancelsTo(first, ts, xs, n)
  {
    if k < n - 1 {
      CancelIsThere(first, ts, xs, k, n - 1);
    }
  }
}
