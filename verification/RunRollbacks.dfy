/**
 Which runs fail when the owner rollbacks of listed tasks are made one after the
 other: a task fails its run if the run still works and no newer row of the run
 and type stands at that moment.
 */
module RunRollbacks {
  import opened Options
  import opened TaskRows
  import opened TaskTracking
  import RunStorage

  /** One listed task: whether its row is failed when its turn comes, and whether its rollback is made then. */
  datatype Turn = Turn(id: nat, row: TaskRow, fails: bool, rolls: bool)

  /** The turns of distinct rows of the table. */
  ghost predicate Turns(rows: map<nat, TaskRow>, ts: seq<Turn>) {
    && (forall k :: 0 <= k < |ts| ==> ts[k].id in rows && rows[ts[k].id] == ts[k].row)
    && (forall i, j :: 0 <= i < j < |ts| ==> ts[i].id != ts[j].id)
  }

  /** One of the first `n` turns fails this row. */
  predicate FailedBy(ts: seq<Turn>, n: nat, id: nat)
    requires n <= |ts|
  {
    exists k :: 0 <= k < n && ts[k].id == id && ts[k].fails
  }

  predicate Stands(r: TaskRow) {
    Active(r.status) || r.status == Success
  }

  /** The rows keep their run and type, and those stand that stood before, but for the ones failed so far. */
  ghost predicate RowsStand(rows: map<nat, TaskRow>, after: map<nat, TaskRow>, ts: seq<Turn>, n: nat)
    requires n <= |ts|
  {
    && after.Keys == rows.Keys
    && forall id :: id in rows ==>
         && after[id].celeryId == rows[id].celeryId && after[id].runId == rows[id].runId
         && after[id].taskType == rows[id].taskType
         && (Stands(after[id]) <==> Stands(rows[id]) && !FailedBy(ts, n, id))
  }

  /** A newer row of the same run and type that stands when the `k`-th rollback comes. */
  predicate Shielded(s: Store, ts: seq<Turn>, k: nat)
    requires k < |ts| && ts[k].id in s.rows
  {
    exists other :: other in s.rows && Newer(s, ts[k].id, other) && !FailedBy(ts, k, other)
  }

  /** The tasks that own their run: those of its pipeline. */
  const OwningTypes: set<string> :=
    {"generate_script", "generate_visual_plan", "generate_audio", "generate_subtitles", "render_video"}

  /** The stages in which a run waits for such a task, before and after its dispatch. */
  const WorkingStages: set<string> :=
    {"IDEA_READY", "SCRIPT_GENERATING", "SCRIPT_REVIEW", "VISUAL_PLAN_SETUP", "VISUAL_PLAN_GENERATING",
     "VISUAL_PLAN_REVIEW", "VISUAL_ASSET_GENERATING", "VISUAL_ASSET_REVIEW", "AUDIO_GENERATING",
     "SUBTITLE_GENERATING", "RENDER_GENERATING"}

  lemma WorkIsWork()
    ensures OwningTypes == RunLevelTypes && WorkingStages == RollbackStages
  {
  }

  predicate FailsAt(s: Store, ts: seq<Turn>, k: nat, run: int)
    requires k < |ts|
  {
    ts[k].id in s.rows && ts[k].rolls && ts[k].row.runId == run && ts[k].row.taskType in OwningTypes && !Shielded(s, ts, k)
  }

  /** The run is in one of the stages a rollback expects, and not closed. */
  predicate Working(runs: map<int, RunStorage.Run>, run: int) {
    run in runs && runs[run].stage in WorkingStages && runs[run].status !in {"failed", "cancelled", "completed"}
  }

  ghost predicate Fails(w: World, ts: seq<Turn>, n: nat, run: int)
    requires n <= |ts|
  {
    Working(w.runs, run) && exists k :: 0 <= k < n && FailsAt(w.store, ts, k, run)
  }

  function FailedRun(r: RunStorage.Run): RunStorage.Run {
    r.(stage := "FAILED", status := "failed", version := r.version + 1)
  }

  /** Exactly the runs that fail have failed, once. */
  ghost predicate RunsFailed(w: World, runs: map<int, RunStorage.Run>, ts: seq<Turn>, n: nat)
    requires n <= |ts|
  {
    && runs.Keys == w.runs.Keys
    && forall run :: run in w.runs ==> runs[run] == if Fails(w, ts, n, run) then FailedRun(w.runs[run]) else w.runs[run]
  }

  /** The runs after the rollback of a task, if it is made. */
  function RunsAfter(w: World, t: Turn): map<int, RunStorage.Run> {
    if t.rolls
    then RolledBack(w, t.row.celeryId, RunLevelTypes, FailCas(t.row.runId, RollbackStages, ClosedRun)).runs else w.runs
  }

  lemma FailedByMore(ts: seq<Turn>, n: nat, id: nat)
    requires n < |ts|
    ensures FailedBy(ts, n + 1, id) <==> FailedBy(ts, n, id) || (ts[n].fails && ts[n].id == id)
  {
    if FailedBy(ts, n + 1, id) {
      var k :| 0 <= k < n + 1 && ts[k].id == id && ts[k].fails;
      assert k < n ==> FailedBy(ts, n, id);
    }
  }

  /** One more row is changed; it is failed if its turn says so. */
  lemma RowsStandMore(rows: map<nat, TaskRow>, before: map<nat, TaskRow>, after: map<nat, TaskRow>, ts: seq<Turn>, n: nat)
    requires Turns(rows, ts) && n < |ts| && RowsStand(rows, before, ts, n)
    requires ts[n].id in after && after == before[ts[n].id := after[ts[n].id]]
    requires var r := after[ts[n].id];
             && r.celeryId == ts[n].row.celeryId && r.runId == ts[n].row.runId && r.taskType == ts[n].row.taskType
             && (Stands(r) <==> Stands(ts[n].row) && !ts[n].fails)
    ensures RowsStand(rows, after, ts, n + 1)
  {
    forall id | id in rows
      ensures Stands(after[id]) <==> Stands(rows[id]) && !FailedBy(ts, n + 1, id)
    {
      FailedByMore(ts, n, id);
    }
  }

  lemma NewerStands(s: Store, after: map<nat, TaskRow>, ts: seq<Turn>, n: nat, other: nat)
    requires Turns(s.rows, ts) && n < |ts| && RowsStand(s.rows, after, ts, n) && other in s.rows
    ensures Newer(s.(rows := after), ts[n].id, other) <==> Newer(s, ts[n].id, other) && !FailedBy(ts, n, other)
  {
  }

  /** When its turn comes a task owns its run unless a row that still stands shields it. */
  lemma OwnsIff(s: Store, after: map<nat, TaskRow>, ts: seq<Turn>, n: nat)
    requires Indexed(s) && Turns(s.rows, ts) && n < |ts| && RowsStand(s.rows, after, ts, n)
    ensures OwnsRun(s.(rows := after), ts[n].row.celeryId, ts[n].row.runId, RunLevelTypes)
            <==> ts[n].row.taskType in OwningTypes && !Shielded(s, ts, n)
  {
    WorkIsWork();
    forall other | other in s.rows
      ensures Newer(s.(rows := after), ts[n].id, other) <==> Newer(s, ts[n].id, other) && !FailedBy(ts, n, other)
    {
      NewerStands(s, after, ts, n, other);
    }
  }

  lemma FailsMore(w: World, ts: seq<Turn>, n: nat, run: int)
    requires Turns(w.store.rows, ts) && n < |ts|
    ensures Fails(w, ts, n + 1, run) <==> Fails(w, ts, n, run) || (Working(w.runs, run) && FailsAt(w.store, ts, n, run))
  {
    if Fails(w, ts, n + 1, run) {
      var k :| 0 <= k < n + 1 && FailsAt(w.store, ts, k, run);
      assert k < n ==> Fails(w, ts, n, run);
    }
  }

  /** The turn fails the run if it may, and leaves it alone otherwise. */
  ghost predicate RunMoved(s: Store, before: map<int, RunStorage.Run>, after: map<int, RunStorage.Run>, ts: seq<Turn>,
                           n: nat, run: int)
    requires n < |ts| && run in before
  {
    run in after
    && after[run] == if FailsAt(s, ts, n, run) && Working(before, run) then FailedRun(before[run]) else before[run]
  }

  lemma RunRolled(w: World, v: World, ts: seq<Turn>, n: nat, run: int)
    requires Indexed(w.store) && Turns(w.store.rows, ts) && n < |ts| && run in v.runs
    requires v.store == w.store.(rows := v.store.rows) && RowsStand(w.store.rows, v.store.rows, ts, n)
    ensures RunMoved(w.store, v.runs, RunsAfter(v, ts[n]), ts, n, run)
  {
    WorkIsWork();
    OwnsIff(w.store, v.store.rows, ts, n);
  }

  lemma RunFollows(w: World, before: map<int, RunStorage.Run>, after: map<int, RunStorage.Run>, ts: seq<Turn>, n: nat, run: int)
    requires Turns(w.store.rows, ts) && n < |ts| && RunsFailed(w, before, ts, n)
    requires run in before && RunMoved(w.store, before, after, ts, n, run)
    ensures after[run] == if Fails(w, ts, n + 1, run) then FailedRun(w.runs[run]) else w.runs[run]
  {
    FailsMore(w, ts, n, run);
    assert "FAILED" !in WorkingStages;
  }

  lemma RunsFollow(w: World, before: map<int, RunStorage.Run>, after: map<int, RunStorage.Run>, ts: seq<Turn>, n: nat)
    requires Turns(w.store.rows, ts) && n < |ts| && RunsFailed(w, before, ts, n) && after.Keys == before.Keys
    requires forall run :: run in before ==> RunMoved(w.store, before, after, ts, n, run)
    ensures RunsFailed(w, after, ts, n + 1)
  {
    forall run | run in w.runs
      ensures after[run] == if Fails(w, ts, n + 1, run) then FailedRun(w.runs[run]) else w.runs[run]
    {
      RunFollows(w, before, after, ts, n, run);
    }
  }

  /** One more turn keeps the account of the failed runs exact. */
  lemma RunsFailedMore(w: World, v: World, ts: seq<Turn>, n: nat)
    requires Indexed(w.store) && Turns(w.store.rows, ts) && n < |ts|
    requires v.store == w.store.(rows := v.store.rows) && RowsStand(w.store.rows, v.store.rows, ts, n)
    requires RunsFailed(w, v.runs, ts, n)
    ensures RunsFailed(w, RunsAfter(v, ts[n]), ts, n + 1)
  {
    forall run | run in v.runs
      ensures RunMoved(w.store, v.runs, RunsAfter(v, ts[n]), ts, n, run)
    {
      RunRolled(w, v, ts, n, run);
    }
    RunsFollow(w, v.runs, RunsAfter(v, ts[n]), ts, n);
  }
}
