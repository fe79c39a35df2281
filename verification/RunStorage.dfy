/** The run table and its stage compare-and-set, shared by every protocol. */
module RunStorage {
  import opened Options

  /** The columns of a run row that the protocols read or write. */
  datatype Run = Run(stage: string, status: string, restartFrom: Option<string>,
                     workspace: int, version: nat)

  /** The columns an update assigns; `None` leaves the column alone. */
  datatype Updates = Updates(stage: Option<string>, status: Option<string>,
                             restartFrom: Option<Option<string>>)
  {
    predicate Empty() {
      stage.None? && status.None? && restartFrom.None?
    }
  }

  const FailRun := Updates(Some("FAILED"), Some("failed"), None)

  predicate Admits(run: Run, expected: set<string>, workspace: Option<int>, rejected: set<string>) {
    && (workspace.Some? ==> run.workspace == workspace.value)
    && run.stage in expected
    && run.status !in rejected
  }

  function Assign(run: Run, u: Updates): Run {
    if u.Empty() then run
    else run.(stage := if u.stage.Some? then u.stage.value else run.stage,
              status := if u.status.Some? then u.status.value else run.status,
              restartFrom := if u.restartFrom.Some? then u.restartFrom.value else run.restartFrom,
              version := run.version + 1)
  }

  predicate Accepts(runs: map<int, Run>, id: int, expected: set<string>,
                    workspace: Option<int>, rejected: set<string>) {
    id in runs && Admits(runs[id], expected, workspace, rejected)
  }

  /** The run table after a conditional update. */
  function Updated(runs: map<int, Run>, id: int, u: Updates, expected: set<string>,
                   workspace: Option<int>, rejected: set<string>): map<int, Run> {
    if Accepts(runs, id, expected, workspace, rejected) then runs[id := Assign(runs[id], u)] else runs
  }

  /** What a caller may read back: a row of another workspace looks missing. */
  function Visible(runs: map<int, Run>, id: int, workspace: Option<int>): Option<Run> {
    if id in runs && (workspace.Some? ==> runs[id].workspace == workspace.value)
    then Some(runs[id]) else None
  }

  class Storage {
    var rows: map<int, Run>

    method ConditionalUpdateRun(id: int, updates: Updates, expected: set<string>,
                                workspace: Option<int>, rejected: set<string>)
      returns (ok: bool, row: Option<Run>)
      modifies this
      ensures rows == Updated(old(rows), id, updates, expected, workspace, rejected)
      ensures ok == Accepts(old(rows), id, expected, workspace, rejected)
      ensures row == Visible(rows, id, workspace)
    {
      if id !in rows {
        return false, None;
      }
      var run := rows[id];
      if workspace.Some? && run.workspace != workspace.value {
        return false, None;
      }
      if run.stage !in expected {
        return false, Some(run);
      }
      if run.status in rejected {
        return false, Some(run);
      }
      if updates.Empty() {
        assert rows == rows[id := run];
        return true, Some(run);
      }
      rows := rows[id := Assign(run, updates)];
      return true, Some(rows[id]);
    }
  }

  /**
   What a conditional update does: if the run is there, in an expected stage, of
   the workspace that is asked for and in no rejected status, each column that is
   given is assigned and the version grows by one; otherwise nothing happens, and
   nothing ever happens to another run.
   */
  lemma UpdatedColumns(runs: map<int, Run>, id: int, u: Updates, expected: set<string>, ws: Option<int>,
                       rejected: set<string>)
    ensures var after := Updated(runs, id, u, expected, ws, rejected);
            && after.Keys == runs.Keys && (forall other :: other in runs && other != id ==> after[other] == runs[other])
            && (id in runs ==>
                  var run, now := runs[id], after[id];
                  if run.stage !in expected || run.status in rejected || (ws.Some? && ws.value != run.workspace)
                     || (u.stage.None? && u.status.None? && u.restartFrom.None?)
                  then now == run
                  else
                    && now.stage == (match u.stage case Some(stage) => stage case None => run.stage)
                    && now.status == (match u.status case Some(status) => status case None => run.status)
                    && now.restartFrom == (match u.restartFrom case Some(from) => from case None => run.restartFrom)
                    && now.workspace == run.workspace && now.version == run.version + 1)
  {
  }

  /**
   Between two accepted updates that leave the expected stages, the run must
   have been put back: of two racing updates that expect a stage the first one
   removes, only the first is accepted.
   */
  lemma StageCasIsExclusive(runs: map<int, Run>, id: int, u: Updates, v: Updates, expected: set<string>,
                            ws: Option<int>, rejected: set<string>)
    requires u.stage.Some? && u.stage.value !in expected
    requires Accepts(runs, id, expected, ws, rejected)
    ensures var after := Updated(runs, id, u, expected, ws, rejected);
            && !Accepts(after, id, expected, ws, rejected)
            && Updated(after, id, v, expected, ws, rejected) == after
            && after[id].version == runs[id].version + 1
  {
  }
}
