/**
 The task table as a store, the whole-system steps over the store, the run
 table and the usage ledger, and the class that updates them in place.
 */
module TaskTracking {
  import opened Options
  import opened TaskRows
  import RunStorage

  datatype Store = Store(rows: map<nat, TaskRow>, index: map<string, nat>, nextId: nat,
                         observed: Option<Epoch>, obsolete: set<Epoch>)

  const EmptyStore := Store(map[], map[], 1, None, {})

  // ---- Single-row edits ----

  predicate Edits(s: Store, id: nat, op: RowOp, now: int) {
    id in s.rows && Effect(op, s.rows[id], now).Some?
  }

  function Edit(s: Store, id: nat, op: RowOp, now: int): Store {
    if Edits(s, id, op, now) then s.(rows := s.rows[id := Effect(op, s.rows[id], now).value]) else s
  }

  function EditResult(s: Store, id: nat, op: RowOp, now: int): Option<TaskRow> {
    if id in s.rows then Effect(op, s.rows[id], now) else None
  }

  predicate Known(s: Store, celeryId: string) {
    celeryId in s.index && s.index[celeryId] in s.rows
  }

  function RowOf(s: Store, celeryId: string): TaskRow
    requires Known(s, celeryId)
  {
    s.rows[s.index[celeryId]]
  }

  function EditByTask(s: Store, celeryId: string, op: RowOp, now: int): Store {
    if Known(s, celeryId) then Edit(s, s.index[celeryId], op, now) else s
  }

  function EditByTaskResult(s: Store, celeryId: string, op: RowOp, now: int): Option<TaskRow> {
    if Known(s, celeryId) then EditResult(s, s.index[celeryId], op, now) else None
  }

  // ---- create_task ----

  function FreshRow(q: Request, now: int): TaskRow {
    TaskRow(q.celeryId, q.runId, q.taskType, q.status, None, None, q.token, 1, q.startedAt, None, now, q.generation)
  }

  function Created(s: Store, q: Request, now: int): Store {
    if Known(s, q.celeryId) then Edit(s, s.index[q.celeryId], Recreate(q), now)
    else s.(rows := s.rows[s.nextId := FreshRow(q, now)],
            index := s.index[q.celeryId := s.nextId], nextId := s.nextId + 1)
  }

  function CreateResult(s: Store, q: Request, now: int): Option<TaskRow> {
    if Known(s, q.celeryId) then EditResult(s, s.index[q.celeryId], Recreate(q), now)
    else Some(FreshRow(q, now))
  }

  // ---- Broker epochs ----

  function Backfill(r: TaskRow, epoch: Epoch): TaskRow {
    if Active(r.status) && r.generation.None? then r.(generation := Some(epoch)) else r
  }

  predicate EpochAccepted(s: Store, previous: Option<Epoch>) {
    s.observed == previous
  }

  function WithEpoch(s: Store, epoch: Epoch, previous: Option<Epoch>, active: set<Epoch>): Store {
    if !EpochAccepted(s, previous) then s
    else if s.observed.None? then
      s.(rows := map id | id in s.rows :: Backfill(s.rows[id], epoch), observed := Some(epoch))
    else
      s.(obsolete := if Some(epoch) != previous
                     then s.obsolete + ((active + {s.observed.value}) - {epoch}) else s.obsolete,
         observed := Some(epoch))
  }

  predicate HasActive(s: Store, generation: Epoch) {
    exists id :: id in s.rows && s.rows[id].generation == Some(generation) && Active(s.rows[id].status)
  }

  function Completed(s: Store, generation: Epoch): Store {
    if HasActive(s, generation) then s else s.(obsolete := s.obsolete - {generation})
  }

  // ---- Run ownership ----

  predicate Newer(s: Store, id: nat, other: nat)
    requires id in s.rows && other in s.rows
  {
    && other > id
    && s.rows[other].runId == s.rows[id].runId
    && s.rows[other].taskType == s.rows[id].taskType
    && (Active(s.rows[other].status) || s.rows[other].status == Success)
  }

  predicate OwnsRun(s: Store, celeryId: string, runId: int, types: set<string>) {
    && Known(s, celeryId)
    && RowOf(s, celeryId).runId == runId
    && RowOf(s, celeryId).taskType in types
    && !exists other :: other in s.rows && Newer(s, s.index[celeryId], other)
  }

  // ---- The whole system ----

  datatype UsageCall =
    | FinalizeRevoked(owner: string)
    | Cancel(owner: string)
    | Settle(owner: string, billableUnknown: bool)

  datatype Billing = NotStarted | Accounted | Unknown

  function Bill(owner: string, billing: Option<Billing>): UsageCall {
    match billing
    case None => FinalizeRevoked(owner)
    case Some(NotStarted) => Cancel(owner)
    case Some(Accounted) => Settle(owner, false)
    case Some(Unknown) => Settle(owner, true)
  }

  datatype World = World(store: Store, runs: map<int, RunStorage.Run>, usage: seq<UsageCall>)

  /** Where a conditional run update looks and what it writes. */
  datatype RunCas = RunCas(runId: int, updates: RunStorage.Updates, expected: set<string>,
                           workspace: Option<int>, rejected: set<string>)

  predicate CasAccepted(runs: map<int, RunStorage.Run>, c: RunCas) {
    RunStorage.Accepts(runs, c.runId, c.expected, c.workspace, c.rejected)
  }

  function CasApplied(runs: map<int, RunStorage.Run>, c: RunCas): map<int, RunStorage.Run> {
    RunStorage.Updated(runs, c.runId, c.updates, c.expected, c.workspace, c.rejected)
  }

  /** The update every failing path attempts. */
  function FailCas(runId: int, expected: set<string>, rejected: set<string>): RunCas {
    RunCas(runId, RunStorage.FailRun, expected, None, rejected)
  }

  const RunLevelTypes: set<string> :=
    {"generate_script", "generate_visual_plan", "generate_audio", "generate_subtitles", "render_video"}

  const RollbackStages: set<string> :=
    {"SCRIPT_GENERATING", "VISUAL_PLAN_GENERATING", "VISUAL_ASSET_GENERATING", "AUDIO_GENERATING",
     "SUBTITLE_GENERATING", "RENDER_GENERATING", "IDEA_READY", "VISUAL_PLAN_SETUP", "SCRIPT_REVIEW",
     "VISUAL_PLAN_REVIEW", "VISUAL_ASSET_REVIEW"}

  const ClosedRun: set<string> := {"failed", "cancelled", "completed"}

  datatype Step =
    | RowStep(id: nat, op: RowOp, now: int)
    | CreateStep(q: Request, now: int)
    | TransitionStep(q: Request, cas: RunCas, now: int)
    | FinishRunStep(celeryId: string, token: Token, status: Status, cas: RunCas,
                    code: Option<Text>, message: Option<Text>, now: int)
    | FailClaimStep(celeryId: string, token: Token, code: Option<Text>, message: Option<Text>,
                    failing: Option<RunCas>, billing: Option<Billing>, usageOk: bool, now: int)
    | RollbackStep(celeryId: string, types: set<string>, cas: RunCas)
    | EpochStep(epoch: Epoch, previous: Option<Epoch>, active: set<Epoch>)
    | CompleteStep(generation: Epoch)
    | RunStep(cas: RunCas)
    | LedgerStep(call: UsageCall)

  /** The row is present, running under the token. */
  predicate Holds(s: Store, celeryId: string, token: Token) {
    Known(s, celeryId) && RunsUnder(RowOf(s, celeryId), token)
  }

  function Transitioned(w: World, q: Request, cas: RunCas, now: int): World {
    if CasAccepted(w.runs, cas) && CreateResult(w.store, q, now).Some?
    then w.(store := Created(w.store, q, now), runs := CasApplied(w.runs, cas)) else w
  }

  function FinishedRun(w: World, celeryId: string, token: Token, status: Status, cas: RunCas,
                       code: Option<Text>, message: Option<Text>, now: int): World {
    if Holds(w.store, celeryId, token) && RowOf(w.store, celeryId).runId == cas.runId
    then w.(store := EditByTask(w.store, celeryId, FinishClaim(token, status, code, message), now),
            runs := CasApplied(w.runs, cas))
    else w
  }

  function FailedClaim(w: World, celeryId: string, token: Token, code: Option<Text>, message: Option<Text>,
                       failing: Option<RunCas>, billing: Option<Billing>, usageOk: bool, now: int): World {
    if !Holds(w.store, celeryId, token) then w
    else
      var runs := if failing.Some? then CasApplied(w.runs, failing.value) else w.runs;
      if !usageOk then w.(runs := runs)
      else World(EditByTask(w.store, celeryId, FinishClaim(token, Failed, code, message), now),
                 runs, w.usage + [Bill(celeryId, billing)])
  }

  /**
   The billing of a failed claim: nothing unless the row runs under the token,
   one call otherwise, which cancels what was not started, settles what was
   accounted for, settles an unknown outcome as unknown, and finalizes as revoked
   without an outcome; and unless that call is made, the row stays as it is.
   */
  lemma FailedClaimBills(w: World, celeryId: string, token: Token, code: Option<Text>, message: Option<Text>,
                         failing: Option<RunCas>, billing: Option<Billing>, usageOk: bool, now: int)
    ensures var after := FailedClaim(w, celeryId, token, code, message, failing, billing, usageOk, now);
            var runs := celeryId in w.store.index && w.store.index[celeryId] in w.store.rows
                        && w.store.rows[w.store.index[celeryId]].status == Running
                        && w.store.rows[w.store.index[celeryId]].token == Some(token);
            var call := match billing
                        case None => FinalizeRevoked(celeryId)
                        case Some(NotStarted) => Cancel(celeryId)
                        case Some(Accounted) => Settle(celeryId, false)
                        case Some(Unknown) => Settle(celeryId, true);
            && after.usage == w.usage + (if runs && usageOk then [call] else [])
            && after.runs == (if runs && failing.Some? then CasApplied(w.runs, failing.value) else w.runs)
            && (!runs || !usageOk ==> after.store == w.store)
            && (runs && usageOk ==>
                  var r := w.store.rows[w.store.index[celeryId]];
                  after.store == w.store.(rows := w.store.rows[w.store.index[celeryId] :=
                    r.(status := Failed, token := None, finishedAt := Some(now), code := code, message := message)]))
  {
  }

  /**
   Whose task owns its run: the row of a pipeline task of that run, if no row with
   a higher id, of the same run and type, is pending, queued, running or successful.
   */
  lemma OwnsRunIff(s: Store, celeryId: string, runId: int, types: set<string>)
    ensures OwnsRun(s, celeryId, runId, types)
            <==> && celeryId in s.index && s.index[celeryId] in s.rows
                 && var id := s.index[celeryId];
                    && s.rows[id].runId == runId && s.rows[id].taskType in types
                    && forall other :: other in s.rows && other > id && s.rows[other].runId == runId
                                       && s.rows[other].taskType == s.rows[id].taskType ==>
                         s.rows[other].status !in {Status.Pending, Status.Queued, Status.Running, Status.Success}
  {
    if Known(s, celeryId) {
      var id := s.index[celeryId];
      forall other | other in s.rows && s.rows[id].runId == runId
        ensures Newer(s, id, other)
                <==> other > id && s.rows[other].runId == runId && s.rows[other].taskType == s.rows[id].taskType
                     && s.rows[other].status in {Status.Pending, Status.Queued, Status.Running, Status.Success}
      {
      }
    }
  }

  /**
   The observed epoch changes exactly if it is what the caller expected.  The
   first one is given to the active rows that have none; a later one puts the
   epoch it replaces, and the active generations, on the cleanup list.
   */
  lemma EpochSetExactly(s: Store, epoch: Epoch, previous: Option<Epoch>, active: set<Epoch>)
    ensures var after := WithEpoch(s, epoch, previous, active);
            if s.observed != previous then after == s
            else
              && after == s.(rows := after.rows, obsolete := after.obsolete, observed := Some(epoch))
              && after.rows.Keys == s.rows.Keys
              && (forall id :: id in s.rows ==>
                    var r := s.rows[id];
                    var fill := previous.None? && r.generation.None?
                                && r.status in {Status.Pending, Status.Queued, Status.Running};
                    after.rows[id] == if fill then r.(generation := Some(epoch)) else r)
              && forall g :: g in after.obsolete
                             <==> g in s.obsolete
                                  || (previous.Some? && previous != Some(epoch) && g != epoch
                                      && (g in active || Some(g) == previous))
  {
  }

  /** A generation leaves the cleanup list exactly if no row of it is pending, queued or running. */
  lemma CompletedIff(s: Store, generation: Epoch)
    ensures var after := Completed(s, generation);
            && after == s.(obsolete := after.obsolete)
            && forall g :: g in after.obsolete
                           <==> g in s.obsolete
                                && (g == generation ==>
                                      exists id :: id in s.rows && s.rows[id].generation == Some(g)
                                                   && s.rows[id].status in {Status.Pending, Status.Queued, Status.Running})
  {
  }

  function RolledBack(w: World, celeryId: string, types: set<string>, cas: RunCas): World {
    if OwnsRun(w.store, celeryId, cas.runId, types) then w.(runs := CasApplied(w.runs, cas)) else w
  }

  function Next(w: World, st: Step): World {
    match st
    case RowStep(id, op, now) => w.(store := Edit(w.store, id, op, now))
    case CreateStep(q, now) => w.(store := Created(w.store, q, now))
    case TransitionStep(q, cas, now) => Transitioned(w, q, cas, now)
    case FinishRunStep(c, t, status, cas, code, message, now) => FinishedRun(w, c, t, status, cas, code, message, now)
    case FailClaimStep(c, t, code, message, failing, billing, ok, now) =>
      FailedClaim(w, c, t, code, message, failing, billing, ok, now)
    case RollbackStep(c, types, cas) => RolledBack(w, c, types, cas)
    case EpochStep(epoch, previous, active) => w.(store := WithEpoch(w.store, epoch, previous, active))
    case CompleteStep(generation) => w.(store := Completed(w.store, generation))
    case RunStep(cas) => w.(runs := CasApplied(w.runs, cas))
    case LedgerStep(call) => w.(usage := w.usage + [call])
  }

  predicate GoodStep(st: Step) {
    match st
    case RowStep(_, op, _) => GoodOp(op)
    case CreateStep(q, _) => GoodRequest(q)
    case TransitionStep(q, _, _) => GoodRequest(q)
    case FinishRunStep(_, _, status, _, code, _, _) => PlainCode(status, code)
    case FailClaimStep(_, _, code, _, _, _, _, _) => PlainCode(Failed, code)
    case _ => true
  }

  function Run(w: World, steps: seq<Step>): World
    decreases |steps|
  {
    if steps == [] then w else Run(Next(w, steps[0]), steps[1..])
  }

  lemma {:induction false} RunConcat(w: World, xs: seq<Step>, ys: seq<Step>)
    ensures Run(w, xs + ys) == Run(Run(w, xs), ys)
    decreases |xs|
  {
    if xs == [] {
      assert xs + ys == ys;
    } else {
      assert (xs + ys)[1..] == xs[1..] + ys;
      RunConcat(Next(w, xs[0]), xs[1..], ys);
    }
  }

  lemma RunOne(w: World, st: Step)
    ensures Run(w, [st]) == Next(w, st) && Run(w, []) == w
  {
    assert Run(Next(w, st), []) == Next(w, st);
  }

  // ---- Invariants of every reachable store ----

  /** Every row is indexed under its task id, and every id is below the counter. */
  predicate Indexed(s: Store) {
    && (forall id :: id in s.rows ==> id < s.nextId && s.rows[id].celeryId in s.index
                                      && s.index[s.rows[id].celeryId] == id)
    && (forall c :: c in s.index ==> s.index[c] in s.rows && s.rows[s.index[c]].celeryId == c)
  }

  predicate StoreOk(s: Store) {
    Indexed(s) && forall id :: id in s.rows ==> RowOk(s.rows[id])
  }

  lemma EffectKeepsIdentity(op: RowOp, r: TaskRow, now: int)
    requires Effect(op, r, now).Some?
    ensures var after := Effect(op, r, now).value;
            after.celeryId == r.celeryId && after.runId == r.runId && after.taskType == r.taskType
            && after.createdAt == r.createdAt
  {
  }

  lemma EditKeepsStoreOk(s: Store, id: nat, op: RowOp, now: int)
    requires StoreOk(s) && GoodOp(op)
    ensures StoreOk(Edit(s, id, op, now))
  {
    if Edits(s, id, op, now) {
      EffectKeepsIdentity(op, s.rows[id], now);
      EffectKeepsRowOk(op, s.rows[id], now);
    }
  }

  lemma NextKeepsStoreOk(w: World, st: Step)
    requires StoreOk(w.store) && GoodStep(st)
    ensures StoreOk(Next(w, st).store)
  {
    match st
    case RowStep(id, op, now) => EditKeepsStoreOk(w.store, id, op, now);
    case CreateStep(q, now) => CreatedKeepsStoreOk(w.store, q, now);
    case TransitionStep(q, cas, now) => CreatedKeepsStoreOk(w.store, q, now);
    case FinishRunStep(c, t, status, cas, code, message, now) =>
      if Known(w.store, c) {
        EditKeepsStoreOk(w.store, w.store.index[c], FinishClaim(t, status, code, message), now);
      }
    case FailClaimStep(c, t, code, message, failing, billing, ok, now) =>
      if Known(w.store, c) {
        EditKeepsStoreOk(w.store, w.store.index[c], FinishClaim(t, Failed, code, message), now);
      }
    case _ =>
  }

  lemma CreatedKeepsStoreOk(s: Store, q: Request, now: int)
    requires StoreOk(s) && GoodRequest(q)
    ensures StoreOk(Created(s, q, now))
  {
    if Known(s, q.celeryId) {
      EditKeepsStoreOk(s, s.index[q.celeryId], Recreate(q), now);
    }
  }

  lemma {:induction false} RunKeepsStoreOk(w: World, steps: seq<Step>)
    requires StoreOk(w.store) && forall st :: st in steps ==> GoodStep(st)
    ensures StoreOk(Run(w, steps).store)
    decreases |steps|
  {
    if steps != [] {
      NextKeepsStoreOk(w, steps[0]);
      RunKeepsStoreOk(Next(w, steps[0]), steps[1..]);
    }
  }
}
