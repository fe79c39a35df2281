/**
 One row of the task table and every guarded change a storage method may make
 to it.  A change that a guard refuses is `None`.
 */
module TaskRows {
  import opened Options

  datatype Status = Pending | Queued | Running | Success | Failed | Revoked | Rejected

  /** The strings of `error_code` and `error_message` that the code compares with; all others are `Other`. */
  datatype Text =
    | PendingCleanup   // "reconciler_pending_cleanup"
    | StuckCleanup     // "reconciler_stuck_cleanup"
    | BrokerCleanup    // "broker_recovery_cleanup"
    | CleanupClaimed   // "reconciler_cleanup_claimed"
    | BrokerLost       // "broker_message_lost"
    | StuckTimeout     // "stuck_running_timeout"
    | ReconcilerRollback // "reconciler_rollback"
    | Other(text: string)

  /** A uuid4 token.  Who drew it is recorded so that freshness can be stated. */
  datatype Token = Token(issuer: nat, serial: nat)

  /** Broker epochs, numbered in the order in which brokers came into being. */
  type Epoch = nat

  datatype TaskRow = TaskRow(
    celeryId: string, runId: int, taskType: string, status: Status,
    code: Option<Text>, message: Option<Text>, token: Option<Token>, attempt: int,
    startedAt: Option<int>, finishedAt: Option<int>, createdAt: int, generation: Option<Epoch>)

  /** The argument of `create_task`. */
  datatype Request = Request(
    celeryId: string, runId: int, taskType: string, status: Status,
    generation: Option<Epoch>, token: Option<Token>, startedAt: Option<int>)

  /** What the status updates assign; absent times and attempts are left alone. */
  datatype Write = Write(status: Status, startedAt: Option<int>, finishedAt: Option<int>,
                         attempt: Option<int>, code: Option<Text>, message: Option<Text>)

  /** The single-row changes of the storage interface. */
  datatype RowOp =
    | SetStatus(w: Write)
    | SetIfRunning(w: Write)
    | SetIfPending(w: Write)
    | SetIfActive(w: Write)
    | FinishClaim(token: Token, status: Status, code: Option<Text>, message: Option<Text>)
    | ClaimRun(newToken: Option<Token>, expected: Option<Token>, startedAt: int, attempt: Option<int>)
    | ClaimCleanup(token: Token, lease: nat)
    | FinishCleanup(token: Token, finalCode: Text, finalMessage: Text)
    | ReleaseCleanup(token: Token)
    | Promote
    | Recreate(q: Request)

  predicate Active(status: Status) {
    status == Pending || status == Queued || status == Running
  }

  /** The codes under which a failed row still owes compensation. */
  predicate IsMarker(t: Text) {
    t == PendingCleanup || t == StuckCleanup || t == BrokerCleanup
  }

  /** The codes under which no worker may start a row. */
  predicate Blocks(code: Option<Text>) {
    code.Some? && (IsMarker(code.value) || code.value == CleanupClaimed || code.value == BrokerLost)
  }

  predicate LeaseExpired(r: TaskRow, lease: nat, now: int) {
    r.code == Some(CleanupClaimed) && r.finishedAt.Some? && r.finishedAt.value < now - lease
  }

  function Assign(r: TaskRow, w: Write): TaskRow {
    r.(status := w.status,
       startedAt := if w.startedAt.Some? then w.startedAt else r.startedAt,
       finishedAt := if w.finishedAt.Some? then w.finishedAt else r.finishedAt,
       attempt := if w.attempt.Some? then w.attempt.value else r.attempt,
       code := w.code, message := w.message)
  }

  /** `create_task` for a task id that already has a row. */
  function Recreated(r: TaskRow, q: Request): Option<TaskRow> {
    if r.status == Success || r.status == Running || Blocks(r.code) then None
    else
      var base := r.(status := q.status,
                     generation := if q.generation.Some? then q.generation else r.generation);
      if q.status == Queued then
        Some(base.(token := None, attempt := r.attempt + 1, startedAt := None, finishedAt := None,
                   code := None, message := None))
      else if q.status == Running then
        Some(base.(token := q.token, startedAt := q.startedAt, finishedAt := None,
                   code := None, message := None))
      else Some(base)
  }

  function Effect(op: RowOp, r: TaskRow, now: int): Option<TaskRow> {
    match op
    case SetStatus(w) =>
      if r.status == Success || (w.status == Running && r.status == Running) then None
      else Some(Assign(r, w))
    case SetIfRunning(w) =>
      if r.status != Running then None else Some(Assign(r, w))
    case SetIfPending(w) =>
      if r.status != Pending then None
      else Some(r.(status := w.status, finishedAt := w.finishedAt, code := w.code, message := w.message))
    case SetIfActive(w) =>
      if !Active(r.status) then None
      else Some(r.(status := w.status, finishedAt := w.finishedAt, code := w.code, message := w.message,
                   token := None))
    case FinishClaim(token, status, code, message) =>
      if r.status != Running || r.token != Some(token) then None
      else Some(r.(status := status, token := None, finishedAt := Some(now), code := code, message := message))
    case ClaimRun(newToken, expected, startedAt, attempt) =>
      if !(r.status == Pending || r.status == Queued || r.status == Failed) then None
      else if r.token != expected || Blocks(r.code) then None
      else Some(r.(status := Running, token := newToken, startedAt := Some(startedAt), finishedAt := None,
                   code := None, message := None,
                   attempt := if attempt.Some? then attempt.value else r.attempt))
    case ClaimCleanup(token, lease) =>
      if r.status != Failed then None
      else if !(r.code.Some? && IsMarker(r.code.value)) && !LeaseExpired(r, lease, now) then None
      else Some(r.(message := if r.code != Some(CleanupClaimed) then r.code else r.message,
                   code := Some(CleanupClaimed), token := Some(token), finishedAt := Some(now)))
    case FinishCleanup(token, code, message) =>
      if r.code != Some(CleanupClaimed) || r.token != Some(token) then None
      else Some(r.(code := Some(code), message := Some(message), token := None))
    case ReleaseCleanup(token) =>
      if r.code != Some(CleanupClaimed) || r.token != Some(token) then None
      else if !(r.message.Some? && IsMarker(r.message.value)) then None
      else Some(r.(code := r.message, message := Some(Other("Cleanup retry required")), token := None))
    case Promote =>
      if r.status != Pending then None else Some(r.(status := Queued))
    case Recreate(q) => Recreated(r, q)
  }

  // ---- What the callers of the interface respect ----

  predicate Ends(status: Status) {
    status == Success || status == Failed || status == Revoked || status == Rejected
  }

  /** A caller never writes the lease code itself, and a success carries no code. */
  predicate PlainCode(status: Status, code: Option<Text>) {
    && Ends(status)
    && code != Some(CleanupClaimed)
    && (status != Failed ==> !Blocks(code))
  }

  predicate GoodRequest(q: Request) {
    q.status == Pending || q.status == Queued || q.status == Running
  }

  /**
   The uses of the interface that the services make, except `mark_running`:
   rows start only through `create_task` and `claim_running`.
   */
  predicate GoodOp(op: RowOp) {
    match op
    case SetStatus(w) => PlainCode(w.status, w.code)
    case SetIfRunning(w) => PlainCode(w.status, w.code)
    case SetIfPending(w) => PlainCode(w.status, w.code)
    case SetIfActive(w) => PlainCode(w.status, w.code)
    case FinishClaim(_, status, code, _) => PlainCode(status, code)
    case FinishCleanup(_, code, _) => !IsMarker(code) && code != CleanupClaimed
    case Recreate(q) => GoodRequest(q)
    case _ => true
  }

  /** A leased row is failed, carries a token and a lease time, and remembers its marker. */
  predicate RowOk(r: TaskRow) {
    r.code == Some(CleanupClaimed) ==>
      r.status == Failed && r.token.Some? && r.finishedAt.Some?
      && r.message.Some? && IsMarker(r.message.value)
  }

  lemma EffectKeepsRowOk(op: RowOp, r: TaskRow, now: int)
    requires RowOk(r) && GoodOp(op)
    ensures Effect(op, r, now).Some? ==> RowOk(Effect(op, r, now).value)
  {
  }

  /**
   A claim starts a row exactly if it is pending, queued or failed, carries the
   expected token, and neither owes compensation nor is leased or lost; it then
   runs under the new token, with everything about an earlier end erased.
   */
  lemma StartsIff(r: TaskRow, newToken: Option<Token>, expected: Option<Token>, at: int, attempt: Option<int>, now: int)
    ensures var after := Effect(ClaimRun(newToken, expected, at, attempt), r, now);
            && (after.Some? <==>
                  && r.status in {Status.Pending, Status.Queued, Status.Failed} && r.token == expected
                  && r.code !in {Some(PendingCleanup), Some(StuckCleanup), Some(BrokerCleanup), Some(CleanupClaimed),
                                 Some(BrokerLost)})
            && (after.Some? ==>
                  after.value == r.(status := Running, token := newToken, startedAt := Some(at), finishedAt := None,
                                    code := None, message := None,
                                    attempt := match attempt case Some(n) => n case None => r.attempt))
  {
  }

  /**
   A row is leased for cleanup exactly if it has failed and owes compensation, or
   is leased and that lease has run out; the marker moves into its message once.
   */
  lemma LeasesIff(r: TaskRow, token: Token, lease: nat, now: int)
    ensures var after := Effect(ClaimCleanup(token, lease), r, now);
            && (after.Some? <==>
                  r.status == Failed
                  && (|| r.code in {Some(PendingCleanup), Some(StuckCleanup), Some(BrokerCleanup)}
                      || (r.code == Some(CleanupClaimed) && r.finishedAt.Some? && r.finishedAt.value + lease < now)))
            && (after.Some? ==>
                  after.value == r.(code := Some(CleanupClaimed), token := Some(token), finishedAt := Some(now),
                                    message := if r.code == Some(CleanupClaimed) then r.message else r.code))
  {
  }

  /** A lease is given back exactly by its holder, and the marker returns to its place. */
  lemma GivesBackIff(r: TaskRow, token: Token, now: int)
    ensures var after := Effect(ReleaseCleanup(token), r, now);
            && (after.Some? <==>
                  r.code == Some(CleanupClaimed) && r.token == Some(token)
                  && r.message in {Some(PendingCleanup), Some(StuckCleanup), Some(BrokerCleanup)})
            && (after.Some? ==>
                  after.value == r.(code := r.message, message := Some(Other("Cleanup retry required")), token := None))
  {
  }

  /**
   A task that is dispatched again is refused while it runs, once it succeeded, and
   while it owes compensation or is lost; otherwise its row takes on the status and
   the generation, if one is given, and a new attempt forgets the end of the last.
   */
  lemma RecreatesIff(r: TaskRow, q: Request, now: int)
    ensures var after := Effect(Recreate(q), r, now);
            && (after.Some? <==>
                  && r.status !in {Status.Success, Status.Running}
                  && r.code !in {Some(PendingCleanup), Some(StuckCleanup), Some(BrokerCleanup), Some(CleanupClaimed),
                                 Some(BrokerLost)})
            && (after.Some? ==>
                  var base := r.(status := q.status,
                                 generation := match q.generation case Some(g) => Some(g) case None => r.generation);
                  after.value
                  == if q.status == Queued then
                       base.(token := None, attempt := r.attempt + 1, startedAt := None, finishedAt := None,
                             code := None, message := None)
                     else if q.status == Running then
                       base.(token := q.token, startedAt := q.startedAt, finishedAt := None, code := None, message := None)
                     else base)
  {
  }

  /** A row is failed for its lost broker exactly while it is pending, queued or running, and loses its claim. */
  lemma FailsActiveIff(r: TaskRow, w: Write, now: int)
    ensures Effect(SetIfActive(w), r, now)
            == if r.status in {Status.Pending, Status.Queued, Status.Running}
               then Some(r.(status := w.status, finishedAt := w.finishedAt, code := w.code, message := w.message,
                            token := None))
               else None
  {
  }

  /**
   What a status update writes: the columns that are given, and code and message
   always.  The plain one is refused for a successful row and for a second start,
   the others unless the row is running, or pending.
   */
  lemma StatusSetExactly(r: TaskRow, w: Write, now: int)
    ensures var written := r.(
              status := w.status, code := w.code, message := w.message,
              startedAt := match w.startedAt case Some(at) => Some(at) case None => r.startedAt,
              finishedAt := match w.finishedAt case Some(at) => Some(at) case None => r.finishedAt,
              attempt := match w.attempt case Some(n) => n case None => r.attempt);
            && Effect(SetStatus(w), r, now)
               == (if r.status == Success || (r.status == Running && w.status == Running) then None else Some(written))
            && Effect(SetIfRunning(w), r, now) == (if r.status == Running then Some(written) else None)
    ensures Effect(SetIfPending(w), r, now)
            == if r.status == Pending
               then Some(r.(status := w.status, finishedAt := w.finishedAt, code := w.code, message := w.message)) else None
  {
  }

  // ---- Claim epochs ----

  /** The row is being executed under this claim. */
  predicate RunsUnder(r: TaskRow, t: Token) {
    r.status == Running && r.token == Some(t)
  }

  /** The two ways a claim is installed. */
  predicate Installs(op: RowOp, t: Token) {
    match op
    case ClaimRun(newToken, _, _, _) => newToken == Some(t)
    case Recreate(q) => q.status == Running && q.token == Some(t)
    case _ => false
  }

  /** A row comes under a claim only through the step that installs that claim. */
  lemma ClaimEntry(op: RowOp, r: TaskRow, now: int, t: Token)
    requires GoodOp(op) && RowOk(r) && Effect(op, r, now).Some?
    requires !RunsUnder(r, t) && RunsUnder(Effect(op, r, now).value, t)
    ensures Installs(op, t) && r.status != Running
  {
  }

  // ---- Cleanup obligations ----

  /** The row is leased for cleanup under this token. */
  predicate LeasedUnder(r: TaskRow, t: Token) {
    r.code == Some(CleanupClaimed) && r.token == Some(t)
  }

  /** The marker of the compensation the row still owes, leased or not. */
  function Owed(r: TaskRow): Option<Text> {
    if r.status != Failed || r.code.None? then None
    else if IsMarker(r.code.value) then r.code
    else if r.code.value == CleanupClaimed then r.message
    else None
  }

  lemma LeaseEntry(op: RowOp, r: TaskRow, now: int, t: Token)
    requires GoodOp(op) && RowOk(r) && Effect(op, r, now).Some?
    requires !LeasedUnder(r, t) && LeasedUnder(Effect(op, r, now).value, t)
    ensures op.ClaimCleanup? && op.token == t
  {
  }

  /** The step discharges the obligation: it finishes the row under its lease. */
  predicate Discharges(op: RowOp, r: TaskRow) {
    op.FinishCleanup? && LeasedUnder(r, op.token)
  }

  /**
   Exactly when an obligation survives a step: not when the holder of the lease
   finishes it, and not when the unguarded status update overwrites it.
   */
  lemma ObligationSurvivesIff(op: RowOp, r: TaskRow, now: int, marker: Text)
    requires GoodOp(op) && RowOk(r) && Owed(r) == Some(marker)
    ensures var after := if Effect(op, r, now).Some? then Effect(op, r, now).value else r;
            Owed(after) == Some(marker)
            <==> (&& !Discharges(op, r)
                  && (op.SetStatus? ==> op.w.status == Failed && op.w.code == Some(marker)))
  {
  }

  /** No worker start gets past an obligation. */
  lemma OwedRowCannotStart(op: RowOp, r: TaskRow, now: int)
    requires RowOk(r) && Owed(r).Some?
    requires op.ClaimRun? || op.Recreate?
    ensures Effect(op, r, now).None?
  {
  }

  /** Success freezes the whole row. */
  lemma SuccessIsFinal(op: RowOp, r: TaskRow, now: int)
    requires RowOk(r) && r.status == Success
    ensures Effect(op, r, now).None?
  {
  }

  /** Leasing and releasing return the row to the marker it came with. */
  lemma ReleaseUndoesLease(r: TaskRow, t: Token, lease: nat, now: int, later: int)
    requires RowOk(r) && Owed(r).Some? && Effect(ClaimCleanup(t, lease), r, now).Some?
    ensures var leased := Effect(ClaimCleanup(t, lease), r, now).value;
            && LeasedUnder(leased, t) && leased.message == Owed(r)
            && Effect(ReleaseCleanup(t), leased, later).Some?
            && Effect(ReleaseCleanup(t), leased, later).value.code == Owed(r)
  {
  }
}
