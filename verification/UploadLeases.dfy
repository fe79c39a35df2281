/**
 What a lease protects: until it has run out no sweeper touches the intent, so
 an upload that finishes in time and whose calls answer yields its asset, and a
 claim is not taken over before its own lease has run out.
 */
module UploadLeases {
  import opened Options
  import opened UploadIntents
  import opened UploadMachine
  import opened UploadTheorems
  import opened UploadProcesses

  /** Neither done with nor given up. */
  predicate Open(state: IntentState) {
    state in {IntentState.Pending, IntentState.Uploaded, IntentState.CleanupPending, IntentState.Reclaiming,
              IntentState.LateUploadWatch}
  }

  /**
   What a sweep claims: open intents whose lease has run out and no others; one
   of these that it leaves out comes behind a full batch.
   */
  lemma BatchIsExpired(s: Store, ids: seq<nat>, now: int, limit: nat)
    requires Batch(s, ids, now, limit)
    ensures forall k :: 0 <= k < |ids| ==> ids[k] < |s.intents| && s.intents[ids[k]].leaseExpires <= now
                                           && Open(s.intents[ids[k]].state)
    ensures forall i :: 0 <= i < |s.intents| && s.intents[i].leaseExpires <= now && Open(s.intents[i].state) && i !in ids ==>
              |ids| == limit && forall k :: 0 <= k < |ids| ==> ids[k] < i
  {
  }

  // ---- An upload within its lease ----

  /** No sweeper holds the intent or has held it since its lease was set. */
  predicate Untaken(m: Machine, i: nat, lease: int) {
    && i < |m.store.intents| && m.store.intents[i].leaseExpires == lease
    && m.store.intents[i].state != Reclaiming && m.store.intents[i].state != LateUploadWatch
    && m.store.intents[i].state != Exhausted
    && forall token :: token in m.items ==> m.items[token].intent != i
  }

  /** Claims of the intent come before its lease has run out. */
  predicate Early(st: Step, i: nat, lease: int) {
    st.SweepClaim? && st.i == i ==> st.now < lease
  }

  ghost predicate EarlyUntil(steps: seq<Step>, a: nat, b: nat, i: nat, lease: int)
    requires b <= |steps|
  {
    forall k :: a < k < b ==> Early(steps[k], i, lease)
  }

  lemma SweepLeavesUntaken(m: Machine, st: Step, i: nat, lease: int)
    requires Ok(m) && Untaken(m, i, lease) && Early(st, i, lease)
    requires st.SweepClaim? || st.SweepCheck? || st.SweepDelete? || st.SweepRecord? || st.SweepDrop?
    ensures Untaken(Next(m, st), i, lease)
  {
    match st
    case SweepClaim(j, now, until) =>
    case SweepCheck(token) =>
    case SweepDelete(token, ok) =>
    case SweepRecord(token, expires, maxRetries) =>
    case _ =>
  }

  lemma UntakenStep(m: Machine, st: Step, i: nat, lease: int)
    requires Ok(m) && Untaken(m, i, lease) && Early(st, i, lease)
    ensures Untaken(Next(m, st), i, lease)
  {
    if st.SweepClaim? || st.SweepCheck? || st.SweepDelete? || st.SweepRecord? || st.SweepDrop? {
      SweepLeavesUntaken(m, st, i, lease);
    }
  }

  /** The step that creates the intent. */
  predicate Creates(m: Machine, st: Step, i: nat) {
    st.Create? && i == |m.store.intents| && Next(m, st) != m
  }

  lemma CreatedIsUntaken(m: Machine, st: Step, i: nat)
    requires Ok(m) && Creates(m, st, i)
    ensures Untaken(Next(m, st), i, st.lease) && Underway(Next(m, st), i)
  {
    forall token | token in m.items
      ensures m.items[token].intent != i
    {
      assert ItemOk(m, token);
    }
  }

  /** While sweeps come before the lease of an upload has run out, no sweeper takes its intent. */
  lemma {:induction false} UploadIsSpared(ms: seq<Machine>, steps: seq<Step>, a: nat, b: nat, i: nat)
    requires IsRun(ms, steps) && a < b < |ms| && Creates(ms[a], steps[a], i)
    requires EarlyUntil(steps, a, b, i, steps[a].lease)
    ensures Untaken(ms[b], i, steps[a].lease)
  {
    RunIsOk(ms, steps, b - 1);
    if b == a + 1 {
      CreatedIsUntaken(ms[a], steps[a], i);
    } else {
      UploadIsSpared(ms, steps, a, b - 1, i);
      UntakenStep(ms[b - 1], steps[b - 1], i, steps[a].lease);
    }
  }

  /** So no sweep deletes its object. */
  lemma SparedObjectIsNotSwept(ms: seq<Machine>, steps: seq<Step>, a: nat, b: nat, i: nat)
    requires IsRun(ms, steps) && a < b < |steps| && Creates(ms[a], steps[a], i) && steps[b].SweepDelete?
    requires EarlyUntil(steps, a, b, i, steps[a].lease)
    ensures i < |ms[b].store.intents|
    ensures KeyOf(ms[b], i) in ms[b].objects ==> KeyOf(ms[b], i) in ms[b + 1].objects
  {
    RunIsOk(ms, steps, b);
    UploadIsSpared(ms, steps, a, b, i);
    var m, token := ms[b], steps[b].token;
    if Working(m, token, Unsaved) {
      assert m.items[token].intent != i;
    }
  }

  // ---- An upload whose calls answer ----

  /** The uploader's own calls go through: it is not cancelled or stopped, and neither upload nor save fails. */
  predicate Answering(st: Step, i: nat) {
    && st != Cancel(i) && st != UploadFails(i) && st != Crash(i)
    && (st.Save? && st.i == i ==> st.fate == Normal)
  }

  /** Reserved and being stored, stored and marked, or done; retention may be retiring the asset by then. */
  predicate Underway(m: Machine, i: nat) {
    && i < |m.store.intents| && i < |m.pcs|
    && var state := m.store.intents[i].state;
       match m.pcs[i]
       case Created => state == Pending
       case Uploading => state == Pending
       case Stored => state == Pending
       case Marked => state == Uploaded
       case Ended => state == Completed && (HasAsset(m, i) || KeyOf(m, i) in m.retiring)
       case _ => false
  }

  lemma OwnStepStaysUnderway(m: Machine, st: Step, i: nat)
    requires Ok(m) && Underway(m, i) && Answering(st, i)
    requires st.Begin? || st.UploadReturns? || st.Mark? || st.Cancel? || st.UploadFails? || st.Crash?
             || st.DeleteObject? || st.Compensation? || st.LateEnds? || st.Materialize?
    ensures Underway(Next(m, st), i)
  {
    assert IntentOk(m, i);
  }

  lemma SaveStaysUnderway(m: Machine, st: Step, i: nat)
    requires Ok(m) && Underway(m, i) && Answering(st, i) && st.Save?
    ensures Underway(Next(m, st), i)
  {
    assert IntentOk(m, i);
    if Next(m, st).store.assets != m.store.assets {
      var a := Next(m, st).store.assets[|m.store.assets|];
      assert a in Next(m, st).store.assets;
      assert forall b :: b in m.store.assets ==> b in Next(m, st).store.assets;
    }
  }

  lemma RecordStaysUnderway(m: Machine, token: Token, expires: int, maxRetries: nat, i: nat, lease: int)
    requires Underway(m, i) && Untaken(m, i, lease)
    ensures Underway(Next(m, SweepRecord(token, expires, maxRetries)), i)
  {
  }

  lemma CheckStaysUnderway(m: Machine, token: Token, i: nat, lease: int)
    requires Underway(m, i) && Untaken(m, i, lease)
    ensures Underway(Next(m, SweepCheck(token)), i)
  {
  }

  lemma SweepStaysUnderway(m: Machine, st: Step, i: nat, lease: int)
    requires Ok(m) && Underway(m, i) && Untaken(m, i, lease) && Early(st, i, lease)
    requires st.SweepClaim? || st.SweepCheck? || st.SweepDelete? || st.SweepRecord? || st.SweepDrop? || st.Create?
    ensures Underway(Next(m, st), i)
  {
    match st
    case SweepRecord(token, expires, maxRetries) => RecordStaysUnderway(m, token, expires, maxRetries, i, lease);
    case SweepCheck(token) => CheckStaysUnderway(m, token, i, lease);
    case _ =>
  }

  lemma RowStaysUnderway(m: Machine, k: nat, i: nat)
    requires Ok(m) && Underway(m, i)
    ensures Underway(Next(m, RetainRow(k)), i)
  {
    assert IntentOk(m, i);
    if k < |m.store.assets| && HasAsset(m, i) {
      var a :| a in m.store.assets && a.workspace == m.store.intents[i].workspace && a.key == KeyOf(m, i);
      var rest := m.store.assets[..k] + m.store.assets[k + 1..];
      var j :| 0 <= j < |m.store.assets| && m.store.assets[j] == a;
      assert j != k ==> rest[if j < k then j else j - 1] == a;
    }
  }

  lemma RetainStaysUnderway(m: Machine, st: Step, i: nat)
    requires Ok(m) && Underway(m, i) && (st.RetainMark? || st.RetainObject? || st.RetainRow?)
    ensures Underway(Next(m, st), i)
  {
    if st.RetainRow? {
      RowStaysUnderway(m, st.k, i);
    }
  }

  lemma UnderwayStep(m: Machine, st: Step, i: nat, lease: int)
    requires Ok(m) && Underway(m, i) && Untaken(m, i, lease) && Early(st, i, lease) && Answering(st, i)
    ensures Underway(Next(m, st), i)
  {
    if st.Save? {
      SaveStaysUnderway(m, st, i);
    } else if st.RetainMark? || st.RetainObject? || st.RetainRow? {
      RetainStaysUnderway(m, st, i);
    } else if st.SweepClaim? || st.SweepCheck? || st.SweepDelete? || st.SweepRecord? || st.SweepDrop? || st.Create? {
      SweepStaysUnderway(m, st, i, lease);
    } else {
      OwnStepStaysUnderway(m, st, i);
    }
  }

  /**
   An upload whose calls answer, while sweeps come before its lease has run out,
   is never thrown off its way: it is being stored, or marked, or it has ended
   with a completed intent and its asset.
   */
  lemma {:induction false} AnsweringUploadCompletes(ms: seq<Machine>, steps: seq<Step>, a: nat, b: nat, i: nat)
    requires IsRun(ms, steps) && a < b < |ms| && Creates(ms[a], steps[a], i)
    requires EarlyUntil(steps, a, b, i, steps[a].lease)
    requires forall k :: a < k < b ==> Answering(steps[k], i)
    ensures Underway(ms[b], i)
  {
    RunIsOk(ms, steps, b - 1);
    if b == a + 1 {
      CreatedIsUntaken(ms[a], steps[a], i);
    } else {
      AnsweringUploadCompletes(ms, steps, a, b - 1, i);
      UploadIsSpared(ms, steps, a, b - 1, i);
      UnderwayStep(ms[b - 1], steps[b - 1], i, steps[a].lease);
    }
  }

  /** Each of its four calls takes it one further, and the last one leaves the asset with its object. */
  lemma CallsGoThrough(m: Machine, i: nat, size: nat)
    requires Ok(m) && Underway(m, i)
    ensures m.pcs[i] == Created ==> At(Next(m, Begin(i)), i, Uploading)
    ensures m.pcs[i] == Uploading ==>
              At(Next(m, UploadReturns(i)), i, Pc.Stored) && KeyOf(m, i) in Next(m, UploadReturns(i)).objects
    ensures m.pcs[i] == Pc.Stored ==> At(Next(m, Mark(i)), i, Marked)
    ensures m.pcs[i] == Marked ==>
              var n := Next(m, Save(i, size, Normal));
              && At(n, i, Ended) && n.store.intents[i].state == Completed && KeyOf(n, i) in n.objects
              && n.store.assets == m.store.assets
                                   + [Asset(m.store.nextId, m.store.intents[i].workspace, KeyOf(m, i), size)]
  {
    assert IntentOk(m, i);
  }

  /** A call that fails or is refused sends the uploader to compensate; one whose answer is lost leaves everything to the sweepers. */
  lemma FailedCallsAreCompensated(m: Machine, i: nat, size: nat)
    requires i < |m.store.intents| && i < |m.pcs|
    ensures m.pcs[i] == Uploading ==>
              At(Next(m, UploadFails(i)), i, Failing) && i !in Next(m, UploadFails(i)).inflight
    ensures m.pcs[i] == Pc.Stored && m.store.intents[i].state != Pending ==> Next(m, Mark(i)) == Goto(m, i, Failing)
    ensures m.pcs[i] == Marked && m.store.intents[i].state != Uploaded ==> Next(m, Save(i, size, Normal)) == Goto(m, i, Failing)
    ensures m.pcs[i] == Marked ==> Next(m, Save(i, size, FailsUncommitted)) == Goto(m, i, Failing)
    ensures m.pcs[i] == Marked ==> Next(m, Save(i, size, LostUncommitted)) == Goto(m, i, Ended)
  {
  }

  /** Compensation deletes the object and closes the intent, or leaves it to cleanup if the delete fails. */
  lemma CompensationGoesThrough(m: Machine, i: nat)
    requires i < |m.store.intents| && i < |m.pcs|
    ensures m.pcs[i] == Created ==>
              At(Next(m, Cancel(i)), i, Ended) && Next(m, Cancel(i)).store.intents[i].state == IntentState.Reclaimed
    ensures m.pcs[i] == Failing ==>
              var closed := Next(Next(m, DeleteObject(i, true)), Compensation(i));
              && closed.objects == m.objects - {KeyOf(m, i)} && At(closed, i, Ended)
              && closed.store.intents[i] == m.store.intents[i].(state := IntentState.Reclaimed)
    ensures m.pcs[i] == Failing ==>
              var left := Next(Next(m, DeleteObject(i, false)), Compensation(i));
              && left.objects == m.objects && At(left, i, Ended)
              && left.store.intents[i] == m.store.intents[i].(state := CleanupPending)
  {
  }

  // ---- An undisturbed sweep goes through ----

  /** An intent whose lease has run out is claimed; if its key has an asset, the next step completes it. */
  lemma SavedIntentIsCompleted(m: Machine, i: nat, now: int, lease: int)
    requires i < |m.store.intents| && Open(m.store.intents[i].state) && m.store.intents[i].leaseExpires <= now
    requires HasAsset(m, i)
    ensures var token := m.nextToken;
            var done := Next(Next(m, SweepClaim(i, now, lease)), SweepCheck(token));
            done.store.intents[i].state == Completed && done.objects == m.objects && token !in done.items
  {
    var claimed := Next(m, SweepClaim(i, now, lease));
    assert claimed.store.assets == m.store.assets && HasAsset(claimed, i);
  }

  /** The sweeper holds the intent, has seen it in the state, and found no asset. */
  predicate Checked(m: Machine, i: nat, token: Token, seen: IntentState) {
    && i < |m.store.intents| && m.store.intents[i].state == Reclaiming && m.store.intents[i].token == Some(token)
    && token in m.items && m.items[token] == Item(i, seen, Unsaved)
  }

  /** Without an asset, the claimed intent comes up for deletion. */
  lemma UnsavedIntentIsChecked(m: Machine, i: nat, now: int, lease: int)
    requires i < |m.store.intents| && Open(m.store.intents[i].state) && m.store.intents[i].leaseExpires <= now
    requires !HasAsset(m, i)
    ensures var token, before := m.nextToken, m.store.intents[i];
            var checked := Next(Next(m, SweepClaim(i, now, lease)), SweepCheck(token));
            && Checked(checked, i, token, before.state) && checked.objects == m.objects
            && checked.store.intents[i].key == before.key && checked.store.intents[i].retries == before.retries
  {
    var claimed := Next(m, SweepClaim(i, now, lease));
    assert claimed.store.assets == m.store.assets && !HasAsset(claimed, i);
  }

  /**
   The object is deleted and the outcome recorded: watched if the upload might
   still be under way, and reclaimed otherwise; if the delete fails the object
   stays, and the intent waits for the next sweep or is given up.
   */
  lemma CheckedIntentIsSwept(m: Machine, i: nat, token: Token, seen: IntentState, ok: bool, expires: int, maxRetries: nat)
    requires Checked(m, i, token, seen)
    ensures var before, done := m.store.intents[i], Next(Next(m, SweepDelete(token, ok)), SweepRecord(token, expires, maxRetries));
            && done.objects == (if ok then m.objects - {before.key} else m.objects) && token !in done.items
            && done.store.intents[i].state
               == (if !ok then (if before.retries + 1 < maxRetries then CleanupPending else Exhausted)
                   else if seen in {IntentState.Pending, IntentState.Reclaiming, IntentState.LateUploadWatch}
                   then LateUploadWatch else IntentState.Reclaimed)
            && done.store.intents[i].reserved
               == (if ok && seen != IntentState.Pending && seen != IntentState.Reclaiming then 0 else before.reserved)
            && (ok && seen in {IntentState.Pending, IntentState.Reclaiming, IntentState.LateUploadWatch} ==>
                  done.store.intents[i].leaseExpires == expires)
  {
  }

  /** Retention marks an asset, and then deletes its object and its row; a crashed upload call ends at last. */
  lemma RetentionGoesThrough(m: Machine, k: nat, i: nat)
    requires k < |m.store.assets|
    ensures var key := m.store.assets[k].key;
            var marked := Next(m, RetainMark(k));
            var erased := Next(marked, RetainObject(key));
            var done := Next(erased, RetainRow(k));
            && marked == m.(retiring := m.retiring + {key}) && erased.objects == m.objects - {key}
            && erased.store == m.store && done.objects == m.objects - {key}
            && done.store == m.store.(assets := m.store.assets[..k] + m.store.assets[k + 1..])
    ensures At(m, i, Ended) ==> Next(m, LateEnds(i)) == m.(inflight := m.inflight - {i})
  {
  }

  // ---- A claim within its lease ----

  /** A claimed intent passes to another sweeper exactly when that one claims it after its lease has run out. */
  lemma TakenOverIff(m: Machine, st: Step, i: nat)
    requires i < |m.store.intents| && m.store.intents[i].state == Reclaiming && st.SweepClaim? && st.i == i
    ensures var before, after := m.store.intents[i], Next(m, st).store.intents[i];
            if before.leaseExpires <= st.now
            then after == before.(token := Some(m.nextToken), leaseExpires := st.lease)
                 && Next(m, st).items == m.items[m.nextToken := Item(i, Reclaiming, Fresh)]
            else Next(m, st) == m
  {
  }

  predicate HeldUnder(m: Machine, i: nat, token: Token, lease: int) {
    && i < |m.store.intents| && m.store.intents[i].state == Reclaiming
    && m.store.intents[i].token == Some(token) && m.store.intents[i].leaseExpires == lease
  }

  lemma HeldStep(m: Machine, n: Machine, st: Step, i: nat, token: Token, lease: int)
    requires HeldUnder(m, i, token, lease) && Early(st, i, lease) && n == Next(m, st)
    requires i < |n.store.intents| && n.store.intents[i].state == Reclaiming
    ensures HeldUnder(n, i, token, lease)
  {
  }

  ghost predicate StaysReclaiming(ms: seq<Machine>, a: nat, b: nat, i: nat)
    requires b < |ms|
  {
    forall k :: a <= k <= b ==> i < |ms[k].store.intents| && ms[k].store.intents[i].state == Reclaiming
  }

  /**
   While claims of it come before its lease has run out, a claimed intent stays
   with its sweeper until that one, or the uploader, settles it.
   */
  lemma ClaimStandsThroughLease(ms: seq<Machine>, steps: seq<Step>, a: nat, b: nat, i: nat, token: Token, lease: int)
    requires IsRun(ms, steps) && a <= b < |ms| && HeldUnder(ms[a], i, token, lease) && StaysReclaiming(ms, a, b, i)
    requires forall k :: a <= k < b ==> Early(steps[k], i, lease)
    ensures HeldUnder(ms[b], i, token, lease)
  {
    for k := a to b
      invariant HeldUnder(ms[k], i, token, lease)
    {
      HeldStep(ms[k], ms[k + 1], steps[k], i, token, lease);
    }
  }
}
