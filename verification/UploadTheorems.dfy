/**
 What holds in every run of uploaders, sweepers, retention and crashes: saved
 objects survive, swept intents never yield assets, nothing leaks unobserved,
 and the storage accounting is conserved.
 */
module UploadTheorems {
  import opened Options
  import opened UploadIntents
  import opened UploadMachine
  import Traces

  ghost predicate IsRun(ms: seq<Machine>, steps: seq<Step>) {
    && |ms| == |steps| + 1 && ms[0] == Initial
    && forall k :: 0 <= k < |steps| ==> GoodStep(ms[k], steps[k]) && ms[k + 1] == Next(ms[k], steps[k])
  }

  lemma {:induction false} RunIsOk(ms: seq<Machine>, steps: seq<Step>, n: nat)
    requires IsRun(ms, steps) && n < |ms|
    ensures Ok(ms[n])
  {
    if n > 0 {
      RunIsOk(ms, steps, n - 1);
      NextKeepsOk(ms[n - 1], steps[n - 1]);
    }
  }

  lemma RunKeys(ms: seq<Machine>, steps: seq<Step>, n: nat)
    requires IsRun(ms, steps) && n < |ms|
    ensures KeysOk(ms[n])
  {
    RunIsOk(ms, steps, n);
  }

  // ---- Saved objects survive ----

  /** The intent whose object a compensation or a sweep is about to delete. */
  function Deletes(m: Machine, st: Step): Option<nat> {
    match st
    case DeleteObject(i, ok) => if At(m, i, Failing) && ok then Some(i) else None
    case SweepDelete(token, ok) => if Working(m, token, Unsaved) && ok then Some(m.items[token].intent) else None
    case _ => None
  }

  /** Neither compensation nor a sweep ever deletes the object of a saved asset. */
  lemma SavedObjectsSurvive(ms: seq<Machine>, steps: seq<Step>, n: nat, k: nat)
    requires IsRun(ms, steps) && n < |steps| && Deletes(ms[n], steps[n]).Some? && k < |ms[n].store.assets|
    ensures ms[n].store.assets[k].key != KeyOf(ms[n], Deletes(ms[n], steps[n]).value)
  {
    RunIsOk(ms, steps, n);
    var m, i := ms[n], Deletes(ms[n], steps[n]).value;
    assert IntentOk(m, i);
    if steps[n].SweepDelete? {
      assert ItemOk(m, steps[n].token);
    }
    KeyedAssetIsSaved(m, i, k);
  }

  lemma KeyedAssetIsSaved(m: Machine, i: nat, k: nat)
    requires KeysOk(m) && i < |m.store.intents| && k < |m.store.assets|
    ensures m.store.assets[k].key == KeyOf(m, i) ==> HasAsset(m, i)
  {
    assert HasSource(m.store, m.store.assets[k]);
    var j: nat :| From(m.store, m.store.assets[k], j);
    assert m.store.assets[k] in m.store.assets;
  }

  /** Every asset row of every reachable state has its object, unless retention has marked it for deletion. */
  lemma EveryAssetHasItsObject(ms: seq<Machine>, steps: seq<Step>, n: nat, k: nat)
    requires IsRun(ms, steps) && n < |ms| && k < |ms[n].store.assets|
    requires ms[n].store.assets[k].key !in ms[n].retiring
    ensures ms[n].store.assets[k].key in ms[n].objects
  {
    RunIsOk(ms, steps, n);
    var m := ms[n];
    assert HasSource(m.store, m.store.assets[k]);
    var j: nat :| From(m.store, m.store.assets[k], j);
    assert m.store.assets[k] in m.store.assets && IntentOk(m, j) && HasAsset(m, j);
  }

  /** The intent has been handed to cleanup, or ended, without an asset. */
  predicate Lapsed(m: Machine, i: nat) {
    && i < |m.store.intents| && !HasAsset(m, i)
    && m.store.intents[i].state != Pending && m.store.intents[i].state != Uploaded
  }

  /** The intent keeps its key and workspace, and stays out of `Pending` and `Uploaded` once it left them. */
  predicate StaysLapsed(m: Machine, n: Machine, i: nat)
    requires i < |m.store.intents|
  {
    && i < |n.store.intents| && n.store.intents[i].key == m.store.intents[i].key
    && n.store.intents[i].workspace == m.store.intents[i].workspace
    && (m.store.intents[i].state != Pending && m.store.intents[i].state != Uploaded ==>
          n.store.intents[i].state != Pending && n.store.intents[i].state != Uploaded)
  }

  lemma RecordStaysLapsed(m: Machine, token: Token, expires: int, maxRetries: nat, i: nat)
    requires i < |m.store.intents|
    ensures StaysLapsed(m, NextRecord(m, token, expires, maxRetries), i)
  {
  }

  lemma CheckStaysLapsed(m: Machine, token: Token, i: nat)
    requires i < |m.store.intents|
    ensures StaysLapsed(m, NextCheck(m, token), i)
  {
  }

  lemma SaveStaysLapsed(m: Machine, j: nat, size: nat, fate: SaveFate, i: nat)
    requires i < |m.store.intents|
    ensures StaysLapsed(m, NextSave(m, j, size, fate), i)
  {
  }

  lemma CompensationStaysLapsed(m: Machine, j: nat, i: nat)
    requires i < |m.store.intents|
    ensures StaysLapsed(m, NextCompensation(m, j), i)
  {
  }

  lemma LapsedStateStays(m: Machine, st: Step, i: nat)
    requires i < |m.store.intents|
    ensures StaysLapsed(m, Next(m, st), i)
  {
    match st
    case Save(j, size, fate) => SaveStaysLapsed(m, j, size, fate, i);
    case SweepRecord(token, expires, maxRetries) => RecordStaysLapsed(m, token, expires, maxRetries, i);
    case SweepCheck(token) => CheckStaysLapsed(m, token, i);
    case Compensation(j) => CompensationStaysLapsed(m, j, i);
    case _ =>
  }

  /** The assets change only when one is saved from an uploaded intent, or retained. */
  lemma AssetsAfter(m: Machine, st: Step)
    ensures var a, b := m.store.assets, Next(m, st).store.assets;
            || b == a
            || (st.RetainRow? && forall x :: x in b ==> x in a)
            || (&& st.Save? && At(m, st.i, Marked) && m.store.intents[st.i].state == Uploaded
                && b == a + [Asset(m.store.nextId, m.store.intents[st.i].workspace, KeyOf(m, st.i), st.size)])
  {
  }

  lemma LapsedStep(m: Machine, n: Machine, st: Step, i: nat)
    requires KeysOk(m) && Lapsed(m, i) && n == Next(m, st)
    ensures Lapsed(n, i)
  {
    LapsedStateStays(m, st, i);
    AssetsAfter(m, st);
  }

  /** An intent that left `Pending` and `Uploaded` for cleanup never yields an asset. */
  lemma LapsedNeverYields(ms: seq<Machine>, steps: seq<Step>, a: nat, b: nat, i: nat)
    requires IsRun(ms, steps) && a <= b < |ms| && Lapsed(ms[a], i)
    ensures Lapsed(ms[b], i)
  {
    for k := a to b
      invariant Lapsed(ms[k], i)
    {
      RunKeys(ms, steps, k);
      LapsedStep(ms[k], ms[k + 1], steps[k], i);
    }
  }

  // ---- When an object is lost from view ----

  /** The object is there or may still appear, has no asset, and no sweeper looks at its intent again. */
  predicate Forgotten(m: Machine, i: nat) {
    i < |m.store.intents| && Exists(m, i) && !HasAsset(m, i) && Closed(m.store.intents[i].state)
  }

  /**
   The step closes the intent although its object is there again or may still
   appear: it records a sweep that deleted, under a claim still held, after
   seeing a state in which the upload was taken to have ended.
   */
  predicate Loses(m: Machine, st: Step, i: nat) {
    && st.SweepRecord? && Working(m, st.token, Gone) && m.items[st.token].intent == i
    && Owns(m.store.intents[i], Some(st.token)) && !CanMaterialize(m.items[st.token].seen) && Exists(m, i)
  }

  /** No step brings back an object that is gone and cannot appear any more. */
  lemma GoneStaysGone(m: Machine, st: Step, i: nat)
    requires Ok(m) && GoodStep(m, st) && i < |m.store.intents| && !Exists(m, i)
    ensures i < |Next(m, st).store.intents| && !Exists(Next(m, st), i)
  {
    LapsedStateStays(m, st, i);
    assert IntentOk(m, i);
    if st.Materialize? && st.i < |m.pcs| {
      assert IntentOk(m, st.i);
    }
    if st.UploadReturns? && st.i < |m.pcs| {
      assert IntentOk(m, st.i);
    }
  }

  /** A step that reclaims an intent whose object exists is the one that loses it. */
  lemma ReclaimingLoses(m: Machine, st: Step, i: nat)
    requires Ok(m) && GoodStep(m, st) && i < |m.store.intents| && m.store.intents[i].state != Reclaimed
    requires i < |Next(m, st).store.intents| && Next(m, st).store.intents[i].state == Reclaimed && Exists(Next(m, st), i)
    ensures Loses(m, st, i)
  {
    if !Exists(m, i) {
      GoneStaysGone(m, st, i);
    }
    ReclaimingExisting(m, st, i);
  }

  lemma ReclaimingExisting(m: Machine, st: Step, i: nat)
    requires Ok(m) && i < |m.store.intents| && m.store.intents[i].state != Reclaimed && Exists(m, i)
    requires i < |Next(m, st).store.intents| && Next(m, st).store.intents[i].state == Reclaimed && Exists(Next(m, st), i)
    ensures Loses(m, st, i)
  {
    assert IntentOk(m, i);
    match st
    case SweepRecord(token, _, _) =>
    case SweepCheck(_) =>
    case Save(_, _, _) =>
    case Compensation(_) =>
    case _ =>
  }

  /** A completed intent is never forgotten: its object goes before its asset does. */
  lemma CompletedIsSeen(m: Machine, i: nat)
    requires Ok(m) && i < |m.store.intents| && m.store.intents[i].state == Completed
    ensures !Forgotten(m, i)
  {
    assert IntentOk(m, i);
  }

  lemma LosingForgets(m: Machine, st: Step, i: nat)
    requires Ok(m) && Loses(m, st, i)
    ensures Forgotten(Next(m, st), i)
  {
    assert ItemOk(m, st.token);
  }

  /** Exactly one kind of step loses an object from view. */
  lemma ForgottenIff(m: Machine, st: Step, i: nat)
    requires Ok(m) && GoodStep(m, st) && i < |m.store.intents| && !Forgotten(m, i)
    ensures Forgotten(Next(m, st), i) <==> Loses(m, st, i)
  {
    NextKeepsOk(m, st);
    assert IntentOk(m, i);
    if Forgotten(Next(m, st), i) {
      if Next(m, st).store.intents[i].state == Completed {
        CompletedIsSeen(Next(m, st), i);
      } else if m.store.intents[i].state != Reclaimed {
        ReclaimingLoses(m, st, i);
      } else if !Exists(m, i) {
        GoneStaysGone(m, st, i);
      }
    } else if Loses(m, st, i) {
      LosingForgets(m, st, i);
    }
  }

  // ---- Which failures can lead there ----

  predicate SweepFails(m: Machine, st: Step, i: nat) {
    st.SweepDelete? && !st.ok && Working(m, st.token, Unsaved) && m.items[st.token].intent == i
  }

  /** A sweep of the intent fails to delete while its upload can still store the object. */
  predicate FailsEarly(m: Machine, st: Step, i: nat) {
    SweepFails(m, st, i) && MayStore(m, i)
  }

  /** Some delete of the intent's object fails. */
  predicate DeleteFails(m: Machine, st: Step, i: nat) {
    SweepFails(m, st, i) || (st == DeleteObject(i, false) && At(m, i, Failing))
  }

  lemma FailureStep(m: Machine, st: Step, i: nat)
    ensures i in Next(m, st).doubtful <==> i in m.doubtful || FailsEarly(m, st, i)
    ensures i in Next(m, st).failed <==> i in m.failed || DeleteFails(m, st, i)
  {
  }

  /** The machine records exactly the failures of the run so far. */
  lemma {:induction false} FailuresSoFar(ms: seq<Machine>, steps: seq<Step>, n: nat, i: nat)
    requires IsRun(ms, steps) && n < |ms|
    ensures i in ms[n].doubtful <==> exists k :: 0 <= k < n && FailsEarly(ms[k], steps[k], i)
    ensures i in ms[n].failed <==> exists k :: 0 <= k < n && DeleteFails(ms[k], steps[k], i)
  {
    if n > 0 {
      FailuresSoFar(ms, steps, n - 1, i);
      FailureStep(ms[n - 1], steps[n - 1], i);
    }
  }

  /**
   Nothing leaks unobserved: unless a sweep of this very intent failed to delete
   while its upload could still store the object, an object that is there or
   may still appear, and has no asset, belongs to an intent that is not closed.
   Unless its cleanup was given up as exhausted, an expired lease brings the
   intent back to a sweeper.
   */
  lemma NoUnobservedLeak(ms: seq<Machine>, steps: seq<Step>, n: nat, i: nat)
    requires IsRun(ms, steps) && n < |ms| && forall k :: 0 <= k < n ==> !FailsEarly(ms[k], steps[k], i)
    requires i < |ms[n].store.intents| && Exists(ms[n], i) && !HasAsset(ms[n], i)
    ensures var intent := ms[n].store.intents[i];
            && !Closed(intent.state)
            && (intent.state != Exhausted ==> forall now :: now >= intent.leaseExpires ==> Claimable(intent, now))
  {
    RunIsOk(ms, steps, n);
    FailuresSoFar(ms, steps, n, i);
    assert IntentOk(ms[n], i);
  }

  /** While no delete of its object has failed, cleanup of the intent is neither pending nor given up. */
  lemma RevisitedWhileDeletesSucceed(ms: seq<Machine>, steps: seq<Step>, n: nat, i: nat)
    requires IsRun(ms, steps) && n < |ms| && forall k :: 0 <= k < n ==> !DeleteFails(ms[k], steps[k], i)
    requires i < |ms[n].store.intents| && Exists(ms[n], i) && !HasAsset(ms[n], i)
    ensures var state := ms[n].store.intents[i].state;
            state == Pending || state == Uploaded || state == Reclaiming || state == LateUploadWatch
  {
    RunIsOk(ms, steps, n);
    FailuresSoFar(ms, steps, n, i);
    assert IntentOk(ms[n], i);
  }

  lemma ForgottenIsDoubtful(m: Machine, i: nat)
    requires Ok(m) && Forgotten(m, i)
    ensures i in m.doubtful
  {
    assert IntentOk(m, i);
  }

  lemma LostAt(ms: seq<Machine>, steps: seq<Step>, n: nat, i: nat) returns (k: nat)
    requires IsRun(ms, steps) && n < |ms| && Forgotten(ms[n], i)
    ensures k < n && Loses(ms[k], steps[k], i) && forall l :: k < l <= n ==> Forgotten(ms[l], i)
  {
    var forgotten := (m: Machine) => Forgotten(m, i);
    k := Traces.LastEntry(ms, forgotten, n);
    assert forgotten(ms[k + 1]) && ms[k + 1] == Next(ms[k], steps[k]);
    assert forall l :: k < l <= n ==> forgotten(ms[l]);
    RunIsOk(ms, steps, k);
    EnteringForgotten(ms[k], steps[k], i);
  }

  lemma EnteringForgotten(m: Machine, st: Step, i: nat)
    requires Ok(m) && GoodStep(m, st) && !Forgotten(m, i) && Forgotten(Next(m, st), i)
    ensures Loses(m, st, i)
  {
    if i < |m.store.intents| {
      ForgottenIff(m, st, i);
    }
  }

  /**
   An object that is out of view was lost by one step, which a sweep of the same
   intent that failed too early had prepared.
   */
  lemma ForgottenHasItsCauses(ms: seq<Machine>, steps: seq<Step>, n: nat, i: nat) returns (k: nat, j: nat)
    requires IsRun(ms, steps) && n < |ms| && Forgotten(ms[n], i)
    ensures j < k < n && Loses(ms[k], steps[k], i) && FailsEarly(ms[j], steps[j], i)
    ensures forall l :: k < l <= n ==> Forgotten(ms[l], i)
  {
    k := LostAt(ms, steps, n, i);
    RunIsOk(ms, steps, k + 1);
    ForgottenIsDoubtful(ms[k + 1], i);
    FailuresSoFar(ms, steps, k + 1, i);
    j :| 0 <= j < k + 1 && FailsEarly(ms[j], steps[j], i);
  }

  // A run in which a delete fails: the upload of "k" is swept twice before its call ends.

  function Leaking(pc: Pc, intent: Intent, items: map<Token, Item>, nextToken: Token, failed: set<nat>): Machine {
    Machine(Store([], 1, [intent]), {}, if pc == Created then {} else {0}, [pc], items, nextToken, {}, {}, failed, failed)
  }

  function LeakIntent(state: IntentState, lease: int, retries: nat, token: Option<Token>, reserved: nat): Intent {
    Intent("u", 1, "k", state, lease, retries, token, reserved)
  }

  const LeakCreate := Step.Create("u", 1, "k", 0, 1, Policy(0, 0, 0))
  const LeakCreated := Leaking(Created, LeakIntent(Pending, 0, 0, None, 1), map[], 0, {})
  const LeakCrashed := Leaking(Ended, LeakIntent(Pending, 0, 0, None, 1), map[], 0, {})
  const LeakFailed := Leaking(Ended, LeakIntent(CleanupPending, 5, 1, Some(0), 1), map[], 1, {0})
  const LeakClosed := Leaking(Ended, LeakIntent(Reclaimed, 14, 1, Some(1), 0), map[], 2, {0})

  lemma LeakStarts()
    ensures Next(Initial, LeakCreate) == LeakCreated
    ensures Next(Next(LeakCreated, Begin(0)), Crash(0)) == LeakCrashed
  {
    assert Next(Initial, LeakCreate).store.intents == [LeakIntent(Pending, 0, 0, None, 1)];
    assert Next(Initial, LeakCreate).pcs == [Created];
    assert Next(Next(LeakCreated, Begin(0)), Crash(0)).pcs == [Ended];
  }

  /** One sweep of intent 0 under a fresh token, whose delete ends as `ok`. */
  function SweptOnce(m: Machine, now: int, ok: bool): Machine {
    var token := m.nextToken;
    NextRecord(NextSweepDelete(NextCheck(NextClaim(m, 0, now, now + 5), token), token, ok), token, now + 9, 5)
  }

  lemma FailingSweep()
    ensures SweptOnce(LeakCrashed, 0, false) == LeakFailed
  {
    var claimed := Leaking(Ended, LeakIntent(Reclaiming, 5, 0, Some(0), 1), map[0 := Item(0, Pending, Fresh)], 1, {});
    assert NextClaim(LeakCrashed, 0, 0, 5) == claimed;
    var checked := claimed.(items := map[0 := Item(0, Pending, Unsaved)]);
    assert NextCheck(claimed, 0) == checked;
    var stuck := checked.(items := map[0 := Item(0, Pending, Stuck)], failed := {0}, doubtful := {0});
    assert NextSweepDelete(checked, 0, false) == stuck;
    assert NextRecord(stuck, 0, 9, 5).items == map[];
  }

  lemma ForgetfulSweep()
    ensures SweptOnce(LeakFailed, 9, true) == LeakClosed
  {
    var item := Item(0, CleanupPending, Fresh);
    var claimed := Leaking(Ended, LeakIntent(Reclaiming, 14, 1, Some(1), 1), map[1 := item], 2, {0});
    assert NextClaim(LeakFailed, 0, 9, 14) == claimed;
    var checked := claimed.(items := map[1 := item.(pc := Unsaved)]);
    assert NextCheck(claimed, 1) == checked;
    var gone := checked.(items := map[1 := item.(pc := Gone)]);
    assert NextSweepDelete(checked, 1, true).objects == {};
    assert NextSweepDelete(checked, 1, true) == gone;
    assert NextRecord(gone, 1, 18, 5).items == map[];
  }

  lemma LeakEnds()
    ensures var last := Next(LeakClosed, Materialize(0));
            && |last.store.intents| == 1 && "k" in last.objects && !HasAsset(last, 0)
            && Forgotten(last, 0) && forall now :: !Claimable(last.store.intents[0], now)
  {
    assert KeyOf(LeakClosed, 0) == "k";
  }

  /**
   How an object is lost: the first sweep of a crashed upload fails to delete,
   the second forgets that the upload could still materialize, closes the
   intent, and the object that then appears is never looked at again.
   */
  lemma FailedSweepThenLateUploadLeaks()
    ensures Next(Initial, LeakCreate) == LeakCreated
    ensures Next(Next(LeakCreated, Begin(0)), Crash(0)) == LeakCrashed
    ensures var last := Next(SweptOnce(SweptOnce(LeakCrashed, 0, false), 9, true), Materialize(0));
            && |last.store.intents| == 1 && "k" in last.objects && !HasAsset(last, 0)
            && Forgotten(last, 0) && forall now :: !Claimable(last.store.intents[0], now)
  {
    LeakStarts();
    FailingSweep();
    ForgetfulSweep();
    LeakEnds();
  }
}
