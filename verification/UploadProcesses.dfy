/**
 The sweep and the upload as the services run them, on the in-memory storage.
 Between any two of their calls other processes change the store and the
 objects: `others(k, w)` is what they make of the world `w` at the `k`-th place.
 */
module UploadProcesses {
  import opened Options
  import opened UploadIntents
  import opened UploadMachine

  datatype World = World(store: Store, keys: set<Key>)

  type Others = (nat, World) -> World

  class ObjectStore {
    var keys: set<Key>
  }

  const SweepLeaseSeconds := 300
  const LateUploadWatchSeconds := 3600
  const UploadLeaseSeconds := 1800

  predicate IsSaved(s: Store, i: nat) {
    i < |s.intents| && HasKey(s, s.intents[i].workspace, s.intents[i].key)
  }

  /** Intents are never removed, and keep their owner, workspace and key. */
  predicate Steady(w: World, after: World) {
    && |w.store.intents| <= |after.store.intents|
    && forall i :: 0 <= i < |w.store.intents| ==>
         var x, y := w.store.intents[i], after.store.intents[i];
         x.owner == y.owner && x.workspace == y.workspace && x.key == y.key
  }

  ghost predicate Rely(others: Others) {
    forall k, w :: Steady(w, others(k, w))
  }

  // ---- What a sweep makes of one intent ----

  datatype SweepResult = SweepResult(reclaimed: nat, preserved: nat, failed: nat, exhausted: nat)

  function Added(a: SweepResult, b: SweepResult): SweepResult {
    SweepResult(a.reclaimed + b.reclaimed, a.preserved + b.preserved, a.failed + b.failed, a.exhausted + b.exhausted)
  }

  /**
   What a sweep makes of the intent it claimed after seeing it in state `seen`:
   `saved` if its key has an asset, `fails` if the delete does.
   */
  function Swept(claimed: Intent, seen: IntentState, saved: bool, fails: bool, now: int, maxRetries: nat): Intent {
    if saved then claimed.(state := Completed)
    else if fails then
      claimed.(state := if claimed.retries + 1 >= maxRetries then Exhausted else CleanupPending,
               retries := claimed.retries + 1)
    else if CanMaterialize(seen) then
      claimed.(state := LateUploadWatch, leaseExpires := now + LateUploadWatchSeconds,
               reserved := if seen == LateUploadWatch then 0 else claimed.reserved)
    else claimed.(state := Reclaimed, reserved := 0)
  }

  /** What it adds to the counters. */
  function Counted(claimed: Intent, seen: IntentState, saved: bool, fails: bool, maxRetries: nat): SweepResult {
    if saved then SweepResult(0, 1, 0, 0)
    else if fails then SweepResult(0, 0, 1, if claimed.retries + 1 >= maxRetries then 1 else 0)
    else if CanMaterialize(seen) then SweepResult(0, 0, 0, 0)
    else SweepResult(1, 0, 0, 0)
  }

  /** One sweep: when it runs, the intents whose delete fails, its first token and the retry limit. */
  datatype Pass = Pass(now: int, fails: set<nat>, base: Token, maxRetries: nat)

  /** The world in which the asset is looked up, and the one in which the outcome is recorded. */
  datatype Looked = Looked(saved: bool, found: World, last: World)

  /** Look the asset up and delete the object, with others in between. */
  function LookedAt(w: World, i: nat, fails: bool, others: Others, k: nat): Looked
    requires i < |w.store.intents|
  {
    var found := others(3 * k, w);
    var saved := IsSaved(found.store, i);
    var due := others(3 * k + 1, found);
    var deleted := if saved || fails then due else due.(keys := due.keys - {w.store.intents[i].key});
    Looked(saved, found, others(3 * k + 2, deleted))
  }

  datatype Progress = Progress(world: World, result: SweepResult, raised: bool)

  predicate Known(w: World, i: nat) {
    i < |w.store.intents|
  }

  /** The claim that the sweep recorded for the intent is still its own. */
  predicate StillOwned(w: World, i: nat, token: Token) {
    Known(w, i) && Owns(w.store.intents[i], Some(token))
  }

  /** The storage refuses to record the outcome of a lost claim, and the sweep ends with its error. */
  function SweptOnce(y: Progress, i: nat, seen: IntentState, p: Pass, others: Others, k: nat): Progress
    requires Known(y.world, i)
  {
    var l := LookedAt(y.world, i, i in p.fails, others, k);
    if !StillOwned(l.last, i, p.base + k) then Progress(l.last, y.result, true)
    else
      var claimed := l.last.store.intents[i];
      Progress(l.last.(store := Put(l.last.store, i, Swept(claimed, seen, l.saved, i in p.fails, p.now, p.maxRetries))),
               Added(y.result, Counted(claimed, seen, l.saved, i in p.fails, p.maxRetries)), false)
  }

  /** A sweep that raised is over. */
  function SweptNext(y: Progress, i: nat, seen: IntentState, p: Pass, others: Others, k: nat): Progress {
    if y.raised || !Known(y.world, i) then y else SweptOnce(y, i, seen, p, others, k)
  }

  /**
   A sweep ends with an error exactly when the outcome of an intent is to be
   recorded and another has taken it over, or settled it; it records nothing then.
   */
  lemma LostClaimEndsTheSweep(y: Progress, i: nat, seen: IntentState, p: Pass, others: Others, k: nat)
    requires Known(y.world, i)
    ensures var last, z := LookedAt(y.world, i, i in p.fails, others, k).last, SweptOnce(y, i, seen, p, others, k);
            && (z.raised <==> i >= |last.store.intents| || last.store.intents[i].state != Reclaiming
                              || last.store.intents[i].token != Some(p.base + k))
            && (z.raised ==> z.world == last && z.result == y.result)
  {
  }

  /** The sweep after the first `n` intents of its batch. */
  function SweptTo(w: World, ids: seq<nat>, seen: seq<IntentState>, p: Pass, others: Others, n: nat): Progress
    requires n <= |ids| == |seen|
  {
    if n == 0 then Progress(w, SweepResult(0, 0, 0, 0), false)
    else SweptNext(SweptTo(w, ids, seen, p, others, n - 1), ids[n - 1], seen[n - 1], p, others, n - 1)
  }

  lemma {:induction false} RaisedStays(w: World, ids: seq<nat>, seen: seq<IntentState>, p: Pass, others: Others, n: nat, m: nat)
    requires n <= m <= |ids| == |seen|
    requires SweptTo(w, ids, seen, p, others, n).raised
    ensures SweptTo(w, ids, seen, p, others, m) == SweptTo(w, ids, seen, p, others, n)
  {
    if n < m {
      RaisedStays(w, ids, seen, p, others, n, m - 1);
    }
  }

  // ---- The sweep that nobody disturbs ----

  /** The first `limit` intents with an expired lease, in id order. */
  ghost predicate Batch(s: Store, ids: seq<nat>, now: int, limit: nat) {
    && |ids| <= limit
    && (forall j, k :: 0 <= j < k < |ids| ==> ids[j] < ids[k])
    && (forall k :: 0 <= k < |ids| ==> ids[k] < |s.intents| && Claimable(s.intents[ids[k]], now))
    && (forall i :: 0 <= i < |s.intents| && Claimable(s.intents[i], now) && i !in ids ==>
          |ids| == limit && forall k :: 0 <= k < |ids| ==> ids[k] < i)
  }

  function ClaimedAt(s: Store, ids: seq<nat>, k: nat, p: Pass): Intent
    requires k < |ids| && ids[k] < |s.intents|
  {
    Claimed(s.intents[ids[k]], p.now + SweepLeaseSeconds, p.base + k)
  }

  /** The store just after the batch was claimed. */
  ghost predicate BatchClaimed(s: Store, t: Store, ids: seq<nat>, seen: seq<IntentState>, p: Pass) {
    && |t.intents| == |s.intents| && t.assets == s.assets && t.nextId == s.nextId && |seen| == |ids|
    && (forall k :: 0 <= k < |ids| ==> ids[k] < |s.intents|)
    && (forall k :: 0 <= k < |ids| ==> t.intents[ids[k]] == ClaimedAt(s, ids, k, p) && seen[k] == s.intents[ids[k]].state)
    && (forall i :: 0 <= i < |s.intents| && i !in ids ==> t.intents[i] == s.intents[i])
  }

  /** What the sweep leaves of the `k`-th intent of its batch. */
  function SweptAt(s: Store, ids: seq<nat>, k: nat, p: Pass): Intent
    requires k < |ids| && ids[k] < |s.intents|
  {
    Swept(ClaimedAt(s, ids, k, p), s.intents[ids[k]].state, IsSaved(s, ids[k]), ids[k] in p.fails, p.now, p.maxRetries)
  }

  /**
   What a sweep leaves of an intent of its batch: completed if its key has an
   asset, one retry further if the delete failed, watched for another hour if its
   upload might still be under way, without its reservation the second time, and
   reclaimed otherwise.
   */
  lemma SweptIntentEnds(s: Store, ids: seq<nat>, k: nat, p: Pass)
    requires k < |ids| && ids[k] < |s.intents|
    ensures var before, after := s.intents[ids[k]], SweptAt(s, ids, k, p);
            var claimed := before.(token := Some(p.base + k), leaseExpires := p.now + 300);
            if IsSaved(s, ids[k]) then after == claimed.(state := Completed)
            else if ids[k] in p.fails then
              after == claimed.(state := if before.retries + 1 < p.maxRetries then CleanupPending else Exhausted,
                                retries := before.retries + 1)
            else if before.state in {IntentState.Pending, IntentState.Reclaiming} then
              after == claimed.(state := LateUploadWatch, leaseExpires := p.now + 3600)
            else if before.state == LateUploadWatch then
              after == claimed.(state := LateUploadWatch, leaseExpires := p.now + 3600, reserved := 0)
            else after == claimed.(state := Reclaimed, reserved := 0)
  {
  }

  /** How a sweep counts an intent: preserved, failed and perhaps given up, watched and not counted, or reclaimed. */
  lemma SweptIntentCounts(intent: Intent, seen: IntentState, saved: bool, fails: bool, maxRetries: nat, sofar: SweepResult)
    ensures var after := Added(sofar, Counted(intent, seen, saved, fails, maxRetries));
            var watched := seen in {IntentState.Pending, IntentState.Reclaiming, IntentState.LateUploadWatch};
            && after.preserved == sofar.preserved + (if saved then 1 else 0)
            && after.failed == sofar.failed + (if !saved && fails then 1 else 0)
            && after.exhausted == sofar.exhausted + (if !saved && fails && intent.retries + 1 >= maxRetries then 1 else 0)
            && after.reclaimed == sofar.reclaimed + (if !saved && !fails && !watched then 1 else 0)
  {
  }

  predicate Deletes(s: Store, i: nat, p: Pass, key: Key) {
    i < |s.intents| && s.intents[i].key == key && !IsSaved(s, i) && i !in p.fails
  }

  /** The counters after the first `n` intents of the batch. */
  function Tallied(s: Store, ids: seq<nat>, p: Pass, n: nat): SweepResult
    requires n <= |ids| && forall k :: 0 <= k < |ids| ==> ids[k] < |s.intents|
  {
    if n == 0 then SweepResult(0, 0, 0, 0)
    else
      var i := ids[n - 1];
      Added(Tallied(s, ids, p, n - 1),
            Counted(s.intents[i], s.intents[i].state, IsSaved(s, i), i in p.fails, p.maxRetries))
  }

  /** The store and the objects after the first `n` intents of the batch were swept. */
  ghost predicate SweptSoFar(s: Store, before: set<Key>, t: Store, after: set<Key>, ids: seq<nat>, n: nat, p: Pass) {
    && n <= |ids| && |t.intents| == |s.intents| && t.assets == s.assets && t.nextId == s.nextId
    && (forall k :: 0 <= k < |ids| ==> ids[k] < |s.intents|)
    && (forall k :: 0 <= k < n ==> t.intents[ids[k]] == SweptAt(s, ids, k, p))
    && (forall k :: n <= k < |ids| ==> t.intents[ids[k]] == ClaimedAt(s, ids, k, p))
    && (forall i :: 0 <= i < |s.intents| && i !in ids ==> t.intents[i] == s.intents[i])
    && (forall key :: key in after <==> key in before && forall k :: 0 <= k < n ==> !Deletes(s, ids[k], p, key))
  }

  lemma SweptOneMore(s: Store, before: set<Key>, t: Store, mid: set<Key>, ids: seq<nat>, n: nat, p: Pass)
    requires SweptSoFar(s, before, t, mid, ids, n, p) && n < |ids|
    requires forall j, k :: 0 <= j < k < |ids| ==> ids[j] < ids[k]
    ensures var i := ids[n];
            var after := if IsSaved(s, i) || i in p.fails then mid else mid - {s.intents[i].key};
            SweptSoFar(s, before, Put(t, i, SweptAt(s, ids, n, p)), after, ids, n + 1, p)
  {
    var i := ids[n];
    var after := if IsSaved(s, i) || i in p.fails then mid else mid - {s.intents[i].key};
    assert forall key :: Deletes(s, i, p, key) <==> key == s.intents[i].key && !IsSaved(s, i) && i !in p.fails;
    assert forall key :: key in after <==> key in mid && !Deletes(s, i, p, key);
  }

  function Nobody(): Others {
    (k: nat, w: World) => w
  }

  /** What a sweep that nobody disturbs has done after the first `n` intents of its batch. */
  ghost predicate Undisturbed(s: Store, before: set<Key>, y: Progress, ids: seq<nat>, n: nat, p: Pass) {
    && SweptSoFar(s, before, y.world.store, y.world.keys, ids, n, p)
    && !y.raised && y.result == Tallied(s, ids, p, n)
  }

  lemma UndisturbedStep(s: Store, before: set<Key>, y: Progress, z: Progress, ids: seq<nat>, n: nat, p: Pass)
    requires Undisturbed(s, before, y, ids, n, p) && n < |ids|
    requires forall j, k :: 0 <= j < k < |ids| ==> ids[j] < ids[k]
    requires z == SweptNext(y, ids[n], s.intents[ids[n]].state, p, Nobody(), n)
    ensures Undisturbed(s, before, z, ids, n + 1, p)
  {
    var i := ids[n];
    var after := if IsSaved(s, i) || i in p.fails then y.world.keys else y.world.keys - {s.intents[i].key};
    assert z.world == World(Put(y.world.store, i, SweptAt(s, ids, n, p)), after);
    SweptOneMore(s, before, y.world.store, y.world.keys, ids, n, p);
  }

  /** The sweep after each of the first `n` intents of its batch. */
  ghost predicate Stages(w: World, ids: seq<nat>, seen: seq<IntentState>, p: Pass, n: nat, ys: seq<Progress>)
    requires n <= |ids| == |seen|
  {
    && |ys| == n + 1 && ys[0] == SweptTo(w, ids, seen, p, Nobody(), 0)
    && forall k :: 0 <= k < n ==> ys[k + 1] == SweptNext(ys[k], ids[k], seen[k], p, Nobody(), k)
  }

  lemma {:induction false} StagesOf(w: World, ids: seq<nat>, seen: seq<IntentState>, p: Pass, n: nat) returns (ys: seq<Progress>)
    requires n <= |ids| == |seen|
    ensures Stages(w, ids, seen, p, n, ys) && ys[n] == SweptTo(w, ids, seen, p, Nobody(), n)
  {
    if n == 0 {
      ys := [SweptTo(w, ids, seen, p, Nobody(), 0)];
    } else {
      ys := StagesOf(w, ids, seen, p, n - 1);
      ys := ys + [SweptNext(ys[n - 1], ids[n - 1], seen[n - 1], p, Nobody(), n - 1)];
    }
  }

  /**
   A sweep that nobody disturbs ends without an error: it leaves each intent of
   its batch as its case demands and every other as it was, deletes exactly the
   objects without an asset whose delete succeeds, and counts each intent once.
   */
  lemma UndisturbedSweep(s: Store, w: World, ids: seq<nat>, seen: seq<IntentState>, p: Pass, n: nat)
    requires BatchClaimed(s, w.store, ids, seen, p) && n <= |ids|
    requires forall j, k :: 0 <= j < k < |ids| ==> ids[j] < ids[k]
    ensures Undisturbed(s, w.keys, SweptTo(w, ids, seen, p, Nobody(), n), ids, n, p)
  {
    var ys := StagesOf(w, ids, seen, p, n);
    for k := 0 to n
      invariant Undisturbed(s, w.keys, ys[k], ids, k, p)
    {
      UndisturbedStep(s, w.keys, ys[k], ys[k + 1], ids, k, p);
    }
  }

  class MediaUploadReconciler {
    const objects: ObjectStore
    const intents: InMemoryMediaAssetStorage
    const maxRetries: nat
    const batchSize: nat

    constructor (objects: ObjectStore, intents: InMemoryMediaAssetStorage, maxRetries: nat, batchSize: nat)
      ensures this.objects == objects && this.intents == intents
      ensures this.maxRetries == maxRetries && this.batchSize == batchSize
    {
      this.objects, this.intents, this.maxRetries, this.batchSize := objects, intents, maxRetries, batchSize;
    }

    function Now(): World
      reads objects, intents
    {
      World(intents.View(), objects.keys)
    }

    method Interfere(others: Others, k: nat)
      modifies objects, intents
      ensures Now() == others(k, old(Now()))
    {
      var w := others(k, Now());
      intents.Interfere(w.store);
      objects.keys := w.keys;
    }

    /** Look the asset up and, unless it is there, try to delete the object. */
    method Look(i: nat, workspace: int, key: Key, fails: bool, others: Others, k: nat) returns (saved: bool)
      requires Rely(others) && i < |intents.intents|
      requires intents.intents[i].workspace == workspace && intents.intents[i].key == key
      modifies objects, intents
      ensures var l := LookedAt(old(Now()), i, fails, others, k); Now() == l.last && saved == l.saved
      ensures i < |intents.intents|
    {
      ghost var w := Now();
      assert Steady(w, others(3 * k, w)) && Steady(others(3 * k, w), others(3 * k + 1, others(3 * k, w)));
      Interfere(others, 3 * k);
      saved := intents.AssetExistsForKey(workspace, key);
      Interfere(others, 3 * k + 1);
      if !saved && !fails {
        objects.keys := objects.keys - {key};
      }
      assert Steady(Now(), others(3 * k + 2, Now()));
      Interfere(others, 3 * k + 2);
    }

    /** Record the outcome, unless the claim was lost. */
    method Record(i: nat, seen: IntentState, token: Token, saved: bool, fails: bool, now: int)
      returns (ok: bool, counted: SweepResult)
      requires i < |intents.intents|
      modifies intents
      ensures ok == Owns(old(intents.intents)[i], Some(token))
      ensures !ok ==> intents.View() == old(intents.View())
      ensures ok ==> intents.View() == Put(old(intents.View()), i,
                                           Swept(old(intents.intents)[i], seen, saved, fails, now, maxRetries))
                     && counted == Counted(old(intents.intents)[i], seen, saved, fails, maxRetries)
    {
      counted := SweepResult(0, 0, 0, 0);
      if saved {
        ok := intents.CompleteUploadIntent(i, None, Some(token));
        counted := SweepResult(0, 1, 0, 0);
      } else if fails {
        var exhausted;
        ok, exhausted := intents.RecordUploadCleanupFailure(i, maxRetries, Some(token));
        counted := SweepResult(0, 0, 1, if exhausted then 1 else 0);
      } else if !CanMaterialize(seen) {
        ok := intents.RecordUploadReclaimed(i, Some(token));
        counted := SweepResult(1, 0, 0, 0);
      } else {
        ok := intents.WatchForLateUpload(i, token, now + LateUploadWatchSeconds, seen == LateUploadWatch);
      }
    }

    method ClaimBatch(p: Pass) returns (ids: seq<nat>, seen: seq<IntentState>)
      modifies intents
      ensures Batch(old(intents.View()), ids, p.now, batchSize)
      ensures BatchClaimed(old(intents.View()), intents.View(), ids, seen, p)
    {
      ids, seen := intents.ClaimExpiredUploadIntents(p.now, p.now + SweepLeaseSeconds, batchSize, p.base);
    }

    /** Sweep one claimed intent. */
    method SweepOne(i: nat, seen: IntentState, p: Pass, others: Others, k: nat, result: SweepResult)
      returns (more: SweepResult, raised: bool)
      requires i < |intents.intents| && Rely(others) && p.maxRetries == maxRetries
      modifies objects, intents
      ensures Progress(Now(), more, raised) == SweptOnce(Progress(old(Now()), result, false), i, seen, p, others, k)
    {
      var saved := Look(i, intents.intents[i].workspace, intents.intents[i].key, i in p.fails, others, k);
      var ok, counted := Record(i, seen, p.base + k, saved, i in p.fails, p.now);
      if !ok {
        return result, true;
      }
      return Added(result, counted), false;
    }

    /**
     One sweep, whatever others do meanwhile: claim the first expired intents,
     then look at each in turn.  The sweep ends early, with an error, at the
     first claim it finds lost.
     */
    method Sweep(p: Pass, others: Others) returns (result: SweepResult, raised: bool, ids: seq<nat>,
                                                   ghost seen: seq<IntentState>, ghost claimed: World)
      requires Rely(others) && p.maxRetries == maxRetries
      modifies objects, intents
      ensures Batch(old(intents.View()), ids, p.now, batchSize)
      ensures BatchClaimed(old(intents.View()), claimed.store, ids, seen, p) && claimed.keys == old(objects.keys)
      ensures Progress(Now(), result, raised) == SweptTo(claimed, ids, seen, p, others, |ids|)
    {
      var states;
      ids, states := ClaimBatch(p);
      seen, claimed := states, Now();
      result, raised := SweepResult(0, 0, 0, 0), false;
      for n := 0 to |ids|
        invariant |claimed.store.intents| <= |intents.intents|
        invariant Progress(Now(), result, raised) == SweptTo(claimed, ids, seen, p, others, n) && !raised
      {
        result, raised := SweepOne(ids[n], states[n], p, others, n, result);
        assert Progress(Now(), result, raised) == SweptTo(claimed, ids, seen, p, others, n + 1);
        if raised {
          RaisedStays(claimed, ids, seen, p, others, n + 1, |ids|);
          return;
        }
      }
    }
  }

  // ---- The uploader ----

  /** How the save ends; a lost acknowledgement may come before or after the commit. */
  datatype SaveAnswer = Answers | Fails | LostBefore | LostAfter

  /** How the upload call, the save and the compensating delete end. */
  datatype Fates = Fates(cancelled: bool, uploadOk: bool, leftObject: bool, save: SaveAnswer, deleteOk: bool)

  datatype UploadResult = Rejected | Abandoned | Saved | Unknown | Compensated | CleanupLeft

  /** What is uploaded, by whom, and how the calls end. */
  datatype Job = Job(owner: string, workspace: int, key: Key, size: nat, fates: Fates)

  datatype Upload = Upload(world: World, result: UploadResult)

  function Written(w: World, s: Option<Store>): World {
    if s.Some? then w.(store := s.value) else w
  }

  /** Delete the object, then close the intent or hand it to cleanup. */
  function CompensatedBy(w: World, i: nat, job: Job, others: Others): Upload {
    var ok := job.fates.deleteOk;
    var last := others(3, if ok then w.(keys := w.keys - {job.key}) else w);
    Upload(Written(last, if Known(last, i) then Compensate(last.store, i, job.owner, !ok) else None),
           if ok then Compensated else CleanupLeft)
  }

  function SavedBy(w: World, i: nat, job: Job, others: Others): Upload {
    var s := if Known(w, i) then SaveUploaded(w.store, i, job.owner, job.workspace, job.key, job.size) else None;
    match job.fates.save
    case Answers => if s.Some? then Upload(Written(w, s), Saved) else CompensatedBy(w, i, job, others)
    case Fails => CompensatedBy(w, i, job, others)
    case LostBefore => Upload(w, Unknown)
    case LostAfter => Upload(Written(w, s), Unknown)
  }

  function MarkedBy(w: World, i: nat, job: Job, others: Others): Upload {
    var s := if Known(w, i) then MarkUploaded(w.store, i) else None;
    if s.None? then CompensatedBy(w, i, job, others) else SavedBy(others(2, Written(w, s)), i, job, others)
  }

  /** The upload once its intent was admitted: store the object, mark the intent, save the asset. */
  function UploadedBy(w: World, i: nat, job: Job, others: Others): Upload {
    var begun := others(0, w);
    if job.fates.cancelled then
      Upload(Written(begun, if Known(begun, i) then Compensate(begun.store, i, job.owner, false) else None), Abandoned)
    else
      var stored := if job.fates.uploadOk || job.fates.leftObject then begun.(keys := begun.keys + {job.key}) else begun;
      var returned := others(1, stored);
      if job.fates.uploadOk then MarkedBy(returned, i, job, others) else CompensatedBy(returned, i, job, others)
  }

  /** Nobody else stores an object under the key, or saves an asset with it. */
  ghost predicate Private(others: Others, ws: int, key: Key) {
    forall k, w {:trigger others(k, w)} ::
      && (key in others(k, w).keys ==> key in w.keys)
      && (HasKey(others(k, w).store, ws, key) ==> HasKey(w.store, ws, key))
  }

  /** The intent is the job's, and its key has no asset. */
  predicate Mine(w: World, i: nat, job: Job) {
    && Known(w, i) && w.store.intents[i].owner == job.owner
    && w.store.intents[i].workspace == job.workspace && w.store.intents[i].key == job.key
    && !HasKey(w.store, job.workspace, job.key)
  }

  lemma MineStays(w: World, i: nat, job: Job, others: Others, k: nat)
    requires Mine(w, i, job) && Rely(others) && Private(others, job.workspace, job.key)
    ensures Mine(others(k, w), i, job) && (job.key !in w.keys ==> job.key !in others(k, w).keys)
  {
    assert Steady(w, others(k, w));
  }

  /** How each result leaves the intent, its asset and its object. */
  predicate EndsAs(u: Upload, i: nat, job: Job) {
    && Known(u.world, i)
    && var state, saved := u.world.store.intents[i].state, HasKey(u.world.store, job.workspace, job.key);
       match u.result
       case Saved => state == Completed && saved
       case Unknown => saved ==> state == Completed
       case CleanupLeft => state == CleanupPending && !saved
       case _ => state == Reclaimed && !saved && job.key !in u.world.keys
  }

  lemma CompensationEnds(w: World, i: nat, job: Job, others: Others)
    requires Mine(w, i, job) && Rely(others) && Private(others, job.workspace, job.key)
    ensures EndsAs(CompensatedBy(w, i, job, others), i, job)
  {
    var deleted := if job.fates.deleteOk then w.(keys := w.keys - {job.key}) else w;
    MineStays(deleted, i, job, others, 3);
  }

  lemma SaveEnds(w: World, i: nat, job: Job, others: Others)
    requires Mine(w, i, job) && Rely(others) && Private(others, job.workspace, job.key)
    ensures EndsAs(SavedBy(w, i, job, others), i, job)
  {
    CompensationEnds(w, i, job, others);
    var s := SaveUploaded(w.store, i, job.owner, job.workspace, job.key, job.size);
    if s.Some? {
      assert s.value.assets[|w.store.assets|] in s.value.assets;
    }
  }

  /**
   Whatever sweepers and others do between its calls, an admitted upload ends
   with its asset and a completed intent, or without an asset and either with
   the object deleted and the intent closed, or with cleanup owed; only a lost
   acknowledgement leaves open which.
   */
  lemma UploadEnds(w: World, i: nat, job: Job, others: Others)
    requires Mine(w, i, job) && job.key !in w.keys && Rely(others) && Private(others, job.workspace, job.key)
    ensures EndsAs(UploadedBy(w, i, job, others), i, job)
  {
    var begun := others(0, w);
    MineStays(w, i, job, others, 0);
    if !job.fates.cancelled {
      var stored := if job.fates.uploadOk || job.fates.leftObject then begun.(keys := begun.keys + {job.key}) else begun;
      MineStays(stored, i, job, others, 1);
      var returned := others(1, stored);
      CompensationEnds(returned, i, job, others);
      var marked := MarkUploaded(returned.store, i);
      if marked.Some? {
        MineStays(Written(returned, marked), i, job, others, 2);
        SaveEnds(others(2, Written(returned, marked)), i, job, others);
      }
    }
  }

  /** An intent that a sweeper took before the save yields no asset. */
  lemma TakenIntentIsNotSaved(w: World, i: nat, job: Job, others: Others)
    requires Mine(w, i, job) && Rely(others) && Private(others, job.workspace, job.key)
    requires w.store.intents[i].state != Uploaded
    ensures !HasKey(SavedBy(w, i, job, others).world.store, job.workspace, job.key)
  {
    var deleted := if job.fates.deleteOk then w.(keys := w.keys - {job.key}) else w;
    MineStays(deleted, i, job, others, 3);
  }

  /** A mark or a save that is refused, because another took the intent, is compensated. */
  lemma RefusedCallIsCompensated(w: World, i: nat, job: Job, others: Others)
    requires Known(w, i)
    ensures w.store.intents[i].state != Pending ==> MarkedBy(w, i, job, others) == CompensatedBy(w, i, job, others)
    ensures job.fates.save == Answers
            && (w.store.intents[i].state != Uploaded || w.store.intents[i].owner != job.owner
                || w.store.intents[i].workspace != job.workspace || w.store.intents[i].key != job.key) ==>
              SavedBy(w, i, job, others) == CompensatedBy(w, i, job, others)
  {
  }

  /** How an admitted upload ends that nobody disturbs. */
  function Fated(f: Fates): UploadResult {
    if f.cancelled then Abandoned
    else if f.uploadOk && f.save == Answers then Saved
    else if f.uploadOk && f.save != Fails then Unknown
    else if f.deleteOk then Compensated
    else CleanupLeft
  }

  /** What each result leaves of the intent, the assets and the objects, when nobody disturbs the upload. */
  predicate LeftBy(w: World, i: nat, job: Job, after: World) {
    && Known(w, i)
    && var f, intent := job.fates, w.store.intents[i];
       var stored := f.uploadOk || f.leftObject;
       var saved := World(Store(w.store.assets + [Asset(w.store.nextId, job.workspace, job.key, job.size)], w.store.nextId + 1,
                                w.store.intents[i := intent.(state := Completed)]), w.keys + {job.key});
       match Fated(f)
       case Saved => after == saved
       case Unknown =>
         after == if f.save == LostAfter then saved
                  else World(w.store.(intents := w.store.intents[i := intent.(state := Uploaded)]), w.keys + {job.key})
       case CleanupLeft =>
         after == World(w.store.(intents := w.store.intents[i := intent.(state := CleanupPending)]),
                        if stored then w.keys + {job.key} else w.keys)
       case _ => after == World(w.store.(intents := w.store.intents[i := intent.(state := Reclaimed)]), w.keys)
  }

  lemma UndisturbedUpload(w: World, i: nat, job: Job)
    requires Mine(w, i, job) && w.store.intents[i].state == Pending && job.key !in w.keys
    ensures UploadedBy(w, i, job, Nobody()).result == Fated(job.fates)
    ensures LeftBy(w, i, job, UploadedBy(w, i, job, Nobody()).world)
  {
    var after := UploadedBy(w, i, job, Nobody()).world;
    assert w.keys + {job.key} - {job.key} == w.keys && w.keys - {job.key} == w.keys;
  }

  class MediaAssetService {
    const objects: ObjectStore
    const assets: InMemoryMediaAssetStorage

    constructor (objects: ObjectStore, assets: InMemoryMediaAssetStorage)
      ensures this.objects == objects && this.assets == assets
    {
      this.objects, this.assets := objects, assets;
    }

    function Now(): World
      reads objects, assets
    {
      World(assets.View(), objects.keys)
    }

    /** The intents were never removed, and the one at `i` is the job's. */
    method Interfere(others: Others, k: nat, i: nat)
      requires i < |assets.intents| && Rely(others)
      modifies objects, assets
      ensures Now() == others(k, old(Now())) && i < |assets.intents|
    {
      var w := others(k, Now());
      assert Steady(Now(), w);
      assets.Interfere(w.store);
      objects.keys := w.keys;
    }

    method CompensateUpload(i: nat, job: Job, others: Others) returns (result: UploadResult)
      requires i < |assets.intents| && Rely(others)
      modifies objects, assets
      ensures Upload(Now(), result) == CompensatedBy(old(Now()), i, job, others)
    {
      if job.fates.deleteOk {
        objects.keys := objects.keys - {job.key};
      }
      Interfere(others, 3, i);
      var _ := assets.CompensateUpload(i, job.owner, !job.fates.deleteOk);
      return if job.fates.deleteOk then Compensated else CleanupLeft;
    }

    /** Save the asset of the marked intent. */
    method Save(i: nat, job: Job, others: Others) returns (result: UploadResult)
      requires i < |assets.intents| && Rely(others)
      modifies objects, assets
      ensures Upload(Now(), result) == SavedBy(old(Now()), i, job, others)
    {
      var saved := false;
      if job.fates.save == Answers || job.fates.save == LostAfter {
        saved := assets.SaveUploadedAsset(i, job.owner, job.workspace, job.key, job.size);
      }
      if job.fates.save == LostBefore || job.fates.save == LostAfter {
        return Unknown;
      }
      if saved {
        return UploadResult.Saved;
      }
      result := CompensateUpload(i, job, others);
    }

    /**
     Store one upload, whatever others do meanwhile: reserve, upload, mark, save;
     compensate on failure.
     */
    method StoreAsset(job: Job, now: int, policy: Policy, others: Others) returns (result: UploadResult)
      requires Rely(others)
      modifies objects, assets
      ensures var s, i := old(assets.View()), |old(assets.intents)|;
              var admitted := UploadIntents.Create(s, job.owner, job.workspace, job.key, now + 1800, job.size, policy);
              if admitted.None? then result == Rejected && Now() == old(Now())
              else Upload(Now(), result) == UploadedBy(World(admitted.value, old(objects.keys)), i, job, others)
    {
      var i := |assets.intents|;
      var admitted := assets.CreateUploadIntent(job.owner, job.workspace, job.key, now + UploadLeaseSeconds, job.size,
                                                policy);
      if !admitted {
        return Rejected;
      }
      Interfere(others, 0, i);
      if job.fates.cancelled {
        var _ := assets.CompensateUpload(i, job.owner, false);
        return Abandoned;
      }
      if job.fates.uploadOk || job.fates.leftObject {
        objects.keys := objects.keys + {job.key};
      }
      Interfere(others, 1, i);
      if !job.fates.uploadOk {
        result := CompensateUpload(i, job, others);
        return;
      }
      var marked := assets.MarkUploadIntentUploaded(i);
      if !marked {
        result := CompensateUpload(i, job, others);
        return;
      }
      Interfere(others, 2, i);
      result := Save(i, job, others);
    }
  }
}
