/**
 Media assets and upload intents: the tables, every guarded change the storage
 makes to them, and the in-memory storage that makes the changes in place.
 A change that the storage refuses by raising is `None`.
 */
module UploadIntents {
  import opened Options
  import opened Sums

  datatype IntentState =
    | Pending | Uploaded | CleanupPending | Reclaiming | LateUploadWatch | Completed | Reclaimed | Exhausted

  type Key = string

  /** A uuid4 claim token. */
  type Token = nat

  datatype Intent = Intent(owner: string, workspace: int, key: Key, state: IntentState, leaseExpires: int,
                           retries: nat, token: Option<Token>, reserved: nat)

  datatype Asset = Asset(id: nat, workspace: int, key: Key, size: nat)

  /** Intents are never removed: the intent with id `k + 1` is `intents[k]`. */
  datatype Store = Store(assets: seq<Asset>, nextId: nat, intents: seq<Intent>)

  const EmptyStore := Store([], 1, [])

  /** A limit of zero or less is no limit. */
  datatype Policy = Policy(maxStoredBytes: int, maxAssetCount: int, maxReservedBytes: int)

  // ---- Usage ----

  /** The states whose reservation still counts. */
  predicate Counts(state: IntentState) {
    state != Completed && state != Reclaimed
  }

  function StoredOf(ws: int): Asset -> int {
    (a: Asset) => if a.workspace == ws then a.size else 0
  }

  function StoredSlotOf(ws: int): Asset -> int {
    (a: Asset) => if a.workspace == ws then 1 else 0
  }

  function ReservedOf(ws: int): Intent -> int {
    (i: Intent) => if i.workspace == ws && Counts(i.state) then i.reserved else 0
  }

  function SlotOf(ws: int): Intent -> int {
    (i: Intent) => if i.workspace == ws && Counts(i.state) && i.reserved > 0 then 1 else 0
  }

  /** The bytes that open intents of a workspace reserve. */
  function Reserved(s: Store, ws: int): int {
    Sum(s.intents, ReservedOf(ws))
  }

  /** Stored plus reserved bytes of a workspace. */
  function Bytes(s: Store, ws: int): int {
    Sum(s.assets, StoredOf(ws)) + Reserved(s, ws)
  }

  /** Stored plus reserved asset slots of a workspace. */
  function Slots(s: Store, ws: int): int {
    Sum(s.assets, StoredSlotOf(ws)) + Sum(s.intents, SlotOf(ws))
  }

  predicate WithinBudget(s: Store, ws: int, incoming: nat, p: Policy) {
    && (p.maxStoredBytes > 0 ==> Bytes(s, ws) + incoming <= p.maxStoredBytes)
    && (p.maxAssetCount > 0 ==> Slots(s, ws) + 1 <= p.maxAssetCount)
    && (p.maxReservedBytes > 0 ==> Reserved(s, ws) + incoming <= p.maxReservedBytes)
  }

  // ---- Changes ----

  function Put(s: Store, i: nat, intent: Intent): Store
    requires i < |s.intents|
  {
    s.(intents := s.intents[i := intent])
  }

  function Create(s: Store, owner: string, ws: int, key: Key, lease: int, incoming: nat, p: Policy): Option<Store> {
    if !WithinBudget(s, ws, incoming, p) then None
    else Some(s.(intents := s.intents + [Intent(owner, ws, key, Pending, lease, 0, None, incoming)]))
  }

  function MarkUploaded(s: Store, i: nat): Option<Store>
    requires i < |s.intents|
  {
    if s.intents[i].state != Pending then None else Some(Put(s, i, s.intents[i].(state := Uploaded)))
  }

  function SaveUploaded(s: Store, i: nat, owner: string, ws: int, key: Key, size: nat): Option<Store>
    requires i < |s.intents|
  {
    var current := s.intents[i];
    if current.state != Uploaded || current.owner != owner || current.workspace != ws || current.key != key then None
    else Some(Put(s, i, current.(state := Completed))
              .(assets := s.assets + [Asset(s.nextId, ws, key, size)], nextId := s.nextId + 1))
  }

  function Complete(s: Store, i: nat, owner: Option<string>, token: Option<Token>): Option<Store>
    requires i < |s.intents|
  {
    var current := s.intents[i];
    var uploaderOwns := owner.Some? && current.owner == owner.value && current.state == Uploaded;
    var reconcilerOwns := token.Some? && current.token == token && current.state == Reclaiming;
    if !uploaderOwns && !reconcilerOwns then None else Some(Put(s, i, current.(state := Completed)))
  }

  /** The uploader's compensation checks the owner and nothing else. */
  function Compensate(s: Store, i: nat, owner: string, deletionFailed: bool): Option<Store>
    requires i < |s.intents|
  {
    if s.intents[i].owner != owner then None
    else Some(Put(s, i, s.intents[i].(state := if deletionFailed then CleanupPending else Reclaimed)))
  }

  /** What counts: every stored asset, and what an intent reserves until it is completed or reclaimed. */
  lemma UsageCounts(ws: int, a: Asset, i: Intent)
    ensures StoredOf(ws)(a) == (if a.workspace == ws then a.size else 0)
    ensures StoredSlotOf(ws)(a) == (if a.workspace == ws then 1 else 0)
    ensures var counts := i.workspace == ws && i.state != Completed && i.state != Reclaimed;
            && ReservedOf(ws)(i) == (if counts then i.reserved else 0)
            && SlotOf(ws)(i) == (if counts && i.reserved > 0 then 1 else 0)
  {
  }

  /** An upload is admitted exactly within the three limits, where there are any; then it is recorded as pending. */
  lemma AdmittedIff(s: Store, owner: string, ws: int, key: Key, lease: int, incoming: nat, p: Policy)
    ensures var stored, reserved := Sum(s.assets, StoredOf(ws)), Sum(s.intents, ReservedOf(ws));
            var slots := Sum(s.assets, StoredSlotOf(ws)) + Sum(s.intents, SlotOf(ws));
            var after := Create(s, owner, ws, key, lease, incoming, p);
            && (after.Some? <==>
                  && (p.maxStoredBytes <= 0 || stored + reserved + incoming <= p.maxStoredBytes)
                  && (p.maxAssetCount <= 0 || slots < p.maxAssetCount)
                  && (p.maxReservedBytes <= 0 || reserved + incoming <= p.maxReservedBytes))
            && (after.Some? ==>
                  after.value == s.(intents := s.intents + [Intent(owner, ws, key, Pending, lease, 0, None, incoming)]))
  {
  }

  predicate Claimable(intent: Intent, now: int) {
    && (intent.state == Pending || intent.state == Uploaded || intent.state == CleanupPending
        || intent.state == Reclaiming || intent.state == LateUploadWatch)
    && intent.leaseExpires <= now
  }

  function Claimed(intent: Intent, lease: int, token: Token): Intent {
    intent.(state := Reclaiming, leaseExpires := lease, token := Some(token))
  }

  /** The claim is still the reconciler's; an absent token is not checked. */
  predicate Owns(intent: Intent, token: Option<Token>) {
    token.Some? ==> intent.state == Reclaiming && intent.token == token
  }

  function RecordReclaimed(s: Store, i: nat, token: Option<Token>): Option<Store>
    requires i < |s.intents|
  {
    if !Owns(s.intents[i], token) then None
    else Some(Put(s, i, s.intents[i].(state := Reclaimed, reserved := 0)))
  }

  function Watch(s: Store, i: nat, token: Token, expires: int, release: bool): Option<Store>
    requires i < |s.intents|
  {
    if !Owns(s.intents[i], Some(token)) then None
    else Some(Put(s, i, s.intents[i].(state := LateUploadWatch, leaseExpires := expires,
                                      reserved := if release then 0 else s.intents[i].reserved)))
  }

  function CleanupFailure(s: Store, i: nat, maxRetries: nat, token: Option<Token>): Option<Store>
    requires i < |s.intents|
  {
    if !Owns(s.intents[i], token) then None
    else
      var retries := s.intents[i].retries + 1;
      Some(Put(s, i, s.intents[i].(state := if retries >= maxRetries then Exhausted else CleanupPending,
                                   retries := retries)))
  }

  /**
   An asset is saved exactly from an uploaded intent of that owner, workspace and
   key, which is completed together with it.
   */
  lemma SavesIff(s: Store, i: nat, owner: string, ws: int, key: Key, size: nat)
    requires i < |s.intents|
    ensures var before, after := s.intents[i], SaveUploaded(s, i, owner, ws, key, size);
            && (after.Some? <==>
                  before.state == Uploaded && before.owner == owner && before.workspace == ws && before.key == key)
            && (after.Some? ==>
                  after.value == Store(s.assets + [Asset(s.nextId, ws, key, size)], s.nextId + 1,
                                       s.intents[i := before.(state := Completed)]))
  {
  }

  /** An intent is completed exactly by its uploader once it is uploaded, or by the sweeper that holds it. */
  lemma CompletesIff(s: Store, i: nat, owner: Option<string>, token: Option<Token>)
    requires i < |s.intents|
    ensures var before, after := s.intents[i], Complete(s, i, owner, token);
            && (after.Some? <==>
                  || (before.state == Uploaded && owner == Some(before.owner))
                  || (before.state == Reclaiming && token.Some? && before.token == token))
            && (after.Some? ==> after.value == s.(intents := s.intents[i := before.(state := Completed)]))
  {
  }

  /** The uploader compensates its own intent, whatever state that is in; it is reclaimed, or left to cleanup if the delete failed. */
  lemma CompensatesIff(s: Store, i: nat, owner: string, deletionFailed: bool)
    requires i < |s.intents|
    ensures var before := s.intents[i];
            Compensate(s, i, owner, deletionFailed)
            == if before.owner == owner
               then Some(s.(intents := s.intents[i := before.(state := if deletionFailed then CleanupPending else Reclaimed)]))
               else None
  {
  }

  /** A sweeper records an outcome exactly while it holds the intent; what it records is one of these. */
  lemma RecordsIff(s: Store, i: nat, token: Token, expires: int, release: bool, maxRetries: nat)
    requires i < |s.intents|
    ensures var before := s.intents[i];
            var holds := before.state == Reclaiming && before.token == Some(token);
            var put := (x: Intent) => if holds then Some(s.(intents := s.intents[i := x])) else None;
            && RecordReclaimed(s, i, Some(token)) == put(before.(state := Reclaimed, reserved := 0))
            && Watch(s, i, token, expires, release)
               == put(before.(state := LateUploadWatch, leaseExpires := expires,
                              reserved := if release then 0 else before.reserved))
            && CleanupFailure(s, i, maxRetries, Some(token))
               == put(before.(state := if before.retries + 1 < maxRetries then CleanupPending else Exhausted,
                              retries := before.retries + 1))
  {
  }

  predicate HasKey(s: Store, ws: int, key: Key) {
    exists a :: a in s.assets && a.workspace == ws && a.key == key
  }

  /** A key counts as saved exactly if an asset of the same workspace has it. */
  lemma HasKeyIff(s: Store, ws: int, key: Key)
    ensures HasKey(s, ws, key) <==> exists k :: 0 <= k < |s.assets| && s.assets[k].workspace == ws && s.assets[k].key == key
  {
  }

  // ---- The in-memory storage ----

  class InMemoryMediaAssetStorage {
    var assets: seq<Asset>
    var nextId: nat
    var intents: seq<Intent>

    function View(): Store
      reads this
    {
      Store(assets, nextId, intents)
    }

    constructor ()
      ensures View() == EmptyStore
    {
      assets, nextId, intents := [], 1, [];
    }

    /** Other processes leave the store as `s`. */
    method Interfere(s: Store)
      modifies this
      ensures View() == s
    {
      assets, nextId, intents := s.assets, s.nextId, s.intents;
    }

    method SetState(i: nat, state: IntentState)
      requires i < |intents|
      modifies this`intents
      ensures intents == old(intents)[i := old(intents)[i].(state := state)]
    {
      intents := intents[i := intents[i].(state := state)];
    }

    method CreateUploadIntent(owner: string, ws: int, key: Key, lease: int, incoming: nat, p: Policy)
      returns (admitted: bool)
      modifies this
      ensures var after := Create(old(View()), owner, ws, key, lease, incoming, p);
              admitted == after.Some? && View() == if admitted then after.value else old(View())
    {
      var storedBytes, storedCount := 0, 0;
      for k := 0 to |assets|
        invariant storedBytes == SumTo(assets, StoredOf(ws), k)
        invariant storedCount == SumTo(assets, StoredSlotOf(ws), k)
      {
        if assets[k].workspace == ws {
          storedBytes, storedCount := storedBytes + assets[k].size, storedCount + 1;
        }
      }
      var reservedBytes, reservedCount := 0, 0;
      for k := 0 to |intents|
        invariant reservedBytes == SumTo(intents, ReservedOf(ws), k)
        invariant reservedCount == SumTo(intents, SlotOf(ws), k)
      {
        if intents[k].workspace == ws && Counts(intents[k].state) {
          reservedBytes := reservedBytes + intents[k].reserved;
          if intents[k].reserved > 0 {
            reservedCount := reservedCount + 1;
          }
        }
      }
      if p.maxStoredBytes > 0 && storedBytes + reservedBytes + incoming > p.maxStoredBytes {
        return false;
      }
      if p.maxAssetCount > 0 && storedCount + reservedCount + 1 > p.maxAssetCount {
        return false;
      }
      if p.maxReservedBytes > 0 && reservedBytes + incoming > p.maxReservedBytes {
        return false;
      }
      intents := intents + [Intent(owner, ws, key, Pending, lease, 0, None, incoming)];
      return true;
    }

    method MarkUploadIntentUploaded(i: nat) returns (ok: bool)
      requires i < |intents|
      modifies this
      ensures var after := MarkUploaded(old(View()), i);
              ok == after.Some? && View() == if ok then after.value else old(View())
    {
      if intents[i].state != Pending {
        return false;
      }
      SetState(i, Uploaded);
      return true;
    }

    method SaveUploadedAsset(i: nat, owner: string, ws: int, key: Key, size: nat) returns (ok: bool)
      requires i < |intents|
      modifies this
      ensures var after := SaveUploaded(old(View()), i, owner, ws, key, size);
              ok == after.Some? && View() == if ok then after.value else old(View())
    {
      var current := intents[i];
      if current.state != Uploaded || current.owner != owner || current.workspace != ws || current.key != key {
        return false;
      }
      assets := assets + [Asset(nextId, ws, key, size)];
      nextId := nextId + 1;
      SetState(i, Completed);
      return true;
    }

    method CompleteUploadIntent(i: nat, owner: Option<string>, token: Option<Token>) returns (ok: bool)
      requires i < |intents|
      modifies this
      ensures var after := Complete(old(View()), i, owner, token);
              ok == after.Some? && View() == if ok then after.value else old(View())
    {
      var current := intents[i];
      var uploaderOwns := owner.Some? && current.owner == owner.value && current.state == Uploaded;
      var reconcilerOwns := token.Some? && current.token == token && current.state == Reclaiming;
      if !uploaderOwns && !reconcilerOwns {
        return false;
      }
      SetState(i, Completed);
      return true;
    }

    method CompensateUpload(i: nat, owner: string, deletionFailed: bool) returns (ok: bool)
      requires i < |intents|
      modifies this
      ensures var after := Compensate(old(View()), i, owner, deletionFailed);
              ok == after.Some? && View() == if ok then after.value else old(View())
    {
      if intents[i].owner != owner {
        return false;
      }
      SetState(i, if deletionFailed then CleanupPending else Reclaimed);
      return true;
    }

    method AssetExistsForKey(ws: int, key: Key) returns (found: bool)
      ensures found == HasKey(View(), ws, key)
    {
      found := false;
      for k := 0 to |assets|
        invariant found == exists a :: a in assets[..k] && a.workspace == ws && a.key == key
      {
        assert assets[..k + 1] == assets[..k] + [assets[k]];
        if assets[k].workspace == ws && assets[k].key == key {
          found := true;
        }
      }
      assert assets[..|assets|] == assets;
    }

    /**
     Claim the first `limit` intents, in id order, whose lease has expired.
     Claim `k` of the batch draws token `base + k`.
     */
    method ClaimExpiredUploadIntents(now: int, lease: int, limit: nat, base: Token)
      returns (ids: seq<nat>, seen: seq<IntentState>)
      modifies this`intents
      ensures |ids| == |seen| <= limit && |intents| == |old(intents)|
      ensures forall j, k :: 0 <= j < k < |ids| ==> ids[j] < ids[k]
      ensures forall k :: 0 <= k < |ids| ==>
                && ids[k] < |old(intents)| && Claimable(old(intents)[ids[k]], now)
                && old(intents)[ids[k]].leaseExpires <= now
                && seen[k] == old(intents)[ids[k]].state
                && intents[ids[k]] == Claimed(old(intents)[ids[k]], lease, base + k)
      ensures forall i :: 0 <= i < |intents| && i !in ids ==> intents[i] == old(intents)[i]
      ensures |ids| < limit ==> forall i :: 0 <= i < |intents| && Claimable(old(intents)[i], now) ==> i in ids
      ensures forall i :: 0 <= i < |intents| && Claimable(old(intents)[i], now) && i !in ids ==>
                forall k :: 0 <= k < |ids| ==> ids[k] < i
    {
      ids, seen := [], [];
      for i := 0 to |intents|
        invariant |intents| == |old(intents)|
        invariant |ids| == |seen| <= limit
        invariant forall j, k :: 0 <= j < k < |ids| ==> ids[j] < ids[k]
        invariant forall k :: 0 <= k < |ids| ==>
                    && ids[k] < i && Claimable(old(intents)[ids[k]], now)
                    && seen[k] == old(intents)[ids[k]].state
                    && intents[ids[k]] == Claimed(old(intents)[ids[k]], lease, base + k)
        invariant forall j :: 0 <= j < |intents| && j !in ids ==> intents[j] == old(intents)[j]
        invariant forall j :: 0 <= j < i && Claimable(old(intents)[j], now) && j !in ids ==>
                    |ids| == limit && forall k :: 0 <= k < |ids| ==> ids[k] < j
      {
        var state := intents[i].state;
        var open := state == Pending || state == Uploaded || state == CleanupPending || state == Reclaiming
                    || state == LateUploadWatch;
        if |ids| < limit && open && intents[i].leaseExpires <= now {
          seen := seen + [intents[i].state];
          intents := intents[i := Claimed(intents[i], lease, base + |ids|)];
          ids := ids + [i];
        }
      }
    }

    method RecordUploadReclaimed(i: nat, token: Option<Token>) returns (ok: bool)
      requires i < |intents|
      modifies this
      ensures var after := RecordReclaimed(old(View()), i, token);
              ok == after.Some? && View() == if ok then after.value else old(View())
    {
      if token.Some? && (intents[i].state != Reclaiming || intents[i].token != token) {
        return false;
      }
      intents := intents[i := intents[i].(state := Reclaimed, reserved := 0)];
      return true;
    }

    method WatchForLateUpload(i: nat, token: Token, expires: int, release: bool) returns (ok: bool)
      requires i < |intents|
      modifies this
      ensures var after := Watch(old(View()), i, token, expires, release);
              ok == after.Some? && View() == if ok then after.value else old(View())
    {
      if intents[i].state != Reclaiming || intents[i].token != Some(token) {
        return false;
      }
      var reserved := if release then 0 else intents[i].reserved;
      intents := intents[i := intents[i].(state := LateUploadWatch, leaseExpires := expires, reserved := reserved)];
      return true;
    }

    method RecordUploadCleanupFailure(i: nat, maxRetries: nat, token: Option<Token>) returns (ok: bool, exhausted: bool)
      requires i < |intents|
      modifies this
      ensures var after := CleanupFailure(old(View()), i, maxRetries, token);
              ok == after.Some? && View() == if ok then after.value else old(View())
      ensures ok ==> exhausted == (intents[i].state == Exhausted)
    {
      exhausted := false;
      if token.Some? && (intents[i].state != Reclaiming || intents[i].token != token) {
        return false, false;
      }
      var retries := intents[i].retries + 1;
      exhausted := retries >= maxRetries;
      intents := intents[i := intents[i].(state := if exhausted then Exhausted else CleanupPending, retries := retries)];
      return true, exhausted;
    }
  }
}
