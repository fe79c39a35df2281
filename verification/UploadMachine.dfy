/**
 Uploaders, sweepers, retention and crashes over the same intents and objects.
 Each intent has one uploader; any number of sweepers hold claims at once, and
 each may stop at any point.
 */
module UploadMachine {
  import opened Options
  import opened UploadIntents

  /** Where the uploader of an intent stands. */
  datatype Pc =
    | Created     // the intent exists, the upload has not begun
    | Uploading
    | Stored      // the upload call returned
    | Marked      // the intent was marked uploaded
    | Failing     // compensation is due
    | Cleaned     // the object was deleted
    | Unclean     // deleting the object failed
    | Ended

  datatype ItemPc = Fresh | Unsaved | Gone | Stuck

  /** A sweeper's work on one claimed intent, with the state it saw when claiming. */
  datatype Item = Item(intent: nat, seen: IntentState, pc: ItemPc)

  /**
   `inflight` are the upload calls that may still create their object, `retiring`
   and `erased` the keys of assets that retention has marked and whose objects
   it has deleted.  `failed` are the intents one of whose deletes has failed,
   and `doubtful` those one of whose sweeps failed to delete while the upload
   could still store its object.
   */
  datatype Machine = Machine(store: Store, objects: set<Key>, inflight: set<nat>, pcs: seq<Pc>,
                             items: map<Token, Item>, nextToken: Token, retiring: set<Key>, erased: set<Key>,
                             failed: set<nat>, doubtful: set<nat>)

  const Initial := Machine(EmptyStore, {}, {}, [], map[], 0, {}, {}, {}, {})

  /** A refused save, a failure before the commit, or a lost connection before the commit. */
  datatype SaveFate = Normal | FailsUncommitted | LostUncommitted

  datatype Step =
    | Create(owner: string, ws: int, key: Key, lease: int, incoming: nat, policy: Policy)
    | Cancel(i: nat)
    | Begin(i: nat)
    | Materialize(i: nat)
    | UploadReturns(i: nat)
    | UploadFails(i: nat)
    | Mark(i: nat)
    | Save(i: nat, size: nat, fate: SaveFate)
    | DeleteObject(i: nat, ok: bool)
    | Compensation(i: nat)
    | Crash(i: nat)
    | LateEnds(i: nat)
    | SweepClaim(i: nat, now: int, lease: int)
    | SweepCheck(token: Token)
    | SweepDelete(token: Token, ok: bool)
    | SweepRecord(token: Token, expires: int, maxRetries: nat)
    | SweepDrop(token: Token)
    | RetainMark(k: nat)
    | RetainObject(key: Key)
    | RetainRow(k: nat)

  predicate At(m: Machine, i: nat, pc: Pc) {
    i < |m.store.intents| && i < |m.pcs| && m.pcs[i] == pc
  }

  predicate Working(m: Machine, token: Token, pc: ItemPc) {
    token in m.items && m.items[token].pc == pc && m.items[token].intent < |m.store.intents|
  }

  function KeyOf(m: Machine, i: nat): Key
    requires i < |m.store.intents|
  {
    m.store.intents[i].key
  }

  function Goto(m: Machine, i: nat, pc: Pc): Machine
    requires i < |m.pcs|
  {
    m.(pcs := m.pcs[i := pc])
  }

  function Stored(m: Machine, s: Option<Store>): Machine {
    if s.Some? then m.(store := s.value) else m
  }

  function ItemAt(m: Machine, token: Token, pc: ItemPc): Machine
    requires token in m.items
  {
    m.(items := m.items[token := m.items[token].(pc := pc)])
  }

  function DropItem(m: Machine, token: Token): Machine {
    m.(items := m.items - {token})
  }

  /** The upload the sweeper saw could still materialize after the sweep. */
  predicate CanMaterialize(seen: IntentState) {
    seen == Pending || seen == Reclaiming || seen == LateUploadWatch
  }

  function Recorded(m: Machine, token: Token, expires: int, maxRetries: nat): Option<Store>
    requires token in m.items && m.items[token].intent < |m.store.intents|
  {
    var item := m.items[token];
    if item.pc == Stuck then CleanupFailure(m.store, item.intent, maxRetries, Some(token))
    else if CanMaterialize(item.seen) then
      Watch(m.store, item.intent, token, expires, item.seen == LateUploadWatch)
    else RecordReclaimed(m.store, item.intent, Some(token))
  }

  function NextCreate(m: Machine, owner: string, ws: int, key: Key, lease: int, incoming: nat, policy: Policy): Machine {
    var s := UploadIntents.Create(m.store, owner, ws, key, lease, incoming, policy);
    if s.None? then m else m.(store := s.value, pcs := m.pcs + [Created])
  }

  function NextSave(m: Machine, i: nat, size: nat, fate: SaveFate): Machine {
    if !At(m, i, Marked) then m
    else
      var intent := m.store.intents[i];
      var s := SaveUploaded(m.store, i, intent.owner, intent.workspace, intent.key, size);
      match fate
      case Normal => if s.Some? then Goto(m.(store := s.value), i, Ended) else Goto(m, i, Failing)
      case FailsUncommitted => Goto(m, i, Failing)
      case LostUncommitted => Goto(m, i, Ended)
  }

  function NextClaim(m: Machine, i: nat, now: int, lease: int): Machine {
    if i < |m.store.intents| && Claimable(m.store.intents[i], now) then
      m.(store := Put(m.store, i, Claimed(m.store.intents[i], lease, m.nextToken)),
         items := m.items[m.nextToken := Item(i, m.store.intents[i].state, Fresh)],
         nextToken := m.nextToken + 1)
    else m
  }

  function NextCheck(m: Machine, token: Token): Machine {
    if !Working(m, token, Fresh) then m
    else
      var i := m.items[token].intent;
      if HasKey(m.store, m.store.intents[i].workspace, KeyOf(m, i))
      then DropItem(Stored(m, Complete(m.store, i, None, Some(token))), token)
      else ItemAt(m, token, Unsaved)
  }

  function SweepFailed(m: Machine, i: nat): Machine {
    m.(failed := m.failed + {i}, doubtful := if MayStore(m, i) then m.doubtful + {i} else m.doubtful)
  }

  function NextSweepDelete(m: Machine, token: Token, ok: bool): Machine {
    if !Working(m, token, Unsaved) then m
    else if ok then ItemAt(m.(objects := m.objects - {KeyOf(m, m.items[token].intent)}), token, Gone)
    else ItemAt(SweepFailed(m, m.items[token].intent), token, Stuck)
  }

  function NextRecord(m: Machine, token: Token, expires: int, maxRetries: nat): Machine {
    if Working(m, token, Gone) || Working(m, token, Stuck)
    then DropItem(Stored(m, Recorded(m, token, expires, maxRetries)), token) else m
  }

  function NextRetainRow(m: Machine, k: nat): Machine {
    if k < |m.store.assets| && m.store.assets[k].key in m.erased
    then m.(store := m.store.(assets := m.store.assets[..k] + m.store.assets[k + 1..])) else m
  }

  function NextCompensation(m: Machine, i: nat): Machine {
    if At(m, i, Cleaned) then Goto(Stored(m, Compensate(m.store, i, m.store.intents[i].owner, false)), i, Ended)
    else if At(m, i, Unclean) then Goto(Stored(m, Compensate(m.store, i, m.store.intents[i].owner, true)), i, Ended)
    else m
  }

  function Next(m: Machine, st: Step): Machine {
    match st
    case Create(owner, ws, key, lease, incoming, policy) => NextCreate(m, owner, ws, key, lease, incoming, policy)
    case Cancel(i) =>
      if At(m, i, Created) then Goto(Stored(m, Compensate(m.store, i, m.store.intents[i].owner, false)), i, Ended) else m
    case Begin(i) => if At(m, i, Created) then Goto(m.(inflight := m.inflight + {i}), i, Uploading) else m
    case Materialize(i) =>
      if i in m.inflight && i < |m.store.intents| then m.(objects := m.objects + {KeyOf(m, i)}) else m
    case UploadReturns(i) =>
      if At(m, i, Uploading)
      then Goto(m.(objects := m.objects + {KeyOf(m, i)}, inflight := m.inflight - {i}), i, Pc.Stored) else m
    case UploadFails(i) =>
      if At(m, i, Uploading) then Goto(m.(inflight := m.inflight - {i}), i, Failing) else m
    case Mark(i) =>
      if !At(m, i, Pc.Stored) then m
      else Goto(Stored(m, MarkUploaded(m.store, i)), i, if MarkUploaded(m.store, i).Some? then Marked else Failing)
    case Save(i, size, fate) => NextSave(m, i, size, fate)
    case DeleteObject(i, ok) =>
      if !At(m, i, Failing) then m
      else if ok then Goto(m.(objects := m.objects - {KeyOf(m, i)}), i, Cleaned)
      else Goto(m.(failed := m.failed + {i}), i, Unclean)
    case Compensation(i) => NextCompensation(m, i)
    case Crash(i) => if i < |m.pcs| then Goto(m, i, Ended) else m
    case LateEnds(i) => if At(m, i, Ended) then m.(inflight := m.inflight - {i}) else m
    case SweepClaim(i, now, lease) => NextClaim(m, i, now, lease)
    case SweepCheck(token) => NextCheck(m, token)
    case SweepDelete(token, ok) => NextSweepDelete(m, token, ok)
    case SweepRecord(token, expires, maxRetries) => NextRecord(m, token, expires, maxRetries)
    case SweepDrop(token) => DropItem(m, token)
    case RetainMark(k) =>
      if k < |m.store.assets| then m.(retiring := m.retiring + {m.store.assets[k].key}) else m
    case RetainObject(key) =>
      if key in m.retiring then m.(objects := m.objects - {key}, erased := m.erased + {key}) else m
    case RetainRow(k) => NextRetainRow(m, k)
  }

  /** Storage keys carry a fresh uuid, no upload is empty, and a saved asset is no larger than its reservation. */
  predicate GoodStep(m: Machine, st: Step) {
    match st
    case Create(_, _, key, _, incoming, _) =>
      && incoming > 0 && key !in m.objects && key !in m.retiring && key !in m.erased
      && forall j :: 0 <= j < |m.store.intents| ==> m.store.intents[j].key != key
    case Save(i, size, _) => i < |m.store.intents| ==> size <= m.store.intents[i].reserved
    case _ => true
  }

  // ---- What always holds ----

  predicate HasAsset(m: Machine, i: nat)
    requires i < |m.store.intents|
  {
    HasKey(m.store, m.store.intents[i].workspace, KeyOf(m, i))
  }

  /** The upload may still begin, run or have just returned, or its call may outlive a crash. */
  predicate MayStore(m: Machine, i: nat) {
    i < |m.pcs| && (m.pcs[i] == Created || m.pcs[i] == Uploading || m.pcs[i] == Pc.Stored || i in m.inflight)
  }

  /** No sweeper looks at the intent again. */
  predicate Closed(state: IntentState) {
    state == Completed || state == Reclaimed
  }

  /** An object is there, or the upload may still create it. */
  predicate Exists(m: Machine, i: nat)
    requires i < |m.store.intents|
  {
    KeyOf(m, i) in m.objects || i in m.inflight || (i < |m.pcs| && m.pcs[i] == Created)
  }

  /** What holds of an intent unless a sweep failed to delete before its upload had ended. */
  predicate TightIntent(m: Machine, i: nat)
    requires i < |m.store.intents|
  {
    var state := m.store.intents[i].state;
    (state == CleanupPending || state == Reclaimed ==> !MayStore(m, i)) && (state == Reclaimed ==> !Exists(m, i))
  }

  /** What holds of a sweeper's item in the same case. */
  predicate TightItem(m: Machine, token: Token)
    requires token in m.items && m.items[token].intent < |m.store.intents|
  {
    var item := m.items[token];
    && (item.seen == CleanupPending || item.pc == Stuck ==> !MayStore(m, item.intent))
    && (item.pc == Gone && !CanMaterialize(item.seen) ==> !Exists(m, item.intent))
  }

  /** Where the uploader of an intent can stand. */
  predicate UploaderOk(m: Machine, i: nat)
    requires i < |m.store.intents| && i < |m.pcs|
  {
    var state, pc := m.store.intents[i].state, m.pcs[i];
    && (state == Completed ==> pc == Ended && i !in m.inflight)
    && (state == Uploaded ==> !MayStore(m, i))
    && (pc == Created ==> i !in m.inflight && KeyOf(m, i) !in m.objects)
    && (i in m.inflight ==> pc == Uploading || pc == Ended)
    && (pc == Uploading ==> i in m.inflight)
    && (pc == Cleaned ==> !Exists(m, i))
    && ((state == Pending && pc == Pc.Stored) || (state == Uploaded && pc == Marked) ==> KeyOf(m, i) in m.objects)
  }

  /** What the intent still reserves. */
  predicate ReservationOk(m: Machine, i: nat)
    requires i < |m.store.intents| && i < |m.pcs|
  {
    var state, reserved := m.store.intents[i].state, m.store.intents[i].reserved;
    && (state == Pending || state == Uploaded ==> reserved > 0)
    && (state == Reclaimed && m.pcs[i] != Ended ==> reserved == 0)
  }

  /** How the intent stands to its asset and to retention. */
  predicate AssetOk(m: Machine, i: nat)
    requires i < |m.store.intents|
  {
    var state := m.store.intents[i].state;
    && (HasAsset(m, i) ==> state == Completed && (KeyOf(m, i) in m.objects || KeyOf(m, i) in m.retiring))
    && (state == Completed && KeyOf(m, i) in m.objects ==> HasAsset(m, i))
    && (KeyOf(m, i) in m.retiring ==> state == Completed)
    && (KeyOf(m, i) in m.erased ==> KeyOf(m, i) in m.retiring && KeyOf(m, i) !in m.objects)
  }

  predicate IntentOk(m: Machine, i: nat)
    requires i < |m.store.intents| && i < |m.pcs|
  {
    var state := m.store.intents[i].state;
    && UploaderOk(m, i) && ReservationOk(m, i) && AssetOk(m, i)
    && (i !in m.doubtful ==> TightIntent(m, i))
    && (i !in m.failed ==> state != CleanupPending && state != Exhausted && m.pcs[i] != Unclean && i !in m.doubtful)
  }

  predicate ItemOk(m: Machine, token: Token)
    requires token in m.items
  {
    var item := m.items[token];
    && item.intent < |m.store.intents| && item.intent < |m.pcs| && token < m.nextToken
    && m.store.intents[item.intent].state != Pending && m.store.intents[item.intent].state != Uploaded
    && !HasAsset(m, item.intent)
    && (CanMaterialize(item.seen) || item.seen == Uploaded || item.seen == CleanupPending)
    && (item.seen == Uploaded ==> !MayStore(m, item.intent))
    && (item.intent !in m.doubtful ==> TightItem(m, token))
    && (item.intent !in m.failed ==> item.pc != Stuck && item.seen != CleanupPending)
  }

  /** The asset carries the key and workspace of this intent. */
  predicate From(s: Store, a: Asset, i: nat) {
    i < |s.intents| && s.intents[i].key == a.key && s.intents[i].workspace == a.workspace
  }

  ghost predicate HasSource(s: Store, a: Asset) {
    exists i: nat :: From(s, a, i)
  }

  /** Every asset was saved from an intent with its key, and no two intents share a key. */
  ghost predicate KeysOk(m: Machine) {
    && (forall i, j :: 0 <= i < j < |m.store.intents| ==> m.store.intents[i].key != m.store.intents[j].key)
    && (forall k :: 0 <= k < |m.store.assets| ==> HasSource(m.store, m.store.assets[k]))
    && (forall j, k :: 0 <= j < k < |m.store.assets| ==> m.store.assets[j].key != m.store.assets[k].key)
  }

  ghost predicate Ok(m: Machine) {
    && |m.pcs| == |m.store.intents| && KeysOk(m)
    && (forall i :: i in m.inflight || i in m.failed || i in m.doubtful ==> i < |m.pcs|)
    && (forall i :: 0 <= i < |m.store.intents| ==> IntentOk(m, i))
    && (forall token :: token in m.items ==> ItemOk(m, token))
  }

  // ---- Steps that concern one intent ----

  /** Nothing but intent `i`, its uploader, its object and its sweepers differ. */
  ghost predicate OnlyAt(m: Machine, n: Machine, i: nat) {
    && |n.store.intents| == |m.store.intents| == |n.pcs| == |m.pcs| && i < |m.pcs|
    && n.retiring == m.retiring && n.erased == m.erased
    && m.failed <= n.failed <= m.failed + {i} && m.doubtful <= n.doubtful <= m.doubtful + {i}
    && n.store.assets == m.store.assets && m.nextToken <= n.nextToken && n.inflight <= m.inflight + {i}
    && n.store.intents[i].key == m.store.intents[i].key
    && n.store.intents[i].workspace == m.store.intents[i].workspace
    && (forall j :: 0 <= j < |m.pcs| && j != i ==>
          && n.store.intents[j] == m.store.intents[j] && n.pcs[j] == m.pcs[j]
          && (j in n.inflight <==> j in m.inflight)
          && (KeyOf(m, j) in n.objects <==> KeyOf(m, j) in m.objects))
    && (forall token :: token in n.items && n.items[token].intent != i ==>
          token in m.items && n.items[token] == m.items[token])
  }

  lemma LocalStep(m: Machine, n: Machine, i: nat)
    requires Ok(m) && OnlyAt(m, n, i) && IntentOk(n, i)
    requires forall token :: token in n.items && n.items[token].intent == i ==> ItemOk(n, token)
    ensures Ok(n)
  {
    assert forall j :: 0 <= j < |m.pcs| ==> n.store.intents[j].key == m.store.intents[j].key
                                            && n.store.intents[j].workspace == m.store.intents[j].workspace;
    assert forall j :: 0 <= j < |m.pcs| ==> HasAsset(n, j) == HasAsset(m, j);
    forall j | 0 <= j < |n.pcs|
      ensures IntentOk(n, j)
    {
      if j != i {
        assert IntentOk(m, j);
      }
    }
    forall token | token in n.items
      ensures ItemOk(n, token)
    {
      if n.items[token].intent != i {
        assert ItemOk(m, token);
      }
    }
    forall k | 0 <= k < |n.store.assets|
      ensures HasSource(n.store, n.store.assets[k])
    {
      assert HasSource(m.store, m.store.assets[k]);
      var j: nat :| From(m.store, m.store.assets[k], j);
      assert From(n.store, n.store.assets[k], j);
    }
  }

  /** A step of the uploader of `i`: no sweeper changes. */
  lemma UploaderStep(m: Machine, n: Machine, i: nat)
    requires Ok(m) && OnlyAt(m, n, i) && IntentOk(n, i) && n.items == m.items && n.nextToken == m.nextToken
    requires m.store.intents[i].state != Pending && m.store.intents[i].state != Uploaded ==>
               n.store.intents[i].state != Pending && n.store.intents[i].state != Uploaded
    requires n.doubtful == m.doubtful && (!MayStore(m, i) ==> !MayStore(n, i) && (Exists(n, i) ==> Exists(m, i)))
    ensures Ok(n)
  {
    forall token | token in n.items && n.items[token].intent == i
      ensures ItemOk(n, token)
    {
      assert ItemOk(m, token);
    }
    LocalStep(m, n, i);
  }

  lemma CancelKeepsOk(m: Machine, i: nat)
    requires Ok(m) && i < |m.pcs|
    ensures Ok(Next(m, Cancel(i)))
  {
    assert IntentOk(m, i);
    UploaderStep(m, Next(m, Cancel(i)), i);
  }

  lemma BeginKeepsOk(m: Machine, i: nat)
    requires Ok(m) && i < |m.pcs|
    ensures Ok(Next(m, Begin(i)))
  {
    assert IntentOk(m, i);
    UploaderStep(m, Next(m, Begin(i)), i);
  }

  lemma MaterializeKeepsOk(m: Machine, i: nat)
    requires Ok(m) && i < |m.pcs|
    ensures Ok(Next(m, Materialize(i)))
  {
    assert IntentOk(m, i);
    UploaderStep(m, Next(m, Materialize(i)), i);
  }

  lemma UploadReturnsKeepsOk(m: Machine, i: nat)
    requires Ok(m) && i < |m.pcs|
    ensures Ok(Next(m, UploadReturns(i)))
  {
    assert IntentOk(m, i);
    UploaderStep(m, Next(m, UploadReturns(i)), i);
  }

  lemma UploadFailsKeepsOk(m: Machine, i: nat)
    requires Ok(m) && i < |m.pcs|
    ensures Ok(Next(m, UploadFails(i)))
  {
    assert IntentOk(m, i);
    UploaderStep(m, Next(m, UploadFails(i)), i);
  }

  lemma MarkKeepsOk(m: Machine, i: nat)
    requires Ok(m) && i < |m.pcs|
    ensures Ok(Next(m, Mark(i)))
  {
    assert IntentOk(m, i);
    UploaderStep(m, Next(m, Mark(i)), i);
  }

  lemma DeleteObjectKeepsOk(m: Machine, i: nat, ok: bool)
    requires Ok(m) && i < |m.pcs|
    ensures Ok(Next(m, DeleteObject(i, ok)))
  {
    assert IntentOk(m, i);
    UploaderStep(m, Next(m, DeleteObject(i, ok)), i);
  }

  lemma CompensationKeepsOk(m: Machine, i: nat)
    requires Ok(m) && i < |m.pcs|
    ensures Ok(NextCompensation(m, i))
  {
    assert IntentOk(m, i);
    if m.pcs[i] == Cleaned || m.pcs[i] == Unclean {
      UploaderStep(m, NextCompensation(m, i), i);
    }
  }

  lemma CrashKeepsOk(m: Machine, i: nat)
    requires Ok(m) && i < |m.pcs|
    ensures Ok(Next(m, Crash(i)))
  {
    assert IntentOk(m, i);
    UploaderStep(m, Next(m, Crash(i)), i);
  }

  lemma LateEndsKeepsOk(m: Machine, i: nat)
    requires Ok(m) && i < |m.pcs|
    ensures Ok(Next(m, LateEnds(i)))
  {
    assert IntentOk(m, i);
    UploaderStep(m, Next(m, LateEnds(i)), i);
  }

  lemma SaveKeepsOk(m: Machine, i: nat, size: nat, fate: SaveFate)
    requires Ok(m) && At(m, i, Marked)
    ensures Ok(NextSave(m, i, size, fate))
  {
    assert IntentOk(m, i);
    var n := NextSave(m, i, size, fate);
    var intent := m.store.intents[i];
    if fate == Normal && intent.state == Uploaded {
      SavedKeepsOk(m, n, i, size);
    } else {
      UploaderStep(m, n, i);
    }
  }

  lemma SavedKeepsOk(m: Machine, n: Machine, i: nat, size: nat)
    requires Ok(m) && At(m, i, Marked) && m.store.intents[i].state == Uploaded
    requires n == NextSave(m, i, size, Normal)
    ensures Ok(n)
  {
    assert IntentOk(m, i);
    var a := m.store.assets;
    assert n.store.assets == a + [n.store.assets[|a|]] && n.store.assets[|a|].key == KeyOf(m, i);
    forall k | 0 <= k < |a|
      ensures a[k].key != KeyOf(m, i)
    {
      assert HasSource(m.store, a[k]);
      var j: nat :| From(m.store, a[k], j);
      assert a[k] in a;
      assert HasAsset(m, j);
    }
    forall j | 0 <= j < |n.pcs|
      ensures n.store.intents[j].key == m.store.intents[j].key
      ensures n.store.intents[j].workspace == m.store.intents[j].workspace
      ensures j != i ==> HasAsset(n, j) == HasAsset(m, j)
    {
    }
    forall j | 0 <= j < |n.pcs|
      ensures IntentOk(n, j)
    {
      assert IntentOk(m, j);
    }
    forall token | token in n.items
      ensures ItemOk(n, token)
    {
      assert ItemOk(m, token);
    }
    SavedKeepsKeys(m, n, i);
  }

  lemma SavedKeepsKeys(m: Machine, n: Machine, i: nat)
    requires KeysOk(m) && i < |m.store.intents| == |n.store.intents|
    requires forall j :: 0 <= j < |m.store.intents| ==>
               n.store.intents[j].key == m.store.intents[j].key
               && n.store.intents[j].workspace == m.store.intents[j].workspace
    requires |n.store.assets| == |m.store.assets| + 1 && n.store.assets[..|m.store.assets|] == m.store.assets
    requires n.store.assets[|m.store.assets|].key == m.store.intents[i].key
    requires n.store.assets[|m.store.assets|].workspace == m.store.intents[i].workspace
    requires forall k :: 0 <= k < |m.store.assets| ==> m.store.assets[k].key != m.store.intents[i].key
    ensures KeysOk(n)
  {
    var last := |m.store.assets|;
    forall k | 0 <= k < |n.store.assets|
      ensures HasSource(n.store, n.store.assets[k])
    {
      if k == last {
        assert From(n.store, n.store.assets[k], i);
      } else {
        assert n.store.assets[k] == m.store.assets[k];
        assert HasSource(m.store, m.store.assets[k]);
      var j: nat :| From(m.store, m.store.assets[k], j);
        assert From(n.store, n.store.assets[k], j);
      }
    }
    assert forall k :: 0 <= k < last ==> n.store.assets[k] == m.store.assets[k];
  }

  // ---- Sweepers ----

  lemma ClaimKeepsOk(m: Machine, i: nat, now: int, lease: int)
    requires Ok(m)
    ensures Ok(NextClaim(m, i, now, lease))
  {
    if i < |m.store.intents| && Claimable(m.store.intents[i], now) {
      assert IntentOk(m, i);
      var n := NextClaim(m, i, now, lease);
      forall token | token in n.items && n.items[token].intent == i
        ensures ItemOk(n, token)
      {
        if token in m.items {
          assert ItemOk(m, token);
        }
      }
      LocalStep(m, n, i);
    }
  }

  /** A sweeper step on its own item, whose row keeps away from `Pending` and `Uploaded`. */
  lemma SweeperStep(m: Machine, n: Machine, token: Token)
    requires Ok(m) && token in m.items && OnlyAt(m, n, m.items[token].intent) && IntentOk(n, m.items[token].intent)
    requires n.pcs == m.pcs && n.inflight == m.inflight && n.nextToken == m.nextToken
    requires n.store.intents[m.items[token].intent].state != Pending
    requires n.store.intents[m.items[token].intent].state != Uploaded
    requires Exists(n, m.items[token].intent) ==> Exists(m, m.items[token].intent)
    requires forall t :: t in n.items && t != token ==> t in m.items && n.items[t] == m.items[t]
    requires token in n.items ==> ItemOk(n, token) && n.items[token].intent == m.items[token].intent
    ensures Ok(n)
  {
    var i := m.items[token].intent;
    forall t | t in n.items && n.items[t].intent == i
      ensures ItemOk(n, t)
    {
      assert ItemOk(m, t);
    }
    LocalStep(m, n, i);
  }

  lemma SweepDeleteKeepsOk(m: Machine, token: Token, ok: bool)
    requires Ok(m) && token in m.items
    ensures Ok(NextSweepDelete(m, token, ok))
  {
    assert ItemOk(m, token);
    assert IntentOk(m, m.items[token].intent);
    if Working(m, token, Unsaved) {
      SweeperStep(m, NextSweepDelete(m, token, ok), token);
    }
  }

  lemma DropKeepsOk(m: Machine, token: Token)
    requires Ok(m) && token in m.items
    ensures Ok(DropItem(m, token))
  {
    assert ItemOk(m, token);
    assert IntentOk(m, m.items[token].intent);
    SweeperStep(m, DropItem(m, token), token);
  }

  lemma CheckKeepsOk(m: Machine, token: Token)
    requires Ok(m) && token in m.items
    ensures Ok(NextCheck(m, token))
  {
    assert ItemOk(m, token);
    assert IntentOk(m, m.items[token].intent);
    SweeperStep(m, NextCheck(m, token), token);
  }

  lemma RecordKeepsOk(m: Machine, token: Token, expires: int, maxRetries: nat)
    requires Ok(m) && token in m.items
    ensures Ok(NextRecord(m, token, expires, maxRetries))
  {
    assert ItemOk(m, token);
    assert IntentOk(m, m.items[token].intent);
    RecordedIntentOk(m, token, expires, maxRetries);
    SweeperStep(m, NextRecord(m, token, expires, maxRetries), token);
  }

  lemma RecordedIntentOk(m: Machine, token: Token, expires: int, maxRetries: nat)
    requires |m.pcs| == |m.store.intents| && token in m.items && m.items[token].intent < |m.pcs|
    requires ItemOk(m, token) && IntentOk(m, m.items[token].intent)
    ensures var n, i := NextRecord(m, token, expires, maxRetries), m.items[token].intent;
            |n.pcs| == |n.store.intents| == |m.pcs| && IntentOk(n, i)
            && n.store.intents[i].state != Pending && n.store.intents[i].state != Uploaded
  {
  }

  // ---- Creation and retention ----

  lemma CreateKeepsOk(m: Machine, owner: string, ws: int, key: Key, lease: int, incoming: nat, policy: Policy)
    requires Ok(m) && GoodStep(m, Create(owner, ws, key, lease, incoming, policy))
    ensures Ok(NextCreate(m, owner, ws, key, lease, incoming, policy))
  {
    var n := NextCreate(m, owner, ws, key, lease, incoming, policy);
    if n != m {
      var last := |m.pcs|;
      assert forall j :: 0 <= j < last ==> n.store.intents[j] == m.store.intents[j] && n.pcs[j] == m.pcs[j];
      CreatedKeepsKeys(m, n);
      forall j | 0 <= j < |n.pcs|
        ensures IntentOk(n, j)
      {
        if j < last {
          assert IntentOk(m, j);
          assert HasAsset(n, j) == HasAsset(m, j);
        } else {
          NewKeyIsUnused(m, ws, key);
        }
      }
      forall token | token in n.items
        ensures ItemOk(n, token)
      {
        assert ItemOk(m, token);
      }
    }
  }

  lemma NewKeyIsUnused(m: Machine, ws: int, key: Key)
    requires KeysOk(m) && forall j :: 0 <= j < |m.store.intents| ==> m.store.intents[j].key != key
    ensures !HasKey(m.store, ws, key)
  {
    forall k | 0 <= k < |m.store.assets|
      ensures m.store.assets[k].key != key
    {
      assert HasSource(m.store, m.store.assets[k]);
      var j: nat :| From(m.store, m.store.assets[k], j);
    }
  }

  lemma CreatedKeepsKeys(m: Machine, n: Machine)
    requires KeysOk(m) && n.store.assets == m.store.assets && |n.store.intents| == |m.store.intents| + 1
    requires forall j :: 0 <= j < |m.store.intents| ==> n.store.intents[j] == m.store.intents[j]
    requires forall j :: 0 <= j < |m.store.intents| ==>
               m.store.intents[j].key != n.store.intents[|m.store.intents|].key
    ensures KeysOk(n)
  {
    forall k | 0 <= k < |n.store.assets|
      ensures HasSource(n.store, n.store.assets[k])
    {
      assert HasSource(m.store, m.store.assets[k]);
      var j: nat :| From(m.store, m.store.assets[k], j);
      assert From(n.store, n.store.assets[k], j);
    }
  }

  lemma MarkRetiredKeepsOk(m: Machine, k: nat)
    requires Ok(m) && k < |m.store.assets|
    ensures Ok(Next(m, RetainMark(k)))
  {
    var n := Next(m, RetainMark(k));
    forall j | 0 <= j < |n.pcs|
      ensures IntentOk(n, j)
    {
      assert IntentOk(m, j);
      if KeyOf(m, j) == m.store.assets[k].key {
        AssetOfIntent(m, k, j);
      }
    }
    forall token | token in n.items
      ensures ItemOk(n, token)
    {
      assert ItemOk(m, token);
    }
  }

  /** The intent with the key of an asset is the one it was saved from. */
  lemma AssetOfIntent(m: Machine, k: nat, j: nat)
    requires KeysOk(m) && k < |m.store.assets| && j < |m.store.intents| && KeyOf(m, j) == m.store.assets[k].key
    ensures HasAsset(m, j)
  {
    assert HasSource(m.store, m.store.assets[k]);
    var i: nat :| From(m.store, m.store.assets[k], i);
    assert i == j && m.store.assets[k] in m.store.assets;
  }

  lemma RetainObjectKeepsOk(m: Machine, key: Key)
    requires Ok(m) && key in m.retiring
    ensures Ok(Next(m, RetainObject(key)))
  {
    var n := Next(m, RetainObject(key));
    forall j | 0 <= j < |n.pcs|
      ensures IntentOk(n, j)
    {
      assert IntentOk(m, j);
    }
    forall token | token in n.items
      ensures ItemOk(n, token)
    {
      assert ItemOk(m, token);
    }
  }

  lemma RetainRowKeepsOk(m: Machine, k: nat)
    requires Ok(m) && k < |m.store.assets| && m.store.assets[k].key in m.erased
    ensures Ok(NextRetainRow(m, k))
  {
    var n := NextRetainRow(m, k);
    var b := n.store.assets;
    assert forall x :: 0 <= x < |b| ==> b[x] == m.store.assets[if x < k then x else x + 1];
    RetainKeepsKeys(m, n, k);
    forall j | 0 <= j < |n.pcs|
      ensures IntentOk(n, j)
      ensures HasAsset(n, j) ==> HasAsset(m, j)
    {
      RetainKeepsIntent(m, n, k, j);
    }
    forall token | token in n.items
      ensures ItemOk(n, token)
    {
      assert ItemOk(m, token);
    }
  }

  lemma RetainKeepsIntent(m: Machine, n: Machine, k: nat, j: nat)
    requires Ok(m) && k < |m.store.assets| && m.store.assets[k].key in m.erased && j < |m.pcs| && n == NextRetainRow(m, k)
    requires forall x :: 0 <= x < |n.store.assets| ==>
               n.store.assets[x] == m.store.assets[if x < k then x else x + 1]
    ensures IntentOk(n, j) && (HasAsset(n, j) ==> HasAsset(m, j))
  {
    assert IntentOk(m, j);
    var a, b := m.store.assets, n.store.assets;
    assert forall x :: x in b ==> x in a && x.key != a[k].key;
    if KeyOf(m, j) == a[k].key {
      assert !HasAsset(n, j);
    } else {
      KeptAsset(m, n, k, j);
    }
  }

  /** Removing an asset keeps those of other keys. */
  lemma KeptAsset(m: Machine, n: Machine, k: nat, j: nat)
    requires k < |m.store.assets| && j < |m.store.intents| && n == m.(store := n.store)
    requires n.store == m.store.(assets := m.store.assets[..k] + m.store.assets[k + 1..])
    requires KeyOf(m, j) != m.store.assets[k].key
    ensures HasAsset(n, j) == HasAsset(m, j)
  {
    var a, b := m.store.assets, n.store.assets;
    forall x | 0 <= x < |a| && x != k
      ensures a[x] in b
    {
      assert a[x] == b[if x < k then x else x - 1];
    }
    assert forall x :: x in b ==> x in a;
  }

  lemma RetainKeepsKeys(m: Machine, n: Machine, k: nat)
    requires KeysOk(m) && k < |m.store.assets| && n.store.intents == m.store.intents
    requires |n.store.assets| == |m.store.assets| - 1
    requires forall x :: 0 <= x < |n.store.assets| ==>
               n.store.assets[x] == m.store.assets[if x < k then x else x + 1]
    ensures KeysOk(n)
  {
    forall x | 0 <= x < |n.store.assets|
      ensures HasSource(n.store, n.store.assets[x])
    {
      var y := if x < k then x else x + 1;
      assert HasSource(m.store, m.store.assets[y]);
      var j: nat :| From(m.store, m.store.assets[y], j);
      assert From(n.store, n.store.assets[x], j);
    }
  }

  lemma NextKeepsOk(m: Machine, st: Step)
    requires Ok(m) && GoodStep(m, st)
    ensures Ok(Next(m, st))
  {
    match st
    case Create(owner, ws, key, lease, incoming, policy) => CreateKeepsOk(m, owner, ws, key, lease, incoming, policy);
    case Cancel(i) => if i < |m.pcs| { CancelKeepsOk(m, i); }
    case Begin(i) => if i < |m.pcs| { BeginKeepsOk(m, i); }
    case Materialize(i) => if i < |m.pcs| { MaterializeKeepsOk(m, i); }
    case UploadReturns(i) => if i < |m.pcs| { UploadReturnsKeepsOk(m, i); }
    case UploadFails(i) => if i < |m.pcs| { UploadFailsKeepsOk(m, i); }
    case Mark(i) => if i < |m.pcs| { MarkKeepsOk(m, i); }
    case Save(i, size, fate) => if At(m, i, Marked) { SaveKeepsOk(m, i, size, fate); }
    case DeleteObject(i, ok) => if i < |m.pcs| { DeleteObjectKeepsOk(m, i, ok); }
    case Compensation(i) => if i < |m.pcs| { CompensationKeepsOk(m, i); }
    case Crash(i) => if i < |m.pcs| { CrashKeepsOk(m, i); }
    case LateEnds(i) => if i < |m.pcs| { LateEndsKeepsOk(m, i); }
    case SweepClaim(i, now, lease) => ClaimKeepsOk(m, i, now, lease);
    case SweepCheck(token) => if token in m.items { CheckKeepsOk(m, token); }
    case SweepDelete(token, ok) => if token in m.items { SweepDeleteKeepsOk(m, token, ok); }
    case SweepRecord(token, expires, maxRetries) => if token in m.items { RecordKeepsOk(m, token, expires, maxRetries); }
    case SweepDrop(token) =>
      if token in m.items { DropKeepsOk(m, token); } else { assert m.items - {token} == m.items; }
    case RetainMark(k) => if k < |m.store.assets| { MarkRetiredKeepsOk(m, k); }
    case RetainObject(key) => if key in m.retiring { RetainObjectKeepsOk(m, key); }
    case RetainRow(k) =>
      if k < |m.store.assets| && m.store.assets[k].key in m.erased { RetainRowKeepsOk(m, k); }
  }
}
