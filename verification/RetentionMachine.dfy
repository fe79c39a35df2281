/**
 Retention sweepers, timeline saves and approvals over the same assets and
 objects, in any order.  A sweeper may stop at any point: before, between and
 after the two transactions of a finalization.
 */
module RetentionMachine {
  import opened Options
  import opened RetentionTables

  /** What a sweeper does next about the asset it claimed. */
  datatype Pc = Claimed | Deleting | Deleted

  datatype Deleter = Deleter(asset: AssetId, workspace: int, key: Key, pc: Pc)

  /** `used` are the storage keys handed out so far. */
  datatype Machine = Machine(tables: Tables, objects: set<Key>, used: set<Key>,
                             deleters: map<Token, Deleter>, nextToken: Token)

  function Initial(projects: map<int, int>): Machine {
    Machine(Tables(map[], 0, map[], projects, map[], {}, {}, 0), {}, {}, map[], 0)
  }

  datatype Step =
    | AddAsset(ws: int, projectId: Option<int>, key: Key)
    | Save(project: int, ws: int, timelineId: string, segments: seq<AssetId>, expected: nat)
    | Approve(project: int, ws: int, timelineId: string, revision: nat, now: int)
    | Claim(id: AssetId, ws: int, now: int)
    | GiveBack(token: Token)
    | Begin(token: Token, now: int)
    | DeleteObject(token: Token)
    | Finish(token: Token)
    | Stop(token: Token)

  predicate At(m: Machine, token: Token, pc: Pc) {
    token in m.deleters && m.deleters[token].pc == pc
  }

  function Goto(m: Machine, token: Token, pc: Pc): Machine
    requires token in m.deleters
  {
    m.(deleters := m.deleters[token := m.deleters[token].(pc := pc)])
  }

  function Drop(m: Machine, token: Token): Machine {
    m.(deleters := m.deleters - {token})
  }

  /** An upload was saved: a new row over an object that is there. */
  function NextAdd(m: Machine, ws: int, project: Option<int>, key: Key): Machine {
    var t := m.tables;
    m.(tables := t.(assets := t.assets[t.nextAsset := Asset(ws, project, key)], nextAsset := t.nextAsset + 1),
       objects := m.objects + {key}, used := m.used + {key})
  }

  function Written(m: Machine, t: Option<Tables>): Machine {
    if t.Some? then m.(tables := t.value) else m
  }

  function NextClaim(m: Machine, id: AssetId, ws: int, now: int): Machine {
    var t := ClaimRetained(m.tables, id, ws, m.nextToken, now);
    if t.None? || id !in m.tables.assets then m
    else m.(tables := t.value, nextToken := m.nextToken + 1,
            deleters := m.deleters[m.nextToken := Deleter(id, ws, m.tables.assets[id].key, Claimed)])
  }

  function NextGiveBack(m: Machine, token: Token): Machine {
    if !At(m, token, Claimed) then m
    else
      var d := m.deleters[token];
      Drop(m.(tables := Release(m.tables, d.asset, d.workspace, token)), token)
  }

  function NextBegin(m: Machine, token: Token, now: int): Machine {
    if !At(m, token, Claimed) then m
    else
      var d := m.deleters[token];
      var n := m.(tables := BeginDeletion(m.tables, d.asset, d.workspace, token, now));
      if ClaimIsValid(m.tables, d.asset, d.workspace, token, now) then Goto(n, token, Deleting) else Drop(n, token)
  }

  function NextDelete(m: Machine, token: Token): Machine {
    if !At(m, token, Deleting) then m
    else Goto(m.(objects := m.objects - {m.deleters[token].key}), token, Deleted)
  }

  function NextFinish(m: Machine, token: Token): Machine {
    if !At(m, token, Deleted) then m
    else
      var d := m.deleters[token];
      Drop(m.(tables := FinishDeletion(m.tables, d.asset, d.workspace, token)), token)
  }

  function Next(m: Machine, st: Step): Machine {
    match st
    case AddAsset(ws, project, key) => NextAdd(m, ws, project, key)
    case Save(project, ws, timelineId, segments, expected) =>
      Written(m, TimelineSaved(m.tables, project, ws, timelineId, segments, expected))
    case Approve(project, ws, timelineId, revision, now) =>
      Written(m, ReviewCreated(m.tables, project, ws, timelineId, revision, now))
    case Claim(id, ws, now) => NextClaim(m, id, ws, now)
    case GiveBack(token) => NextGiveBack(m, token)
    case Begin(token, now) => NextBegin(m, token, now)
    case DeleteObject(token) => NextDelete(m, token)
    case Finish(token) => NextFinish(m, token)
    case Stop(token) => Drop(m, token)
  }

  /** Storage keys carry a fresh uuid. */
  predicate GoodStep(m: Machine, st: Step) {
    st.AddAsset? ==> st.key !in m.used
  }

  // ---- What always holds ----

  /** A saved timeline or an approval shows the asset. */
  predicate Protected(t: Tables, id: AssetId) {
    (exists p :: p in t.timelines && id in t.timelines[p].segments) || (exists a :: a in t.approvals && a.asset == id)
  }

  /** The object of the asset may be gone. */
  predicate Fenced(t: Tables, id: AssetId) {
    id in t.claims && t.claims[id].deleting
  }

  predicate AssetOk(m: Machine, id: AssetId)
    requires id in m.tables.assets
  {
    && id < m.tables.nextAsset && m.tables.assets[id].key in m.used
    && (!Fenced(m.tables, id) ==> m.tables.assets[id].key in m.objects)
  }

  predicate ClaimOk(t: Tables, id: AssetId, nextToken: Token)
    requires id in t.claims
  {
    id in t.assets && t.claims[id].workspace == t.assets[id].workspace && t.claims[id].token < nextToken
  }

  /** A sweeper deletes the object of an asset that is fenced or has no row left, and of no other asset. */
  predicate DeleterOk(m: Machine, token: Token)
    requires token in m.deleters
  {
    var d, t := m.deleters[token], m.tables;
    && token < m.nextToken && d.asset < t.nextAsset && d.key in m.used
    && (forall id :: id in t.assets && t.assets[id].key == d.key ==> id == d.asset)
    && (d.asset in t.assets ==> t.assets[d.asset].key == d.key && t.assets[d.asset].workspace == d.workspace)
    && (d.pc != Claimed && d.asset in t.assets ==> Fenced(t, d.asset))
  }

  predicate ProtectedOk(t: Tables, id: AssetId) {
    Protected(t, id) ==> id in t.assets && id !in t.claims
  }

  ghost predicate TablesOk(t: Tables) {
    && (forall id :: ProtectedOk(t, id))
    && (forall p :: p in t.timelines ==> p in t.projects && t.timelines[p].workspace == t.projects[p]
                                         && t.timelines[p].revision >= 1
                                         && forall id :: id in t.timelines[p].segments ==>
                                              id in t.assets && t.assets[id].workspace == t.timelines[p].workspace)
    && (forall a :: a in t.approvals ==> a.asset in t.assets && a.workspace == t.assets[a.asset].workspace
                                         && a.review < t.nextReview)
    && (forall r :: r in t.resolved ==> r < t.nextReview)
  }

  ghost predicate Ok(m: Machine) {
    && TablesOk(m.tables)
    && (forall id :: id in m.tables.assets ==> AssetOk(m, id))
    && (forall i, j :: i in m.tables.assets && j in m.tables.assets && m.tables.assets[i].key == m.tables.assets[j].key
                       ==> i == j)
    && (forall id :: id in m.tables.claims ==> ClaimOk(m.tables, id, m.nextToken))
    && (forall token :: token in m.deleters ==> DeleterOk(m, token))
  }

  lemma InitialOk(projects: map<int, int>)
    ensures Ok(Initial(projects))
  {
  }

  lemma AddKeepsOk(m: Machine, ws: int, project: Option<int>, key: Key)
    requires Ok(m) && key !in m.used
    ensures Ok(NextAdd(m, ws, project, key))
  {
    var n := NextAdd(m, ws, project, key);
    assert m.tables.nextAsset !in m.tables.assets;
    assert forall id :: Protected(n.tables, id) == Protected(m.tables, id);
    forall id
      ensures ProtectedOk(n.tables, id)
    {
      assert ProtectedOk(m.tables, id);
    }
    forall token | token in n.deleters
      ensures DeleterOk(n, token)
    {
      assert DeleterOk(m, token);
    }
  }

  lemma SaveKeepsTablesOk(t: Tables, project: int, ws: int, timelineId: string, segments: seq<AssetId>, expected: nat)
    requires TablesOk(t)
    ensures var after := TimelineSaved(t, project, ws, timelineId, segments, expected);
            after.Some? ==> TablesOk(after.value)
  {
    var after := TimelineSaved(t, project, ws, timelineId, segments, expected);
    if after.Some? {
      CountChecksEverySegment(t, project, ws, segments);
      forall id
        ensures ProtectedOk(after.value, id)
      {
        assert ProtectedOk(t, id);
      }
    }
  }

  lemma ApproveKeepsTablesOk(t: Tables, project: int, ws: int, timelineId: string, revision: nat, now: int)
    requires TablesOk(t)
    ensures var after := ReviewCreated(t, project, ws, timelineId, revision, now);
            after.Some? ==> TablesOk(after.value)
  {
    var after := ReviewCreated(t, project, ws, timelineId, revision, now);
    if after.Some? {
      forall id
        ensures ProtectedOk(after.value, id)
      {
        assert ProtectedOk(t, id);
      }
    }
  }

  lemma WriteKeepsOk(m: Machine, t: Tables)
    requires Ok(m) && TablesOk(t)
    requires t == m.tables.(timelines := t.timelines, approvals := t.approvals, resolved := t.resolved,
                            nextReview := t.nextReview)
    ensures Ok(m.(tables := t))
  {
    var n := m.(tables := t);
    forall token | token in n.deleters
      ensures DeleterOk(n, token)
    {
      assert DeleterOk(m, token);
    }
  }

  /** Seen from any workspace, a protected asset is referenced or approved in its own. */
  lemma UnprotectedInItsWorkspace(t: Tables, id: AssetId)
    requires TablesOk(t) && id in t.assets
    requires !Referenced(t, t.assets[id].workspace, id) && !Approved(t, t.assets[id].workspace, id)
    ensures !Protected(t, id)
  {
  }

  /** The claim of one unprotected asset changes, or goes while it is not fenced; nothing else does. */
  ghost predicate OnlyClaim(m: Machine, n: Machine, id: AssetId) {
    && n.tables == m.tables.(claims := n.tables.claims) && n.objects == m.objects && n.used == m.used
    && m.nextToken <= n.nextToken
    && (forall i :: i != id ==> (i in n.tables.claims <==> i in m.tables.claims))
    && (forall i :: i != id && i in n.tables.claims ==> n.tables.claims[i] == m.tables.claims[i])
    && (id in n.tables.claims ==> !Protected(m.tables, id) && ClaimOk(n.tables, id, n.nextToken))
    && (Fenced(m.tables, id) ==> Fenced(n.tables, id))
  }

  lemma ClaimStep(m: Machine, n: Machine, id: AssetId)
    requires Ok(m) && OnlyClaim(m, n, id)
    requires forall token :: token in n.deleters ==>
               (token in m.deleters && n.deleters[token] == m.deleters[token]) || DeleterOk(n, token)
    ensures Ok(n)
  {
    assert forall i :: Protected(n.tables, i) == Protected(m.tables, i);
    forall i
      ensures ProtectedOk(n.tables, i)
    {
      assert ProtectedOk(m.tables, i);
    }
    forall token | token in n.deleters
      ensures DeleterOk(n, token)
    {
      if token in m.deleters && n.deleters[token] == m.deleters[token] {
        assert DeleterOk(m, token);
      }
    }
  }

  lemma ClaimKeepsOk(m: Machine, id: AssetId, ws: int, now: int)
    requires Ok(m)
    ensures Ok(NextClaim(m, id, ws, now))
  {
    var n := NextClaim(m, id, ws, now);
    if n != m {
      UnprotectedInItsWorkspace(m.tables, id);
      assert AssetOk(m, id);
      ClaimStep(m, n, id);
    }
  }

  lemma ReleaseKeepsOk(m: Machine, id: AssetId, ws: int, token: Token)
    requires Ok(m)
    ensures Ok(Drop(m.(tables := Release(m.tables, id, ws, token)), token))
  {
    assert ProtectedOk(m.tables, id);
    assert id in m.tables.claims ==> ClaimOk(m.tables, id, m.nextToken);
    ClaimStep(m, Drop(m.(tables := Release(m.tables, id, ws, token)), token), id);
  }

  lemma GiveBackKeepsOk(m: Machine, token: Token)
    requires Ok(m)
    ensures Ok(NextGiveBack(m, token))
  {
    if At(m, token, Claimed) {
      ReleaseKeepsOk(m, m.deleters[token].asset, m.deleters[token].workspace, token);
    }
  }

  lemma BeginKeepsOk(m: Machine, token: Token, now: int)
    requires Ok(m)
    ensures Ok(NextBegin(m, token, now))
  {
    if At(m, token, Claimed) {
      var d, n := m.deleters[token], NextBegin(m, token, now);
      if ClaimIsValid(m.tables, d.asset, d.workspace, token, now) {
        assert DeleterOk(m, token) && ClaimOk(m.tables, d.asset, m.nextToken);
        UnprotectedInItsWorkspace(m.tables, d.asset);
        assert DeleterOk(n, token);
        ClaimStep(m, n, d.asset);
      } else {
        ReleaseKeepsOk(m, d.asset, d.workspace, token);
      }
    }
  }

  lemma DeleteKeepsOk(m: Machine, token: Token)
    requires Ok(m)
    ensures Ok(NextDelete(m, token))
  {
    if At(m, token, Deleting) {
      var n := NextDelete(m, token);
      assert DeleterOk(m, token);
      forall t | t in n.deleters
        ensures DeleterOk(n, t)
      {
        assert DeleterOk(m, t);
      }
      forall id | id in n.tables.assets
        ensures AssetOk(n, id)
      {
        assert AssetOk(m, id);
      }
    }
  }

  lemma FinishKeepsOk(m: Machine, token: Token)
    requires Ok(m)
    ensures Ok(NextFinish(m, token))
  {
    if At(m, token, Deleted) {
      var d, n := m.deleters[token], NextFinish(m, token);
      forall t | t in n.deleters
        ensures DeleterOk(n, t)
      {
        assert DeleterOk(m, t);
      }
      assert ProtectedOk(m.tables, d.asset);
      forall id
        ensures ProtectedOk(n.tables, id)
      {
        assert ProtectedOk(m.tables, id);
      }
      forall id | id in n.tables.assets
        ensures AssetOk(n, id)
      {
        assert AssetOk(m, id);
      }
    }
  }

  lemma StopKeepsOk(m: Machine, token: Token)
    requires Ok(m)
    ensures Ok(Drop(m, token))
  {
    forall t | t in Drop(m, token).deleters
      ensures DeleterOk(Drop(m, token), t)
    {
      assert DeleterOk(m, t);
    }
  }

  lemma NextKeepsOk(m: Machine, st: Step)
    requires Ok(m) && GoodStep(m, st)
    ensures Ok(Next(m, st))
  {
    match st
    case AddAsset(ws, project, key) => AddKeepsOk(m, ws, project, key);
    case Save(project, ws, timelineId, segments, expected) =>
      SaveKeepsTablesOk(m.tables, project, ws, timelineId, segments, expected);
      WriteKeepsOk(m, Next(m, st).tables);
    case Approve(project, ws, timelineId, revision, now) =>
      ApproveKeepsTablesOk(m.tables, project, ws, timelineId, revision, now);
      WriteKeepsOk(m, Next(m, st).tables);
    case Claim(id, ws, now) => ClaimKeepsOk(m, id, ws, now);
    case GiveBack(token) => GiveBackKeepsOk(m, token);
    case Begin(token, now) => BeginKeepsOk(m, token, now);
    case DeleteObject(token) => DeleteKeepsOk(m, token);
    case Finish(token) => FinishKeepsOk(m, token);
    case Stop(token) => StopKeepsOk(m, token);
  }
}
