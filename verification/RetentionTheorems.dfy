/**
 What holds in every run of retention, timeline saves and approvals: nothing
 that is shown dangles, deletion is fenced, a revision is written once, and an
 approval keeps mapping exactly the timeline it approved.
 */
module RetentionTheorems {
  import opened Options
  import opened RetentionTables
  import opened RetentionMachine
  import Traces

  ghost predicate IsRun(ms: seq<Machine>, steps: seq<Step>) {
    && |ms| == |steps| + 1 && ms[0] == Initial(ms[0].tables.projects)
    && forall k :: 0 <= k < |steps| ==> GoodStep(ms[k], steps[k]) && ms[k + 1] == Next(ms[k], steps[k])
  }

  lemma {:induction false} RunIsOk(ms: seq<Machine>, steps: seq<Step>, n: nat)
    requires IsRun(ms, steps) && n < |ms|
    ensures Ok(ms[n])
  {
    if n == 0 {
      InitialOk(ms[0].tables.projects);
    } else {
      RunIsOk(ms, steps, n - 1);
      NextKeepsOk(ms[n - 1], steps[n - 1]);
    }
  }

  // ---- Nothing dangles ----

  /** Every asset that a saved timeline or an approval shows has its row and its object, and no deletion claim. */
  lemma ProtectedStands(ms: seq<Machine>, steps: seq<Step>, n: nat, id: AssetId)
    requires IsRun(ms, steps) && n < |ms| && Protected(ms[n].tables, id)
    ensures var t := ms[n].tables;
            id in t.assets && t.assets[id].key in ms[n].objects && id !in t.claims
  {
    RunIsOk(ms, steps, n);
    assert ProtectedOk(ms[n].tables, id) && AssetOk(ms[n], id);
  }

  // ---- Deletion is fenced ----

  /** The object of the asset may be gone, or its row is. */
  predicate Condemned(t: Tables, id: AssetId) {
    id < t.nextAsset && (id !in t.assets || Fenced(t, id))
  }

  lemma CondemnedStep(m: Machine, n: Machine, st: Step, id: AssetId)
    requires Condemned(m.tables, id) && n == Next(m, st)
    ensures Condemned(n.tables, id) && (id !in m.tables.assets ==> id !in n.tables.assets)
  {
    match st
    case Claim(_, _, _) =>
    case Begin(_, _) =>
    case Finish(_) =>
    case GiveBack(_) =>
    case _ =>
  }

  lemma CondemnedIsNotShown(m: Machine, id: AssetId)
    requires Ok(m) && Condemned(m.tables, id)
    ensures !Protected(m.tables, id)
  {
    assert ProtectedOk(m.tables, id);
  }

  /** Once an asset is being deleted it is never shown again: through crashes and takeovers it can only go. */
  lemma CondemnedStays(ms: seq<Machine>, steps: seq<Step>, a: nat, b: nat, id: AssetId)
    requires IsRun(ms, steps) && a <= b < |ms| && Condemned(ms[a].tables, id)
    ensures Condemned(ms[b].tables, id) && !Protected(ms[b].tables, id)
    ensures id !in ms[a].tables.assets ==> id !in ms[b].tables.assets
  {
    for k := a to b
      invariant Condemned(ms[k].tables, id)
      invariant id !in ms[a].tables.assets ==> id !in ms[k].tables.assets
    {
      CondemnedStep(ms[k], ms[k + 1], steps[k], id);
    }
    RunIsOk(ms, steps, b);
    CondemnedIsNotShown(ms[b], id);
  }

  /** The step is the finalization that deletes the row of the asset. */
  predicate Deletes(m: Machine, st: Step, id: AssetId) {
    && st.Finish? && At(m, st.token, Deleted) && m.deleters[st.token].asset == id
    && MayDeleteRow(m.tables, id, m.deleters[st.token].workspace, st.token)
  }

  /** However many sweepers work on an asset, at most one finalization succeeds. */
  lemma DeletedOnce(ms: seq<Machine>, steps: seq<Step>, a: nat, b: nat, id: AssetId)
    requires IsRun(ms, steps) && a < b < |steps| && Deletes(ms[a], steps[a], id)
    ensures !Deletes(ms[b], steps[b], id)
  {
    RunIsOk(ms, steps, a);
    assert AssetOk(ms[a], id);
    CondemnedStays(ms, steps, a + 1, b, id);
  }

  predicate HeldBy(t: Tables, id: AssetId, token: Token) {
    id in t.claims && t.claims[id].token == token
  }

  lemma HeldSinceClaim(m: Machine, st: Step, id: AssetId, token: Token)
    requires HeldBy(Next(m, st).tables, id, token) && !HeldBy(m.tables, id, token)
    ensures st.Claim? && st.id == id && m.nextToken == token
  {
    match st
    case Claim(_, _, _) =>
    case Begin(_, _) =>
    case Finish(_) =>
    case GiveBack(_) =>
    case _ =>
  }

  /** The finalization that deletes a row has held the claim without a gap since it claimed. */
  lemma DeletionHeldThroughout(ms: seq<Machine>, steps: seq<Step>, n: nat, id: AssetId) returns (k: nat)
    requires IsRun(ms, steps) && n < |steps| && Deletes(ms[n], steps[n], id)
    ensures k < n && steps[k].Claim? && steps[k].id == id && ms[k].nextToken == steps[n].token
    ensures forall j :: k < j <= n ==> HeldBy(ms[j].tables, id, steps[n].token)
  {
    var token := steps[n].token;
    var held := (m: Machine) => HeldBy(m.tables, id, token);
    k := Traces.LastEntry(ms, held, n);
    assert held(ms[k + 1]) && ms[k + 1] == Next(ms[k], steps[k]);
    HeldSinceClaim(ms[k], steps[k], id, token);
  }

  // ---- A revision is written once ----

  /** The revision that a save must expect; zero before the first. */
  function RevisionOf(t: Tables, project: int): nat {
    if project in t.timelines then t.timelines[project].revision else 0
  }

  predicate Accepts(m: Machine, st: Step) {
    st.Save? && TimelineSaved(m.tables, st.project, st.ws, st.timelineId, st.segments, st.expected).Some?
  }

  /** A save is accepted exactly when the project is the workspace's, the revision is current and every asset is available. */
  lemma AcceptedExactlyWhen(m: Machine, st: Step)
    requires Ok(m) && st.Save?
    ensures Accepts(m, st)
            <==> && st.project in m.tables.projects && m.tables.projects[st.project] == st.ws
                 && st.expected == RevisionOf(m.tables, st.project)
                 && forall id :: id in st.segments ==>
                      && id in m.tables.assets && id !in m.tables.claims && m.tables.assets[id].workspace == st.ws
                      && m.tables.assets[id].project == Some(st.project)
    ensures Accepts(m, st) ==>
              var t := Next(m, st).tables;
              && t == m.tables.(timelines := t.timelines) && t.timelines.Keys == m.tables.timelines.Keys + {st.project}
              && t.timelines[st.project] == Timeline(st.ws, st.timelineId, RevisionOf(m.tables, st.project) + 1, st.segments)
              && forall p :: p in m.tables.timelines && p != st.project ==> t.timelines[p] == m.tables.timelines[p]
  {
    CountChecksEverySegment(m.tables, st.project, st.ws, st.segments);
  }

  lemma RevisionStep(m: Machine, st: Step, project: int)
    requires Ok(m)
    ensures RevisionOf(Next(m, st).tables, project)
            == RevisionOf(m.tables, project) + if Accepts(m, st) && st.project == project then 1 else 0
  {
    if st.Save? {
      AcceptedExactlyWhen(m, st);
    }
  }

  lemma RevisionNeverFalls(m: Machine, st: Step, project: int)
    requires Ok(m)
    ensures RevisionOf(m.tables, project) <= RevisionOf(Next(m, st).tables, project)
  {
    RevisionStep(m, st, project);
  }

  lemma {:induction false} RevisionGrows(ms: seq<Machine>, steps: seq<Step>, a: nat, b: nat, project: int)
    requires IsRun(ms, steps) && a <= b < |ms|
    ensures RevisionOf(ms[a].tables, project) <= RevisionOf(ms[b].tables, project)
  {
    if a < b {
      RevisionGrows(ms, steps, a, b - 1, project);
      RunIsOk(ms, steps, b - 1);
      RevisionNeverFalls(ms[b - 1], steps[b - 1], project);
    }
  }

  /** Of all the saves of a project that expect one revision, at most one is ever accepted. */
  lemma RevisionIsWrittenOnce(ms: seq<Machine>, steps: seq<Step>, a: nat, b: nat)
    requires IsRun(ms, steps) && a < b < |steps| && Accepts(ms[a], steps[a]) && Accepts(ms[b], steps[b])
    requires steps[a].project == steps[b].project
    ensures steps[a].expected < steps[b].expected
  {
    RunIsOk(ms, steps, a);
    RunIsOk(ms, steps, b);
    AcceptedExactlyWhen(ms[a], steps[a]);
    AcceptedExactlyWhen(ms[b], steps[b]);
    RevisionGrows(ms, steps, a + 1, b, steps[a].project);
  }

  // ---- An approval keeps its mapping ----

  function MappedAssets(t: Tables, review: nat): set<AssetId> {
    set a | a in t.approvals && a.review == review :: a.asset
  }

  predicate Approves(m: Machine, st: Step) {
    st.Approve? && ReviewCreated(m.tables, st.project, st.ws, st.timelineId, st.revision, st.now).Some?
  }

  /** In a reachable state only a wrong revision refuses an approval: no claim ever blocks a saved timeline. */
  lemma ApprovedExactlyWhen(m: Machine, st: Step)
    requires Ok(m) && st.Approve?
    ensures Approves(m, st) <==> Exact(m.tables, st.project, st.ws, st.timelineId, st.revision)
  {
    if Exact(m.tables, st.project, st.ws, st.timelineId, st.revision) {
      forall id | id in m.tables.timelines[st.project].segments
        ensures !Blocks(m.tables, st.ws, id, st.now)
      {
        assert ProtectedOk(m.tables, id);
      }
    }
  }

  /** A resolved approval maps exactly the assets of the timeline it approved. */
  lemma ApprovalMapsTheTimeline(m: Machine, st: Step)
    requires Ok(m) && Approves(m, st)
    ensures var t, review := Next(m, st).tables, m.tables.nextReview;
            && review in t.resolved && review < t.nextReview && st.project in m.tables.timelines
            && MappedAssets(t, review) == set id | id in m.tables.timelines[st.project].segments
  {
    var t, review := Next(m, st).tables, m.tables.nextReview;
    var segments := m.tables.timelines[st.project].segments;
    forall id
      ensures id in MappedAssets(t, review) <==> id in segments
    {
      if id in segments {
        assert Approval(review, st.ws, st.timelineId, st.revision, id) in t.approvals;
      }
    }
  }

  /** Deleting a row cascades to approvals, but an approved asset is never claimed, so none goes. */
  lemma FinishKeepsApprovals(m: Machine, token: Token)
    requires Ok(m)
    ensures NextFinish(m, token).tables.approvals == m.tables.approvals
  {
    if At(m, token, Deleted) && MayDeleteRow(m.tables, m.deleters[token].asset, m.deleters[token].workspace, token) {
      assert ProtectedOk(m.tables, m.deleters[token].asset);
    }
  }

  /** The only other step that changes the approvals adds those of the next review. */
  lemma ApprovalsAfter(m: Machine, st: Step)
    requires Ok(m)
    ensures var t := Next(m, st).tables;
            && t.nextReview >= m.tables.nextReview && m.tables.approvals <= t.approvals
            && forall a :: a in t.approvals && a !in m.tables.approvals ==> a.review == m.tables.nextReview
  {
    if st.Finish? {
      FinishKeepsApprovals(m, st.token);
    }
  }

  lemma MappingStep(m: Machine, st: Step, review: nat)
    requires Ok(m) && review < m.tables.nextReview
    ensures MappedAssets(Next(m, st).tables, review) == MappedAssets(m.tables, review)
    ensures review < Next(m, st).tables.nextReview
  {
    ApprovalsAfter(m, st);
  }

  /** No later step adds to the mapping of an approval or takes from it, although deleting a row cascades to it. */
  lemma {:induction false} MappingStays(ms: seq<Machine>, steps: seq<Step>, a: nat, b: nat, review: nat)
    requires IsRun(ms, steps) && a <= b < |ms| && review < ms[a].tables.nextReview
    ensures MappedAssets(ms[b].tables, review) == MappedAssets(ms[a].tables, review)
    ensures review < ms[b].tables.nextReview
  {
    if a < b {
      MappingStays(ms, steps, a, b - 1, review);
      RunIsOk(ms, steps, b - 1);
      MappingStep(ms[b - 1], steps[b - 1], review);
    }
  }

  /** What was approved at step `a` can still be rendered from every later state. */
  lemma ApprovedTimelineStaysWhole(ms: seq<Machine>, steps: seq<Step>, a: nat, b: nat, id: AssetId)
    requires IsRun(ms, steps) && a < b < |ms| && Approves(ms[a], steps[a])
    requires steps[a].project in ms[a].tables.timelines && id in ms[a].tables.timelines[steps[a].project].segments
    ensures var t := ms[b].tables;
            id in t.assets && t.assets[id].key in ms[b].objects && id !in t.claims
  {
    RunIsOk(ms, steps, a);
    ApprovalMapsTheTimeline(ms[a], steps[a]);
    MappingStays(ms, steps, a + 1, b, ms[a].tables.nextReview);
    assert id in MappedAssets(ms[b].tables, ms[a].tables.nextReview);
    ProtectedStands(ms, steps, b, id);
  }

  // ---- An undisturbed deletion goes through ----

  /** Nothing in the way, a sweeper claims the asset, also when an earlier one stopped on the way and its lease has run out. */
  lemma ClaimGoesThrough(m: Machine, id: AssetId, ws: int, now: int)
    requires id in m.tables.assets && m.tables.assets[id].workspace == ws && !KeptIn(m.tables, ws, id)
    requires id in m.tables.claims ==> m.tables.claims[id].workspace == ws && m.tables.claims[id].leaseExpires <= now
    ensures var token, n := m.nextToken, Next(m, Step.Claim(id, ws, now));
            && n == m.(tables := n.tables, deleters := n.deleters, nextToken := token + 1)
            && n.tables == m.tables.(claims := n.tables.claims) && n.tables.claims.Keys == m.tables.claims.Keys + {id}
            && n.tables.claims[id].token == token && n.tables.claims[id].workspace == ws
            && n.tables.claims[id].leaseExpires == now + 900
            && n.deleters == m.deleters[token := Deleter(id, ws, m.tables.assets[id].key, Claimed)]
  {
    ClaimedIff(m.tables, id, ws, m.nextToken, now);
  }

  /** Within its lease it marks the asset, while nothing keeps it. */
  lemma BeginGoesThrough(m: Machine, token: Token, now: int)
    requires At(m, token, Claimed)
    requires var d := m.deleters[token];
             && d.asset in m.tables.claims && m.tables.claims[d.asset].workspace == d.workspace
             && m.tables.claims[d.asset].token == token && now < m.tables.claims[d.asset].leaseExpires
             && !KeptIn(m.tables, d.workspace, d.asset)
    ensures var d, n := m.deleters[token], Next(m, Begin(token, now));
            && n == m.(tables := n.tables, deleters := m.deleters[token := d.(pc := Deleting)])
            && n.tables == m.tables.(claims := m.tables.claims[d.asset := m.tables.claims[d.asset].(deleting := true)])
  {
    BegunIff(m.tables, m.deleters[token].asset, m.deleters[token].workspace, token, now);
  }

  /** It deletes the object and then, if it still holds the claim, the row with its claim and its approvals. */
  lemma DeleteGoesThrough(m: Machine, token: Token)
    requires At(m, token, Deleting)
    requires var d := m.deleters[token];
             && d.asset in m.tables.assets && m.tables.assets[d.asset].workspace == d.workspace
             && d.asset in m.tables.claims && m.tables.claims[d.asset].token == token && m.tables.claims[d.asset].deleting
    ensures var d, erased := m.deleters[token], Next(m, DeleteObject(token));
            var done := Next(erased, Finish(token));
            && erased == m.(objects := m.objects - {d.key}, deleters := m.deleters[token := d.(pc := Deleted)])
            && done.objects == m.objects - {d.key} && token !in done.deleters
            && done.tables == m.tables.(assets := m.tables.assets - {d.asset}, claims := m.tables.claims - {d.asset},
                                        approvals := done.tables.approvals)
            && forall a :: a in done.tables.approvals <==> a in m.tables.approvals && a.asset != d.asset
  {
    RowDeletedIff(m.tables, m.deleters[token].asset, m.deleters[token].workspace, token);
  }

  /** A claim that is given back, or a sweeper that stops, deletes nothing. */
  lemma GivingUpDeletesNothing(m: Machine, token: Token)
    ensures var back, stopped := Next(m, GiveBack(token)), Next(m, Stop(token));
            && back.objects == m.objects && back.tables == m.tables.(claims := back.tables.claims)
            && stopped == m.(deleters := m.deleters - {token})
            && (At(m, token, Claimed) ==>
                  var d := m.deleters[token];
                  && token !in back.deleters
                  && back.tables.claims
                     == if d.asset in m.tables.claims && m.tables.claims[d.asset].token == token
                           && m.tables.claims[d.asset].workspace == d.workspace && !m.tables.claims[d.asset].deleting
                        then m.tables.claims - {d.asset} else m.tables.claims)
  {
  }

  /** A saved upload is a new row over its object. */
  lemma AddedIsThere(m: Machine, ws: int, project: Option<int>, key: Key)
    ensures var n := Next(m, AddAsset(ws, project, key));
            && n.tables.assets == m.tables.assets[m.tables.nextAsset := Asset(ws, project, key)] && key in n.objects
            && n.tables.nextAsset == m.tables.nextAsset + 1
  {
  }
}
