/**
 The tables that retention, timelines and approvals share, and what each
 locked statement of the Postgres storages makes of them.  Every statement
 takes the advisory lock of its workspace, so each is one atomic step.
 */
module RetentionTables {
  import opened Options

  type Key = string

  type AssetId = nat

  /** A uuid4 claim token. */
  type Token = nat

  datatype Asset = Asset(workspace: int, project: Option<int>, key: Key)

  datatype Claim = Claim(workspace: int, token: Token, leaseExpires: int, deleting: bool)

  /** A timeline is stored under its project; of a segment only the asset matters here. */
  datatype Timeline = Timeline(workspace: int, timelineId: string, revision: nat, segments: seq<AssetId>)

  datatype Approval = Approval(review: nat, workspace: int, timelineId: string, revision: nat, asset: AssetId)

  /** Ids are serials: the assets and reviews to come have ids from `nextAsset` and `nextReview` on. */
  datatype Tables = Tables(assets: map<AssetId, Asset>, nextAsset: AssetId, claims: map<AssetId, Claim>,
                           projects: map<int, int>, timelines: map<int, Timeline>, approvals: set<Approval>,
                           resolved: set<nat>, nextReview: nat)

  const ClaimLeaseSeconds := 900

  // ---- Queries ----

  /** A saved timeline of the workspace shows the asset. */
  predicate Referenced(t: Tables, ws: int, id: AssetId) {
    exists p :: p in t.timelines && t.timelines[p].workspace == ws && id in t.timelines[p].segments
  }

  /** An approval of the workspace maps the asset. */
  predicate Approved(t: Tables, ws: int, id: AssetId) {
    exists a :: a in t.approvals && a.workspace == ws && a.asset == id
  }

  /** The asset belongs to the project and nobody has claimed it for deletion. */
  predicate Available(t: Tables, project: int, ws: int, id: AssetId) {
    id in t.assets && t.assets[id].workspace == ws && t.assets[id].project == Some(project) && id !in t.claims
  }

  function AvailableCount(t: Tables, project: int, ws: int, segments: seq<AssetId>): nat {
    if segments == [] then 0
    else AvailableCount(t, project, ws, segments[..|segments| - 1])
         + if Available(t, project, ws, segments[|segments| - 1]) then 1 else 0
  }

  /** Counting the joined rows is a check of every segment. */
  lemma {:induction false} CountChecksEverySegment(t: Tables, project: int, ws: int, segments: seq<AssetId>)
    ensures AvailableCount(t, project, ws, segments) <= |segments|
    ensures AvailableCount(t, project, ws, segments) == |segments|
            <==> forall id :: id in segments ==> Available(t, project, ws, id)
  {
    if segments != [] {
      var rest, last := segments[..|segments| - 1], segments[|segments| - 1];
      assert segments == rest + [last];
      CountChecksEverySegment(t, project, ws, rest);
    }
  }

  /** The claim keeps the asset from being approved. */
  predicate Blocks(t: Tables, ws: int, id: AssetId, now: int) {
    && id in t.claims && t.claims[id].workspace == ws
    && (t.claims[id].deleting || t.claims[id].leaseExpires > now)
  }

  // ---- Statements ----

  /** Claim an unprotected asset, or take over its expired claim; a takeover keeps `deleting`. */
  function ClaimRetained(t: Tables, id: AssetId, ws: int, token: Token, now: int): Option<Tables> {
    if id !in t.assets || t.assets[id].workspace != ws || Referenced(t, ws, id) || Approved(t, ws, id) then None
    else if id !in t.claims then
      Some(t.(claims := t.claims[id := Claim(ws, token, now + ClaimLeaseSeconds, false)]))
    else if t.claims[id].workspace == ws && t.claims[id].leaseExpires <= now then
      Some(t.(claims := t.claims[id := t.claims[id].(token := token, leaseExpires := now + ClaimLeaseSeconds)]))
    else None
  }

  predicate Holds(t: Tables, id: AssetId, ws: int, token: Token) {
    id in t.claims && t.claims[id].workspace == ws && t.claims[id].token == token
  }

  /** Give the claim back, unless the object is already being deleted. */
  function Release(t: Tables, id: AssetId, ws: int, token: Token): Tables {
    if Holds(t, id, ws, token) && !t.claims[id].deleting then t.(claims := t.claims - {id}) else t
  }

  predicate ClaimIsValid(t: Tables, id: AssetId, ws: int, token: Token, now: int) {
    && Holds(t, id, ws, token) && t.claims[id].leaseExpires > now
    && !Referenced(t, ws, id) && !Approved(t, ws, id)
  }

  /** The first transaction of a finalization: mark the object as being deleted, or let go of the claim. */
  function BeginDeletion(t: Tables, id: AssetId, ws: int, token: Token, now: int): Tables {
    if ClaimIsValid(t, id, ws, token, now) then t.(claims := t.claims[id := t.claims[id].(deleting := true)])
    else Release(t, id, ws, token)
  }

  predicate MayDeleteRow(t: Tables, id: AssetId, ws: int, token: Token) {
    && id in t.assets && t.assets[id].workspace == ws
    && id in t.claims && t.claims[id].token == token && t.claims[id].deleting
  }

  /** The second transaction: delete the row, and with it its claim and its approvals. */
  function FinishDeletion(t: Tables, id: AssetId, ws: int, token: Token): Tables {
    if !MayDeleteRow(t, id, ws, token) then t
    else t.(assets := t.assets - {id}, claims := t.claims - {id},
            approvals := set a | a in t.approvals && a.asset != id)
  }

  /** Update the timeline at the expected revision, or insert the first one. */
  function TimelineSaved(t: Tables, project: int, ws: int, timelineId: string, segments: seq<AssetId>, expected: nat)
    : Option<Tables>
  {
    var authorized := project in t.projects && t.projects[project] == ws;
    if !authorized || AvailableCount(t, project, ws, segments) != |segments| then None
    else if project in t.timelines && t.timelines[project].workspace == ws && t.timelines[project].revision == expected
    then Some(t.(timelines := t.timelines[project := Timeline(ws, timelineId, expected + 1, segments)]))
    else if expected == 0 && project !in t.timelines
    then Some(t.(timelines := t.timelines[project := Timeline(ws, timelineId, 1, segments)]))
    else None
  }

  predicate Exact(t: Tables, project: int, ws: int, timelineId: string, revision: nat) {
    project in t.timelines && t.timelines[project] == Timeline(ws, timelineId, revision, t.timelines[project].segments)
  }

  /** The rows the approval inserts: every asset of the timeline that no claim blocks. */
  function Mapped(t: Tables, project: int, ws: int, timelineId: string, revision: nat, now: int): set<Approval>
    requires project in t.timelines
  {
    set id | id in t.timelines[project].segments && !Blocks(t, ws, id, now)
      :: Approval(t.nextReview, ws, timelineId, revision, id)
  }

  /** Approve a run's timeline at an exact revision; the whole review is rolled back if an asset is blocked. */
  function ReviewCreated(t: Tables, project: int, ws: int, timelineId: string, revision: nat, now: int): Option<Tables> {
    if !Exact(t, project, ws, timelineId, revision)
       || exists id :: id in t.timelines[project].segments && Blocks(t, ws, id, now) then None
    else Some(t.(approvals := t.approvals + Mapped(t, project, ws, timelineId, revision, now),
                 resolved := t.resolved + {t.nextReview}, nextReview := t.nextReview + 1))
  }

  // ---- What the statements come to ----

  /** A saved timeline or an approval of the workspace keeps the asset. */
  predicate KeptIn(t: Tables, ws: int, id: AssetId) {
    || (exists p :: p in t.timelines && t.timelines[p].workspace == ws && id in t.timelines[p].segments)
    || (exists a :: a in t.approvals && a.workspace == ws && a.asset == id)
  }

  /**
   An asset is claimed exactly if it is the workspace's, nothing keeps it, and
   nobody has claimed it or that claim, of the same workspace, has run out; the
   new claim runs for a quarter of an hour, and knows whether deletion had begun.
   */
  lemma ClaimedIff(t: Tables, id: AssetId, ws: int, token: Token, now: int)
    ensures var after := ClaimRetained(t, id, ws, token, now);
            && (after.Some? <==>
                  && id in t.assets && t.assets[id].workspace == ws && !KeptIn(t, ws, id)
                  && (id in t.claims ==> t.claims[id].workspace == ws && t.claims[id].leaseExpires <= now))
            && (after.Some? ==>
                  var begun := id in t.claims && t.claims[id].deleting;
                  after.value == t.(claims := t.claims[id := Claim(ws, token, now + 900, begun)]))
  {
  }

  /**
   Deletion begins under the token, before its lease has run out and while nothing
   keeps the asset; otherwise a claim of the token that has not begun deleting is
   given up, and any other claim stays.
   */
  lemma BegunIff(t: Tables, id: AssetId, ws: int, token: Token, now: int)
    ensures var held := id in t.claims && t.claims[id].workspace == ws && t.claims[id].token == token;
            var begins := held && now < t.claims[id].leaseExpires && !KeptIn(t, ws, id);
            && ClaimIsValid(t, id, ws, token, now) == begins
            && BeginDeletion(t, id, ws, token, now)
               == if begins then t.(claims := t.claims[id := t.claims[id].(deleting := true)])
                  else if held && !t.claims[id].deleting then t.(claims := t.claims - {id}) else t
  {
  }

  /** Giving a claim back ends it, unless it is another token's or deletion has begun. */
  lemma ReleasedIff(t: Tables, id: AssetId, ws: int, token: Token)
    ensures Release(t, id, ws, token)
            == if id in t.claims && t.claims[id].workspace == ws && t.claims[id].token == token && !t.claims[id].deleting
               then t.(claims := t.claims - {id}) else t
  {
  }

  /** The row goes exactly under a claim of the token that has begun deleting, and its claim and approvals with it. */
  lemma RowDeletedIff(t: Tables, id: AssetId, ws: int, token: Token)
    ensures var after := FinishDeletion(t, id, ws, token);
            if id in t.assets && t.assets[id].workspace == ws
               && id in t.claims && t.claims[id].token == token && t.claims[id].deleting
            then
              && after == t.(assets := t.assets - {id}, claims := t.claims - {id}, approvals := after.approvals)
              && forall a :: a in after.approvals <==> a in t.approvals && a.asset != id
            else after == t
  {
  }

  /**
   A save is accepted exactly for a project of the workspace, if every asset is
   there, of that project and workspace, and unclaimed, and if the revision is the
   saved one of that workspace, or there is none yet and the first is expected.
   */
  lemma SavedIff(t: Tables, project: int, ws: int, timelineId: string, segments: seq<AssetId>, expected: nat)
    ensures var after := TimelineSaved(t, project, ws, timelineId, segments, expected);
            && (after.Some? <==>
                  && project in t.projects && t.projects[project] == ws
                  && (forall id :: id in segments ==>
                        && id in t.assets && t.assets[id].workspace == ws && t.assets[id].project == Some(project)
                        && id !in t.claims)
                  && if project in t.timelines
                     then t.timelines[project].workspace == ws && t.timelines[project].revision == expected
                     else expected == 0)
            && (after.Some? ==>
                  after.value == t.(timelines := t.timelines[project := Timeline(ws, timelineId, expected + 1, segments)]))
  {
    CountChecksEverySegment(t, project, ws, segments);
  }

  /**
   An approval is accepted exactly for the saved revision of that workspace and
   timeline, if no asset of it is being deleted or claimed under a lease that has
   not run out; it then maps every asset of the timeline, and nothing else.
   */
  lemma ReviewedIff(t: Tables, project: int, ws: int, timelineId: string, revision: nat, now: int)
    ensures var after := ReviewCreated(t, project, ws, timelineId, revision, now);
            && (after.Some? <==>
                  && project in t.timelines && t.timelines[project].workspace == ws
                  && t.timelines[project].timelineId == timelineId && t.timelines[project].revision == revision
                  && forall id :: id in t.timelines[project].segments ==>
                       id !in t.claims || t.claims[id].workspace != ws
                       || (!t.claims[id].deleting && t.claims[id].leaseExpires <= now))
            && (after.Some? ==>
                  && after.value == t.(approvals := after.value.approvals, resolved := t.resolved + {t.nextReview},
                                       nextReview := t.nextReview + 1)
                  && forall a :: a in after.value.approvals
                                 <==> a in t.approvals
                                      || (a.asset in t.timelines[project].segments
                                          && a == Approval(t.nextReview, ws, timelineId, revision, a.asset)))
  {
    if project in t.timelines {
      forall id | id in t.timelines[project].segments
        ensures Blocks(t, ws, id, now)
                <==> id in t.claims && t.claims[id].workspace == ws
                     && (t.claims[id].deleting || t.claims[id].leaseExpires > now)
      {
      }
    }
  }

  // ---- The storages, over one database ----

  class Database {
    var assets: map<AssetId, Asset>
    var nextAsset: AssetId
    var claims: map<AssetId, Claim>
    var projects: map<int, int>
    var timelines: map<int, Timeline>
    var approvals: set<Approval>
    var resolved: set<nat>
    var nextReview: nat

    function View(): Tables
      reads this
    {
      Tables(assets, nextAsset, claims, projects, timelines, approvals, resolved, nextReview)
    }

    constructor (t: Tables)
      ensures View() == t
    {
      assets, nextAsset, claims, projects := t.assets, t.nextAsset, t.claims, t.projects;
      timelines, approvals, resolved, nextReview := t.timelines, t.approvals, t.resolved, t.nextReview;
    }

    /** Other transactions leave the tables as `t`. */
    method Interfere(t: Tables)
      modifies this
      ensures View() == t
    {
      assets, nextAsset, claims, projects := t.assets, t.nextAsset, t.claims, t.projects;
      timelines, approvals, resolved, nextReview := t.timelines, t.approvals, t.resolved, t.nextReview;
    }
  }

  class PostgresMediaRetentionStorage {
    const db: Database

    constructor (db: Database)
      ensures this.db == db
    {
      this.db := db;
    }

    method ClaimRetainedAsset(id: AssetId, ws: int, token: Token, now: int) returns (claimed: bool)
      modifies db
      ensures var after := ClaimRetained(old(db.View()), id, ws, token, now);
              claimed == after.Some? && db.View() == if claimed then after.value else old(db.View())
    {
      if id !in db.assets || db.assets[id].workspace != ws || Referenced(db.View(), ws, id) || Approved(db.View(), ws, id) {
        return false;
      }
      if id !in db.claims {
        db.claims := db.claims[id := Claim(ws, token, now + ClaimLeaseSeconds, false)];
        return true;
      }
      var held := db.claims[id];
      if held.workspace != ws || held.leaseExpires > now {
        return false;
      }
      db.claims := db.claims[id := Claim(ws, token, now + ClaimLeaseSeconds, held.deleting)];
      return true;
    }

    method ReleaseRetainedAsset(id: AssetId, ws: int, token: Token)
      modifies db
      ensures db.View() == Release(old(db.View()), id, ws, token)
    {
      if Holds(db.View(), id, ws, token) && !db.claims[id].deleting {
        db.claims := db.claims - {id};
      }
    }

    /** The first transaction of a finalization. */
    method MarkDeleting(id: AssetId, ws: int, token: Token, now: int) returns (valid: bool)
      modifies db
      ensures valid == ClaimIsValid(old(db.View()), id, ws, token, now)
      ensures db.View() == BeginDeletion(old(db.View()), id, ws, token, now)
    {
      valid := ClaimIsValid(db.View(), id, ws, token, now);
      if valid {
        db.claims := db.claims[id := db.claims[id].(deleting := true)];
      } else {
        ReleaseRetainedAsset(id, ws, token);
      }
    }

    /** The second transaction of a finalization. */
    method DeleteRow(id: AssetId, ws: int, token: Token) returns (deleted: bool)
      modifies db
      ensures deleted == MayDeleteRow(old(db.View()), id, ws, token)
      ensures db.View() == FinishDeletion(old(db.View()), id, ws, token)
    {
      deleted := MayDeleteRow(db.View(), id, ws, token);
      if deleted {
        db.assets := db.assets - {id};
        db.claims := db.claims - {id};
        db.approvals := set a | a in db.approvals && a.asset != id;
      }
    }

    /**
     Finalize: mark the claim, delete the object, delete the row.  While the
     object goes, other transactions leave the tables as `between`.
     */
    method FinalizeRetainedAsset(id: AssetId, ws: int, token: Token, now: int, between: Tables,
                                 key: Key, objects: set<Key>)
      returns (deleted: bool, left: set<Key>, ghost marked: Tables)
      modifies db
      ensures marked == BeginDeletion(old(db.View()), id, ws, token, now)
      ensures if ClaimIsValid(old(db.View()), id, ws, token, now)
              then db.View() == FinishDeletion(between, id, ws, token) && left == objects - {key}
                   && deleted == MayDeleteRow(between, id, ws, token)
              else db.View() == marked && !deleted && left == objects
    {
      var valid := MarkDeleting(id, ws, token, now);
      marked := db.View();
      if !valid {
        return false, objects, marked;
      }
      left := objects - {key};
      db.Interfere(between);
      deleted := DeleteRow(id, ws, token);
    }
  }

  class PostgresTimelineStorage {
    const db: Database

    constructor (db: Database)
      ensures this.db == db
    {
      this.db := db;
    }

    method SaveTimeline(project: int, ws: int, timelineId: string, segments: seq<AssetId>, expected: nat)
      returns (saved: Option<Timeline>)
      modifies db
      ensures var after := TimelineSaved(old(db.View()), project, ws, timelineId, segments, expected);
              && saved.Some? == after.Some?
              && db.View() == (if after.Some? then after.value else old(db.View()))
              && (saved.Some? ==> project in db.timelines && saved == Some(db.timelines[project]))
    {
      if project !in db.projects || db.projects[project] != ws {
        return None;
      }
      var available := 0;
      for k := 0 to |segments|
        invariant db.View() == old(db.View())
        invariant available == AvailableCount(db.View(), project, ws, segments[..k])
      {
        assert segments[..k + 1][..k] == segments[..k];
        if Available(db.View(), project, ws, segments[k]) {
          available := available + 1;
        }
      }
      assert segments[..|segments|] == segments;
      if available != |segments| {
        return None;
      }
      if project in db.timelines && db.timelines[project].workspace == ws && db.timelines[project].revision == expected {
        saved := Some(Timeline(ws, timelineId, expected + 1, segments));
      } else if expected == 0 && project !in db.timelines {
        saved := Some(Timeline(ws, timelineId, 1, segments));
      } else {
        return None;
      }
      db.timelines := db.timelines[project := saved.value];
    }
  }

  class PostgresStageReviewStorage {
    const db: Database

    constructor (db: Database)
      ensures this.db == db
    {
      this.db := db;
    }

    /** Approve a timeline review; `false` is the error that rolls the review back. */
    method CreateReview(project: int, ws: int, timelineId: string, revision: nat, now: int) returns (approved: bool)
      modifies db
      ensures var after := ReviewCreated(old(db.View()), project, ws, timelineId, revision, now);
              approved == after.Some? && db.View() == if approved then after.value else old(db.View())
    {
      if !Exact(db.View(), project, ws, timelineId, revision) {
        return false;
      }
      var segments := db.timelines[project].segments;
      var mapped, blocked := {}, false;
      for k := 0 to |segments|
        invariant mapped == set id | id in segments[..k] && !Blocks(db.View(), ws, id, now)
                              :: Approval(db.nextReview, ws, timelineId, revision, id)
        invariant blocked <==> exists id :: id in segments[..k] && Blocks(db.View(), ws, id, now)
      {
        assert segments[..k + 1] == segments[..k] + [segments[k]];
        if Blocks(db.View(), ws, segments[k], now) {
          blocked := true;
        } else {
          mapped := mapped + {Approval(db.nextReview, ws, timelineId, revision, segments[k])};
        }
      }
      assert segments[..|segments|] == segments;
      if blocked {
        return false;
      }
      db.approvals := db.approvals + mapped;
      db.resolved := db.resolved + {db.nextReview};
      db.nextReview := db.nextReview + 1;
      return true;
    }
  }
}
