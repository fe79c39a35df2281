/** Choosing the assets to retire: a paged scan that yields what one filter over the whole table would. */
module RetentionPaging {
  import opened Options

  datatype Asset = Asset(id: nat, workspace: int, key: Option<string>, origin: string, mediaType: string, created: int)

  /** Days per kind of asset; zero or less keeps the kind forever. */
  datatype Policy = Policy(originalDays: int, intermediateDays: int, finalVideoDays: int, graceDays: int,
                           enabled: bool, dryRun: bool)

  const SecondsInADay := 86400

  // ---- Candidates ----

  function RetentionDays(a: Asset, p: Policy): int {
    if a.origin != "GENERATED" then p.originalDays
    else if a.mediaType == "VIDEO" then p.finalVideoDays
    else p.intermediateDays
  }

  function Digits(n: nat): string {
    var last := [('0' as int + n % 10) as char];
    if n < 10 then last else Digits(n / 10) + last
  }

  function Number(n: int): string {
    if n < 0 then "-" + Digits(-n) else Digits(n)
  }

  /** What a row of decimal digits stands for. */
  function Value(digits: string): int {
    if digits == "" then 0 else 10 * Value(digits[..|digits| - 1]) + (digits[|digits| - 1] as int - '0' as int)
  }

  /** A number is spelled in decimal digits without leading zeros, and a negative one with a minus sign. */
  lemma {:induction false} DigitsSpell(n: nat)
    ensures Value(Digits(n)) == n && |Digits(n)| > 0 && (n > 0 ==> Digits(n)[0] != '0') && (n == 0 ==> Digits(n) == "0")
    ensures forall k :: 0 <= k < |Digits(n)| ==> '0' <= Digits(n)[k] <= '9'
    ensures Number(n) == Digits(n) && (n > 0 ==> Number(0 - n) == "-" + Digits(n))
  {
    if n >= 10 {
      DigitsSpell(n / 10);
      assert Digits(n)[..|Digits(n)| - 1] == Digits(n / 10);
    }
  }

  predicate Owned(a: Asset, ws: int) {
    a.workspace == ws && a.key.Some? && "workspaces/" + Number(ws) + "/assets/" <= a.key.value
  }

  predicate Expired(a: Asset, p: Policy, now: int) {
    var days := RetentionDays(a, p);
    days > 0 && a.created <= now - (days + p.graceDays) * SecondsInADay
  }

  predicate Candidate(a: Asset, ws: int, p: Policy, protectedIds: set<nat>, now: int) {
    Owned(a, ws) && Expired(a, p, now) && a.id !in protectedIds
  }

  function IsCandidate(ws: int, p: Policy, protectedIds: set<nat>, now: int): Asset -> bool {
    (a: Asset) => Candidate(a, ws, p, protectedIds, now)
  }

  /**
   What is selected: an asset stored under the prefix of its own workspace that
   nothing protects and whose age has reached the period of its kind, which must
   be positive: uploaded originals, generated videos, and all other generated
   assets.
   */
  lemma CandidateIff(a: Asset, ws: int, p: Policy, protectedIds: set<nat>, now: int)
    ensures IsCandidate(ws, p, protectedIds, now)(a)
            <==> && a.workspace == ws && a.key.Some? && "workspaces/" + Number(ws) + "/assets/" <= a.key.value
                 && a.id !in protectedIds
                 && if a.origin != "GENERATED" then
                      p.originalDays > 0 && a.created + (p.originalDays + p.graceDays) * 86400 <= now
                    else if a.mediaType == "VIDEO" then
                      p.finalVideoDays > 0 && a.created + (p.finalVideoDays + p.graceDays) * 86400 <= now
                    else p.intermediateDays > 0 && a.created + (p.intermediateDays + p.graceDays) * 86400 <= now
  {
  }

  /** Those of the first `n` rows to keep. */
  function FilteredTo(rows: seq<Asset>, keep: Asset -> bool, n: nat): seq<Asset>
    requires n <= |rows|
  {
    if n == 0 then [] else FilteredTo(rows, keep, n - 1) + if keep(rows[n - 1]) then [rows[n - 1]] else []
  }

  function Filtered(rows: seq<Asset>, keep: Asset -> bool): seq<Asset> {
    FilteredTo(rows, keep, |rows|)
  }

  method SelectRetentionCandidates(rows: seq<Asset>, ws: int, p: Policy, referenced: set<nat>, approved: set<nat>, now: int)
    returns (selected: seq<Asset>)
    ensures selected == Filtered(rows, IsCandidate(ws, p, referenced + approved, now))
  {
    selected := [];
    for k := 0 to |rows|
      invariant selected == FilteredTo(rows, IsCandidate(ws, p, referenced + approved, now), k)
    {
      var a := rows[k];
      var isProtected := a.id in referenced || a.id in approved;
      if Owned(a, ws) && Expired(a, p, now) && !isProtected {
        selected := selected + [a];
      }
    }
  }

  // ---- Pages ----

  /** Oldest first, and by id among the equally old. */
  predicate Before(a: Asset, b: Asset) {
    a.created < b.created || (a.created == b.created && a.id < b.id)
  }

  predicate InOrder(rows: seq<Asset>) {
    forall i, j :: 0 <= i < j < |rows| ==> Before(rows[i], rows[j])
  }

  function Behind(cursor: Asset): Asset -> bool {
    (a: Asset) => Before(cursor, a)
  }

  /** The first rows behind the cursor. */
  function Page(rows: seq<Asset>, limit: nat, after: Option<Asset>): seq<Asset> {
    var rest := if after.None? then rows else Filtered(rows, Behind(after.value));
    if |rest| <= limit then rest else rest[..limit]
  }

  /** Filtering a longer prefix appends what its last stretch yields. */
  lemma {:induction false} FilteredStretch(rows: seq<Asset>, keep: Asset -> bool, n: nat, m: nat)
    requires n <= m <= |rows|
    ensures FilteredTo(rows, keep, m) == FilteredTo(rows, keep, n) + FilteredTo(rows[n..], keep, m - n)
  {
    if n < m {
      FilteredStretch(rows, keep, n, m - 1);
    }
  }

  lemma {:induction false} FilteredToOf(a: seq<Asset>, b: seq<Asset>, keep: Asset -> bool, n: nat)
    requires n <= |a| && n <= |b| && forall k :: 0 <= k < n ==> a[k] == b[k]
    ensures FilteredTo(a, keep, n) == FilteredTo(b, keep, n)
  {
    if n > 0 {
      FilteredToOf(a, b, keep, n - 1);
    }
  }

  lemma {:induction false} FilteredFrom(rows: seq<Asset>, n: nat, keep: Asset -> bool, m: nat)
    requires n <= m <= |rows|
    requires (forall k :: 0 <= k < n ==> !keep(rows[k])) && forall k :: n <= k < m ==> keep(rows[k])
    ensures FilteredTo(rows, keep, m) == rows[n..m]
    decreases m
  {
    if n < m {
      FilteredFrom(rows, n, keep, m - 1);
    } else if m > 0 {
      FilteredFrom(rows, n - 1, keep, m - 1);
    }
  }

  /** The rows behind the `n`-th are the ones the cursor at the `n`-th keeps. */
  lemma BehindTheCursor(rows: seq<Asset>, n: nat)
    requires InOrder(rows) && n < |rows|
    ensures Filtered(rows, Behind(rows[n])) == rows[n + 1..]
  {
    FilteredFrom(rows, n + 1, Behind(rows[n]), |rows|);
  }

  // ---- The order of the table ----

  function Insert(rows: seq<Asset>, a: Asset): seq<Asset> {
    var n := |rows| - 1;
    if rows == [] || Before(rows[n], a) then rows + [a] else Insert(rows[..n], a) + [rows[n]]
  }

  function ByAge(rows: seq<Asset>): seq<Asset> {
    if rows == [] then [] else Insert(ByAge(rows[..|rows| - 1]), rows[|rows| - 1])
  }

  lemma {:induction false} InsertStaysBefore(rows: seq<Asset>, a: Asset, last: Asset)
    requires Before(a, last) && forall i :: 0 <= i < |rows| ==> Before(rows[i], last)
    ensures forall i :: 0 <= i < |Insert(rows, a)| ==> Before(Insert(rows, a)[i], last)
  {
    var n := |rows| - 1;
    if rows != [] && !Before(rows[n], a) {
      InsertStaysBefore(rows[..n], a, last);
    }
  }

  lemma {:induction false} InsertKeepsOrder(rows: seq<Asset>, a: Asset)
    requires InOrder(rows) && forall i :: 0 <= i < |rows| ==> rows[i].id != a.id
    ensures InOrder(Insert(rows, a))
  {
    var n := |rows| - 1;
    if rows != [] && !Before(rows[n], a) {
      InsertKeepsOrder(rows[..n], a);
      InsertStaysBefore(rows[..n], a, rows[n]);
    }
  }

  lemma {:induction false} InsertAdds(rows: seq<Asset>, a: Asset)
    ensures multiset(Insert(rows, a)) == multiset(rows) + multiset{a}
  {
    var n := |rows| - 1;
    if rows != [] && !Before(rows[n], a) {
      InsertAdds(rows[..n], a);
      assert rows == rows[..n] + [rows[n]];
    }
  }

  predicate UniqueIds(rows: seq<Asset>) {
    forall i, j :: 0 <= i < j < |rows| ==> rows[i].id != rows[j].id
  }

  lemma {:induction false} ByAgeKeepsRows(rows: seq<Asset>)
    ensures multiset(ByAge(rows)) == multiset(rows)
  {
    if rows != [] {
      var n := |rows| - 1;
      ByAgeKeepsRows(rows[..n]);
      InsertAdds(ByAge(rows[..n]), rows[n]);
      assert rows == rows[..n] + [rows[n]];
    }
  }

  /** Sorting orders the rows strictly, as their ids are unique. */
  lemma {:induction false} ByAgeSorts(rows: seq<Asset>)
    requires UniqueIds(rows)
    ensures InOrder(ByAge(rows))
  {
    if rows != [] {
      var n := |rows| - 1;
      ByAgeSorts(rows[..n]);
      ByAgeKeepsRows(rows[..n]);
      forall i | 0 <= i < |ByAge(rows[..n])|
        ensures ByAge(rows[..n])[i].id != rows[n].id
      {
        assert ByAge(rows[..n])[i] in multiset(rows[..n]);
      }
      InsertKeepsOrder(ByAge(rows[..n]), rows[n]);
    }
  }

  predicate StoredIn(a: Asset, ws: int) {
    a.workspace == ws && a.key.Some?
  }

  function IsStoredIn(ws: int): Asset -> bool {
    (a: Asset) => StoredIn(a, ws)
  }

  lemma {:induction false} FilteredIsUnique(rows: seq<Asset>, keep: Asset -> bool, n: nat)
    requires UniqueIds(rows) && n <= |rows|
    ensures UniqueIds(FilteredTo(rows, keep, n))
    ensures forall a :: a in FilteredTo(rows, keep, n) ==> exists k :: 0 <= k < n && rows[k] == a
  {
    if n > 0 {
      FilteredIsUnique(rows, keep, n - 1);
      var rest := FilteredTo(rows, keep, n - 1);
      forall k | 0 <= k < |rest|
        ensures rest[k].id != rows[n - 1].id
      {
        assert rest[k] in rest;
      }
    }
  }

  /** The stored assets of the workspace, oldest first. */
  function Rows(table: seq<Asset>, ws: int): seq<Asset> {
    ByAge(Filtered(table, IsStoredIn(ws)))
  }

  lemma RowsInOrder(table: seq<Asset>, ws: int)
    requires UniqueIds(table)
    ensures InOrder(Rows(table, ws))
  {
    FilteredIsUnique(table, IsStoredIn(ws), |table|);
    ByAgeSorts(Filtered(table, IsStoredIn(ws)));
  }

  lemma {:induction false} FilteredMembers(rows: seq<Asset>, keep: Asset -> bool, n: nat, a: Asset)
    requires n <= |rows|
    ensures a in FilteredTo(rows, keep, n) <==> keep(a) && a in rows[..n]
  {
    if n > 0 {
      FilteredMembers(rows, keep, n - 1, a);
      assert rows[..n] == rows[..n - 1] + [rows[n - 1]];
    }
  }

  lemma {:induction false} FilteredInOrder(rows: seq<Asset>, keep: Asset -> bool, n: nat)
    requires InOrder(rows) && n <= |rows|
    ensures InOrder(FilteredTo(rows, keep, n))
  {
    if n > 0 {
      FilteredInOrder(rows, keep, n - 1);
      var rest := FilteredTo(rows, keep, n - 1);
      forall k | 0 <= k < |rest|
        ensures Before(rest[k], rows[n - 1])
      {
        FilteredMembers(rows, keep, n - 1, rest[k]);
        var i :| 0 <= i < n - 1 && rows[..n - 1][i] == rest[k];
      }
    }
  }

  lemma RowsMembers(table: seq<Asset>, ws: int, a: Asset)
    ensures a in Rows(table, ws) <==> a in table && StoredIn(a, ws)
  {
    var stored := Filtered(table, IsStoredIn(ws));
    FilteredMembers(table, IsStoredIn(ws), |table|, a);
    ByAgeKeepsRows(stored);
    assert table[..|table|] == table;
    assert a in Rows(table, ws) <==> a in multiset(stored);
  }

  /** Stored in the workspace and behind the cursor, if there is one. */
  predicate Due(table: seq<Asset>, ws: int, after: Option<Asset>, a: Asset) {
    && a in table && a.workspace == ws && a.key.Some?
    && (after.Some? ==> after.value.created < a.created || (after.value.created == a.created && after.value.id < a.id))
  }

  /** A page is an ordered list of due rows; one it leaves out comes after a full page. */
  ghost predicate IsPage(table: seq<Asset>, ws: int, limit: nat, after: Option<Asset>, page: seq<Asset>) {
    && InOrder(page) && |page| <= limit
    && (forall a :: a in page ==> Due(table, ws, after, a))
    && forall a :: Due(table, ws, after, a) && a !in page ==> |page| == limit && forall b :: b in page ==> Before(b, a)
  }

  lemma PageIsPage(table: seq<Asset>, ws: int, limit: nat, after: Option<Asset>)
    requires UniqueIds(table)
    ensures IsPage(table, ws, limit, after, Page(Rows(table, ws), limit, after))
  {
    var rows := Rows(table, ws);
    var rest := if after.None? then rows else Filtered(rows, Behind(after.value));
    RowsInOrder(table, ws);
    if after.Some? {
      FilteredInOrder(rows, Behind(after.value), |rows|);
    }
    forall a: Asset
      ensures a in rest <==> Due(table, ws, after, a)
    {
      RowsMembers(table, ws, a);
      if after.Some? {
        FilteredMembers(rows, Behind(after.value), |rows|, a);
        assert rows[..|rows|] == rows;
      }
    }
    PrefixIsPage(rest, limit);
  }

  lemma PrefixIsPage(rest: seq<Asset>, limit: nat)
    requires InOrder(rest)
    ensures var page := if |rest| <= limit then rest else rest[..limit];
            && InOrder(page) && |page| <= limit
            && forall a :: a in rest && a !in page ==> |page| == limit && forall b :: b in page ==> Before(b, a)
  {
  }

  function First(rows: seq<Asset>, limit: int): seq<Asset> {
    if limit <= 0 then [] else if |rows| <= limit then rows else rows[..limit]
  }

  lemma FirstOfConcat(a: seq<Asset>, b: seq<Asset>, limit: int)
    requires |a| <= limit
    ensures First(a + b, limit) == a + First(b, limit - |a|)
  {
  }

  datatype SweepResult = SweepResult(candidates: nat, deleted: nat, dryRun: bool, enabled: bool)

  // ---- Claims and finalizations in memory ----

  /** Who deletes which asset; a claim has no lease here. */
  datatype Table = Table(assets: seq<Asset>, deleting: map<nat, nat>)

  /** What other processes do to the table before the `k`-th of a sweep's storage calls. */
  type Others = (nat, Table) -> Table

  predicate Has(rows: seq<Asset>, id: nat, ws: int) {
    exists k :: 0 <= k < |rows| && rows[k].id == id && rows[k].workspace == ws
  }

  predicate Claimable(t: Table, id: nat, ws: int) {
    Has(t.assets, id, ws) && id !in t.deleting
  }

  function Claimed(t: Table, id: nat, ws: int, token: nat): Table {
    if Claimable(t, id, ws) then t.(deleting := t.deleting[id := token]) else t
  }

  predicate HeldBy(t: Table, id: nat, token: nat) {
    id in t.deleting && t.deleting[id] == token
  }

  function Except(id: nat, ws: int): Asset -> bool {
    (a: Asset) => !(a.id == id && a.workspace == ws)
  }

  /** Under its claim, and once the object is gone, the row and the claim go. */
  function Removed(t: Table, id: nat, ws: int): Table {
    Table(Filtered(t.assets, Except(id, ws)), t.deleting - {id})
  }

  /** `Broken`: deleting the object raised, and the claim stays. */
  datatype Finalization = Deleted | Refused | Broken

  function Finalizes(t: Table, id: nat, token: nat, deletes: bool): Finalization {
    if !HeldBy(t, id, token) then Refused else if deletes then Deleted else Broken
  }

  function Finalized(t: Table, id: nat, ws: int, token: nat, deletes: bool): Table {
    if Finalizes(t, id, token, deletes).Deleted? then Removed(t, id, ws) else t
  }

  /** An asset of the workspace is claimed unless it is being deleted already. */
  lemma ClaimedIff(t: Table, id: nat, ws: int, token: nat)
    ensures var claimed := (exists k :: 0 <= k < |t.assets| && t.assets[k].id == id && t.assets[k].workspace == ws)
                           && id !in t.deleting;
            && Claimable(t, id, ws) == claimed
            && Claimed(t, id, ws, token) == if claimed then t.(deleting := t.deleting[id := token]) else t
  {
  }

  /** Only the token that claimed the asset finalizes it, and only if its object can be deleted. */
  lemma FinalizedIff(t: Table, id: nat, ws: int, token: nat, deletes: bool)
    ensures var held := id in t.deleting && t.deleting[id] == token;
            && Finalizes(t, id, token, deletes) == (if !held then Refused else if deletes then Deleted else Broken)
            && Finalized(t, id, ws, token, deletes)
               == if held && deletes then Table(Filtered(t.assets, Except(id, ws)), t.deleting - {id}) else t
  {
  }

  /** A sweep under way; one whose delete raised is over. */
  datatype Progress = Progress(table: Table, deleted: nat, raised: bool)

  /** How the `k`-th candidate fares: the token its claim draws, and whether its object can be deleted. */
  datatype Weather = Weather(token: nat -> nat, deletes: nat -> bool, others: Others)

  function RetireNext(p: Progress, a: Asset, ws: int, x: Weather, k: nat): Progress {
    if p.raised then p
    else
      var t := x.others(2 * k, p.table);
      if !Claimable(t, a.id, ws) then p.(table := t)
      else
        var u := x.others(2 * k + 1, Claimed(t, a.id, ws, x.token(k)));
        var ends := Finalizes(u, a.id, x.token(k), x.deletes(k));
        Progress(Finalized(u, a.id, ws, x.token(k), x.deletes(k)),
                 p.deleted + if ends.Deleted? then 1 else 0, ends.Broken?)
  }

  function RetiredTo(t: Table, found: seq<Asset>, ws: int, x: Weather, n: nat): Progress
    requires n <= |found|
  {
    if n == 0 then Progress(t, 0, false) else RetireNext(RetiredTo(t, found, ws, x, n - 1), found[n - 1], ws, x, n - 1)
  }

  // ---- The service ----

  class InMemoryMediaAssetStorage {
    var assets: seq<Asset>
    var deletingAssetIds: map<nat, nat>

    function View(): Table
      reads this
    {
      Table(assets, deletingAssetIds)
    }

    method ListRetentionAssets(ws: int, limit: nat, after: Option<Asset>) returns (page: seq<Asset>)
      requires UniqueIds(assets)
      ensures IsPage(assets, ws, limit, after, page)
      ensures page == Page(Rows(assets, ws), limit, after)
    {
      page := Page(Rows(assets, ws), limit, after);
      PageIsPage(assets, ws, limit, after);
    }

    method ClaimRetainedAsset(id: nat, ws: int, token: nat) returns (claimed: Option<nat>)
      modifies this
      ensures View() == Claimed(old(View()), id, ws, token)
      ensures claimed == if Claimable(old(View()), id, ws) then Some(token) else None
    {
      var present := exists k :: 0 <= k < |assets| && assets[k].id == id && assets[k].workspace == ws;
      if !present || id in deletingAssetIds {
        return None;
      }
      deletingAssetIds := deletingAssetIds[id := token];
      return Some(token);
    }

    /** Delete the object under the lock, then the row; the object may refuse to go. */
    method FinalizeRetainedAsset(id: nat, ws: int, token: nat, deletes: bool) returns (ends: Finalization)
      modifies this
      ensures ends == Finalizes(old(View()), id, token, deletes)
      ensures View() == Finalized(old(View()), id, ws, token, deletes)
    {
      if id !in deletingAssetIds || deletingAssetIds[id] != token {
        return Refused;
      }
      if !deletes {
        return Broken;
      }
      var rest: seq<Asset> := [];
      for k := 0 to |assets|
        invariant rest == FilteredTo(assets, Except(id, ws), k)
      {
        if !(assets[k].id == id && assets[k].workspace == ws) {
          rest := rest + [assets[k]];
        }
      }
      assets := rest;
      deletingAssetIds := deletingAssetIds - {id};
      return Deleted;
    }

    /** Other processes run. */
    method Interfere(t: Table)
      modifies this
      ensures View() == t
    {
      assets, deletingAssetIds := t.assets, t.deleting;
    }
  }

  /** What the whole scan should find. */
  function Wanted(table: seq<Asset>, ws: int, p: Policy, protectedIds: set<nat>, now: int, limit: int): seq<Asset> {
    First(Filtered(Rows(table, ws), IsCandidate(ws, p, protectedIds, now)), limit)
  }

  class MediaRetentionService {
    const storage: InMemoryMediaAssetStorage
    const policy: Policy

    constructor (storage: InMemoryMediaAssetStorage, policy: Policy)
      ensures this.storage == storage && this.policy == policy
    {
      this.storage, this.policy := storage, policy;
    }

    /** Scan one page behind the cursor, after `n` rows. */
    method ScanPage(ws: int, referenced: set<nat>, approved: set<nat>, now: int, limit: int, scanLimit: nat,
                    after: Option<Asset>, candidates: seq<Asset>, ghost rows: seq<Asset>, ghost n: nat)
      returns (page: seq<Asset>, more: seq<Asset>)
      requires UniqueIds(storage.assets) && rows == Rows(storage.assets, ws) && scanLimit > 0 && |candidates| < limit
      requires n <= |rows| && (n == 0 ==> after == None) && (n > 0 ==> after == Some(rows[n - 1]))
      requires candidates == First(FilteredTo(rows, IsCandidate(ws, policy, referenced + approved, now), n), limit)
      ensures n + |page| <= |rows| && page == rows[n..n + |page|] && (|page| < scanLimit ==> n + |page| == |rows|)
      ensures candidates + more
              == First(FilteredTo(rows, IsCandidate(ws, policy, referenced + approved, now), n + |page|), limit)
    {
      page := storage.ListRetentionAssets(ws, scanLimit, after);
      var selected := SelectRetentionCandidates(page, ws, policy, referenced, approved, now);
      more := First(selected, limit - |candidates|);
      RowsInOrder(storage.assets, ws);
      PageFound(rows, n, scanLimit, after, IsCandidate(ws, policy, referenced + approved, now), candidates, limit);
    }

    /**
     Scan page by page until enough candidates are found or no rows are left.
     Over an unchanged table the loop ends with the first `limit` candidates of
     the whole sorted list; a limit that is not positive finds none.
     */
    method ScanCandidates(ws: int, referenced: set<nat>, approved: set<nat>, now: int, limit: int)
      returns (candidates: seq<Asset>)
      requires UniqueIds(storage.assets)
      ensures candidates == Wanted(storage.assets, ws, policy, referenced + approved, now, limit)
    {
      ghost var rows := Rows(storage.assets, ws);
      ghost var keep := IsCandidate(ws, policy, referenced + approved, now);
      var scanLimit := if limit > 100 then limit else 100;
      candidates := [];
      var after: Option<Asset> := None;
      ghost var n := 0;
      while |candidates| < limit
        invariant n <= |rows| && (n == 0 ==> after == None) && (n > 0 ==> after == Some(rows[n - 1]))
        invariant candidates == First(FilteredTo(rows, keep, n), limit)
        decreases |rows| - n
      {
        var page, more := ScanPage(ws, referenced, approved, now, limit, scanLimit, after, candidates, rows, n);
        candidates := candidates + more;
        n := n + |page|;
        if page == [] || |page| < scanLimit {
          return;
        }
        after := Some(page[|page| - 1]);
      }
      EnoughFound(rows, n, keep, candidates, limit);
    }

    /** Claim one candidate and finalize it. */
    method Retire(a: Asset, ws: int, x: Weather, k: nat, ghost p: Progress) returns (ends: Finalization)
      requires p.table == storage.View() && !p.raised
      modifies storage
      ensures RetireNext(p, a, ws, x, k)
              == Progress(storage.View(), p.deleted + if ends.Deleted? then 1 else 0, ends.Broken?)
    {
      storage.Interfere(x.others(2 * k, storage.View()));
      var token := storage.ClaimRetainedAsset(a.id, ws, x.token(k));
      if token.None? {
        return Refused;
      }
      storage.Interfere(x.others(2 * k + 1, storage.View()));
      ends := storage.FinalizeRetainedAsset(a.id, ws, token.value, x.deletes(k));
    }

    /** One sweep: scan, then claim and finalize each candidate.  Without a result, the delete of an object has raised. */
    method SweepWorkspace(ws: int, referenced: set<nat>, approved: set<nat>, resolved: bool, now: int, limit: int, x: Weather)
      returns (result: Option<SweepResult>)
      requires UniqueIds(storage.assets)
      modifies storage
      ensures var found := Wanted(old(storage.assets), ws, policy, referenced + approved, now, limit);
              if !policy.enabled then
                storage.View() == old(storage.View()) && result == Some(SweepResult(0, 0, policy.dryRun, false))
              else if policy.dryRun || !resolved then
                storage.View() == old(storage.View()) && result == Some(SweepResult(|found|, 0, true, true))
              else
                var p := RetiredTo(old(storage.View()), found, ws, x, |found|);
                storage.View() == p.table
                && result == if p.raised then None else Some(SweepResult(|found|, p.deleted, false, true))
    {
      if !policy.enabled {
        return Some(SweepResult(0, 0, policy.dryRun, false));
      }
      var candidates := ScanCandidates(ws, referenced, approved, now, limit);
      if policy.dryRun || !resolved {
        return Some(SweepResult(|candidates|, 0, true, true));
      }
      var deleted: nat := 0;
      ghost var t := storage.View();
      for k := 0 to |candidates|
        invariant RetiredTo(t, candidates, ws, x, k) == Progress(storage.View(), deleted, false)
      {
        var ends := Retire(candidates[k], ws, x, k, RetiredTo(t, candidates, ws, x, k));
        deleted := deleted + if ends.Deleted? then 1 else 0;
        if ends.Broken? {
          RaisedIsOver(t, candidates, ws, x, k + 1, |candidates|);
          return None;
        }
      }
      return Some(SweepResult(|candidates|, deleted, false, true));
    }
  }

  lemma {:induction false} RaisedIsOver(t: Table, found: seq<Asset>, ws: int, x: Weather, k: nat, n: nat)
    requires k <= n <= |found| && RetiredTo(t, found, ws, x, k).raised
    ensures RetiredTo(t, found, ws, x, n) == RetiredTo(t, found, ws, x, k)
  {
    if k < n {
      RaisedIsOver(t, found, ws, x, k, n - 1);
    }
  }

  /** The page behind a cursor is the next stretch of rows. */
  lemma PageIsNext(rows: seq<Asset>, n: nat, limit: nat, after: Option<Asset>)
    requires InOrder(rows) && n <= |rows| && limit > 0
    requires (n == 0 ==> after == None) && (n > 0 ==> after == Some(rows[n - 1]))
    ensures var page := Page(rows, limit, after);
            && n + |page| <= |rows| && page == rows[n..n + |page|] && |page| <= limit
            && (|page| < limit ==> n + |page| == |rows|)
  {
    if n > 0 {
      BehindTheCursor(rows, n - 1);
    }
  }

  lemma OneMorePage(rows: seq<Asset>, n: nat, m: nat, keep: Asset -> bool, candidates: seq<Asset>, limit: int)
    requires n <= m <= |rows| && candidates == First(FilteredTo(rows, keep, n), limit) && |candidates| < limit
    ensures candidates + First(Filtered(rows[n..m], keep), limit - |candidates|) == First(FilteredTo(rows, keep, m), limit)
  {
    FilteredStretch(rows, keep, n, m);
    FilteredToOf(rows[n..], rows[n..m], keep, m - n);
    FirstOfConcat(candidates, Filtered(rows[n..m], keep), limit);
  }

  lemma PageFound(rows: seq<Asset>, n: nat, scanLimit: nat, after: Option<Asset>, keep: Asset -> bool,
                  candidates: seq<Asset>, limit: int)
    requires InOrder(rows) && scanLimit > 0 && |candidates| < limit
    requires n <= |rows| && (n == 0 ==> after == None) && (n > 0 ==> after == Some(rows[n - 1]))
    requires candidates == First(FilteredTo(rows, keep, n), limit)
    ensures var page := Page(rows, scanLimit, after);
            && n + |page| <= |rows| && page == rows[n..n + |page|] && (|page| < scanLimit ==> n + |page| == |rows|)
            && candidates + First(Filtered(page, keep), limit - |candidates|)
               == First(FilteredTo(rows, keep, n + |page|), limit)
  {
    PageIsNext(rows, n, scanLimit, after);
    OneMorePage(rows, n, n + |Page(rows, scanLimit, after)|, keep, candidates, limit);
  }

  lemma EnoughFound(rows: seq<Asset>, n: nat, keep: Asset -> bool, candidates: seq<Asset>, limit: int)
    requires n <= |rows| && candidates == First(FilteredTo(rows, keep, n), limit) && |candidates| >= limit
    ensures candidates == First(Filtered(rows, keep), limit)
  {
    FilteredStretch(rows, keep, n, |rows|);
  }
}
