/** What the in-memory sweep retires when no other process comes between its calls. */
module RetentionSweep {
  import opened RetentionPaging

  /** No other process comes between the calls of the sweep. */
  ghost predicate Calm(x: Weather) {
    forall k, t :: x.others(k, t) == t
  }

  predicate Listed(found: seq<Asset>, table: seq<Asset>, ws: int) {
    UniqueIds(found) && forall k :: 0 <= k < |found| ==> found[k] in table && found[k].workspace == ws
  }

  lemma WantedIsListed(table: seq<Asset>, ws: int, p: Policy, protectedIds: set<nat>, now: int, limit: int)
    requires UniqueIds(table)
    ensures var found := Wanted(table, ws, p, protectedIds, now, limit);
            Listed(found, table, ws) && forall a :: a in found ==> Candidate(a, ws, p, protectedIds, now)
  {
    var rows, keep := Rows(table, ws), IsCandidate(ws, p, protectedIds, now);
    var found := Wanted(table, ws, p, protectedIds, now, limit);
    RowsInOrder(table, ws);
    FilteredInOrder(rows, keep, |rows|);
    forall a | a in found
      ensures a in table && Candidate(a, ws, p, protectedIds, now)
    {
      FilteredMembers(rows, keep, |rows|, a);
      assert rows[..|rows|] == rows;
      RowsMembers(table, ws, a);
    }
    forall i, j | 0 <= i < j < |found|
      ensures found[i].id != found[j].id
    {
      assert Before(found[i], found[j]) && found[i] in table && found[j] in table;
    }
  }

  /** The scan finds the oldest candidates: one that it leaves out comes after as many as were asked for. */
  lemma WantedIsFirst(table: seq<Asset>, ws: int, p: Policy, protectedIds: set<nat>, now: int, limit: int, a: Asset)
    requires UniqueIds(table) && a in table && Candidate(a, ws, p, protectedIds, now)
    ensures var found := Wanted(table, ws, p, protectedIds, now, limit);
            && InOrder(found) && |found| <= (if limit > 0 then limit else 0)
            && (a !in found ==> |found| == (if limit > 0 then limit else 0) && forall b :: b in found ==> Before(b, a))
  {
    var rows, keep := Rows(table, ws), IsCandidate(ws, p, protectedIds, now);
    RowsInOrder(table, ws);
    FilteredInOrder(rows, keep, |rows|);
    FilteredMembers(rows, keep, |rows|, a);
    RowsMembers(table, ws, a);
    assert rows[..|rows|] == rows;
    var all := Filtered(rows, keep);
    var i :| 0 <= i < |all| && all[i] == a;
  }

  /** One of the first `n` candidates that no one else was deleting already. */
  predicate Retires(t: Table, found: seq<Asset>, n: nat, a: Asset)
    requires n <= |found|
  {
    a in found[..n] && a.id !in t.deleting
  }

  function RetiredOf(t: Table, found: seq<Asset>, n: nat): set<nat>
    requires n <= |found|
  {
    set k | 0 <= k < n && found[k].id !in t.deleting
  }

  /** Before the first object that cannot be deleted. */
  predicate Deletable(t: Table, found: seq<Asset>, x: Weather, n: nat)
    requires n <= |found|
  {
    forall k :: 0 <= k < n && found[k].id !in t.deleting ==> x.deletes(k)
  }

  lemma RetireStep(p: Progress, a: Asset, ws: int, x: Weather, k: nat)
    requires Calm(x) && !p.raised && a in p.table.assets && a.workspace == ws && (a.id !in p.table.deleting ==> x.deletes(k))
    ensures RetireNext(p, a, ws, x, k)
            == if a.id in p.table.deleting then p
               else Progress(Table(Filtered(p.table.assets, Except(a.id, ws)), p.table.deleting), p.deleted + 1, false)
  {
    var i :| 0 <= i < |p.table.assets| && p.table.assets[i] == a;
    var t := x.others(2 * k, p.table);
    assert t == p.table;
    if a.id !in t.deleting {
      assert Claimable(t, a.id, ws);
      var u := Claimed(t, a.id, ws, x.token(k));
      assert u.deleting - {a.id} == t.deleting;
    }
  }

  /** The first `n` candidates that no one was deleting already are retired, and all others stay. */
  ghost predicate Swept(t: Table, found: seq<Asset>, n: nat, p: Progress)
    requires n <= |found|
  {
    && !p.raised && p.table.deleting == t.deleting && p.deleted == |RetiredOf(t, found, n)|
    && forall a :: a in p.table.assets <==> a in t.assets && !Retires(t, found, n, a)
  }

  lemma RetiredMore(t: Table, found: seq<Asset>, n: nat, a: Asset)
    requires UniqueIds(found) && n < |found|
    ensures Retires(t, found, n + 1, a) <==> Retires(t, found, n, a) || (a == found[n] && a.id !in t.deleting)
    ensures !Retires(t, found, n, found[n])
    ensures |RetiredOf(t, found, n + 1)| == |RetiredOf(t, found, n)| + if found[n].id in t.deleting then 0 else 1
  {
    assert found[..n + 1] == found[..n] + [found[n]];
    assert RetiredOf(t, found, n + 1) == RetiredOf(t, found, n) + if found[n].id in t.deleting then {} else {n};
  }

  lemma SweptMore(t: Table, found: seq<Asset>, ws: int, x: Weather, n: nat, p: Progress, q: Progress)
    requires UniqueIds(t.assets) && Listed(found, t.assets, ws) && n < |found| && Calm(x)
    requires Deletable(t, found, x, n + 1) && Swept(t, found, n, p) && q == RetireNext(p, found[n], ws, x, n)
    ensures Swept(t, found, n + 1, q)
  {
    RetiredMore(t, found, n, found[n]);
    RetireStep(p, found[n], ws, x, n);
    forall a: Asset
      ensures a in q.table.assets <==> a in t.assets && !Retires(t, found, n + 1, a)
    {
      RetiredMore(t, found, n, a);
      OneRowLess(t, p.table.assets, found[n], ws, a);
    }
  }

  /** Undisturbed, and until an object cannot be deleted, the sweep retires exactly those candidates. */
  lemma UndisturbedSweep(t: Table, found: seq<Asset>, ws: int, x: Weather, n: nat)
    requires UniqueIds(t.assets) && Listed(found, t.assets, ws) && n <= |found| && Calm(x) && Deletable(t, found, x, n)
    ensures Swept(t, found, n, RetiredTo(t, found, ws, x, n))
  {
    for k := 0 to n
      invariant Swept(t, found, k, RetiredTo(t, found, ws, x, k))
    {
      SweptMore(t, found, ws, x, k, RetiredTo(t, found, ws, x, k), RetiredTo(t, found, ws, x, k + 1));
    }
  }

  /** Removing the row of an id removes one asset, as ids are unique. */
  lemma OneRowLess(t: Table, rows: seq<Asset>, last: Asset, ws: int, a: Asset)
    requires UniqueIds(t.assets) && last in t.assets && last.workspace == ws && forall b :: b in rows ==> b in t.assets
    ensures a in Filtered(rows, Except(last.id, ws)) <==> a in rows && a != last
  {
    FilteredMembers(rows, Except(last.id, ws), |rows|, a);
    assert rows[..|rows|] == rows;
    if a in rows && a.id == last.id {
      var i :| 0 <= i < |t.assets| && t.assets[i] == a;
      var j :| 0 <= j < |t.assets| && t.assets[j] == last;
    }
  }

  /**
   The first object that cannot be deleted ends the sweep, and its asset stays
   claimed.
   */
  lemma FailedDeleteKeepsTheClaim(t: Table, found: seq<Asset>, ws: int, x: Weather, k: nat)
    requires UniqueIds(t.assets) && Listed(found, t.assets, ws) && k < |found| && Calm(x) && Deletable(t, found, x, k)
    requires found[k].id !in t.deleting && !x.deletes(k)
    ensures var p, q := RetiredTo(t, found, ws, x, k), RetiredTo(t, found, ws, x, |found|);
            && Swept(t, found, k, p) && q.raised && q.table == p.table.(deleting := t.deleting[found[k].id := x.token(k)])
            && StandsUnder(q.table, found[k], x.token(k))
  {
    UndisturbedSweep(t, found, ws, x, k);
    var p := RetiredTo(t, found, ws, x, k);
    RetiredMore(t, found, k, found[k]);
    BrokenStep(p, found[k], ws, x, k);
    RaisedIsOver(t, found, ws, x, k + 1, |found|);
  }

  lemma BrokenStep(p: Progress, a: Asset, ws: int, x: Weather, k: nat)
    requires Calm(x) && !p.raised && a in p.table.assets && a.workspace == ws && a.id !in p.table.deleting && !x.deletes(k)
    ensures RetireNext(p, a, ws, x, k)
            == Progress(p.table.(deleting := p.table.deleting[a.id := x.token(k)]), p.deleted, true)
  {
    var i :| 0 <= i < |p.table.assets| && p.table.assets[i] == a;
    assert x.others(2 * k, p.table) == p.table;
    assert Claimable(p.table, a.id, ws);
  }

  // ---- Claims of another token ----

  /** The asset is there, under the claim of some token. */
  predicate StandsUnder(t: Table, a: Asset, token: nat) {
    a in t.assets && HeldBy(t, a.id, token)
  }

  /** Others neither end the claim nor remove the asset; only the holder of the token does that. */
  ghost predicate Respects(others: Others, a: Asset, token: nat) {
    forall k, t :: StandsUnder(t, a, token) ==> StandsUnder(others(k, t), a, token)
  }

  lemma RetireSparesForeign(p: Progress, b: Asset, ws: int, x: Weather, k: nat, a: Asset, token: nat)
    requires StandsUnder(p.table, a, token) && Respects(x.others, a, token)
    ensures StandsUnder(RetireNext(p, b, ws, x, k).table, a, token)
  {
    if !p.raised {
      var t := x.others(2 * k, p.table);
      assert StandsUnder(t, a, token);
      if Claimable(t, b.id, ws) {
        var u := x.others(2 * k + 1, Claimed(t, b.id, ws, x.token(k)));
        assert StandsUnder(u, a, token);
        FilteredMembers(u.assets, Except(b.id, ws), |u.assets|, a);
        assert u.assets[..|u.assets|] == u.assets;
      }
    }
  }

  /** A sweep neither claims nor removes an asset that another token holds. */
  lemma {:induction false} ForeignClaimStands(t: Table, found: seq<Asset>, ws: int, x: Weather, n: nat, a: Asset, token: nat)
    requires n <= |found| && StandsUnder(t, a, token) && Respects(x.others, a, token)
    ensures StandsUnder(RetiredTo(t, found, ws, x, n).table, a, token)
  {
    if n > 0 {
      ForeignClaimStands(t, found, ws, x, n - 1, a, token);
      RetireSparesForeign(RetiredTo(t, found, ws, x, n - 1), found[n - 1], ws, x, n - 1, a, token);
    }
  }

  /** A sweep of some workspace over the candidates that its scan found. */
  datatype Sweep = Sweep(ws: int, found: seq<Asset>, weather: Weather)

  /** The table after the first `n` sweeps. */
  function SweptBy(t: Table, sweeps: seq<Sweep>, n: nat): Table
    requires n <= |sweeps|
  {
    if n == 0 then t
    else
      var s := sweeps[n - 1];
      RetiredTo(SweptBy(t, sweeps, n - 1), s.found, s.ws, s.weather, |s.found|).table
  }

  /** However many sweeps follow, whatever they find, the claim and its asset stay. */
  lemma {:induction false} ClaimedForGood(t: Table, sweeps: seq<Sweep>, n: nat, a: Asset, token: nat)
    requires n <= |sweeps| && StandsUnder(t, a, token)
    requires forall s :: s in sweeps ==> Respects(s.weather.others, a, token)
    ensures StandsUnder(SweptBy(t, sweeps, n), a, token)
  {
    if n > 0 {
      var s := sweeps[n - 1];
      ClaimedForGood(t, sweeps, n - 1, a, token);
      ForeignClaimStands(SweptBy(t, sweeps, n - 1), s.found, s.ws, s.weather, |s.found|, a, token);
    }
  }

  // ---- Kinds that are kept ----

  /** The asset is there, and no one is deleting it. */
  predicate Stays(t: Table, a: Asset) {
    a in t.assets && a.id !in t.deleting
  }

  lemma RetireSparesOther(p: Progress, b: Asset, ws: int, x: Weather, k: nat, a: Asset)
    requires Stays(p.table, a) && b.id != a.id && forall j, t :: Stays(t, a) ==> Stays(x.others(j, t), a)
    ensures Stays(RetireNext(p, b, ws, x, k).table, a)
  {
    if !p.raised {
      var t := x.others(2 * k, p.table);
      assert Stays(t, a);
      if Claimable(t, b.id, ws) {
        var u := x.others(2 * k + 1, Claimed(t, b.id, ws, x.token(k)));
        assert Stays(u, a);
        FilteredMembers(u.assets, Except(b.id, ws), |u.assets|, a);
        assert u.assets[..|u.assets|] == u.assets;
      }
    }
  }

  lemma {:induction false} UnlistedStays(t: Table, found: seq<Asset>, ws: int, x: Weather, n: nat, a: Asset)
    requires n <= |found| && Stays(t, a) && forall j, u :: Stays(u, a) ==> Stays(x.others(j, u), a)
    requires forall k :: 0 <= k < |found| ==> found[k].id != a.id
    ensures Stays(RetiredTo(t, found, ws, x, n).table, a)
  {
    if n > 0 {
      UnlistedStays(t, found, ws, x, n - 1, a);
      RetireSparesOther(RetiredTo(t, found, ws, x, n - 1), found[n - 1], ws, x, n - 1, a);
    }
  }

  /**
   A sweep neither claims nor deletes an asset whose kind is kept for ever, or
   whose period has not passed yet, or that is protected, whatever others do that
   leave it alone.
   */
  lemma KeptAssetStays(t: Table, ws: int, p: Policy, protectedIds: set<nat>, now: int, limit: int, x: Weather, a: Asset)
    requires UniqueIds(t.assets) && Stays(t, a) && forall j, u :: Stays(u, a) ==> Stays(x.others(j, u), a)
    requires var days := if a.origin != "GENERATED" then p.originalDays
                         else if a.mediaType == "VIDEO" then p.finalVideoDays else p.intermediateDays;
             a.id in protectedIds || days <= 0 || now < a.created + (days + p.graceDays) * 86400
    ensures var found := Wanted(t.assets, ws, p, protectedIds, now, limit);
            Stays(RetiredTo(t, found, ws, x, |found|).table, a)
  {
    var found := Wanted(t.assets, ws, p, protectedIds, now, limit);
    WantedIsListed(t.assets, ws, p, protectedIds, now, limit);
    CandidateIff(a, ws, p, protectedIds, now);
    forall k | 0 <= k < |found|
      ensures found[k].id != a.id
    {
      assert found[k] in found;
      var i :| 0 <= i < |t.assets| && t.assets[i] == a;
      var j :| 0 <= j < |t.assets| && t.assets[j] == found[k];
    }
    UnlistedStays(t, found, ws, x, |found|, a);
  }
}
