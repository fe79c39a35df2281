/** Segments and the checks that every timeline passes.  Times are seconds, as reals. */
module EditorTimeline {
  import opened Options

  datatype Segment = Segment(id: string, scene: string, asset: int, start: real, duration: real,
                             trimStart: Option<real>, trimEnd: Option<real>, fit: string, transition: Option<string>)

  datatype Timeline = Timeline(id: string, project: int, revision: nat, segments: seq<Segment>)

  const Slack: real := 0.000000001

  function End(s: Segment): real {
    s.start + s.duration
  }

  /** `trim_start or 0.0` */
  function From(s: Segment): real {
    if s.trimStart.Some? then s.trimStart.value else 0.0
  }

  predicate SegmentOk(s: Segment) {
    && 1 <= |s.id| <= 100 && 1 <= |s.scene| <= 100 && s.asset >= 1 && s.start >= 0.0 && s.duration > 0.0
    && (s.trimStart.Some? ==> s.trimStart.value >= 0.0) && (s.trimEnd.Some? ==> s.trimEnd.value >= 0.0)
    && (s.trimStart.Some? && s.trimEnd.Some? ==> s.trimStart.value <= s.trimEnd.value)
    && |s.fit| <= 50 && (s.transition.Some? ==> |s.transition.value| <= 50)
  }

  predicate UniqueIds(segs: seq<Segment>) {
    forall i, j :: 0 <= i < j < |segs| ==> segs[i].id != segs[j].id
  }

  // ---- Stable order by start ----

  predicate InOrder(segs: seq<Segment>) {
    forall i, j :: 0 <= i < j < |segs| ==> segs[i].start <= segs[j].start
  }

  function Insert(segs: seq<Segment>, s: Segment): seq<Segment> {
    var n := |segs| - 1;
    if segs == [] || segs[n].start <= s.start then segs + [s] else Insert(segs[..n], s) + [segs[n]]
  }

  /** `sorted` by start: segments that start together keep their order. */
  function ByStart(segs: seq<Segment>): seq<Segment> {
    if segs == [] then [] else Insert(ByStart(segs[..|segs| - 1]), segs[|segs| - 1])
  }

  lemma {:induction false} InsertStaysBelow(segs: seq<Segment>, s: Segment, top: real)
    requires s.start <= top && forall i :: 0 <= i < |segs| ==> segs[i].start <= top
    ensures forall i :: 0 <= i < |Insert(segs, s)| ==> Insert(segs, s)[i].start <= top
  {
    var n := |segs| - 1;
    if segs != [] && segs[n].start > s.start {
      InsertStaysBelow(segs[..n], s, top);
    }
  }

  lemma {:induction false} InsertKeepsOrder(segs: seq<Segment>, s: Segment)
    requires InOrder(segs)
    ensures InOrder(Insert(segs, s))
  {
    var n := |segs| - 1;
    if segs != [] && segs[n].start > s.start {
      InsertKeepsOrder(segs[..n], s);
      InsertStaysBelow(segs[..n], s, segs[n].start);
    }
  }

  lemma {:induction false} InsertAdds(segs: seq<Segment>, s: Segment)
    ensures multiset(Insert(segs, s)) == multiset(segs) + multiset{s}
  {
    var n := |segs| - 1;
    if segs != [] && segs[n].start > s.start {
      InsertAdds(segs[..n], s);
      assert segs == segs[..n] + [segs[n]];
    }
  }

  lemma {:induction false} ByStartSorts(segs: seq<Segment>)
    ensures InOrder(ByStart(segs)) && multiset(ByStart(segs)) == multiset(segs)
  {
    if segs != [] {
      var n := |segs| - 1;
      ByStartSorts(segs[..n]);
      InsertKeepsOrder(ByStart(segs[..n]), segs[n]);
      InsertAdds(ByStart(segs[..n]), segs[n]);
      assert segs == segs[..n] + [segs[n]];
    }
  }

  lemma {:induction false} InOrderIsByStart(segs: seq<Segment>)
    requires InOrder(segs)
    ensures ByStart(segs) == segs
  {
    if segs != [] {
      var n := |segs| - 1;
      InOrderIsByStart(segs[..n]);
      assert segs == segs[..n] + [segs[n]];
    }
  }

  // ---- Validation ----

  /** Each segment ends, within the slack, before the next one starts. */
  predicate NoOverlap(ordered: seq<Segment>) {
    forall i :: 0 < i < |ordered| ==> End(ordered[i - 1]) <= ordered[i].start + Slack
  }

  predicate Valid(segs: seq<Segment>) {
    && (forall i :: 0 <= i < |segs| ==> SegmentOk(segs[i]))
    && UniqueIds(segs) && NoOverlap(ByStart(segs))
  }

  lemma OrderedIsApart(ordered: seq<Segment>, p: nat, q: nat)
    requires InOrder(ordered) && NoOverlap(ordered) && p < q < |ordered|
    ensures End(ordered[p]) <= ordered[q].start + Slack
  {
    assert End(ordered[p + 1 - 1]) <= ordered[p + 1].start + Slack;
  }

  /** In a valid timeline, of any two segments one ends, within the slack, before the other starts. */
  lemma ValidIsApart(segs: seq<Segment>, i: nat, j: nat)
    requires Valid(segs) && i < |segs| && j < |segs| && i != j
    ensures End(segs[i]) <= segs[j].start + Slack || End(segs[j]) <= segs[i].start + Slack
  {
    var ordered := ByStart(segs);
    ByStartSorts(segs);
    assert segs[i] in multiset(ordered) && segs[j] in multiset(ordered);
    var p: nat :| p < |ordered| && ordered[p] == segs[i];
    var q: nat :| q < |ordered| && ordered[q] == segs[j];
    assert p != q;
    if p < q {
      OrderedIsApart(ordered, p, q);
    } else {
      OrderedIsApart(ordered, q, p);
    }
  }

  method CheckIds(segs: seq<Segment>) returns (ok: bool)
    ensures ok == UniqueIds(segs)
  {
    var seen: set<string> := {};
    for i := 0 to |segs|
      invariant UniqueIds(segs[..i])
      invariant forall id :: id in seen <==> exists k :: 0 <= k < i && segs[k].id == id
    {
      if segs[i].id in seen {
        return false;
      }
      seen := seen + {segs[i].id};
    }
    assert segs[..|segs|] == segs;
    return true;
  }

  method CheckOverlap(ordered: seq<Segment>) returns (ok: bool)
    requires forall i :: 0 <= i < |ordered| ==> ordered[i].start >= 0.0
    ensures ok == NoOverlap(ordered)
  {
    var prevEnd := 0.0;
    for i := 0 to |ordered|
      invariant prevEnd == if i == 0 then 0.0 else End(ordered[i - 1])
      invariant forall k :: 0 < k < i ==> End(ordered[k - 1]) <= ordered[k].start + Slack
    {
      if ordered[i].start + Slack < prevEnd {
        return false;
      }
      prevEnd := End(ordered[i]);
    }
    return true;
  }

  /** The validator: the ids first, then the segments in order of their start. */
  method CheckSegments(segs: seq<Segment>) returns (ok: bool)
    requires forall i :: 0 <= i < |segs| ==> SegmentOk(segs[i])
    ensures ok == Valid(segs)
  {
    ok := CheckIds(segs);
    if ok {
      var ordered := ByStart(segs);
      ByStartSorts(segs);
      forall i | 0 <= i < |ordered|
        ensures ordered[i].start >= 0.0
      {
        assert ordered[i] in multiset(ordered);
      }
      ok := CheckOverlap(ordered);
    }
  }
}
