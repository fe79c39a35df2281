/** What the commands do to the source of each segment: its bounds, and the frame shown at each moment. */
module EditorSources {
  import opened Options
  import opened EditorTimeline
  import opened EditorCommands

  // ---- Source bounds ----

  /** The segment ends within its source, up to one tolerance. */
  predicate Bounded(s: Segment, lookup: Lookup) {
    var asset := lookup(s.asset);
    asset.Some? && !Unbounded(asset.value) ==> From(s) + s.duration <= asset.value.duration + Tolerance
  }

  predicate AllBounded(segs: seq<Segment>, lookup: Lookup) {
    forall i :: 0 <= i < |segs| ==> Bounded(segs[i], lookup)
  }

  /** Refitting shortens a segment to its new source: with no tolerance at all. */
  lemma RefittedIsBounded(s: Segment, asset: int, source: real)
    ensures var r := Refitted(s, asset, source);
            r.asset == asset && From(r) + r.duration <= source
  {
  }

  lemma HalvesAreBounded(s: Segment, at: real, lookup: Lookup)
    requires Bounded(s, lookup) && StrictlyInside(s, at)
    ensures Bounded(LeftOf(s, at), lookup) && Bounded(RightOf(s, at), lookup)
  {
  }

  /** Every command keeps every segment within its source; the tolerance never adds up. */
  lemma CommandKeepsBounds(segs: seq<Segment>, c: Command, project: int, lookup: Lookup)
    requires AllBounded(segs, lookup) && Applied(segs, c, project, lookup).Some?
    ensures AllBounded(Applied(segs, c, project, lookup).value, lookup)
  {
    var i := Find(segs, c.segment).value;
    match c
    case Trim(_, _, _) =>
    case Split(_, at) => SplitKeepsBounds(segs, i, at, lookup);
    case Delete(_, _) =>
    case Replace(_, asset) =>
      if !Unbounded(lookup(asset).value) {
        RefittedIsBounded(segs[i], asset, lookup(asset).value.duration);
      }
    case Move(_, to) => MoveKeepsBounds(segs, i, to, lookup);
    case Resize(_, duration) => ResizeKeepsBounds(segs, i, duration, lookup);
    case SetTransition(_, _, _) =>
  }

  lemma SplitKeepsBounds(segs: seq<Segment>, i: nat, at: real, lookup: Lookup)
    requires AllBounded(segs, lookup) && i < |segs| && StrictlyInside(segs[i], at)
    ensures AllBounded(SplitAt(segs, i, at), lookup)
  {
    HalvesAreBounded(segs[i], at, lookup);
    var after := SplitAt(segs, i, at);
    forall k | 0 <= k < |after|
      ensures Bounded(after[k], lookup)
    {
      assert after[k] == if k < i then segs[k] else if k == i then LeftOf(segs[i], at)
                         else if k == i + 1 then RightOf(segs[i], at) else segs[k - 1];
    }
  }

  lemma {:induction false} ResequenceKeepsBounds(segs: seq<Segment>, cursor: real, lookup: Lookup)
    requires AllBounded(segs, lookup)
    ensures AllBounded(Resequenced(segs, cursor), lookup)
  {
    if segs != [] {
      assert Bounded(segs[0], lookup);
      ResequenceKeepsBounds(segs[1..], cursor + segs[0].duration, lookup);
    }
  }

  lemma MoveKeepsBounds(segs: seq<Segment>, i: nat, to: nat, lookup: Lookup)
    requires AllBounded(segs, lookup) && i < |segs| && to < |segs|
    ensures AllBounded(Moved(segs, i, to).value, lookup)
  {
    ResequenceKeepsBounds(InsertedAt(Removed(segs, i), to, segs[i]), 0.0, lookup);
  }

  lemma ResizeKeepsBounds(segs: seq<Segment>, i: nat, duration: real, lookup: Lookup)
    requires AllBounded(segs, lookup) && i < |segs| && Resized(segs, i, duration, lookup).Some?
    ensures AllBounded(Resized(segs, i, duration, lookup).value, lookup)
  {
    var after := Resized(segs, i, duration, lookup).value;
    forall k | 0 <= k < |after|
      ensures Bounded(after[k], lookup)
    {
      if k != i {
        assert Bounded(segs[k], lookup) && after[k] == segs[k].(start := after[k].start);
      }
    }
  }

  // ---- The frame shown at each moment ----

  datatype Frame = Frame(asset: int, offset: real)

  predicate Covers(s: Segment, at: real) {
    s.start <= at < End(s)
  }

  /** What the segment shows of its source at a moment it covers. */
  function FrameOf(s: Segment, at: real): Frame {
    Frame(s.asset, From(s) + (at - s.start))
  }

  /** The frame that the timeline shows at a moment, if a segment covers it. */
  function Shown(segs: seq<Segment>, at: real): Option<Frame> {
    if segs == [] then None
    else if Covers(segs[0], at) then Some(FrameOf(segs[0], at))
    else Shown(segs[1..], at)
  }

  lemma {:induction false} ShownConcat(a: seq<Segment>, b: seq<Segment>, at: real)
    ensures Shown(a + b, at) == if Shown(a, at).Some? then Shown(a, at) else Shown(b, at)
  {
    if a == [] {
      assert a + b == b;
    } else {
      assert (a + b)[1..] == a[1..] + b;
      ShownConcat(a[1..], b, at);
    }
  }

  lemma ShownOfHalves(s: Segment, at: real, moment: real)
    requires StrictlyInside(s, at)
    ensures Shown([LeftOf(s, at), RightOf(s, at)], moment)
            == if !Covers(s, moment) then None
               else if moment < at || s.trimStart.Some? then Some(FrameOf(s, moment))
               else Some(Frame(s.asset, moment - at))
  {
    var l, r := LeftOf(s, at), RightOf(s, at);
    assert [l, r][1..] == [r] && [r][1..] == [];
    assert Shown([r], moment) == if Covers(r, moment) then Some(FrameOf(r, moment)) else None;
    assert End(l) == at && End(r) == End(s);
  }

  lemma ShownAround(segs: seq<Segment>, i: nat, at: real, moment: real)
    requires i < |segs| && StrictlyInside(segs[i], at)
    ensures Shown(segs, moment) == if Shown(segs[..i], moment).Some? then Shown(segs[..i], moment)
                                   else if Covers(segs[i], moment) then Some(FrameOf(segs[i], moment))
                                   else Shown(segs[i + 1..], moment)
    ensures var halves := Shown([LeftOf(segs[i], at), RightOf(segs[i], at)], moment);
            Shown(SplitAt(segs, i, at), moment) == if Shown(segs[..i], moment).Some? then Shown(segs[..i], moment)
                                                   else if halves.Some? then halves else Shown(segs[i + 1..], moment)
  {
    assert segs == segs[..i] + segs[i..] && segs[i..][0] == segs[i] && segs[i..][1..] == segs[i + 1..];
    ShownConcat(segs[..i], segs[i..], moment);
    ShownConcat(segs[..i] + [LeftOf(segs[i], at), RightOf(segs[i], at)], segs[i + 1..], moment);
    ShownConcat(segs[..i], [LeftOf(segs[i], at), RightOf(segs[i], at)], moment);
  }

  lemma {:induction false} NotShownBefore(segs: seq<Segment>, i: nat, at: real)
    requires i <= |segs| && forall k :: 0 <= k < i ==> !Covers(segs[k], at)
    ensures Shown(segs[..i], at).None?
  {
    if i > 0 {
      NotShownBefore(segs, i - 1, at);
      ShownConcat(segs[..i - 1], [segs[i - 1]], at);
      assert segs[..i] == segs[..i - 1] + [segs[i - 1]] && [segs[i - 1]][1..] == [];
    }
  }

  lemma NoOtherCovers(segs: seq<Segment>, i: nat, at: real)
    requires Valid(segs) && i < |segs| && StrictlyInside(segs[i], at)
    ensures Shown(segs[..i], at).None?
  {
    forall k | 0 <= k < i
      ensures !Covers(segs[k], at)
    {
      ValidIsApart(segs, k, i);
    }
    NotShownBefore(segs, i, at);
  }

  lemma SplitKeepsFrame(segs: seq<Segment>, i: nat, at: real, moment: real)
    requires i < |segs| && StrictlyInside(segs[i], at) && segs[i].trimStart.Some?
    ensures Shown(SplitAt(segs, i, at), moment) == Shown(segs, moment)
  {
    ShownAround(segs, i, at, moment);
    ShownOfHalves(segs[i], at, moment);
  }

  lemma SplitStartsOver(segs: seq<Segment>, i: nat, at: real)
    requires Valid(segs) && i < |segs| && StrictlyInside(segs[i], at) && segs[i].trimStart.None?
    ensures Shown(SplitAt(segs, i, at), at) == Some(Frame(segs[i].asset, 0.0))
    ensures Shown(segs, at) == Some(Frame(segs[i].asset, at - segs[i].start))
  {
    NoOtherCovers(segs, i, at);
    ShownAround(segs, i, at, at);
    ShownOfHalves(segs[i], at, at);
  }

  /**
   A split leaves the frame of every moment as it was exactly when the segment
   has an explicit trim start.  Without one, the right half starts over.
   */
  lemma SplitKeepsEveryFrameIff(segs: seq<Segment>, i: nat, at: real)
    requires Valid(segs) && i < |segs| && StrictlyInside(segs[i], at)
    ensures (forall moment :: Shown(SplitAt(segs, i, at), moment) == Shown(segs, moment)) <==> segs[i].trimStart.Some?
  {
    if segs[i].trimStart.Some? {
      forall moment
        ensures Shown(SplitAt(segs, i, at), moment) == Shown(segs, moment)
      {
        SplitKeepsFrame(segs, i, at, moment);
      }
    } else {
      SplitStartsOver(segs, i, at);
      assert Shown(SplitAt(segs, i, at), at) != Shown(segs, at);
    }
  }
}
