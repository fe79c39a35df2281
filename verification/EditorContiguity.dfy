/**
 Split, ripple-delete, move and resize keep a timeline contiguous: laid end to
 end from zero, in time order, with the total duration that the command says.
 */
module EditorContiguity {
  import opened Options
  import opened EditorTimeline
  import opened EditorCommands

  /** The segments lie end to end from `cursor`. */
  predicate Placed(segs: seq<Segment>, cursor: real) {
    && (segs != [] ==> segs[0].start == cursor)
    && forall i, j :: 0 <= i < |segs| && 0 <= j < |segs| && j == i + 1 ==> segs[j].start == End(segs[i])
  }

  /** Where the last segment ends: the total duration of a contiguous timeline. */
  function Length(segs: seq<Segment>): real {
    if segs == [] then 0.0 else End(segs[|segs| - 1])
  }

  predicate AllOk(segs: seq<Segment>) {
    forall i :: 0 <= i < |segs| ==> SegmentOk(segs[i])
  }

  /** No id is a prefix of another, so the ids that splitting derives are new. */
  predicate PrefixFree(segs: seq<Segment>) {
    forall i, j :: 0 <= i < |segs| && 0 <= j < |segs| && i != j ==> !(segs[i].id <= segs[j].id)
  }

  predicate Tidy(segs: seq<Segment>) {
    Placed(segs, 0.0) && AllOk(segs) && PrefixFree(segs)
  }

  // ---- Laws of placing ----

  lemma {:induction false} ResequencedIsPlaced(segs: seq<Segment>, cursor: real)
    ensures var r := Resequenced(segs, cursor);
            && Placed(r, cursor)
            && forall i :: 0 <= i < |segs| ==> r[i] == segs[i].(start := r[i].start)
  {
    if segs != [] {
      var rest := Resequenced(segs[1..], cursor + segs[0].duration);
      ResequencedIsPlaced(segs[1..], cursor + segs[0].duration);
      Prepended(segs[0].(start := cursor), rest);
    }
  }

  lemma Prepended(s: Segment, rest: seq<Segment>)
    requires Placed(rest, End(s))
    ensures Placed([s] + rest, s.start)
  {
    var r := [s] + rest;
    forall j | 0 < j < |r|
      ensures r[j].start == End(r[j - 1])
    {
      assert r[j] == rest[j - 1] && r[j - 1] == if j == 1 then s else rest[j - 2];
    }
  }

  /** Placing what is placed changes nothing. */
  lemma {:induction false} PlacedIsResequenced(segs: seq<Segment>, cursor: real)
    requires Placed(segs, cursor)
    ensures Resequenced(segs, cursor) == segs
  {
    if segs != [] {
      PlacedIsResequenced(segs[1..], End(segs[0]));
    }
  }

  /** Among placed segments the starts go up, by at least the durations in between. */
  lemma {:induction false} PlacedStarts(segs: seq<Segment>, cursor: real, i: nat, j: nat)
    requires Placed(segs, cursor) && i < j < |segs|
    requires forall k :: 0 <= k < |segs| ==> segs[k].duration > 0.0
    ensures End(segs[i]) <= segs[j].start && segs[i].start < segs[j].start
  {
    if i + 1 < j {
      PlacedStarts(segs, cursor, i, j - 1);
    }
  }

  /** No segment ends later than the last. */
  lemma LengthIsLatestEnd(segs: seq<Segment>, k: nat)
    requires Tidy(segs) && k < |segs|
    ensures End(segs[k]) <= Length(segs)
  {
    if k < |segs| - 1 {
      PlacedStarts(segs, 0.0, k, |segs| - 1);
    }
  }

  lemma StartsFromZero(segs: seq<Segment>)
    requires Placed(segs, 0.0) && forall k :: 0 <= k < |segs| ==> segs[k].duration > 0.0
    ensures forall k :: 0 <= k < |segs| ==> segs[k].start >= 0.0
  {
    forall k | 0 < k < |segs|
      ensures segs[k].start >= 0.0
    {
      PlacedStarts(segs, 0.0, 0, k);
    }
  }

  /** A contiguous timeline is a valid one, in time order. */
  lemma TidyIsValid(segs: seq<Segment>)
    requires Tidy(segs)
    ensures Valid(segs) && InOrder(segs)
  {
    forall i, j | 0 <= i < j < |segs|
      ensures segs[i].start <= segs[j].start
    {
      PlacedStarts(segs, 0.0, i, j);
    }
    InOrderIsByStart(segs);
  }

  lemma AppliedOutcome(t: Timeline, c: Command, lookup: Lookup, segs: seq<Segment>)
    requires Applied(t.segments, c, t.project, lookup) == Some(segs)
    ensures Tidy(segs) ==> ApplyCommand(t, c, t.revision, lookup) == Edited(t.(segments := segs))
    ensures !AllOk(segs) ==> ApplyCommand(t, c, t.revision, lookup) == Invalid
  {
    if Tidy(segs) {
      TidyIsValid(segs);
    }
  }

  // ---- Split ----

  /** When a split is accepted: inside, with room for the ids and for the trims. */
  predicate Splittable(s: Segment, at: real) {
    && StrictlyInside(s, at) && |s.id| <= 98
    && (s.trimStart.Some? && s.trimEnd.Some? ==> s.trimStart.value + (at - s.start) <= s.trimEnd.value)
  }

  lemma PrefixOfDerived(x: string, y: string, suffix: string)
    requires !(x <= y) && !(y <= x)
    ensures !(x + suffix <= y) && !(y <= x + suffix)
  {
    assert (x + suffix)[..|x|] == x;
    if |y| <= |x| {
      assert (x + suffix)[..|y|] == x[..|y|];
    }
  }

  lemma SplitIds(segs: seq<Segment>, i: nat, at: real)
    requires i < |segs| && PrefixFree(segs)
    ensures PrefixFree(SplitAt(segs, i, at))
  {
    var after, x := SplitAt(segs, i, at), segs[i].id;
    assert (x + ":a")[|x| + 1] != (x + ":b")[|x| + 1];
    forall k | 0 <= k < |segs| && k != i
      ensures !(x + ":a" <= segs[k].id) && !(segs[k].id <= x + ":a")
      ensures !(x + ":b" <= segs[k].id) && !(segs[k].id <= x + ":b")
    {
      PrefixOfDerived(x, segs[k].id, ":a");
      PrefixOfDerived(x, segs[k].id, ":b");
    }
    assert forall k :: 0 <= k < i ==> after[k] == segs[k];
    assert forall k :: i + 1 < k < |after| ==> after[k] == segs[k - 1];
  }

  lemma SplitIsPlaced(segs: seq<Segment>, i: nat, at: real)
    requires Placed(segs, 0.0) && i < |segs|
    ensures Placed(SplitAt(segs, i, at), 0.0) && Length(SplitAt(segs, i, at)) == Length(segs)
  {
    var after, l, r := SplitAt(segs, i, at), LeftOf(segs[i], at), RightOf(segs[i], at);
    assert l.start == segs[i].start && End(l) == r.start && End(r) == End(segs[i]);
    forall k | 0 <= k < |after|
      ensures after[k] == if k < i then segs[k] else if k == i then l else if k == i + 1 then r else segs[k - 1]
    {
    }
  }

  lemma SplitIsOk(segs: seq<Segment>, i: nat, at: real)
    requires AllOk(segs) && i < |segs| && StrictlyInside(segs[i], at)
    ensures AllOk(SplitAt(segs, i, at)) <==> Splittable(segs[i], at)
  {
    var after, s := SplitAt(segs, i, at), segs[i];
    assert after[i] == LeftOf(s, at) && after[i + 1] == RightOf(s, at);
    assert SegmentOk(LeftOf(s, at)) && SegmentOk(RightOf(s, at)) <==> Splittable(s, at);
  }

  /** A split is accepted exactly when it is inside and its ids and trims fit, and then it keeps the total. */
  lemma SplitKeepsTidy(t: Timeline, id: string, at: real, lookup: Lookup)
    requires Tidy(t.segments)
    ensures var i, after := Find(t.segments, id), ApplyCommand(t, Split(id, at), t.revision, lookup);
            if i.Some? && Splittable(t.segments[i.value], at) then
              && after == Edited(t.(segments := SplitAt(t.segments, i.value, at)))
              && Tidy(after.timeline.segments) && Length(after.timeline.segments) == Length(t.segments)
            else after == Invalid
  {
    var i := Find(t.segments, id);
    if i.Some? && StrictlyInside(t.segments[i.value], at) {
      var after := SplitAt(t.segments, i.value, at);
      SplitIsPlaced(t.segments, i.value, at);
      SplitIds(t.segments, i.value, at);
      SplitIsOk(t.segments, i.value, at);
      AppliedOutcome(t, Split(id, at), lookup, after);
    }
  }

  // ---- Ripple delete ----

  /** The segments without segment `i`, those behind it moved up. */
  function Closed(segs: seq<Segment>, i: nat): seq<Segment>
    requires i < |segs|
  {
    segs[..i] + Shifted(segs[i + 1..], -segs[i].duration)
  }

  lemma PulledBackIsClosed(segs: seq<Segment>, i: nat)
    requires Placed(segs, 0.0) && AllOk(segs) && i < |segs|
    ensures PulledBack(Removed(segs, i), segs[i].start, segs[i].duration) == Closed(segs, i)
  {
    forall k | 0 <= k < |segs| && k != i
      ensures k < i <==> segs[k].start < segs[i].start
    {
      PlacedStarts(segs, 0.0, if k < i then k else i, if k < i then i else k);
    }
  }

  lemma ClosedIsPlaced(segs: seq<Segment>, i: nat)
    requires Placed(segs, 0.0) && i < |segs|
    ensures Placed(Closed(segs, i), 0.0) && Length(Closed(segs, i)) == Length(segs) - segs[i].duration
    ensures forall k :: 0 <= k < |segs| - 1 ==>
              Closed(segs, i)[k] == segs[if k < i then k else k + 1].(start := Closed(segs, i)[k].start)
  {
    var after := Closed(segs, i);
    forall k | 0 <= k < |after|
      ensures after[k] == if k < i then segs[k] else segs[k + 1].(start := segs[k + 1].start - segs[i].duration)
    {
    }
  }

  lemma ClosedIsTidy(segs: seq<Segment>, i: nat)
    requires Tidy(segs) && i < |segs|
    ensures Tidy(Closed(segs, i))
  {
    ClosedIsPlaced(segs, i);
    StartsFromZero(Closed(segs, i));
  }

  /** A ripple delete of a segment that is there is always accepted, and takes away its duration. */
  lemma DeleteKeepsTidy(t: Timeline, id: string, lookup: Lookup)
    requires Tidy(t.segments)
    ensures var i, after := Find(t.segments, id), ApplyCommand(t, Delete(id, true), t.revision, lookup);
            if i.Some? then
              && after == Edited(t.(segments := Closed(t.segments, i.value))) && Tidy(after.timeline.segments)
              && Length(after.timeline.segments) == Length(t.segments) - t.segments[i.value].duration
            else after == Invalid
  {
    var i := Find(t.segments, id);
    if i.Some? {
      PulledBackIsClosed(t.segments, i.value);
      ClosedIsPlaced(t.segments, i.value);
      ClosedIsTidy(t.segments, i.value);
      AppliedOutcome(t, Delete(id, true), lookup, Closed(t.segments, i.value));
    }
  }

  // ---- Move ----

  function Total(segs: seq<Segment>): real {
    if segs == [] then 0.0 else segs[0].duration + Total(segs[1..])
  }

  lemma {:induction false} TotalConcat(a: seq<Segment>, b: seq<Segment>)
    ensures Total(a + b) == Total(a) + Total(b)
  {
    if a == [] {
      assert a + b == b;
    } else {
      assert (a + b)[1..] == a[1..] + b;
      TotalConcat(a[1..], b);
    }
  }

  /** Laid end to end, segments end after the sum of their durations. */
  lemma {:induction false} ResequencedLength(segs: seq<Segment>, cursor: real)
    requires segs != []
    ensures Length(Resequenced(segs, cursor)) == cursor + Total(segs)
  {
    if |segs| > 1 {
      ResequencedLength(segs[1..], cursor + segs[0].duration);
    }
  }

  lemma {:induction false} TotalAround(a: seq<Segment>, b: seq<Segment>, s: Segment)
    ensures Total(a + [s] + b) == Total(a + b) + s.duration
  {
    TotalConcat(a + [s], b);
    TotalConcat(a, [s]);
    TotalConcat(a, b);
  }

  lemma {:induction false} TotalOfInserted(segs: seq<Segment>, i: nat, s: Segment)
    requires i <= |segs|
    ensures Total(InsertedAt(segs, i, s)) == Total(segs) + s.duration
  {
    TotalAround(segs[..i], segs[i..], s);
    assert segs == segs[..i] + segs[i..];
  }

  lemma {:induction false} TotalOfRemoved(segs: seq<Segment>, i: nat)
    requires i < |segs|
    ensures Total(Removed(segs, i)) == Total(segs) - segs[i].duration
  {
    if i == 0 {
      assert Removed(segs, i) == segs[1..];
    } else {
      TotalOfRemoved(segs[1..], i - 1);
      assert Removed(segs, i)[1..] == Removed(segs[1..], i - 1);
    }
  }

  /** Where the segment now at position `k` was before the move. */
  function WasAt(i: nat, to: nat, k: nat): nat {
    if k == to then i
    else
      var j := if k < to then k else k - 1;
      if j < i then j else j + 1
  }

  /** The same segments in the order of the move, whatever their starts. */
  predicate Reordered(segs: seq<Segment>, after: seq<Segment>, i: nat, to: nat) {
    && |after| == |segs|
    && forall k :: 0 <= k < |segs| ==>
         WasAt(i, to, k) < |segs| && after[k] == segs[WasAt(i, to, k)].(start := after[k].start)
  }

  lemma OrderOfMoved(segs: seq<Segment>, i: nat, to: nat, k: nat)
    requires i < |segs| && to < |segs| && k < |segs|
    ensures WasAt(i, to, k) < |segs|
    ensures |InsertedAt(Removed(segs, i), to, segs[i])| == |segs|
    ensures InsertedAt(Removed(segs, i), to, segs[i])[k] == segs[WasAt(i, to, k)]
  {
  }

  lemma MovedIsReordered(segs: seq<Segment>, i: nat, to: nat)
    requires i < |segs| && to < |segs|
    ensures Reordered(segs, Moved(segs, i, to).value, i, to) && Placed(Moved(segs, i, to).value, 0.0)
  {
    var order := InsertedAt(Removed(segs, i), to, segs[i]);
    ResequencedIsPlaced(order, 0.0);
    forall k | 0 <= k < |segs|
      ensures |order| == |segs| && WasAt(i, to, k) < |segs| && order[k] == segs[WasAt(i, to, k)]
    {
      OrderOfMoved(segs, i, to, k);
    }
  }

  lemma MovedLength(segs: seq<Segment>, i: nat, to: nat)
    requires i < |segs| && to < |segs| && Placed(segs, 0.0)
    ensures Length(Moved(segs, i, to).value) == Length(segs)
  {
    ResequencedLength(InsertedAt(Removed(segs, i), to, segs[i]), 0.0);
    TotalOfRemoved(segs, i);
    TotalOfInserted(Removed(segs, i), to, segs[i]);
    PlacedIsResequenced(segs, 0.0);
    ResequencedLength(segs, 0.0);
  }

  lemma ReorderedIsTidy(segs: seq<Segment>, after: seq<Segment>, i: nat, to: nat)
    requires Tidy(segs) && Reordered(segs, after, i, to) && Placed(after, 0.0) && i < |segs| && to < |segs|
    ensures Tidy(after)
  {
    StartsFromZero(after);
    forall j, k | 0 <= j < |after| && 0 <= k < |after| && j != k
      ensures !(after[j].id <= after[k].id)
    {
      assert WasAt(i, to, j) != WasAt(i, to, k);
    }
  }

  /** A move is accepted exactly when the segment and the position exist; it reorders, and keeps the total. */
  lemma MoveKeepsTidy(t: Timeline, id: string, to: nat, lookup: Lookup)
    requires Tidy(t.segments)
    ensures var i, after := Find(t.segments, id), ApplyCommand(t, Move(id, to), t.revision, lookup);
            if i.Some? && to < |t.segments| then
              && after.Edited? && after.timeline == t.(segments := after.timeline.segments)
              && Tidy(after.timeline.segments) && Reordered(t.segments, after.timeline.segments, i.value, to)
              && Length(after.timeline.segments) == Length(t.segments)
            else after == Invalid
  {
    var i := Find(t.segments, id);
    if i.Some? && to < |t.segments| {
      var after := Moved(t.segments, i.value, to).value;
      MovedIsReordered(t.segments, i.value, to);
      MovedLength(t.segments, i.value, to);
      ReorderedIsTidy(t.segments, after, i.value, to);
      AppliedOutcome(t, Move(id, to), lookup, after);
    }
  }

  // ---- Resize ----

  /** The asset is there, and has room for the duration. */
  predicate Fits(s: Segment, duration: real, lookup: Lookup) {
    && lookup(s.asset).Some?
    && (!Unbounded(lookup(s.asset).value) ==> duration <= lookup(s.asset).value.duration - From(s) + Tolerance)
  }

  function ResizedSegment(s: Segment, duration: real, lookup: Lookup): Segment
    requires lookup(s.asset).Some?
  {
    var trimEnd := if !Unbounded(lookup(s.asset).value) && s.trimEnd.Some? then Some(From(s) + duration) else s.trimEnd;
    s.(duration := duration, trimEnd := trimEnd)
  }

  /** Segment `i` becomes `s`, and those behind it move by the change of its duration. */
  function Stretched(segs: seq<Segment>, i: nat, s: Segment): seq<Segment>
    requires i < |segs|
  {
    segs[..i] + [s] + Shifted(segs[i + 1..], s.duration - segs[i].duration)
  }

  lemma StretchedIsPlaced(segs: seq<Segment>, i: nat, s: Segment)
    requires Placed(segs, 0.0) && i < |segs| && s.start == segs[i].start
    ensures Placed(Stretched(segs, i, s), 0.0)
    ensures Length(Stretched(segs, i, s)) == Length(segs) + s.duration - segs[i].duration
    ensures Stretched(segs, i, s)[i] == s && forall k :: 0 <= k < |segs| && k != i ==>
              Stretched(segs, i, s)[k] == segs[k].(start := Stretched(segs, i, s)[k].start)
  {
    var after := Stretched(segs, i, s);
    forall k | 0 <= k < |after|
      ensures after[k] == if k < i then segs[k] else if k == i then s
                          else segs[k].(start := segs[k].start + (s.duration - segs[i].duration))
    {
    }
  }

  lemma StretchedIsTidy(segs: seq<Segment>, i: nat, s: Segment)
    requires Tidy(segs) && i < |segs| && SegmentOk(s) && s.id == segs[i].id && s.start == segs[i].start
    ensures Tidy(Stretched(segs, i, s))
  {
    StretchedIsPlaced(segs, i, s);
    StartsFromZero(Stretched(segs, i, s));
    assert forall k :: 0 <= k < |segs| ==> Stretched(segs, i, s)[k].id == segs[k].id;
  }

  lemma ResizedIsStretched(segs: seq<Segment>, i: nat, duration: real, lookup: Lookup)
    requires i < |segs|
    ensures Resized(segs, i, duration, lookup)
            == if Fits(segs[i], duration, lookup) then Some(Stretched(segs, i, ResizedSegment(segs[i], duration, lookup)))
               else None
  {
  }

  /** A resize is accepted exactly when the source has room; everything behind moves along. */
  lemma ResizeKeepsTidy(t: Timeline, id: string, duration: real, lookup: Lookup)
    requires Tidy(t.segments)
    ensures var i, after := Find(t.segments, id), ApplyCommand(t, Resize(id, duration), t.revision, lookup);
            if i.Some? && duration > 0.0 && Fits(t.segments[i.value], duration, lookup) then
              && after == Edited(t.(segments := Stretched(t.segments, i.value,
                                                          ResizedSegment(t.segments[i.value], duration, lookup))))
              && Tidy(after.timeline.segments)
              && Length(after.timeline.segments) == Length(t.segments) + duration - t.segments[i.value].duration
            else after == Invalid
  {
    var i := Find(t.segments, id);
    if i.Some? {
      ResizedIsStretched(t.segments, i.value, duration, lookup);
      if Fits(t.segments[i.value], duration, lookup) {
        var s := ResizedSegment(t.segments[i.value], duration, lookup);
        var after := Stretched(t.segments, i.value, s);
        StretchedIsPlaced(t.segments, i.value, s);
        if duration > 0.0 {
          StretchedIsTidy(t.segments, i.value, s);
        }
        AppliedOutcome(t, Resize(id, duration), lookup, after);
      }
    }
  }

  // ---- The commands that do not ripple ----

  /** A gap delete leaves a contiguous timeline exactly when it takes the last segment. */
  lemma GapDeleteIsContiguousIffLast(segs: seq<Segment>, i: nat)
    requires Tidy(segs) && i < |segs|
    ensures Placed(Removed(segs, i), 0.0) <==> i == |segs| - 1
  {
    var after := Removed(segs, i);
    forall k | 0 <= k < |after|
      ensures after[k] == segs[if k < i then k else k + 1]
    {
    }
    if i < |segs| - 1 {
      assert SegmentOk(segs[i]) && segs[i + 1].start == End(segs[i]) && after[i] == segs[i + 1];
      if i > 0 {
        assert segs[i].start == End(segs[i - 1]) && after[i - 1] == segs[i - 1];
        assert after[i].start != End(after[i - 1]);
      }
    }
  }

  /** A trim leaves a contiguous timeline exactly when it keeps the duration or cuts the last segment. */
  lemma TrimIsContiguousIff(segs: seq<Segment>, i: nat, from: real, to: real, lookup: Lookup)
    requires Tidy(segs) && i < |segs| && Trimmed(segs, i, from, to, lookup).Some?
    ensures Placed(Trimmed(segs, i, from, to, lookup).value, 0.0) <==> to - from == segs[i].duration || i == |segs| - 1
  {
    var after := Trimmed(segs, i, from, to, lookup).value;
    if i < |segs| - 1 {
      assert after[i + 1] == segs[i + 1] && after[i].duration == to - from;
    }
  }

  // ---- Any sequence of such edits ----

  predicate KeepsContiguity(c: Command) {
    c.Split? || (c.Delete? && c.ripple) || c.Move? || c.Resize?
  }

  /** What the command adds to the total duration. */
  function Gain(segs: seq<Segment>, c: Command): real {
    if c.NotForTimeline? || Find(segs, c.segment).None? then 0.0
    else
      var s := segs[Find(segs, c.segment).value];
      if c.Delete? then -s.duration else if c.Resize? then c.duration - s.duration else 0.0
  }

  lemma EditKeepsTidy(t: Timeline, c: Command, lookup: Lookup)
    requires Tidy(t.segments) && KeepsContiguity(c)
    ensures var after := ApplyCommand(t, c, t.revision, lookup);
            after.Edited? ==> Tidy(after.timeline.segments)
                              && Length(after.timeline.segments) == Length(t.segments) + Gain(t.segments, c)
  {
    match c
    case Split(id, at) => SplitKeepsTidy(t, id, at, lookup);
    case Delete(id, _) => DeleteKeepsTidy(t, id, lookup);
    case Move(id, to) => MoveKeepsTidy(t, id, to, lookup);
    case Resize(id, duration) => ResizeKeepsTidy(t, id, duration, lookup);
  }

  function Gains(ts: seq<Timeline>, cs: seq<Command>): real
    requires |ts| == |cs| + 1
  {
    if cs == [] then 0.0 else Gains(ts[..|cs|], cs[..|cs| - 1]) + Gain(ts[|cs| - 1].segments, cs[|cs| - 1])
  }

  /** From a contiguous timeline, any accepted split, ripple delete, move and resize end in one, of the expected length. */
  lemma {:induction false} EditsKeepTidy(ts: seq<Timeline>, cs: seq<Command>, lookup: Lookup)
    requires |ts| == |cs| + 1 && Tidy(ts[0].segments)
    requires forall k :: 0 <= k < |cs| ==> KeepsContiguity(cs[k])
                                           && ApplyCommand(ts[k], cs[k], ts[k].revision, lookup) == Edited(ts[k + 1])
    ensures var last := ts[|cs|].segments;
            Tidy(last) && InOrder(last) && Length(last) == Length(ts[0].segments) + Gains(ts, cs)
  {
    if cs != [] {
      var n := |cs| - 1;
      EditsKeepTidy(ts[..n + 1], cs[..n], lookup);
      EditKeepsTidy(ts[n], cs[n], lookup);
    }
    TidyIsValid(ts[|cs|].segments);
  }
}
