/**
 A pacing proposal always applies, as one batch, to the timeline it was built
 from, and changes exactly what it should; and the one family of timelines for
 which the applier refuses it.
 */
module EditorPacingTheorems {
  import opened Options
  import opened EditorTimeline
  import opened EditorCommands
  import opened EditorContiguity
  import opened EditorHistory
  import opened EditorPacing

  // ---- What a proposal should do ----

  /** The segment as the request wants it, before anything moves. */
  function PacedSegment(s: Segment, r: Request, lookup: Lookup): Segment {
    if !InScope(s, r.scenes) || lookup(s.asset).None? then s
    else
      var d := PacedDuration(s, r.factor, lookup(s.asset).value);
      var resized := if d.Some? then ResizedSegment(s, d.value, lookup) else s;
      if r.transition.Some? && s.transition != r.transition then resized.(transition := r.transition) else resized
  }

  function Paced(segs: seq<Segment>, r: Request, lookup: Lookup): seq<Segment> {
    seq(|segs|, k requires 0 <= k < |segs| => PacedSegment(segs[k], r, lookup))
  }

  /** By how much the durations before position `k` changed. */
  function Delta(segs: seq<Segment>, x: seq<Segment>, k: nat): real
    requires k <= |segs| == |x|
  {
    if k == 0 then 0.0 else Delta(segs, x, k - 1) + x[k - 1].duration - segs[k - 1].duration
  }

  /** The segments `x` in the places of `segs`, each moved by what changed before it. */
  function Rippled(segs: seq<Segment>, x: seq<Segment>): seq<Segment>
    requires |segs| == |x|
  {
    seq(|segs|, k requires 0 <= k < |segs| => x[k].(start := segs[k].start + Delta(segs, x, k)))
  }

  /** The same segments, possibly resized and restyled. */
  predicate Alike(segs: seq<Segment>, x: seq<Segment>) {
    |x| == |segs| && forall k :: 0 <= k < |segs| ==> x[k].id == segs[k].id && x[k].start == segs[k].start
  }

  /** The new duration of segment `k` covers what the slack lets it overlap the next one. */
  predicate RoomAt(segs: seq<Segment>, x: seq<Segment>, k: nat)
    requires k < |segs| == |x|
  {
    k + 1 < |segs| ==> segs[k + 1].start - End(segs[k]) + x[k].duration >= 0.0
  }

  predicate Roomy(segs: seq<Segment>, x: seq<Segment>, n: nat)
    requires n <= |segs| == |x|
  {
    forall k :: 0 <= k < n ==> RoomAt(segs, x, k)
  }

  // ---- Rippling keeps a timeline valid ----

  lemma {:induction false} AdjacentInOrder(segs: seq<Segment>, i: nat, j: nat)
    requires forall k, l :: 0 <= k < |segs| && 0 <= l < |segs| && l == k + 1 ==> segs[k].start <= segs[l].start
    requires i <= j < |segs|
    ensures segs[i].start <= segs[j].start
  {
    if i < j {
      AdjacentInOrder(segs, i, j - 1);
    }
  }

  lemma AdjacentStarts(segs: seq<Segment>, x: seq<Segment>, k: nat)
    requires |segs| == |x| && k + 1 < |segs| && RoomAt(segs, x, k)
    ensures var p := Rippled(segs, x);
            && p[k].start <= p[k + 1].start
            && p[k + 1].start - End(p[k]) == segs[k + 1].start - End(segs[k])
  {
  }

  lemma RippledInOrder(segs: seq<Segment>, x: seq<Segment>)
    requires |segs| == |x| && Roomy(segs, x, |segs|)
    ensures InOrder(Rippled(segs, x))
  {
    var p := Rippled(segs, x);
    forall k, l | 0 <= k < |p| && 0 <= l < |p| && l == k + 1
      ensures p[k].start <= p[l].start
    {
      AdjacentStarts(segs, x, k);
    }
    forall i, j | 0 <= i < j < |p|
      ensures p[i].start <= p[j].start
    {
      AdjacentInOrder(p, i, j);
    }
  }

  lemma RippledSegmentOk(segs: seq<Segment>, x: seq<Segment>, k: nat)
    requires Alike(segs, x) && Valid(segs) && k < |segs| && SegmentOk(x[k]) && InOrder(Rippled(segs, x))
    ensures SegmentOk(Rippled(segs, x)[k])
  {
    assert Rippled(segs, x)[0].start == segs[0].start && SegmentOk(segs[0]);
  }

  lemma RippledIsValid(segs: seq<Segment>, x: seq<Segment>)
    requires Valid(segs) && InOrder(segs) && Alike(segs, x) && Roomy(segs, x, |segs|)
    requires forall k :: 0 <= k < |x| ==> SegmentOk(x[k])
    ensures Valid(Rippled(segs, x))
  {
    var p := Rippled(segs, x);
    RippledInOrder(segs, x);
    forall k | 0 <= k < |p|
      ensures SegmentOk(p[k])
    {
      RippledSegmentOk(segs, x, k);
    }
    InOrderIsByStart(segs);
    InOrderIsByStart(p);
    forall i | 0 < i < |p|
      ensures End(p[i - 1]) <= p[i].start + Slack
    {
      AdjacentStarts(segs, x, i - 1);
      assert End(segs[i - 1]) <= segs[i].start + Slack;
    }
  }

  // ---- One command ----

  lemma {:induction false} DeltaUpdate(segs: seq<Segment>, x: seq<Segment>, m: nat, s: Segment, k: nat)
    requires m < |segs| == |x| && k <= |segs|
    ensures Delta(segs, x[m := s], k) == Delta(segs, x, k) + if k > m then s.duration - x[m].duration else 0.0
  {
    if k > 0 {
      DeltaUpdate(segs, x, m, s, k - 1);
    }
  }

  lemma {:induction false} DeltaNothing(segs: seq<Segment>, k: nat)
    requires k <= |segs|
    ensures Delta(segs, segs, k) == 0.0
  {
    if k > 0 {
      DeltaNothing(segs, k - 1);
    }
  }

  lemma FindRippled(segs: seq<Segment>, x: seq<Segment>, m: nat)
    requires UniqueIds(segs) && Alike(segs, x) && m < |segs|
    ensures Find(Rippled(segs, x), segs[m].id) == Some(m)
  {
    var i := Find(Rippled(segs, x), segs[m].id);
    assert Rippled(segs, x)[m].id == segs[m].id;
  }

  lemma StretchedRipple(segs: seq<Segment>, x: seq<Segment>, m: nat, s: Segment)
    requires |segs| == |x| && m < |segs|
    ensures Stretched(Rippled(segs, x), m, s.(start := Rippled(segs, x)[m].start)) == Rippled(segs, x[m := s])
  {
    var p, after := Rippled(segs, x), Rippled(segs, x[m := s]);
    forall k | 0 <= k < |segs|
      ensures after[k] == if k < m then p[k] else if k == m then s.(start := p[m].start)
                          else p[k].(start := p[k].start + (s.duration - p[m].duration))
    {
      DeltaUpdate(segs, x, m, s, k);
    }
  }

  lemma ResizeStep(segs: seq<Segment>, x: seq<Segment>, m: nat, d: real, project: int, lookup: Lookup)
    requires UniqueIds(segs) && Alike(segs, x) && m < |segs| && x[m] == segs[m] && Fits(segs[m], d, lookup)
    ensures Applied(Rippled(segs, x), Resize(segs[m].id, d), project, lookup)
            == Some(Rippled(segs, x[m := ResizedSegment(segs[m], d, lookup)]))
  {
    var p := Rippled(segs, x);
    FindRippled(segs, x, m);
    ResizedIsStretched(p, m, d, lookup);
    StretchedRipple(segs, x, m, ResizedSegment(segs[m], d, lookup));
    assert p[m] == segs[m].(start := p[m].start);
  }

  lemma TransitionStep(segs: seq<Segment>, x: seq<Segment>, m: nat, transition: string, project: int, lookup: Lookup)
    requires UniqueIds(segs) && Alike(segs, x) && m < |segs|
    ensures Applied(Rippled(segs, x), SetTransition(segs[m].id, transition, None), project, lookup)
            == Some(Rippled(segs, x[m := x[m].(transition := Some(transition))]))
  {
    var p, s := Rippled(segs, x), x[m].(transition := Some(transition));
    FindRippled(segs, x, m);
    forall k | 0 <= k < |segs|
      ensures Rippled(segs, x[m := s])[k] == if k == m then p[m].(transition := Some(transition)) else p[k]
    {
      DeltaUpdate(segs, x, m, s, k);
    }
    assert Rippled(segs, x[m := s]) == p[m := p[m].(transition := Some(transition))];
  }

  // ---- The commands of one segment ----

  lemma {:induction false} FoldedConcat(t: Timeline, a: seq<Command>, b: seq<Command>, lookup: Lookup)
    requires Folded(t, a, lookup).Edited?
    ensures Folded(t, a + b, lookup) == Folded(Folded(t, a, lookup).timeline, b, lookup)
  {
    if b == [] {
      assert a + b == a;
    } else {
      assert (a + b)[..|a + b| - 1] == a + b[..|b| - 1];
      FoldedConcat(t, a, b[..|b| - 1], lookup);
    }
  }

  lemma FoldedOne(t: Timeline, c: Command, lookup: Lookup)
    ensures Folded(t, [c], lookup) == ApplyCommand(t, c, t.revision, lookup)
  {
    assert [c][..0] == [];
  }

  lemma PacedDurationFits(s: Segment, factor: real, lookup: Lookup)
    requires SegmentOk(s) && lookup(s.asset).Some? && PacedDuration(s, factor, lookup(s.asset).value).Some?
    ensures var d := PacedDuration(s, factor, lookup(s.asset).value).value;
            d > 0.0 && Fits(s, d, lookup) && SegmentOk(ResizedSegment(s, d, lookup))
  {
  }

  lemma SupportedIsOk(s: Segment, transition: string)
    requires SegmentOk(s) && Supported(transition)
    ensures SegmentOk(s.(transition := Some(transition)))
  {
  }

  /** The timeline after the segments before `m` were paced. */
  ghost predicate Underway(segs: seq<Segment>, x: seq<Segment>, m: nat, r: Request, lookup: Lookup) {
    && Valid(segs) && InOrder(segs) && Alike(segs, x) && m <= |segs|
    && (forall k :: 0 <= k < |segs| ==> SegmentOk(x[k]))
    && (forall k :: 0 <= k < m ==> x[k] == PacedSegment(segs[k], r, lookup))
    && (forall k :: m <= k < |segs| ==> x[k] == segs[k])
    && Roomy(segs, x, m)
  }

  lemma PlacedAt(segs: seq<Segment>, x: seq<Segment>, m: nat, s: Segment, r: Request, lookup: Lookup)
    requires Underway(segs, x, m, r, lookup) && m < |segs| && SegmentOk(s)
    requires s.id == segs[m].id && s.start == segs[m].start && RoomAt(segs, x[m := s], m)
    ensures Valid(Rippled(segs, x[m := s]))
  {
    var y := x[m := s];
    forall k | 0 <= k < |segs|
      ensures RoomAt(segs, y, k)
    {
      if k < m {
        assert RoomAt(segs, x, k);
      }
    }
    RippledIsValid(segs, y);
  }

  lemma ResizeIsAccepted(t: Timeline, segs: seq<Segment>, x: seq<Segment>, m: nat, r: Request, lookup: Lookup)
    requires Underway(segs, x, m, r, lookup) && m < |segs| && t.segments == Rippled(segs, x)
    requires lookup(segs[m].asset).Some? && PacedDuration(segs[m], r.factor, lookup(segs[m].asset).value).Some?
    ensures var d := PacedDuration(segs[m], r.factor, lookup(segs[m].asset).value).value;
            var y := x[m := ResizedSegment(segs[m], d, lookup)];
            && Alike(segs, y) && SegmentOk(y[m])
            && ApplyCommand(t, Resize(segs[m].id, d), t.revision, lookup)
               == (if Valid(Rippled(segs, y)) then Edited(t.(segments := Rippled(segs, y))) else Invalid)
            && (RoomAt(segs, y, m) ==> Valid(Rippled(segs, y)))
  {
    var d := PacedDuration(segs[m], r.factor, lookup(segs[m].asset).value).value;
    PacedDurationFits(segs[m], r.factor, lookup);
    ResizeStep(segs, x, m, d, t.project, lookup);
    if RoomAt(segs, x[m := ResizedSegment(segs[m], d, lookup)], m) {
      PlacedAt(segs, x, m, ResizedSegment(segs[m], d, lookup), r, lookup);
    }
  }

  lemma RestyleIsAccepted(t: Timeline, segs: seq<Segment>, x: seq<Segment>, y: seq<Segment>, m: nat,
                          transition: string, r: Request, lookup: Lookup)
    requires Underway(segs, x, m, r, lookup) && m < |segs| && Supported(transition)
    requires Alike(segs, y) && y == x[m := y[m]] && SegmentOk(y[m]) && RoomAt(segs, y, m) && t.segments == Rippled(segs, y)
    ensures var s := y[m].(transition := Some(transition));
            && SegmentOk(s)
            && ApplyCommand(t, SetTransition(segs[m].id, transition, None), t.revision, lookup)
               == Edited(t.(segments := Rippled(segs, x[m := s])))
  {
    var s := y[m].(transition := Some(transition));
    SupportedIsOk(y[m], transition);
    TransitionStep(segs, y, m, transition, t.project, lookup);
    assert y[m := s] == x[m := s];
    PlacedAt(segs, x, m, s, r, lookup);
  }

  /** The commands of one segment take the timeline from one stage to the next. */
  lemma SegmentStep(t: Timeline, segs: seq<Segment>, x: seq<Segment>, m: nat, r: Request, lookup: Lookup)
    requires Underway(segs, x, m, r, lookup) && m < |segs| && t.segments == Rippled(segs, x)
    requires InScope(segs[m], r.scenes) && CommandsFor(segs[m], r, lookup).Some?
    requires RoomAt(segs, x[m := PacedSegment(segs[m], r, lookup)], m)
    ensures SegmentOk(PacedSegment(segs[m], r, lookup))
    ensures Folded(t, CommandsFor(segs[m], r, lookup).value, lookup)
            == Edited(t.(segments := Rippled(segs, x[m := PacedSegment(segs[m], r, lookup)])))
  {
    var d := PacedDuration(segs[m], r.factor, lookup(segs[m].asset).value);
    var resizes := if d.Some? then [Resize(segs[m].id, d.value)] else [];
    var restyle := r.transition.Some? && segs[m].transition != r.transition;
    var restyles := if restyle then [SetTransition(segs[m].id, r.transition.value, None)] else [];
    var y := if d.Some? then x[m := ResizedSegment(segs[m], d.value, lookup)] else x;
    assert RoomAt(segs, y, m);
    if d.Some? {
      ResizeIsAccepted(t, segs, x, m, r, lookup);
      FoldedOne(t, Resize(segs[m].id, d.value), lookup);
    }
    var u := t.(segments := Rippled(segs, y));
    assert Folded(t, resizes, lookup) == Edited(u);
    FoldedConcat(t, resizes, restyles, lookup);
    if restyle {
      RestyleIsAccepted(u, segs, x, y, m, r.transition.value, r, lookup);
      FoldedOne(u, SetTransition(segs[m].id, r.transition.value, None), lookup);
      assert y[m].(transition := r.transition) == PacedSegment(segs[m], r, lookup);
    } else {
      assert y[m] == PacedSegment(segs[m], r, lookup) && y == x[m := y[m]];
    }
  }

  // ---- The whole batch ----

  /** The first `m` segments as the request wants them, the others as they were. */
  function Mixed(segs: seq<Segment>, m: nat, r: Request, lookup: Lookup): seq<Segment>
    requires m <= |segs|
  {
    Paced(segs, r, lookup)[..m] + segs[m..]
  }

  lemma {:induction false} CommandsPrefix(segs: seq<Segment>, m: nat, r: Request, lookup: Lookup)
    requires m <= |segs| && CommandsIn(segs, r, lookup).Some?
    ensures CommandsIn(segs[..m], r, lookup).Some?
    ensures CommandsIn(segs[..m], r, lookup).value <= CommandsIn(segs, r, lookup).value
    decreases |segs|
  {
    if m == |segs| {
      assert segs[..m] == segs;
    } else {
      CommandsPrefix(segs[..|segs| - 1], m, r, lookup);
      assert segs[..|segs| - 1][..m] == segs[..m];
    }
  }

  lemma CommandsOneMore(segs: seq<Segment>, m: nat, r: Request, lookup: Lookup)
    requires m < |segs| && CommandsIn(segs, r, lookup).Some?
    ensures CommandsIn(segs[..m], r, lookup).Some? && CommandsAt(segs, m, r, lookup).Some?
    ensures CommandsIn(segs[..m + 1], r, lookup)
            == Some(CommandsIn(segs[..m], r, lookup).value + CommandsAt(segs, m, r, lookup).value)
    ensures CommandsIn(segs[..m + 1], r, lookup).value <= CommandsIn(segs, r, lookup).value
  {
    CommandsPrefix(segs, m, r, lookup);
    CommandsPrefix(segs, m + 1, r, lookup);
    assert segs[..m + 1][..m] == segs[..m];
  }

  lemma RippledNothing(segs: seq<Segment>)
    ensures Rippled(segs, segs) == segs
  {
    forall k | 0 <= k < |segs|
      ensures Rippled(segs, segs)[k] == segs[k]
    {
      DeltaNothing(segs, k);
    }
  }

  lemma MixedOneMore(segs: seq<Segment>, m: nat, r: Request, lookup: Lookup)
    requires m < |segs|
    ensures Mixed(segs, m + 1, r, lookup) == Mixed(segs, m, r, lookup)[m := PacedSegment(segs[m], r, lookup)]
  {
  }

  lemma UnderwayStep(segs: seq<Segment>, x: seq<Segment>, m: nat, r: Request, lookup: Lookup)
    requires Underway(segs, x, m, r, lookup) && m < |segs| && SegmentOk(PacedSegment(segs[m], r, lookup))
    requires RoomAt(segs, x[m := PacedSegment(segs[m], r, lookup)], m)
    ensures Underway(segs, x[m := PacedSegment(segs[m], r, lookup)], m + 1, r, lookup)
  {
    var y := x[m := PacedSegment(segs[m], r, lookup)];
    forall k | 0 <= k < m + 1
      ensures RoomAt(segs, y, k)
    {
      if k < m {
        assert RoomAt(segs, x, k);
      }
    }
  }

  /** What the request adds to the commands at segment `m`. */
  function CommandsAt(segs: seq<Segment>, m: nat, r: Request, lookup: Lookup): Option<seq<Command>>
    requires m < |segs|
  {
    if InScope(segs[m], r.scenes) then CommandsFor(segs[m], r, lookup) else Some([])
  }

  lemma StageStep(t: Timeline, before: seq<Command>, segs: seq<Segment>, x: seq<Segment>, m: nat, r: Request, lookup: Lookup)
    requires Underway(segs, x, m, r, lookup) && m < |segs| && CommandsAt(segs, m, r, lookup).Some?
    requires Folded(t, before, lookup) == Edited(t.(segments := Rippled(segs, x)))
    requires RoomAt(segs, x[m := PacedSegment(segs[m], r, lookup)], m)
    ensures var y := x[m := PacedSegment(segs[m], r, lookup)];
            && Underway(segs, y, m + 1, r, lookup)
            && Folded(t, before + CommandsAt(segs, m, r, lookup).value, lookup)
               == Edited(t.(segments := Rippled(segs, y)))
  {
    if InScope(segs[m], r.scenes) {
      SegmentStep(t.(segments := Rippled(segs, x)), segs, x, m, r, lookup);
      FoldedConcat(t, before, CommandsFor(segs[m], r, lookup).value, lookup);
    } else {
      assert x[m := segs[m]] == x && before + [] == before;
    }
    UnderwayStep(segs, x, m, r, lookup);
  }

  /** The commands of the first `m` segments apply, and leave exactly those paced and the rest moved. */
  lemma {:induction false} PrefixApplies(t: Timeline, segs: seq<Segment>, m: nat, r: Request, lookup: Lookup)
    requires t.segments == segs && Valid(segs) && InOrder(segs) && m <= |segs|
    requires CommandsIn(segs, r, lookup).Some? && Roomy(segs, Paced(segs, r, lookup), m)
    ensures CommandsIn(segs[..m], r, lookup).Some?
    ensures Underway(segs, Mixed(segs, m, r, lookup), m, r, lookup)
    ensures Folded(t, CommandsIn(segs[..m], r, lookup).value, lookup)
            == Edited(t.(segments := Rippled(segs, Mixed(segs, m, r, lookup))))
  {
    if m == 0 {
      assert Mixed(segs, 0, r, lookup) == segs;
      RippledNothing(segs);
    } else {
      PrefixApplies(t, segs, m - 1, r, lookup);
      CommandsOneMore(segs, m - 1, r, lookup);
      MixedOneMore(segs, m - 1, r, lookup);
      assert RoomAt(segs, Paced(segs, r, lookup), m - 1);
      StageStep(t, CommandsIn(segs[..m - 1], r, lookup).value, segs, Mixed(segs, m - 1, r, lookup), m - 1, r, lookup);
    }
  }

  /** The timeline that accepting a proposal should give. */
  function PacedTimeline(t: Timeline, r: Request, lookup: Lookup): Timeline {
    t.(segments := Rippled(t.segments, Paced(t.segments, r, lookup)))
  }

  lemma AllApply(t: Timeline, segs: seq<Segment>, r: Request, lookup: Lookup)
    requires t.segments == segs && Valid(segs) && InOrder(segs) && CommandsIn(segs, r, lookup).Some?
    requires Roomy(segs, Paced(segs, r, lookup), |segs|)
    ensures Folded(t, CommandsIn(segs, r, lookup).value, lookup) == Edited(PacedTimeline(t, r, lookup))
  {
    PrefixApplies(t, segs, |segs|, r, lookup);
    assert segs[..|segs|] == segs && Mixed(segs, |segs|, r, lookup) == Paced(segs, r, lookup);
  }

  /** A proposal applies as one batch to the timeline it was built from, and gives the paced timeline. */
  lemma ProposalApplies(h: History, r: Request, lookup: Lookup)
    requires var segs := h.present.segments; Valid(segs) && InOrder(segs) && Built(h, r, lookup).Some?
    requires Roomy(h.present.segments, Paced(h.present.segments, r, lookup), |h.present.segments|)
    ensures var p := Built(h, r, lookup).value;
            && Accepts(h, ApplyIfGeneration(p.commands, p.base), lookup)
            && Next(h, ApplyIfGeneration(p.commands, p.base), lookup)
               == History(h.past + [Snapshot(h)], PacedTimeline(h.present, r, lookup), h.generation + 1, [])
  {
    InOrderIsByStart(h.present.segments);
    AllApply(h.present, h.present.segments, r, lookup);
  }

  lemma {:induction false} DeltaOfRippled(segs: seq<Segment>, x: seq<Segment>, k: nat)
    requires k <= |segs| == |x|
    ensures Delta(segs, Rippled(segs, x), k) == Delta(segs, x, k)
  {
    if k > 0 {
      DeltaOfRippled(segs, x, k - 1);
    }
  }

  /**
   In scope, `after` is `s` at some place, with the proportional duration if
   that is a change, a trim end that follows it, and the transition that was asked for.
   */
  predicate PacedFrom(s: Segment, after: Segment, r: Request, asset: AssetRef) {
    var scaled := Proportional(s, r.factor, asset);
    after == s.(start := after.start,
                duration := if IsChange(s, scaled) then scaled else s.duration,
                trimEnd := if IsChange(s, scaled) && s.trimEnd.Some? && !Unbounded(asset)
                           then Some(From(s) + scaled) else s.trimEnd,
                transition := if r.transition.Some? then r.transition else s.transition)
  }

  lemma PacedSegmentEffect(s: Segment, after: Segment, r: Request, lookup: Lookup)
    requires after == PacedSegment(s, r, lookup).(start := after.start)
    ensures if !InScope(s, r.scenes) then after == s.(start := after.start)
            else lookup(s.asset).Some? ==> PacedFrom(s, after, r, lookup(s.asset).value)
  {
    if InScope(s, r.scenes) && lookup(s.asset).Some? {
      PacedIfChange(s, r.factor, lookup(s.asset).value);
    }
  }

  lemma PacedPlace(segs: seq<Segment>, after: seq<Segment>, r: Request, lookup: Lookup, k: nat)
    requires k < |segs| && after == Rippled(segs, Paced(segs, r, lookup))
    ensures |after| == |segs|
    ensures after[k] == PacedSegment(segs[k], r, lookup).(start := segs[k].start + Delta(segs, after, k))
  {
    DeltaOfRippled(segs, Paced(segs, r, lookup), k);
  }

  /**
   What the paced timeline is: out of scope only the place changes; in scope the
   duration is the old one times the factor, within the source, unless that is
   nothing or no change, and the trim end follows it where there is one and the
   source has an end; and each segment moves by exactly what the durations before
   it changed.
   */
  lemma PacedEffect(t: Timeline, r: Request, lookup: Lookup, k: nat)
    requires k < |t.segments|
    ensures var segs, after := t.segments, PacedTimeline(t, r, lookup).segments;
            && |after| == |segs| && after[k].start == segs[k].start + Delta(segs, after, k)
            && if !InScope(segs[k], r.scenes) then after[k] == segs[k].(start := after[k].start)
               else lookup(segs[k].asset).Some? ==> PacedFrom(segs[k], after[k], r, lookup(segs[k].asset).value)
  {
    var after := PacedTimeline(t, r, lookup).segments;
    PacedPlace(t.segments, after, r, lookup, k);
    PacedSegmentEffect(t.segments[k], after[k], r, lookup);
  }

  /** Without tolerated overlaps there is always room. */
  lemma ApartIsRoomy(segs: seq<Segment>, r: Request, lookup: Lookup)
    requires forall k :: 0 <= k < |segs| ==> SegmentOk(segs[k])
    requires forall k, l :: 0 <= k < |segs| && 0 <= l < |segs| && l == k + 1 ==> End(segs[k]) <= segs[l].start
    ensures Roomy(segs, Paced(segs, r, lookup), |segs|)
  {
    forall k | 0 <= k < |segs|
      ensures RoomAt(segs, Paced(segs, r, lookup), k)
    {
      var s := segs[k];
      if lookup(s.asset).Some? && PacedDuration(s, r.factor, lookup(s.asset).value).Some? {
        PacedDurationFits(s, r.factor, lookup);
      }
    }
  }

  // ---- When there is no room ----

  lemma FirstWithoutRoom(segs: seq<Segment>, x: seq<Segment>, n: nat) returns (m: nat)
    requires n <= |segs| == |x| && !Roomy(segs, x, n)
    ensures m < n && !RoomAt(segs, x, m) && Roomy(segs, x, m)
  {
    if Roomy(segs, x, n - 1) {
      m := n - 1;
    } else {
      m := FirstWithoutRoom(segs, x, n - 1);
    }
  }

  /** A segment pulled to before its predecessor overlaps it, unless it is shorter than the slack. */
  lemma PulledTooFar(segs: seq<Segment>, x: seq<Segment>, m: nat)
    requires |segs| == |x| && m + 1 < |segs| && x[m + 1] == segs[m + 1] && !RoomAt(segs, x, m)
    requires Valid(segs) && InOrder(segs) && x[m].duration > 0.0 && segs[m + 1].duration > 2.0 * Slack
    ensures !Valid(Rippled(segs, x))
  {
    InOrderIsByStart(segs);
    assert End(segs[m + 1 - 1]) <= segs[m + 1].start + Slack;
    var p := Rippled(segs, x);
    assert p[m + 1].start == p[m].start + x[m].duration + (segs[m + 1].start - End(segs[m]));
    if Valid(p) {
      EarlierEndsFirst(p, m + 1, m);
    }
  }

  /** In a valid timeline, a segment that starts earlier ends, within the slack, before a later start. */
  lemma EarlierEndsFirst(segs: seq<Segment>, i: nat, j: nat)
    requires Valid(segs) && i < |segs| && j < |segs| && segs[i].start < segs[j].start
    ensures End(segs[i]) <= segs[j].start + Slack
  {
    var ordered := ByStart(segs);
    ByStartSorts(segs);
    assert segs[i] in multiset(ordered) && segs[j] in multiset(ordered);
    var p: nat :| p < |ordered| && ordered[p] == segs[i];
    var q: nat :| q < |ordered| && ordered[q] == segs[j];
    assert p < q;
    OrderedIsApart(ordered, p, q);
  }

  /** Where there is no room, the first command of the segment is a resize, and it is refused. */
  lemma NoRoomIsRefused(t: Timeline, segs: seq<Segment>, x: seq<Segment>, m: nat, r: Request, lookup: Lookup)
    requires Underway(segs, x, m, r, lookup) && m < |segs| && t.segments == Rippled(segs, x)
    requires CommandsAt(segs, m, r, lookup).Some? && !RoomAt(segs, x[m := PacedSegment(segs[m], r, lookup)], m)
    requires forall k :: 0 <= k < |segs| ==> segs[k].duration > 2.0 * Slack
    ensures var added := CommandsAt(segs, m, r, lookup).value;
            added != [] && !Folded(t, added[..1], lookup).Edited?
  {
    var s := segs[m];
    var d := PacedDuration(s, r.factor, lookup(s.asset).value).value;
    ResizeIsAccepted(t, segs, x, m, r, lookup);
    PulledTooFar(segs, x[m := ResizedSegment(s, d, lookup)], m);
    FoldedOne(t, Resize(s.id, d), lookup);
    assert CommandsAt(segs, m, r, lookup).value[..1] == [Resize(s.id, d)];
  }

  lemma PrefixFails(t: Timeline, before: seq<Command>, added: seq<Command>, all: seq<Command>, lookup: Lookup)
    requires Folded(t, before, lookup).Edited? && added != []
    requires !Folded(Folded(t, before, lookup).timeline, added[..1], lookup).Edited? && before + added <= all
    ensures !Folded(t, all, lookup).Edited?
  {
    FoldedConcat(t, before, added[..1], lookup);
    assert all[..|before| + 1] == before + added[..1];
    FailureStays(t, all, |before| + 1, lookup);
  }

  lemma ProposalWithoutRoomFails(t: Timeline, segs: seq<Segment>, r: Request, lookup: Lookup)
    requires t.segments == segs && Valid(segs) && InOrder(segs) && CommandsIn(segs, r, lookup).Some?
    requires forall k :: 0 <= k < |segs| ==> segs[k].duration > 2.0 * Slack
    requires !Roomy(segs, Paced(segs, r, lookup), |segs|)
    ensures !Folded(t, CommandsIn(segs, r, lookup).value, lookup).Edited?
  {
    var m := FirstWithoutRoom(segs, Paced(segs, r, lookup), |segs|);
    var x := Mixed(segs, m, r, lookup);
    PrefixApplies(t, segs, m, r, lookup);
    CommandsOneMore(segs, m, r, lookup);
    NoRoomIsRefused(t.(segments := Rippled(segs, x)), segs, x, m, r, lookup);
    PrefixFails(t, CommandsIn(segs[..m], r, lookup).value, CommandsAt(segs, m, r, lookup).value,
                CommandsIn(segs, r, lookup).value, lookup);
  }

  lemma ProposalRefused(h: History, r: Request, lookup: Lookup)
    requires var segs := h.present.segments; Valid(segs) && InOrder(segs) && Built(h, r, lookup).Some?
    requires forall k :: 0 <= k < |h.present.segments| ==> h.present.segments[k].duration > 2.0 * Slack
    requires !Roomy(h.present.segments, Paced(h.present.segments, r, lookup), |h.present.segments|)
    ensures var p := Built(h, r, lookup).value; !Accepts(h, ApplyIfGeneration(p.commands, p.base), lookup)
  {
    InOrderIsByStart(h.present.segments);
    ProposalWithoutRoomFails(h.present, h.present.segments, r, lookup);
  }

  /**
   With segments longer than two nanoseconds, in time order, the batch is
   accepted exactly when every new duration covers the overlap that the slack
   tolerates behind its segment.
   */
  lemma ProposalAcceptedIff(h: History, r: Request, lookup: Lookup)
    requires var segs := h.present.segments; Valid(segs) && InOrder(segs) && Built(h, r, lookup).Some?
    requires forall k :: 0 <= k < |h.present.segments| ==> h.present.segments[k].duration > 2.0 * Slack
    ensures var p := Built(h, r, lookup).value;
            Accepts(h, ApplyIfGeneration(p.commands, p.base), lookup)
            <==> Roomy(h.present.segments, Paced(h.present.segments, r, lookup), |h.present.segments|)
  {
    if Roomy(h.present.segments, Paced(h.present.segments, r, lookup), |h.present.segments|) {
      ProposalApplies(h, r, lookup);
    } else {
      ProposalRefused(h, r, lookup);
    }
  }

  // ---- A proposal that is refused ----

  lemma TwoInScope(a: Segment, b: Segment, r: Request, lookup: Lookup, c: Command, d: Command)
    requires InScope(a, r.scenes) && CommandsFor(a, r, lookup) == Some([c])
    requires InScope(b, r.scenes) && CommandsFor(b, r, lookup) == Some([d])
    ensures CommandsIn([a, b], r, lookup) == Some([c, d])
  {
    assert [a, b][..1] == [a] && [a][..0] == [] && [c] + [d] == [c, d];
    assert [] + [c] == [c];
    assert CommandsIn([a], r, lookup) == Some([c]);
  }

  lemma OnlyResized(s: Segment, r: Request, lookup: Lookup, d: real)
    requires r.transition.None? && lookup(s.asset).Some?
    requires PacedDuration(s, r.factor, lookup(s.asset).value) == Some(d)
    ensures CommandsFor(s, r, lookup) == Some([Resize(s.id, d)])
  {
    assert [Resize(s.id, d)] + [] == [Resize(s.id, d)];
  }

  const Still := Segment("a", "s", 1, 0.0, 1.0, None, None, "cover", None)
  const Overlapped := Segment("b", "s", 1, 0.999999999, 1.0, None, None, "cover", None)
  const TooFast := Request(0.0000000001, None, None)

  function AnyImage(): Lookup {
    (asset: int) => Some(AssetRef(1, "IMAGE", 0.0))
  }

  lemma TooFastDurations()
    ensures PacedDuration(Still, TooFast.factor, AnyImage()(1).value) == Some(0.0000000001)
    ensures PacedDuration(Overlapped, TooFast.factor, AnyImage()(1).value) == Some(0.0000000001)
  {
  }

  lemma OverlappedIsValid()
    ensures Valid([Still, Overlapped]) && InOrder([Still, Overlapped])
  {
    InOrderIsByStart([Still, Overlapped]);
  }

  lemma OverlappedHasNoRoom()
    ensures !Roomy([Still, Overlapped], Paced([Still, Overlapped], TooFast, AnyImage()), 2)
  {
    TooFastDurations();
    assert !RoomAt([Still, Overlapped], Paced([Still, Overlapped], TooFast, AnyImage()), 0);
  }

  /**
   Two images that overlap by the slack, sped up ten billion times: the builder
   makes a proposal, and the applier refuses it.
   */
  lemma TooFastIsRefused()
    ensures var h := Loaded(Timeline("t", 1, 0, [Still, Overlapped]));
            var built := Built(h, TooFast, AnyImage());
            && Valid(h.present.segments) && InOrder(h.present.segments) && built.Some?
            && !Accepts(h, ApplyIfGeneration(built.value.commands, built.value.base), AnyImage())
  {
    var h := Loaded(Timeline("t", 1, 0, [Still, Overlapped]));
    OverlappedIsValid();
    InOrderIsByStart([Still, Overlapped]);
    TooFastDurations();
    OnlyResized(Still, TooFast, AnyImage(), 0.0000000001);
    OnlyResized(Overlapped, TooFast, AnyImage(), 0.0000000001);
    TwoInScope(Still, Overlapped, TooFast, AnyImage(), Resize("a", 0.0000000001), Resize("b", 0.0000000001));
    OverlappedHasNoRoom();
    ProposalAcceptedIff(h, TooFast, AnyImage());
  }
}
