/**
 What each editor command is accepted for and does to every segment, told segment
 by segment; and what every accepted timeline satisfies.  Times are compared with
 a slack of a nanosecond, and durations with a source up to a microsecond.
 */
module EditorEffects {
  import opened Options
  import opened EditorTimeline
  import opened EditorCommands

  /** The asset has no end of its own. */
  predicate Still(a: AssetRef) {
    a.mediaType in {"IMAGE", "LOGO", "GRAPHIC"} || Lower(a.mediaType) == "image"
  }

  lemma StillIsUnbounded(a: AssetRef)
    ensures Still(a) <==> Unbounded(a)
  {
  }

  /** The ASCII letters in lower case, everything else as it is. */
  lemma LowerIsAscii(s: string, k: nat)
    requires k < |s|
    ensures |Lower(s)| == |s|
    ensures Lower(s)[k] == if 'A' <= s[k] && s[k] <= 'Z' then s[k] + ('a' - 'A') else s[k]
  {
  }

  function TrimStartOf(s: Segment): real {
    if s.trimStart.Some? then s.trimStart.value else 0.0
  }

  /** The segment with the id is at position `i`, and no other. */
  predicate IsAt(segs: seq<Segment>, id: string, i: nat) {
    i < |segs| && segs[i].id == id
  }

  lemma FindsTheOne(segs: seq<Segment>, id: string, i: nat)
    requires UniqueIds(segs) && IsAt(segs, id, i)
    ensures Find(segs, id) == Some(i)
  {
    assert Find(segs, id).Some?;
  }

  /** A command for a segment that is not there is refused, and so are commands that are not for the timeline. */
  lemma UnknownIsRefused(segs: seq<Segment>, c: Command, project: int, lookup: Lookup)
    ensures c == NotForTimeline ==> Applied(segs, c, project, lookup) == None
    ensures c != NotForTimeline && (forall k :: 0 <= k < |segs| ==> segs[k].id != c.segment) ==>
              Applied(segs, c, project, lookup) == None
  {
  }

  lemma TrimEffect(segs: seq<Segment>, id: string, i: nat, from: real, to: real, project: int, lookup: Lookup)
    requires UniqueIds(segs) && IsAt(segs, id, i)
    ensures var after, asset := Applied(segs, Trim(id, from, to), project, lookup), lookup(segs[i].asset);
            && (after.Some? <==> from <= to && asset.Some? && (Still(asset.value) || to <= asset.value.duration + 0.000001))
            && (after.Some? ==>
                  after.value == segs[i := segs[i].(trimStart := Some(from), trimEnd := Some(to), duration := to - from)])
  {
    FindsTheOne(segs, id, i);
    if lookup(segs[i].asset).Some? {
      StillIsUnbounded(lookup(segs[i].asset).value);
    }
  }

  /** A split strictly inside the segment puts two halves in its place, which meet at the split. */
  lemma SplitEffect(segs: seq<Segment>, id: string, i: nat, at: real, project: int, lookup: Lookup)
    requires UniqueIds(segs) && IsAt(segs, id, i)
    ensures var s, after := segs[i], Applied(segs, Split(id, at), project, lookup);
            var cut := if s.trimStart.Some? then Some(s.trimStart.value + (at - s.start)) else None;
            && (after.Some? <==> s.start + 0.000000001 < at < s.start + s.duration - 0.000000001)
            && (after.Some? ==>
                  && |after.value| == |segs| + 1
                  && after.value[i] == s.(id := s.id + ":a", duration := at - s.start, trimEnd := cut)
                  && after.value[i + 1] == s.(id := s.id + ":b", start := at, duration := s.start + s.duration - at,
                                              trimStart := cut)
                  && (forall k :: 0 <= k < i ==> after.value[k] == segs[k])
                  && forall k :: i < k < |segs| ==> after.value[k + 1] == segs[k])
  {
    FindsTheOne(segs, id, i);
  }

  /** A delete takes the segment out; a ripple delete pulls back what starts no earlier, by its duration. */
  lemma DeleteEffect(segs: seq<Segment>, id: string, i: nat, ripple: bool, project: int, lookup: Lookup)
    requires UniqueIds(segs) && IsAt(segs, id, i)
    ensures var after := Applied(segs, Delete(id, ripple), project, lookup);
            && after.Some? && |after.value| == |segs| - 1
            && forall k :: 0 <= k < |segs| - 1 ==>
                 var s := segs[if k < i then k else k + 1];
                 after.value[k] == if ripple && s.start >= segs[i].start then s.(start := s.start - segs[i].duration) else s
  {
    FindsTheOne(segs, id, i);
  }

  /**
   A new asset must be there, of the same project and, if the old one is still
   there, of the same kind.  The window of the segment is kept where the new
   source covers it; else it begins no later than a millisecond before the end
   of the source, and ends with the source at the latest.
   */
  lemma ReplaceEffect(segs: seq<Segment>, id: string, i: nat, asset: int, project: int, lookup: Lookup)
    requires UniqueIds(segs) && IsAt(segs, id, i)
    ensures var s, after := segs[i], Applied(segs, Replace(id, asset), project, lookup);
            var was, target := lookup(s.asset), lookup(asset);
            && (after.Some? <==>
                  && target.Some? && target.value.project == project
                  && (was.Some? ==> (Still(was.value) && Still(target.value))
                                    || (!Still(was.value) && !Still(target.value)
                                        && Lower(was.value.mediaType) == Lower(target.value.mediaType))))
            && (after.Some? ==>
                  && |after.value| == |segs| && (forall k :: 0 <= k < |segs| && k != i ==> after.value[k] == segs[k])
                  && if Still(target.value) then after.value[i] == s.(asset := asset)
                     else FitsWindow(s, after.value[i], asset, target.value.duration))
  {
    FindsTheOne(segs, id, i);
    var was, target := lookup(segs[i].asset), lookup(asset);
    if was.Some? {
      KindOf(was.value);
    }
    if target.Some? {
      KindOf(target.value);
      if !Still(target.value) {
        RefittedFits(segs[i], asset, target.value.duration);
      }
    }
  }

  lemma KindOf(a: AssetRef)
    ensures BroadKind(a.mediaType) == if Still(a) then "image" else Lower(a.mediaType)
    ensures Still(a) <==> Unbounded(a)
  {
  }

  /** The window of `after` is that of `s` if the source covers it, and else what fits. */
  predicate FitsWindow(s: Segment, after: Segment, asset: int, source: real) {
    var from := TrimStartOf(s);
    var to := if s.trimEnd.Some? then s.trimEnd.value else from + s.duration;
    var latest := if source > 0.001 then source - 0.001 else 0.0;
    if from <= latest && to <= source && s.duration <= to - from then after == s.(asset := asset)
    else
      var begin := if from < latest then from else latest;
      var wanted := if s.trimEnd.Some? then s.trimEnd.value else begin + s.duration;
      var end := if wanted < source then wanted else source;
      after == s.(asset := asset, trimStart := Some(begin), trimEnd := Some(end), duration := end - begin)
  }

  lemma RefittedFits(s: Segment, asset: int, source: real)
    ensures FitsWindow(s, Refitted(s, asset, source), asset, source)
  {
  }

  /** The segment with a new duration, and with a trim end that follows it if its source has an end. */
  predicate Lengthened(s: Segment, after: Segment, duration: real, asset: AssetRef) {
    after == s.(duration := duration,
                trimEnd := if s.trimEnd.Some? && !Still(asset) then Some(TrimStartOf(s) + duration) else s.trimEnd)
  }

  lemma ResizedOrNot(segs: seq<Segment>, i: nat, duration: real, lookup: Lookup)
    requires i < |segs|
    ensures var asset := lookup(segs[i].asset);
            Resized(segs, i, duration, lookup).Some?
            <==> asset.Some? && (Still(asset.value) || TrimStartOf(segs[i]) + duration <= asset.value.duration + 0.000001)
  {
    if lookup(segs[i].asset).Some? {
      StillIsUnbounded(lookup(segs[i].asset).value);
    }
  }

  lemma ResizedSegments(segs: seq<Segment>, i: nat, duration: real, lookup: Lookup)
    requires i < |segs| && Resized(segs, i, duration, lookup).Some?
    ensures lookup(segs[i].asset).Some?
    ensures var s, after := segs[i], Resized(segs, i, duration, lookup).value;
            && |after| == |segs| && Lengthened(s, after[i], duration, lookup(s.asset).value)
            && (forall k :: 0 <= k < i ==> after[k] == segs[k])
            && forall k :: i < k < |segs| ==> after[k] == segs[k].(start := segs[k].start + (duration - s.duration))
  {
    StillIsUnbounded(lookup(segs[i].asset).value);
  }

  /** A resize must leave the segment within its source; what comes behind in the list moves along. */
  lemma ResizeEffect(segs: seq<Segment>, id: string, i: nat, duration: real, project: int, lookup: Lookup)
    requires UniqueIds(segs) && IsAt(segs, id, i)
    ensures var s, after := segs[i], Applied(segs, Resize(id, duration), project, lookup);
            var asset := lookup(s.asset);
            && (after.Some? <==>
                  asset.Some? && (Still(asset.value) || TrimStartOf(s) + duration <= asset.value.duration + 0.000001))
            && (after.Some? ==>
                  && |after.value| == |segs| && Lengthened(s, after.value[i], duration, asset.value)
                  && (forall k :: 0 <= k < i ==> after.value[k] == segs[k])
                  && forall k :: i < k < |segs| ==>
                       after.value[k] == segs[k].(start := segs[k].start + (duration - s.duration)))
  {
    FindsTheOne(segs, id, i);
    ResizedOrNot(segs, i, duration, lookup);
    if Resized(segs, i, duration, lookup).Some? {
      ResizedSegments(segs, i, duration, lookup);
    }
  }

  /** A transition is set unless it has a length of its own. */
  lemma TransitionEffect(segs: seq<Segment>, id: string, i: nat, name: string, length: Option<real>, project: int, lookup: Lookup)
    requires UniqueIds(segs) && IsAt(segs, id, i)
    ensures Applied(segs, SetTransition(id, name, length), project, lookup)
            == if length.Some? then None else Some(segs[i := segs[i].(transition := Some(name))])
  {
    FindsTheOne(segs, id, i);
  }

  // ---- The whole command ----

  /** Every field of the segment is within its limits. */
  predicate InLimits(s: Segment) {
    && 0 < |s.id| <= 100 && 0 < |s.scene| <= 100 && |s.fit| <= 50 && s.asset > 0
    && s.start >= 0.0 && s.duration > 0.0
    && (match s.trimStart case Some(from) => from >= 0.0 case None => true)
    && (match s.trimEnd case Some(to) => to >= 0.0 case None => true)
    && !(s.trimStart.Some? && s.trimEnd.Some? && s.trimStart.value > s.trimEnd.value)
    && (match s.transition case Some(name) => |name| <= 50 case None => true)
  }

  lemma InLimitsIff(s: Segment)
    ensures InLimits(s) <==> SegmentOk(s)
  {
  }

  /** No two segments share an id. */
  predicate DistinctIds(segs: seq<Segment>) {
    forall i, j :: 0 <= i < |segs| && 0 <= j < |segs| && segs[i].id == segs[j].id ==> i == j
  }

  lemma DistinctIff(segs: seq<Segment>)
    ensures DistinctIds(segs) <==> UniqueIds(segs)
  {
  }

  /** Of each two neighbours the first ends, within a nanosecond, before the second starts. */
  predicate Apart(ordered: seq<Segment>) {
    forall i :: 0 < i < |ordered| ==>
      ordered[i - 1].start + ordered[i - 1].duration <= ordered[i].start + 0.000000001
  }

  lemma ApartIff(ordered: seq<Segment>)
    ensures Apart(ordered) <==> NoOverlap(ordered)
  {
    forall i | 0 < i < |ordered|
      ensures ordered[i - 1].start + ordered[i - 1].duration <= ordered[i].start + 0.000000001
              <==> End(ordered[i - 1]) <= ordered[i].start + Slack
    {
    }
  }

  /** What every accepted timeline satisfies: fields within limits, unique ids, and no overlap in time order. */
  lemma ValidIff(segs: seq<Segment>)
    ensures Valid(segs)
            <==> && (forall k :: 0 <= k < |segs| ==> InLimits(segs[k]))
                 && DistinctIds(segs) && Apart(ByStart(segs))
  {
    forall k | 0 <= k < |segs|
      ensures InLimits(segs[k]) <==> SegmentOk(segs[k])
    {
      InLimitsIff(segs[k]);
    }
    DistinctIff(segs);
    ApartIff(ByStart(segs));
  }

  /** A stale command is refused as such; otherwise the timeline changes in its segments only, and only to a valid one. */
  lemma CommandOutcome(t: Timeline, c: Command, base: nat, lookup: Lookup)
    ensures var after := ApplyCommand(t, c, base, lookup);
            && (after == VersionConflict <==> base != t.revision)
            && (after.Edited? ==>
                  && base == t.revision && Valid(after.timeline.segments)
                  && Applied(t.segments, c, t.project, lookup) == Some(after.timeline.segments)
                  && after.timeline == t.(segments := after.timeline.segments))
            && (after == Invalid <==>
                  base == t.revision && (Applied(t.segments, c, t.project, lookup).None?
                                         || !Valid(Applied(t.segments, c, t.project, lookup).value)))
  {
  }
}
