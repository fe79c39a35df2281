/** Editor commands, each applied to a whole timeline or refused as a whole. */
module EditorCommands {
  import opened Options
  import opened EditorTimeline

  datatype AssetRef = AssetRef(project: int, mediaType: string, duration: real)

  /** What the workspace-scoped lookup answers for an asset id. */
  type Lookup = int -> Option<AssetRef>

  datatype Command =
    | Trim(segment: string, trimStart: real, trimEnd: real)
    | Split(segment: string, at: real)
    | Delete(segment: string, ripple: bool)
    | Replace(segment: string, asset: int)
    | Move(segment: string, index: nat)
    | Resize(segment: string, duration: real)
    | SetTransition(segment: string, transition: string, length: Option<real>)
    | NotForTimeline   // output, style and audio commands

  /** A refused command names its error; the timeline is as it was. */
  datatype Outcome = Edited(timeline: Timeline) | Invalid | VersionConflict

  const Tolerance: real := 0.000001

  // ---- Assets ----

  function LowerChar(c: char): char {
    if 'A' <= c <= 'Z' then c - 'A' + 'a' else c
  }

  function Lower(s: string): string {
    seq(|s|, i requires 0 <= i < |s| => LowerChar(s[i]))
  }

  predicate ImageKind(mediaType: string) {
    mediaType == "IMAGE" || mediaType == "LOGO" || mediaType == "GRAPHIC"
  }

  function BroadKind(mediaType: string): string {
    if ImageKind(mediaType) then "image" else Lower(mediaType)
  }

  predicate Unbounded(a: AssetRef) {
    BroadKind(a.mediaType) == "image"
  }

  // ---- Lists of segments ----

  /** The position of the segment with the id. */
  function Find(segs: seq<Segment>, id: string): (i: Option<nat>)
    ensures i.Some? ==> i.value < |segs| && segs[i.value].id == id
    ensures i.None? ==> forall k :: 0 <= k < |segs| ==> segs[k].id != id
  {
    if segs == [] then None
    else if segs[0].id == id then Some(0)
    else
      var i := Find(segs[1..], id);
      assert forall k :: 0 < k < |segs| ==> segs[k] == segs[1..][k - 1];
      if i.Some? then Some(i.value + 1) else None
  }

  /** The same segments laid end to end from `cursor`. */
  function Resequenced(segs: seq<Segment>, cursor: real): (r: seq<Segment>)
    ensures |r| == |segs|
  {
    if segs == [] then [] else [segs[0].(start := cursor)] + Resequenced(segs[1..], cursor + segs[0].duration)
  }

  function Shifted(segs: seq<Segment>, delta: real): seq<Segment> {
    seq(|segs|, i requires 0 <= i < |segs| => segs[i].(start := segs[i].start + delta))
  }

  function Removed(segs: seq<Segment>, i: nat): seq<Segment>
    requires i < |segs|
  {
    segs[..i] + segs[i + 1..]
  }

  function InsertedAt(segs: seq<Segment>, i: nat, s: Segment): seq<Segment>
    requires i <= |segs|
  {
    segs[..i] + [s] + segs[i..]
  }

  /** Segments that start at `from` or later move back by `by`. */
  function PulledBack(segs: seq<Segment>, from: real, length: real): seq<Segment> {
    seq(|segs|, i requires 0 <= i < |segs| =>
      if segs[i].start >= from then segs[i].(start := segs[i].start - length) else segs[i])
  }

  // ---- Commands ----

  function Trimmed(segs: seq<Segment>, i: nat, from: real, to: real, lookup: Lookup): Option<seq<Segment>>
    requires i < |segs|
  {
    var asset := lookup(segs[i].asset);
    if from > to || asset.None? || (!Unbounded(asset.value) && to > asset.value.duration + Tolerance) then None
    else Some(segs[i := segs[i].(trimStart := Some(from), trimEnd := Some(to), duration := to - from)])
  }

  function SplitPoint(s: Segment, at: real): Option<real> {
    if s.trimStart.Some? then Some(s.trimStart.value + (at - s.start)) else None
  }

  function LeftOf(s: Segment, at: real): Segment {
    s.(id := s.id + ":a", duration := at - s.start, trimEnd := SplitPoint(s, at))
  }

  function RightOf(s: Segment, at: real): Segment {
    s.(id := s.id + ":b", start := at, duration := End(s) - at, trimStart := SplitPoint(s, at))
  }

  predicate StrictlyInside(s: Segment, at: real) {
    s.start + Slack < at < End(s) - Slack
  }

  function SplitAt(segs: seq<Segment>, i: nat, at: real): seq<Segment>
    requires i < |segs|
  {
    segs[..i] + [LeftOf(segs[i], at), RightOf(segs[i], at)] + segs[i + 1..]
  }

  /** The asset changes; the trims and the duration only when the new source is too short for them. */
  function Refitted(s: Segment, asset: int, source: real): Segment {
    var latest := if source - 0.001 > 0.0 then source - 0.001 else 0.0;
    var from := if From(s) < latest then From(s) else latest;
    var wanted := if s.trimEnd.Some? then s.trimEnd.value else from + s.duration;
    var to := if wanted < source then wanted else source;
    if to < wanted || From(s) != from || s.duration > to - from
    then s.(asset := asset, trimStart := Some(from), trimEnd := Some(to), duration := to - from)
    else s.(asset := asset)
  }

  function Replaced(segs: seq<Segment>, i: nat, asset: int, project: int, lookup: Lookup): Option<seq<Segment>>
    requires i < |segs|
  {
    var before, after := lookup(segs[i].asset), lookup(asset);
    if after.None? || after.value.project != project then None
    else if before.Some? && BroadKind(before.value.mediaType) != BroadKind(after.value.mediaType) then None
    else if Unbounded(after.value) then Some(segs[i := segs[i].(asset := asset)])
    else Some(segs[i := Refitted(segs[i], asset, after.value.duration)])
  }

  function Moved(segs: seq<Segment>, i: nat, to: nat): Option<seq<Segment>>
    requires i < |segs|
  {
    if to >= |segs| then None else Some(Resequenced(InsertedAt(Removed(segs, i), to, segs[i]), 0.0))
  }

  function Resized(segs: seq<Segment>, i: nat, duration: real, lookup: Lookup): Option<seq<Segment>>
    requires i < |segs|
  {
    var s, asset := segs[i], lookup(segs[i].asset);
    if asset.None? then None
    else if !Unbounded(asset.value) && duration > asset.value.duration - From(s) + Tolerance then None
    else
      var trimEnd := if !Unbounded(asset.value) && s.trimEnd.Some? then Some(From(s) + duration) else s.trimEnd;
      Some(segs[..i] + [s.(duration := duration, trimEnd := trimEnd)] + Shifted(segs[i + 1..], duration - s.duration))
  }

  /** The segments after a command, before they are checked. */
  function Applied(segs: seq<Segment>, c: Command, project: int, lookup: Lookup): Option<seq<Segment>> {
    if c.NotForTimeline? || (c.SetTransition? && c.length.Some?) || Find(segs, c.segment).None? then None
    else
      var i := Find(segs, c.segment).value;
      match c
      case Trim(_, from, to) => Trimmed(segs, i, from, to, lookup)
      case Split(_, at) => if StrictlyInside(segs[i], at) then Some(SplitAt(segs, i, at)) else None
      case Delete(_, ripple) =>
        Some(if ripple then PulledBack(Removed(segs, i), segs[i].start, segs[i].duration) else Removed(segs, i))
      case Replace(_, asset) => Replaced(segs, i, asset, project, lookup)
      case Move(_, to) => Moved(segs, i, to)
      case Resize(_, duration) => Resized(segs, i, duration, lookup)
      case SetTransition(_, transition, _) => Some(segs[i := segs[i].(transition := Some(transition))])
  }

  function ApplyCommand(t: Timeline, c: Command, base: nat, lookup: Lookup): Outcome {
    if base != t.revision then VersionConflict
    else
      var segs := Applied(t.segments, c, t.project, lookup);
      if segs.None? || !Valid(segs.value) then Invalid else Edited(t.(segments := segs.value))
  }

  // ---- The loops of the applier ----

  method FindSegment(segs: seq<Segment>, id: string) returns (found: Option<Segment>)
    ensures var i := Find(segs, id); found == if i.Some? then Some(segs[i.value]) else None
  {
    for k := 0 to |segs|
      invariant Find(segs, id) == var i := Find(segs[k..], id); if i.Some? then Some(i.value + k) else None
    {
      assert segs[k..][1..] == segs[k + 1..];
      if segs[k].id == id {
        return Some(segs[k]);
      }
    }
    return None;
  }

  method Resequence(segs: seq<Segment>) returns (placed: seq<Segment>)
    ensures placed == Resequenced(segs, 0.0)
  {
    var cursor := 0.0;
    placed := [];
    for k := 0 to |segs|
      invariant Resequenced(segs, 0.0) == placed + Resequenced(segs[k..], cursor)
    {
      assert segs[k..][1..] == segs[k + 1..];
      placed := placed + [segs[k].(start := cursor)];
      cursor := cursor + segs[k].duration;
    }
  }

  /** Splitting a longer prefix appends to the split of a shorter one. */
  lemma SplitGrows(segs: seq<Segment>, i: nat, at: real, k: nat)
    requires i < |segs| && k < |segs|
    ensures k < i ==> segs[..k + 1] == segs[..k] + [segs[k]]
    ensures k == i ==> SplitAt(segs[..k + 1], i, at) == segs[..k] + [LeftOf(segs[k], at), RightOf(segs[k], at)]
    ensures k > i ==> SplitAt(segs[..k + 1], i, at) == SplitAt(segs[..k], i, at) + [segs[k]]
  {
    if k == i {
      assert segs[..k + 1][i + 1..] == [];
    } else if k > i {
      assert segs[..k + 1][i + 1..] == segs[..k][i + 1..] + [segs[k]];
    }
  }

  method ApplySplit(segs: seq<Segment>, id: string, at: real) returns (result: Option<seq<Segment>>)
    requires UniqueIds(segs)
    ensures result == Applied(segs, Split(id, at), 0, (a: int) => None)
  {
    var target := FindSegment(segs, id);
    if target.None? {
      return None;
    }
    var start, end := target.value.start, target.value.start + target.value.duration;
    if at <= start + Slack || at >= end - Slack {
      return None;
    }
    var trimSplit := if target.value.trimStart.Some? then Some(target.value.trimStart.value + (at - start)) else None;
    var parts: seq<Segment> := [];
    ghost var i := Find(segs, id).value;
    for k := 0 to |segs|
      invariant k <= i ==> parts == segs[..k]
      invariant k > i ==> parts == SplitAt(segs[..k], i, at)
    {
      SplitGrows(segs, i, at, k);
      var s := segs[k];
      if s.id != id {
        parts := parts + [s];
      } else {
        parts := parts + [s.(id := s.id + ":a", duration := at - start, trimEnd := trimSplit),
                          s.(id := s.id + ":b", start := at, duration := end - at, trimStart := trimSplit)];
      }
    }
    assert segs[..|segs|] == segs;
    return Some(parts);
  }
}
