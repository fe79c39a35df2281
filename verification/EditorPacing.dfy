/**
 Pacing proposals: scale the durations of the segments in scope, clamped to
 their sources, with resize and transition commands that the applier accepts.
 */
module EditorPacing {
  import opened Options
  import opened EditorTimeline
  import opened EditorCommands
  import opened EditorHistory

  datatype Proposal = Proposal(base: nat, commands: seq<Command>)

  /** What the caller asks for; no scenes means all of them. */
  datatype Request = Request(factor: real, scenes: Option<set<string>>, transition: Option<string>)

  predicate Supported(transition: string) {
    transition == "cut" || transition == "fade" || transition == "ken_burns" || transition == "ken_burns_lite"
  }

  predicate InScope(s: Segment, scenes: Option<set<string>>) {
    scenes.Some? ==> s.scene in scenes.value
  }

  function Magnitude(x: real): real {
    if x < 0.0 then -x else x
  }

  /** The duration that the factor asks for, no longer than what is left of the source. */
  function Wanted(s: Segment, factor: real, asset: AssetRef): real {
    var requested := s.duration * factor;
    var available := asset.duration - From(s);
    if !ImageKind(asset.mediaType) && available < requested then available else requested
  }

  /** The new duration, if it is one and differs from the old. */
  function PacedDuration(s: Segment, factor: real, asset: AssetRef): Option<real> {
    var wanted := Wanted(s, factor, asset);
    if wanted <= 0.0 || Magnitude(wanted - s.duration) <= Tolerance then None else Some(wanted)
  }

  /** The commands for one segment; `None` is a validation error. */
  function CommandsFor(s: Segment, r: Request, lookup: Lookup): Option<seq<Command>> {
    var asset := lookup(s.asset);
    var restyle := r.transition.Some? && s.transition != r.transition;
    if asset.None? || (restyle && !Supported(r.transition.value)) then None
    else
      var resized := PacedDuration(s, r.factor, asset.value);
      Some((if resized.Some? then [Resize(s.id, resized.value)] else [])
           + (if restyle then [SetTransition(s.id, r.transition.value, None)] else []))
  }

  /** The commands for the segments in scope, in order. */
  function CommandsIn(segs: seq<Segment>, r: Request, lookup: Lookup): Option<seq<Command>> {
    if segs == [] then Some([])
    else
      var s := segs[|segs| - 1];
      var rest := CommandsIn(segs[..|segs| - 1], r, lookup);
      var last := if InScope(s, r.scenes) then CommandsFor(s, r, lookup) else Some([]);
      if rest.None? || last.None? then None else Some(rest.value + last.value)
  }

  predicate Refused(segs: seq<Segment>, r: Request) {
    || r.factor <= 0.0 || Magnitude(r.factor - 1.0) <= Tolerance
    || (r.scenes.Some? && exists scene :: scene in r.scenes.value && forall k :: 0 <= k < |segs| ==> segs[k].scene != scene)
    || (r.scenes.Some? && forall k :: 0 <= k < |segs| ==> !InScope(segs[k], r.scenes))
  }

  function Built(h: History, r: Request, lookup: Lookup): Option<Proposal> {
    var ordered := ByStart(h.present.segments);
    var commands := CommandsIn(ordered, r, lookup);
    if Refused(ordered, r) || commands.None? || commands.value == [] then None
    else Some(Proposal(h.generation, commands.value))
  }

  // ---- The builder's loops ----

  function Selected(segs: seq<Segment>, scenes: Option<set<string>>): seq<Segment> {
    if segs == [] then []
    else
      var s := segs[|segs| - 1];
      Selected(segs[..|segs| - 1], scenes) + if InScope(s, scenes) then [s] else []
  }

  lemma {:induction false} SelectedCommands(segs: seq<Segment>, r: Request, lookup: Lookup)
    ensures CommandsIn(Selected(segs, r.scenes), r, lookup) == CommandsIn(segs, r, lookup)
  {
    if segs != [] {
      var rest := Selected(segs[..|segs| - 1], r.scenes);
      SelectedCommands(segs[..|segs| - 1], r, lookup);
      if InScope(segs[|segs| - 1], r.scenes) {
        assert Selected(segs, r.scenes)[..|rest|] == rest;
      } else {
        assert Selected(segs, r.scenes) == rest;
        var commands := CommandsIn(segs[..|segs| - 1], r, lookup);
        assert commands.Some? ==> commands.value + [] == commands.value;
      }
    }
  }

  lemma {:induction false} SelectedAll(segs: seq<Segment>)
    ensures Selected(segs, None) == segs
  {
    if segs != [] {
      SelectedAll(segs[..|segs| - 1]);
    }
  }

  lemma {:induction false} SelectedNone(segs: seq<Segment>, scenes: Option<set<string>>)
    ensures Selected(segs, scenes) == [] <==> forall k :: 0 <= k < |segs| ==> !InScope(segs[k], scenes)
    ensures forall k :: 0 <= k < |Selected(segs, scenes)| ==> InScope(Selected(segs, scenes)[k], scenes)
  {
    if segs != [] {
      SelectedNone(segs[..|segs| - 1], scenes);
    }
  }

  lemma CommandsFailEarly(segs: seq<Segment>, k: nat, r: Request, lookup: Lookup)
    requires k <= |segs| && CommandsIn(segs[..k], r, lookup).None?
    ensures CommandsIn(segs, r, lookup).None?
    decreases |segs|
  {
    if k == |segs| {
      assert segs[..k] == segs;
    } else {
      assert segs[..|segs| - 1][..k] == segs[..k];
      CommandsFailEarly(segs[..|segs| - 1], k, r, lookup);
    }
  }

  /** The segments in scope, in time order; `None` for an unknown scene or an empty scope. */
  method SelectScope(ordered: seq<Segment>, scenes: Option<set<string>>) returns (scope: Option<seq<Segment>>)
    ensures scope.None? <==> scenes.Some? && ((exists scene :: scene in scenes.value
                                                && forall k :: 0 <= k < |ordered| ==> ordered[k].scene != scene)
                                              || forall k :: 0 <= k < |ordered| ==> !InScope(ordered[k], scenes))
    ensures scope.Some? ==> scope.value == Selected(ordered, scenes)
  {
    if scenes.None? {
      SelectedAll(ordered);
      return Some(ordered);
    }
    var present := set k | 0 <= k < |ordered| :: ordered[k].scene;
    if scenes.value - present != {} {
      assert exists scene :: scene in scenes.value - present;
      assert forall k :: 0 <= k < |ordered| ==> ordered[k].scene in present;
      return None;
    }
    assert forall scene :: scene in scenes.value && scene !in present ==> scene in scenes.value - present;
    var kept: seq<Segment> := [];
    for k := 0 to |ordered|
      invariant kept == Selected(ordered[..k], scenes)
    {
      assert ordered[..k + 1][..k] == ordered[..k];
      if ordered[k].scene in scenes.value {
        kept := kept + [ordered[k]];
      }
    }
    assert ordered[..|ordered|] == ordered;
    SelectedNone(ordered, scenes);
    return if kept == [] then None else Some(kept);
  }

  /** The factor times the duration, cut off at what is left of the source unless it is an image. */
  function Proportional(s: Segment, factor: real, asset: AssetRef): real {
    var scaled := s.duration * factor;
    var left := asset.duration - if s.trimStart.Some? then s.trimStart.value else 0.0;
    var image := asset.mediaType == "IMAGE" || asset.mediaType == "LOGO" || asset.mediaType == "GRAPHIC";
    if image || scaled <= left then scaled else left
  }

  /** Positive, and different from the old duration by more than a millionth. */
  predicate IsChange(s: Segment, duration: real) {
    duration > 0.0 && (duration < s.duration - 0.000001 || duration > s.duration + 0.000001)
  }

  lemma WantedIsProportional(s: Segment, factor: real, asset: AssetRef)
    ensures Wanted(s, factor, asset) == Proportional(s, factor, asset)
  {
  }

  lemma PacedIfChange(s: Segment, factor: real, asset: AssetRef)
    ensures var d := Proportional(s, factor, asset);
            PacedDuration(s, factor, asset) == if IsChange(s, d) then Some(d) else None
  {
    WantedIsProportional(s, factor, asset);
  }

  /** A resize is proposed exactly for the proportional duration, and only if that is a change. */
  lemma ResizeIsProportional(s: Segment, r: Request, lookup: Lookup, d: real)
    requires CommandsFor(s, r, lookup).Some?
    ensures Resize(s.id, d) in CommandsFor(s, r, lookup).value
            <==> d == Proportional(s, r.factor, lookup(s.asset).value) && IsChange(s, d)
  {
    PacedIfChange(s, r.factor, lookup(s.asset).value);
  }

  /**
   A proposal is built exactly for a positive factor that differs from one by more
   than a millionth, for scenes that all occur, if the commands of the segments in
   scope are all valid and there are any; it is based on the present generation.
   */
  lemma BuiltIff(h: History, r: Request, lookup: Lookup)
    ensures var ordered := ByStart(h.present.segments);
            var commands := CommandsIn(ordered, r, lookup);
            && (Built(h, r, lookup).Some? <==>
                  && r.factor > 0.0 && (r.factor < 1.0 - 0.000001 || r.factor > 1.0 + 0.000001)
                  && (r.scenes.Some? ==>
                        && (forall scene :: scene in r.scenes.value ==> exists k :: 0 <= k < |ordered| && ordered[k].scene == scene)
                        && exists k :: 0 <= k < |ordered| && ordered[k].scene in r.scenes.value)
                  && commands.Some? && commands.value != [])
            && (Built(h, r, lookup).Some? ==> Built(h, r, lookup) == Some(Proposal(h.generation, commands.value)))
  {
  }

  /** The transition of a segment: only if one is asked for that it does not have yet, and one of the four that are offered. */
  lemma RestyleIsOffered(s: Segment, r: Request, lookup: Lookup, name: string)
    ensures CommandsFor(s, r, lookup).None?
            <==> || lookup(s.asset).None?
                 || (r.transition.Some? && s.transition != r.transition
                     && r.transition.value !in {"cut", "fade", "ken_burns", "ken_burns_lite"})
    ensures CommandsFor(s, r, lookup).Some? ==>
              var commands := CommandsFor(s, r, lookup).value;
              && |commands| <= 2 && (forall c :: c in commands ==> c.Resize? || c == SetTransition(s.id, c.transition, None))
              && (SetTransition(s.id, name, None) in commands <==> r.transition == Some(name) && s.transition != Some(name))
  {
  }

  method SegmentCommands(s: Segment, r: Request, lookup: Lookup) returns (commands: Option<seq<Command>>)
    ensures commands == CommandsFor(s, r, lookup)
  {
    var asset := lookup(s.asset);
    if asset.None? {
      return None;
    }
    var added: seq<Command> := [];
    var resized := PacedDuration(s, r.factor, asset.value);
    if resized.Some? {
      added := [Resize(s.id, resized.value)];
    }
    if r.transition.None? || s.transition == r.transition {
      assert added + [] == added;
      return Some(added);
    }
    if !Supported(r.transition.value) {
      return None;
    }
    return Some(added + [SetTransition(s.id, r.transition.value, None)]);
  }

  method ScopeCommands(scope: seq<Segment>, r: Request, lookup: Lookup) returns (commands: Option<seq<Command>>)
    requires forall k :: 0 <= k < |scope| ==> InScope(scope[k], r.scenes)
    ensures commands == CommandsIn(scope, r, lookup)
  {
    var sofar: seq<Command> := [];
    for k := 0 to |scope|
      invariant CommandsIn(scope[..k], r, lookup) == Some(sofar)
    {
      assert scope[..k + 1][..k] == scope[..k];
      var added := SegmentCommands(scope[k], r, lookup);
      if added.None? {
        CommandsFailEarly(scope, k + 1, r, lookup);
        return None;
      }
      sofar := sofar + added.value;
    }
    assert scope[..|scope|] == scope;
    return Some(sofar);
  }

  method BuildPacingProposal(h: History, r: Request, lookup: Lookup) returns (proposal: Option<Proposal>)
    ensures proposal == Built(h, r, lookup)
  {
    if r.factor <= 0.0 || Magnitude(r.factor - 1.0) <= Tolerance {
      return None;
    }
    var ordered := ByStart(h.present.segments);
    var scope := SelectScope(ordered, r.scenes);
    if scope.None? {
      return None;
    }
    SelectedCommands(ordered, r, lookup);
    SelectedNone(ordered, r.scenes);
    var commands := ScopeCommands(scope.value, r, lookup);
    return if commands.None? || commands.value == [] then None else Some(Proposal(h.generation, commands.value));
  }
}
