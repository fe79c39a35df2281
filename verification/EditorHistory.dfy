/**
 Undo, redo and atomic batches: two stacks that refine one list of timelines
 with a cursor, whose generations count up from the loaded revision.
 */
module EditorHistory {
  import opened Options
  import opened EditorTimeline
  import opened EditorCommands
  import opened EditorSources

  datatype Entry = Entry(timeline: Timeline, generation: nat)

  datatype History = History(past: seq<Entry>, present: Timeline, generation: nat, future: seq<Entry>)

  function Loaded(t: Timeline): History {
    History([], t, t.revision, [])
  }

  datatype Op =
    | Apply(command: Command)
    | ApplyBatch(commands: seq<Command>)
    | ApplyIfGeneration(commands: seq<Command>, expected: nat)
    | Undo
    | Redo

  // ---- The two stacks ----

  /** Each command on the result of the one before; one failure fails them all. */
  function Folded(t: Timeline, cs: seq<Command>, lookup: Lookup): Outcome {
    if cs == [] then Edited(t)
    else
      var rest := Folded(t, cs[..|cs| - 1], lookup);
      if rest.Edited? then ApplyCommand(rest.timeline, cs[|cs| - 1], rest.timeline.revision, lookup) else rest
  }

  /** What an edit makes of the present, or `None` if it is refused. */
  function Result(h: History, op: Op, lookup: Lookup): Option<Timeline>
    requires !op.Undo? && !op.Redo?
  {
    var outcome :=
      match op
      case Apply(c) => ApplyCommand(h.present, c, h.present.revision, lookup)
      case ApplyBatch(cs) => if cs == [] then Invalid else Folded(h.present, cs, lookup)
      case ApplyIfGeneration(cs, expected) =>
        if expected != h.generation then VersionConflict
        else if cs == [] then Invalid else Folded(h.present, cs, lookup);
    if outcome.Edited? then Some(outcome.timeline) else None
  }

  function Snapshot(h: History): Entry {
    Entry(h.present, h.generation)
  }

  function Next(h: History, op: Op, lookup: Lookup): History {
    match op
    case Undo =>
      if h.past == [] then h
      else
        var e := h.past[|h.past| - 1];
        History(h.past[..|h.past| - 1], e.timeline, e.generation, h.future + [Snapshot(h)])
    case Redo =>
      if h.future == [] then h
      else
        var e := h.future[|h.future| - 1];
        History(h.past + [Snapshot(h)], e.timeline, e.generation, h.future[..|h.future| - 1])
    case _ =>
      var t := Result(h, op, lookup);
      if t.None? then h else History(h.past + [Snapshot(h)], t.value, h.generation + 1, [])
  }

  /** The operation changes the history. */
  predicate Accepts(h: History, op: Op, lookup: Lookup) {
    match op
    case Undo => h.past != []
    case Redo => h.future != []
    case _ => Result(h, op, lookup).Some?
  }

  /** A batch is its commands one after the other, each on the timeline that the one before has left. */
  lemma {:induction false} BatchIsChain(ts: seq<Timeline>, cs: seq<Command>, lookup: Lookup)
    requires |ts| == |cs| + 1
    requires forall k :: 0 <= k < |cs| ==> ApplyCommand(ts[k], cs[k], ts[k].revision, lookup) == Edited(ts[k + 1])
    ensures Folded(ts[0], cs, lookup) == Edited(ts[|cs|])
  {
    if cs != [] {
      BatchIsChain(ts[..|cs|], cs[..|cs| - 1], lookup);
    }
  }

  /** What an edit needs: a command that applies; a batch that is not empty and applies; and the generation it was made for. */
  lemma EditAcceptedIff(h: History, c: Command, cs: seq<Command>, expected: nat, lookup: Lookup)
    ensures Accepts(h, Apply(c), lookup) <==> ApplyCommand(h.present, c, h.present.revision, lookup).Edited?
    ensures Accepts(h, ApplyBatch(cs), lookup) <==> cs != [] && Folded(h.present, cs, lookup).Edited?
    ensures Accepts(h, ApplyIfGeneration(cs, expected), lookup)
            <==> expected == h.generation && Accepts(h, ApplyBatch(cs), lookup)
    ensures Accepts(h, ApplyIfGeneration(cs, expected), lookup) ==>
              Next(h, ApplyIfGeneration(cs, expected), lookup) == Next(h, ApplyBatch(cs), lookup)
    ensures Accepts(h, ApplyBatch(cs), lookup) ==>
              Next(h, ApplyBatch(cs), lookup)
              == History(h.past + [Entry(h.present, h.generation)], Folded(h.present, cs, lookup).timeline, h.generation + 1, [])
  {
  }

  // ---- One list and a cursor ----

  datatype Tape = Tape(entries: seq<Entry>, at: nat)

  function Reversed(es: seq<Entry>): (r: seq<Entry>)
    ensures |r| == |es| && forall k :: 0 <= k < |es| ==> r[k] == es[|es| - 1 - k]
  {
    seq(|es|, k requires 0 <= k < |es| => es[|es| - 1 - k])
  }

  function Abs(h: History): (tape: Tape)
    ensures tape.at < |tape.entries|
  {
    Tape(h.past + [Snapshot(h)] + Reversed(h.future), |h.past|)
  }

  function NextTape(tape: Tape, op: Op, lookup: Lookup): Tape
    requires tape.at < |tape.entries|
  {
    var e := tape.entries[tape.at];
    match op
    case Undo => if tape.at == 0 then tape else tape.(at := tape.at - 1)
    case Redo => if tape.at + 1 == |tape.entries| then tape else tape.(at := tape.at + 1)
    case _ =>
      var t := Result(History([], e.timeline, e.generation, []), op, lookup);
      if t.None? then tape
      else Tape(tape.entries[..tape.at + 1] + [Entry(t.value, e.generation + 1)], tape.at + 1)
  }

  /** The stacks refine the list: undo and redo move the cursor, an edit writes behind it and cuts the rest. */
  lemma RefinesTape(h: History, op: Op, lookup: Lookup)
    ensures Abs(Next(h, op, lookup)) == NextTape(Abs(h), op, lookup)
  {
    var tape, after := Abs(h), Abs(Next(h, op, lookup));
    match op
    case Undo =>
      if h.past != [] {
        assert after.entries == tape.entries;
      }
    case Redo =>
      if h.future != [] {
        assert after.entries == tape.entries;
      }
    case _ =>
      assert tape.entries[..tape.at + 1] == h.past + [Snapshot(h)];
  }

  /** An undo and a redo undo each other, exactly. */
  lemma UndoRedo(h: History, lookup: Lookup)
    ensures h.past != [] ==> Next(Next(h, Undo, lookup), Redo, lookup) == h
    ensures h.future != [] ==> Next(Next(h, Redo, lookup), Undo, lookup) == h
  {
    if h.past != [] {
      assert h.past == h.past[..|h.past| - 1] + [h.past[|h.past| - 1]];
    }
    if h.future != [] {
      assert h.future == h.future[..|h.future| - 1] + [h.future[|h.future| - 1]];
    }
  }

  // ---- What always holds ----

  /** Entry `i` has generation `base + i`, and all entries are edits of one loaded timeline. */
  predicate TapeOk(tape: Tape, origin: Timeline) {
    forall i :: 0 <= i < |tape.entries| ==>
      && tape.entries[i].generation == origin.revision + i
      && tape.entries[i].timeline == origin.(segments := tape.entries[i].timeline.segments)
  }

  lemma {:induction false} FoldedKeepsIdentity(t: Timeline, cs: seq<Command>, lookup: Lookup)
    ensures var out := Folded(t, cs, lookup); out.Edited? ==> out.timeline == t.(segments := out.timeline.segments)
  {
    if cs != [] {
      FoldedKeepsIdentity(t, cs[..|cs| - 1], lookup);
    }
  }

  lemma ResultKeepsIdentity(h: History, op: Op, lookup: Lookup)
    requires !op.Undo? && !op.Redo? && Result(h, op, lookup).Some?
    ensures var t := Result(h, op, lookup).value; t == h.present.(segments := t.segments)
  {
    if !op.Apply? {
      FoldedKeepsIdentity(h.present, op.commands, lookup);
    }
  }

  lemma NextKeepsTapeOk(h: History, op: Op, lookup: Lookup, origin: Timeline)
    requires TapeOk(Abs(h), origin)
    ensures TapeOk(Abs(Next(h, op, lookup)), origin)
  {
    RefinesTape(h, op, lookup);
    assert Abs(h).entries[Abs(h).at] == Snapshot(h);
    if !op.Undo? && !op.Redo? && Result(h, op, lookup).Some? {
      ResultKeepsIdentity(h, op, lookup);
    }
  }

  ghost predicate IsRun(hs: seq<History>, ops: seq<Op>, lookup: Lookup) {
    && |hs| == |ops| + 1 && hs[0] == Loaded(hs[0].present)
    && forall k :: 0 <= k < |ops| ==> hs[k + 1] == Next(hs[k], ops[k], lookup)
  }

  lemma {:induction false} RunIsOk(hs: seq<History>, ops: seq<Op>, lookup: Lookup, n: nat)
    requires IsRun(hs, ops, lookup) && n < |hs|
    ensures TapeOk(Abs(hs[n]), hs[0].present)
    ensures hs[n].generation == hs[0].present.revision + |hs[n].past|
  {
    if n > 0 {
      RunIsOk(hs, ops, lookup, n - 1);
      NextKeepsTapeOk(hs[n - 1], ops[n - 1], lookup, hs[0].present);
    }
    assert Abs(hs[n]).entries[Abs(hs[n]).at] == Snapshot(hs[n]);
  }

  // ---- Source bounds through every operation ----

  predicate EntriesBounded(es: seq<Entry>, lookup: Lookup) {
    forall i :: 0 <= i < |es| ==> AllBounded(es[i].timeline.segments, lookup)
  }

  predicate HistoryBounded(h: History, lookup: Lookup) {
    EntriesBounded(h.past, lookup) && AllBounded(h.present.segments, lookup) && EntriesBounded(h.future, lookup)
  }

  lemma EditKeepsBounds(t: Timeline, c: Command, lookup: Lookup)
    requires AllBounded(t.segments, lookup)
    ensures var out := ApplyCommand(t, c, t.revision, lookup);
            out.Edited? ==> AllBounded(out.timeline.segments, lookup)
  {
    if Applied(t.segments, c, t.project, lookup).Some? {
      CommandKeepsBounds(t.segments, c, t.project, lookup);
    }
  }

  lemma {:induction false} FoldedKeepsBounds(t: Timeline, cs: seq<Command>, lookup: Lookup)
    requires AllBounded(t.segments, lookup)
    ensures var out := Folded(t, cs, lookup); out.Edited? ==> AllBounded(out.timeline.segments, lookup)
  {
    if cs != [] {
      FoldedKeepsBounds(t, cs[..|cs| - 1], lookup);
      var rest := Folded(t, cs[..|cs| - 1], lookup);
      if rest.Edited? {
        EditKeepsBounds(rest.timeline, cs[|cs| - 1], lookup);
      }
    }
  }

  lemma NextKeepsBounds(h: History, op: Op, lookup: Lookup)
    requires HistoryBounded(h, lookup)
    ensures HistoryBounded(Next(h, op, lookup), lookup)
  {
    match op
    case Undo =>
    case Redo =>
    case Apply(c) => EditKeepsBounds(h.present, c, lookup);
    case ApplyBatch(cs) => FoldedKeepsBounds(h.present, cs, lookup);
    case ApplyIfGeneration(cs, _) => FoldedKeepsBounds(h.present, cs, lookup);
  }

  /** No sequence of edits, batches, undos and redos takes a segment out of its source by more than one tolerance. */
  lemma {:induction false} EveryStateIsBounded(hs: seq<History>, ops: seq<Op>, lookup: Lookup, n: nat)
    requires IsRun(hs, ops, lookup) && n < |hs| && AllBounded(hs[0].present.segments, lookup)
    ensures HistoryBounded(hs[n], lookup)
  {
    if n > 0 {
      EveryStateIsBounded(hs, ops, lookup, n - 1);
      NextKeepsBounds(hs[n - 1], ops[n - 1], lookup);
    }
  }

  // ---- Proposals of one generation ----

  lemma RedoRaises(h: History, lookup: Lookup, origin: Timeline)
    requires TapeOk(Abs(h), origin) && h.future != []
    ensures Next(h, Redo, lookup).generation == h.generation + 1
  {
    var tape := Abs(h);
    assert tape.entries[tape.at] == Snapshot(h) && tape.entries[tape.at + 1] == h.future[|h.future| - 1];
  }

  /** Only an undo brings the generation down. */
  lemma FallIsUndo(h: History, op: Op, lookup: Lookup, origin: Timeline)
    requires TapeOk(Abs(h), origin) && Next(h, op, lookup).generation < h.generation
    ensures op.Undo? && h.past != []
  {
    if op.Redo? && h.future != [] {
      RedoRaises(h, lookup, origin);
    }
  }

  lemma {:induction false} FindFall(hs: seq<History>, ops: seq<Op>, lookup: Lookup, a: nat, b: nat) returns (k: nat)
    requires IsRun(hs, ops, lookup) && a <= b < |hs| && hs[b].generation < hs[a].generation
    ensures a <= k < b && ops[k].Undo? && hs[k].past != []
  {
    if hs[b].generation < hs[b - 1].generation {
      k := b - 1;
      RunIsOk(hs, ops, lookup, k);
      FallIsUndo(hs[k], ops[k], lookup, hs[0].present);
    } else {
      k := FindFall(hs, ops, lookup, a, b - 1);
    }
  }

  /** Two proposals built against the same generation are both accepted only if an undo came in between. */
  lemma BothAcceptedOnlyAfterUndo(hs: seq<History>, ops: seq<Op>, lookup: Lookup, a: nat, b: nat) returns (k: nat)
    requires IsRun(hs, ops, lookup) && a < b < |ops|
    requires ops[a].ApplyIfGeneration? && ops[b].ApplyIfGeneration? && ops[a].expected == ops[b].expected
    requires Accepts(hs[a], ops[a], lookup) && Accepts(hs[b], ops[b], lookup)
    ensures a < k < b && ops[k].Undo? && hs[k].past != []
  {
    k := FindFall(hs, ops, lookup, a + 1, b);
  }

  /** A generation does not name a timeline: after an undo, a new edit reuses it. */
  lemma GenerationsRepeat(h: History, c: Command, d: Command, lookup: Lookup)
    requires Accepts(h, Apply(c), lookup) && Accepts(h, Apply(d), lookup)
    ensures var first := Next(h, Apply(c), lookup);
            var second := Next(Next(first, Undo, lookup), Apply(d), lookup);
            && first.generation == second.generation
            && second.present == ApplyCommand(h.present, d, h.present.revision, lookup).timeline
            && second.future == []
  {
    var first := Next(h, Apply(c), lookup);
    assert first.past == h.past + [Snapshot(h)] && first.past[..|first.past| - 1] == h.past;
  }

  // ---- The history object ----

  class EditorHistory {
    var past: seq<Entry>
    var present: Timeline
    var generation: nat
    var future: seq<Entry>
    const lookup: Lookup

    function View(): History
      reads this
    {
      History(past, present, generation, future)
    }

    constructor (timeline: Timeline, lookup: Lookup)
      ensures View() == Loaded(timeline) && this.lookup == lookup
    {
      past, present, generation, future := [], timeline, timeline.revision, [];
      this.lookup := lookup;
    }

    method Record(edited: Timeline)
      modifies this
      ensures View() == History(old(past) + [Snapshot(old(View()))], edited, old(generation) + 1, [])
    {
      past := past + [Entry(present, generation)];
      present := edited;
      generation := generation + 1;
      future := [];
    }

    method Apply(command: Command) returns (outcome: Outcome)
      modifies this
      ensures outcome == ApplyCommand(old(present), command, old(present).revision, lookup)
      ensures View() == Next(old(View()), Op.Apply(command), lookup)
    {
      outcome := ApplyCommand(present, command, present.revision, lookup);
      if outcome.Edited? {
        Record(outcome.timeline);
      }
    }

    /** Apply the commands to a working copy; record it once, or leave everything as it was. */
    method ApplyBatch(commands: seq<Command>) returns (outcome: Outcome)
      modifies this
      ensures outcome.Edited? <==> Accepts(old(View()), Op.ApplyBatch(commands), lookup)
      ensures View() == Next(old(View()), Op.ApplyBatch(commands), lookup)
      ensures outcome.Edited? ==> outcome.timeline == present
    {
      if commands == [] {
        return Invalid;
      }
      var working := present;
      for k := 0 to |commands|
        invariant Folded(present, commands[..k], lookup) == Edited(working)
        invariant View() == old(View())
      {
        assert commands[..k + 1][..k] == commands[..k];
        outcome := ApplyCommand(working, commands[k], working.revision, lookup);
        if !outcome.Edited? {
          FailureStays(present, commands, k + 1, lookup);
          return;
        }
        working := outcome.timeline;
      }
      assert commands[..|commands|] == commands;
      Record(working);
      outcome := Edited(working);
    }

    method ApplyBatchIfGeneration(commands: seq<Command>, expected: nat) returns (outcome: Outcome)
      modifies this
      ensures outcome.Edited? <==> Accepts(old(View()), Op.ApplyIfGeneration(commands, expected), lookup)
      ensures expected != old(generation) ==> outcome == VersionConflict
      ensures View() == Next(old(View()), Op.ApplyIfGeneration(commands, expected), lookup)
      ensures outcome.Edited? ==> outcome.timeline == present
    {
      if expected != generation {
        return VersionConflict;
      }
      outcome := ApplyBatch(commands);
    }

    method Undo() returns (ok: bool)
      modifies this
      ensures ok == (old(past) != []) && View() == Next(old(View()), Op.Undo, lookup)
    {
      if past == [] {
        return false;
      }
      future := future + [Entry(present, generation)];
      var entry := past[|past| - 1];
      past := past[..|past| - 1];
      present, generation := entry.timeline, entry.generation;
      return true;
    }

    method Redo() returns (ok: bool)
      modifies this
      ensures ok == (old(future) != []) && View() == Next(old(View()), Op.Redo, lookup)
    {
      if future == [] {
        return false;
      }
      past := past + [Entry(present, generation)];
      var entry := future[|future| - 1];
      future := future[..|future| - 1];
      present, generation := entry.timeline, entry.generation;
      return true;
    }
  }

  /** A batch whose prefix fails fails. */
  lemma {:induction false} FailureStays(t: Timeline, cs: seq<Command>, k: nat, lookup: Lookup)
    requires k <= |cs| && !Folded(t, cs[..k], lookup).Edited?
    ensures Folded(t, cs, lookup) == Folded(t, cs[..k], lookup)
  {
    if k == |cs| {
      assert cs[..k] == cs;
    } else {
      assert cs[..|cs| - 1][..k] == cs[..k];
      FailureStays(t, cs[..|cs| - 1], k, lookup);
    }
  }
}
