/**
 Recovery after the message broker has been replaced.  A serialized recovery
 pass runs beside dispatchers, workers, reconcilers and further replacements of
 the broker, and may crash anywhere.
 */
module BrokerRecovery {
  import opened Options
  import opened TaskRows
  import opened TaskTracking
  import opened TaskTheorems

  /** A row as the recovery listing returned it. */
  datatype Listed = Listed(id: nat, generation: Option<Epoch>)

  /** Where a recovery pass stands, with what it has read so far. */
  datatype Pass =
    | Idle
    | EpochRead(epoch: Epoch)
    | Candidates(epoch: Epoch, active: set<Epoch>)
    | Confirmed(epoch: Epoch, active: set<Epoch>)
    | DurableRead(epoch: Epoch, active: set<Epoch>, durable: Option<Epoch>)
    | Persisted(epoch: Epoch)
    | ObsoleteRead(epoch: Epoch, obsolete: set<Epoch>)
    | Recovering(epoch: Epoch, obsolete: set<Epoch>, todo: seq<Listed>)

  /** The task store, the broker's epoch, the epoch file and the recovery pass. */
  datatype System = System(world: World, current: Epoch, file: Option<Epoch>, pass: Pass)

  datatype Event =
    | Replace(epoch: Epoch)             // the broker is replaced by a newer one
    | Other(st: Step)                   // any other process takes a step
    | Crash                             // the pass stops where it is
    | ReadEpoch
    | ListCandidates
    | ConfirmEpoch
    | ReadDurable
    | UseFallback
    | Persist(evidence: bool)
    | ReadObsolete
    | ListTasks(listing: seq<Listed>)
    | MarkNext(now: int)
    | Complete(generation: Epoch)
    | WriteFile

  function ActiveGenerations(s: Store): set<Epoch> {
    set id | id in s.rows && Active(s.rows[id].status) && s.rows[id].generation.Some? :: s.rows[id].generation.value
  }

  function LostWrite(now: int): Write {
    Write(Failed, None, Some(now), None, Some(BrokerCleanup),
          Some(TaskRows.Text.Other("Broker replacement recovery requires compensation")))
  }

  function Lost(now: int): RowOp {
    SetIfActive(LostWrite(now))
  }

  /** The head of the work list is failed if its listed generation is obsolete. */
  predicate Marks(b: System) {
    b.pass.Recovering? && b.pass.todo != []
    && b.pass.todo[0].generation.Some? && b.pass.todo[0].generation.value in b.pass.obsolete
    && Edits(b.world.store, b.pass.todo[0].id, Lost(0), 0)
  }

  function SetEpoch(b: System, epoch: Epoch, previous: Option<Epoch>, active: set<Epoch>): World {
    Next(b.world, EpochStep(epoch, previous, active))
  }

  /** Replaced without evidence that the old queue is gone: the pass gives up. */
  predicate Defers(p: Pass, evidence: bool)
    requires p.DurableRead?
  {
    p.durable.Some? && p.durable.value != p.epoch && !evidence
  }

  function After(b: System, ev: Event): System {
    match ev
    case Replace(epoch) => if epoch > b.current then b.(current := epoch) else b
    case Other(st) => b.(world := Next(b.world, st))
    case Crash => b.(pass := Idle)
    case ReadEpoch => if b.pass.Idle? then b.(pass := EpochRead(b.current)) else b
    case ListCandidates =>
      if b.pass.EpochRead? then b.(pass := Candidates(b.pass.epoch, ActiveGenerations(b.world.store))) else b
    case ConfirmEpoch =>
      if b.pass.Candidates? then
        b.(pass := if b.current == b.pass.epoch then Confirmed(b.pass.epoch, b.pass.active) else Idle)
      else b
    case ReadDurable =>
      if b.pass.Confirmed? then b.(pass := DurableRead(b.pass.epoch, b.pass.active, b.world.store.observed)) else b
    case UseFallback =>
      if b.pass.DurableRead? && b.pass.durable.None? && b.file.Some? then
        if EpochAccepted(b.world.store, None)
        then b.(world := SetEpoch(b, b.file.value, None, {}), pass := b.pass.(durable := b.file))
        else b.(pass := Idle)
      else b
    case Persist(evidence) =>
      if b.pass.DurableRead? && !(b.pass.durable.None? && b.file.Some?) then
        if Defers(b.pass, evidence) || !EpochAccepted(b.world.store, b.pass.durable) then b.(pass := Idle)
        else b.(world := SetEpoch(b, b.pass.epoch, b.pass.durable, b.pass.active),
                pass := if evidence then Persisted(b.pass.epoch) else Recovering(b.pass.epoch, {}, []))
      else b
    case ReadObsolete =>
      if b.pass.Persisted? then b.(pass := ObsoleteRead(b.pass.epoch, b.world.store.obsolete)) else b
    case ListTasks(listing) =>
      if b.pass.ObsoleteRead? && Lists(b.world.store, listing)
      then b.(pass := Recovering(b.pass.epoch, b.pass.obsolete, listing)) else b
    case MarkNext(now) =>
      if b.pass.Recovering? && b.pass.todo != [] then
        b.(world := if Marks(b) then Next(b.world, RowStep(b.pass.todo[0].id, Lost(now), 0)) else b.world,
           pass := b.pass.(todo := b.pass.todo[1..]))
      else b
    case Complete(generation) =>
      if b.pass.Recovering? && b.pass.todo == [] && generation in b.pass.obsolete
      then b.(world := Next(b.world, CompleteStep(generation))) else b
    case WriteFile =>
      if b.pass.Recovering? && b.pass.todo == [] then b.(file := Some(b.pass.epoch), pass := Idle) else b
  }

  /**
   Undisturbed, a pass takes its snapshot: the broker's epoch and the generations
   of the rows that are pending, queued or running; a broker replaced meanwhile
   ends it.
   */
  lemma SnapshotIsTaken(b: System, newer: Epoch)
    requires b.pass.Idle?
    ensures var listed := After(After(b, ReadEpoch), ListCandidates);
            var confirmed := After(listed, ConfirmEpoch);
            && confirmed.pass.Confirmed? && confirmed == b.(pass := Confirmed(b.current, confirmed.pass.active))
            && (forall g :: g in confirmed.pass.active
                            <==> exists id :: id in b.world.store.rows && b.world.store.rows[id].generation == Some(g)
                                   && b.world.store.rows[id].status in {Status.Pending, Status.Queued, Status.Running})
            && (newer > b.current ==> After(After(listed, Replace(newer)), ConfirmEpoch) == b.(current := newer))
  {
  }

  /** A pass that has handled all its tasks writes the epoch file and is done; one that crashes leaves everything as it is. */
  lemma PassEnds(b: System)
    ensures b.pass.Recovering? && b.pass.todo == [] ==>
              After(b, WriteFile) == b.(file := Some(b.pass.epoch), pass := Idle)
    ensures After(b, Crash) == b.(pass := Idle)
  {
  }

  /** A listing is a snapshot of rows of the table. */
  predicate Genuine(s: Store, l: Listed) {
    l.id in s.rows && s.rows[l.id].generation == l.generation
  }

  predicate Lists(s: Store, listing: seq<Listed>) {
    forall l :: l in listing ==> Genuine(s, l)
  }

  /**
   A request that carries a generation comes from a dispatch: it carries one the
   broker has already had, and a task id that the dispatch has just drawn.  The
   starts of workers and of redeliveries carry none.
   */
  predicate FairRequest(b: System, q: Request) {
    q.generation.Some? ==> q.generation.value <= b.current && !Known(b.world.store, q.celeryId)
  }

  /** Other processes leave the epoch bookkeeping to the pass. */
  predicate FairStep(b: System, st: Step) {
    GoodStep(st) && match st
      case EpochStep(_, _, _) => false
      case CompleteStep(_) => false
      case CreateStep(q, _) => FairRequest(b, q)
      case TransitionStep(q, _, _) => FairRequest(b, q)
      case RowStep(_, op, _) => op.Recreate? ==> op.q.generation.None?
      case _ => true
  }

  ghost predicate Fair(b: System, ev: Event) {
    ev.Other? ==> FairStep(b, ev.st)
  }

  // ---- The order of epochs ----

  /** Every generation awaiting cleanup is strictly older than the observed epoch. */
  ghost predicate OrderOk(s: Store) {
    if s.observed.None? then s.obsolete == {} else forall g :: g in s.obsolete ==> g < s.observed.value
  }

  /** Exactly when the epoch compare-and-set keeps that order. */
  lemma EpochCasKeepsOrderIff(s: Store, epoch: Epoch, previous: Option<Epoch>, active: set<Epoch>)
    requires OrderOk(s) && EpochAccepted(s, previous)
    ensures OrderOk(WithEpoch(s, epoch, previous, active))
            <==> (|| previous.None? || previous.value == epoch
                  || (previous.value < epoch && forall g :: g in active ==> g <= epoch))
  {
    var after := WithEpoch(s, epoch, previous, active);
    if previous.Some? && previous.value != epoch {
      assert previous.value in after.obsolete;
      if OrderOk(after) {
        forall g | g in active
          ensures g <= epoch
        {
          assert g == epoch || g in after.obsolete;
        }
      }
    }
  }

  ghost predicate RowsUpTo(s: Store, bound: Epoch) {
    forall id :: id in s.rows && s.rows[id].generation.Some? ==> s.rows[id].generation.value <= bound
  }

  /** What a pass knows about the epochs it has read. */
  ghost predicate PassOk(b: System) {
    match b.pass
    case Idle => true
    case EpochRead(e) => Dominates(b, e)
    case Candidates(e, active) => Dominates(b, e) && (b.current == e ==> forall g :: g in active ==> g <= e)
    case Confirmed(e, active) => Dominates(b, e) && forall g :: g in active ==> g <= e
    case DurableRead(e, active, durable) =>
      Dominates(b, e) && durable == b.world.store.observed && forall g :: g in active ==> g <= e
    case Persisted(e) => b.world.store.observed == Some(e)
    case ObsoleteRead(e, obsolete) => b.world.store.observed == Some(e) && forall g :: g in obsolete ==> g < e
    case Recovering(e, obsolete, todo) =>
      b.world.store.observed == Some(e) && (forall g :: g in obsolete ==> g < e)
      && forall l :: l in todo ==> Genuine(b.world.store, l)
  }

  /** The epoch was current when read, so nothing recorded earlier is newer. */
  ghost predicate Dominates(b: System, e: Epoch) {
    && e <= b.current
    && (b.world.store.observed.Some? ==> b.world.store.observed.value <= e)
    && (b.file.Some? ==> b.file.value <= e)
  }

  ghost predicate SystemOk(b: System) {
    && StoreOk(b.world.store) && OrderOk(b.world.store) && RowsUpTo(b.world.store, b.current)
    && (b.world.store.observed.Some? ==> b.world.store.observed.value <= b.current)
    && (b.file.Some? ==> b.file.value <= b.current)
    && PassOk(b)
  }

  // ---- The invariant is kept ----

  /** A step of another process leaves the epochs alone and no existing row changes its generation. */
  lemma FairStepKeeps(b: System, st: Step)
    requires StoreOk(b.world.store) && RowsUpTo(b.world.store, b.current) && FairStep(b, st)
    ensures var s, after := b.world.store, Next(b.world, st).store;
            && StoreOk(after) && RowsUpTo(after, b.current)
            && after.observed == s.observed && after.obsolete == s.obsolete
            && forall l: Listed :: Genuine(s, l) ==> Genuine(after, l)
  {
    NextKeepsStoreOk(b.world, st);
    EpochsKept(b, st);
    forall id | id in Next(b.world, st).store.rows
      ensures var r := Next(b.world, st).store.rows[id];
              && (id in b.world.store.rows ==> r.generation == b.world.store.rows[id].generation)
              && (r.generation.Some? ==> r.generation.value <= b.current)
    {
      GenerationKept(b, st, id);
    }
    forall l: Listed | Genuine(b.world.store, l)
      ensures Genuine(Next(b.world, st).store, l)
    {
      IdentityStep(b.world, st, l.id);
    }
  }

  lemma EpochsKept(b: System, st: Step)
    requires FairStep(b, st)
    ensures Next(b.world, st).store.observed == b.world.store.observed
    ensures Next(b.world, st).store.obsolete == b.world.store.obsolete
  {
  }

  lemma GenerationKept(b: System, st: Step, id: nat)
    requires StoreOk(b.world.store) && RowsUpTo(b.world.store, b.current) && FairStep(b, st)
    requires id in Next(b.world, st).store.rows
    ensures var s, r := b.world.store, Next(b.world, st).store.rows[id];
            && (id in s.rows ==> r.generation == s.rows[id].generation)
            && (r.generation.Some? ==> r.generation.value <= b.current)
  {
    if id in b.world.store.rows {
      RowAfter(b.world, st, id);
    } else {
      NewRow(b.world, st, id);
    }
  }

  lemma MarkKeepsGenerations(s: Store, id: nat, now: int)
    ensures var after := Edit(s, id, Lost(now), 0);
            && after.observed == s.observed && after.obsolete == s.obsolete && after.rows.Keys == s.rows.Keys
            && forall i :: i in s.rows ==> after.rows[i].generation == s.rows[i].generation
  {
  }

  lemma EpochSet(b: System, epoch: Epoch, previous: Option<Epoch>, active: set<Epoch>)
    requires StoreOk(b.world.store) && OrderOk(b.world.store) && RowsUpTo(b.world.store, b.current)
    requires EpochAccepted(b.world.store, previous) && epoch <= b.current
    requires previous.None? || previous.value <= epoch
    requires forall g :: g in active ==> g <= epoch
    ensures var after := SetEpoch(b, epoch, previous, active).store;
            StoreOk(after) && OrderOk(after) && RowsUpTo(after, b.current) && after.observed == Some(epoch)
  {
    EpochCasKeepsOrderIff(b.world.store, epoch, previous, active);
    NextKeepsStoreOk(b.world, EpochStep(epoch, previous, active));
  }

  lemma AfterKeepsSystemOk(b: System, ev: Event)
    requires SystemOk(b) && Fair(b, ev)
    ensures SystemOk(After(b, ev))
  {
    match ev
    case Other(st) => FairStepKeepsSystemOk(b, st);
    case UseFallback =>
      if b.pass.DurableRead? && b.pass.durable.None? && b.file.Some? {
        EpochSet(b, b.file.value, None, {});
      }
    case Persist(evidence) => PersistKeepsSystemOk(b, evidence);
    case MarkNext(now) => MarkKeepsSystemOk(b, now);
    case Complete(generation) => NextKeepsStoreOk(b.world, CompleteStep(generation));
    case _ =>
  }

  lemma FairStepKeepsSystemOk(b: System, st: Step)
    requires SystemOk(b) && FairStep(b, st)
    ensures SystemOk(After(b, Event.Other(st)))
  {
    FairStepKeeps(b, st);
  }

  lemma PersistKeepsSystemOk(b: System, evidence: bool)
    requires SystemOk(b)
    ensures SystemOk(After(b, Persist(evidence)))
  {
    if b.pass.DurableRead? && !Defers(b.pass, evidence) {
      EpochSet(b, b.pass.epoch, b.pass.durable, b.pass.active);
    }
  }

  lemma MarkKeepsSystemOk(b: System, now: int)
    requires SystemOk(b)
    ensures SystemOk(After(b, MarkNext(now)))
  {
    if b.pass.Recovering? && b.pass.todo != [] {
      var id := b.pass.todo[0].id;
      MarkKeepsGenerations(b.world.store, id, now);
      EditKeepsStoreOk(b.world.store, id, Lost(now), 0);
      var after := After(b, MarkNext(now));
      forall l | l in after.pass.todo
        ensures Genuine(after.world.store, l)
      {
        assert l in b.pass.todo;
      }
    }
  }

  ghost predicate IsRecoveryRun(bs: seq<System>, evs: seq<Event>) {
    && |bs| == |evs| + 1
    && SystemOk(bs[0]) && bs[0].pass.Idle?
    && forall k :: 0 <= k < |evs| ==> Fair(bs[k], evs[k]) && bs[k + 1] == After(bs[k], evs[k])
  }

  lemma {:induction false} RecoveryRunIsOk(bs: seq<System>, evs: seq<Event>, n: nat)
    requires IsRecoveryRun(bs, evs) && n < |bs|
    ensures SystemOk(bs[n])
  {
    if n > 0 {
      RecoveryRunIsOk(bs, evs, n - 1);
      AfterKeepsSystemOk(bs[n - 1], evs[n - 1]);
    }
  }

  /**
   Serialized recovery never fails a task of the broker's present generation:
   whatever a pass marks is strictly older than the observed epoch, which is no
   newer than the broker, however often the broker was replaced meanwhile.
   */
  lemma RecoverySparesCurrentGeneration(bs: seq<System>, evs: seq<Event>, n: nat)
    requires IsRecoveryRun(bs, evs) && n < |evs| && evs[n].MarkNext? && Marks(bs[n])
    ensures var r := bs[n].world.store.rows[bs[n].pass.todo[0].id];
            && Active(r.status) && r.generation.Some? && bs[n].world.store.observed.Some?
            && r.generation.value < bs[n].world.store.observed.value <= bs[n].current
  {
    RecoveryRunIsOk(bs, evs, n);
    assert bs[n].pass.todo[0] in bs[n].pass.todo;
  }

  /** In every reachable state the cleanup backlog is strictly older than what the pass has observed. */
  lemma BacklogIsOlder(bs: seq<System>, evs: seq<Event>, n: nat, g: Epoch)
    requires IsRecoveryRun(bs, evs) && n < |bs| && g in bs[n].world.store.obsolete
    ensures bs[n].world.store.observed.Some? && g < bs[n].world.store.observed.value <= bs[n].current
  {
    RecoveryRunIsOk(bs, evs, n);
  }

  // ---- Where serialization matters ----

  /**
   Two overlapping passes: one took its snapshot under broker 1, the other under
   broker 2 and persisted first.  The late one reads the durable epoch 2, moves
   it back to 1, and puts the present generation on the cleanup list.
   */
  lemma OverlappingPassesFailCurrent()
    ensures var row := TaskRow("t", 7, "render_video", Running, None, None, None, 1, None, None, 0, Some(2));
            var s0 := Store(map[1 := row], map["t" := 1], 2, Some(1), {});
            var s1 := WithEpoch(s0, 2, Some(1), {2});
            var s2 := WithEpoch(s1, 1, s1.observed, {});
            && OrderOk(s0) && OrderOk(s1) && s1.obsolete == {1}
            && s2.observed == Some(1) && 2 in s2.obsolete && !OrderOk(s2)
            && Effect(Lost(0), s2.rows[1], 0).Some?
  {
    var row := TaskRow("t", 7, "render_video", Running, None, None, None, 1, None, None, 0, Some(2));
    var s0 := Store(map[1 := row], map["t" := 1], 2, Some(1), {});
    var s1 := WithEpoch(s0, 2, Some(1), {2});
    EpochCasKeepsOrderIff(s0, 2, Some(1), {2});
    assert s1.obsolete == {1};
    EpochCasKeepsOrderIff(s1, 1, Some(2), {});
  }
}
