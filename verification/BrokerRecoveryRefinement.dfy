/**
 The recovery call is a run of the recovery machine: from a system whose pass
 has confirmed its snapshot, the call leaves the world that the machine reaches
 by the call's own events with the steps of the others in between.  So what
 holds in every run of the machine holds of the call.  Replacing the broker
 touches nothing that the call looks at, so a replacement while the call is
 under way may as well come before it.
 */
module BrokerRecoveryRefinement {
  import opened Options
  import opened TaskRows
  import opened TaskTracking
  import opened TaskTheorems
  import opened BrokerRecoveryPass
  import Machine = BrokerRecovery

  type System = Machine.System
  type Event = Machine.Event

  // ---- Playing events ----

  function Play(b: System, evs: seq<Event>): System
    decreases |evs|
  {
    if evs == [] then b else Play(Machine.After(b, evs[0]), evs[1..])
  }

  /** Every event is fair where it is played. */
  ghost predicate Fair(b: System, evs: seq<Event>)
    decreases |evs|
  {
    evs != [] ==> Machine.Fair(b, evs[0]) && Fair(Machine.After(b, evs[0]), evs[1..])
  }

  lemma {:induction false} PlayConcat(b: System, xs: seq<Event>, ys: seq<Event>)
    ensures Play(b, xs + ys) == Play(Play(b, xs), ys)
    ensures Fair(b, xs + ys) <==> Fair(b, xs) && Fair(Play(b, xs), ys)
    decreases |xs|
  {
    if xs == [] {
      assert xs + ys == ys;
    } else {
      assert (xs + ys)[1..] == xs[1..] + ys;
      PlayConcat(Machine.After(b, xs[0]), xs[1..], ys);
    }
  }

  /** The steps of other processes, as events. */
  function Others(steps: seq<Step>): seq<Event> {
    seq(|steps|, k requires 0 <= k < |steps| => Machine.Other(steps[k]))
  }

  lemma {:induction false} PlayOthers(b: System, steps: seq<Step>)
    ensures Play(b, Others(steps)) == b.(world := Run(b.world, steps))
    ensures Fair(b, Others(steps)) ==> forall st :: st in steps ==> GoodStep(st)
    decreases |steps|
  {
    if steps != [] {
      assert Others(steps)[1..] == Others(steps[1..]);
      PlayOthers(Machine.After(b, Machine.Other(steps[0])), steps[1..]);
    }
  }

  // ---- What stays known of the listed rows ----

  /** The listed rows are in the table, under their task ids. */
  ghost predicate Tracked(s: Store, ts: seq<Listed>) {
    StoreOk(s) && forall t :: t in ts ==> t.id in s.rows && s.rows[t.id].celeryId == t.row.celeryId
  }

  lemma TrackedIsKnown(s: Store, ts: seq<Listed>, t: Listed)
    requires Tracked(s, ts) && t in ts
    ensures Known(s, t.row.celeryId) && s.index[t.row.celeryId] == t.id
  {
  }

  lemma StepKeepsTracked(w: World, st: Step, ts: seq<Listed>)
    requires Tracked(w.store, ts) && GoodStep(st)
    ensures Tracked(Next(w, st).store, ts)
  {
    NextKeepsStoreOk(w, st);
    forall t | t in ts
      ensures t.id in Next(w, st).store.rows && Next(w, st).store.rows[t.id].celeryId == t.row.celeryId
    {
      IdentityStep(w, st, t.id);
    }
  }

  lemma {:induction false} RunKeepsTracked(w: World, steps: seq<Step>, ts: seq<Listed>)
    requires Tracked(w.store, ts) && forall st :: st in steps ==> GoodStep(st)
    ensures Tracked(Run(w, steps).store, ts)
    decreases |steps|
  {
    if steps != [] {
      StepKeepsTracked(w, steps[0], ts);
      RunKeepsTracked(Next(w, steps[0]), steps[1..], ts);
    }
  }

  // ---- The events of one task ----

  function RollbackSteps(t: Listed, x: Weather): seq<Step> {
    if x.rollback.RaisesBefore? then []
    else [RollbackStep(t.row.celeryId, RunLevelTypes, FailCas(t.row.runId, RollbackStages, ClosedRun))]
  }

  function CancelSteps(t: Listed, x: Weather): seq<Step> {
    if x.cancel.RaisesBefore? then [] else [LedgerStep(Cancel(t.row.celeryId))]
  }

  function RecordSteps(t: Listed, x: Weather): seq<Step> {
    if x.record.RaisesBefore? then [] else [RowStep(t.id, SetStatus(FinalWrite(x.now)), 0)]
  }

  /** What follows the mark, up to the first call that raises. */
  function CompensationSteps(t: Listed, x: Weather): seq<Step> {
    x.afterMark + RollbackSteps(t, x)
    + if !x.rollback.Returns? then []
      else x.between + CancelSteps(t, x)
           + if !x.cancel.Returns? then [] else x.beforeRecord + RecordSteps(t, x)
  }

  /** The own steps among these are fair wherever they are taken. */
  lemma OwnStepsAreFair(b: System, t: Listed, x: Weather, st: Step)
    requires st in RollbackSteps(t, x) + CancelSteps(t, x) + RecordSteps(t, x)
    ensures Machine.Fair(b, Machine.Other(st))
  {
  }

  lemma RecordIsRun(w: World, t: Listed, x: Weather, ts: seq<Listed>)
    requires Tracked(w.store, ts) && t in ts
    ensures Run(w, RecordSteps(t, x)) == Recorded(w, t, x)
  {
    TrackedIsKnown(w.store, ts, t);
    RunOne(w, RowStep(t.id, SetStatus(FinalWrite(x.now)), 0));
  }

  lemma RollbackIsRun(w: World, t: Listed, x: Weather)
    ensures Run(w, RollbackSteps(t, x)) == Rolled(w, t, x)
  {
    RunOne(w, RollbackStep(t.row.celeryId, RunLevelTypes, FailCas(t.row.runId, RollbackStages, ClosedRun)));
  }

  lemma CancelIsRun(w: World, t: Listed, x: Weather)
    ensures Run(w, CancelSteps(t, x)) == BrokerRecoveryPass.Cancelled(w, t, x)
  {
    RunOne(w, LedgerStep(Cancel(t.row.celeryId)));
  }

  /** After the mark, the compensation is a schedule of steps. */
  lemma CompensationIsRun(w: World, t: Listed, x: Weather, ts: seq<Listed>)
    requires Tracked(w.store, ts) && t in ts && BrokerRecoveryPass.Marks(w, t)
    requires forall st :: st in CompensationSteps(t, x) ==> GoodStep(st)
    ensures Run(Marked(w, t, x), CompensationSteps(t, x)) == Compensated(w, t, x)
  {
    var tail := if !x.cancel.Returns? then [] else x.beforeRecord + RecordSteps(t, x);
    var rest := if !x.rollback.Returns? then [] else x.between + CancelSteps(t, x) + tail;
    var w1 := Run(Marked(w, t, x), x.afterMark);
    var w2 := Rolled(w1, t, x);
    assert CompensationSteps(t, x) == x.afterMark + (RollbackSteps(t, x) + rest);
    RunConcat(Marked(w, t, x), x.afterMark, RollbackSteps(t, x) + rest);
    RunConcat(w1, RollbackSteps(t, x), rest);
    RollbackIsRun(w1, t, x);
    if x.rollback.Returns? {
      var w3 := Run(w2, x.between);
      var w4 := BrokerRecoveryPass.Cancelled(w3, t, x);
      assert rest == x.between + (CancelSteps(t, x) + tail);
      RunConcat(w2, x.between, CancelSteps(t, x) + tail);
      RunConcat(w3, CancelSteps(t, x), tail);
      CancelIsRun(w3, t, x);
      if x.cancel.Returns? {
        RunConcat(w4, x.beforeRecord, RecordSteps(t, x));
        BeforeRecordIsTracked(w, t, x, ts);
        RecordIsRun(Run(w4, x.beforeRecord), t, x, ts);
      }
    }
  }

  /** The row is still there when the compensation is recorded. */
  lemma BeforeRecordIsTracked(w: World, t: Listed, x: Weather, ts: seq<Listed>)
    requires Tracked(w.store, ts) && t in ts && x.rollback.Returns? && x.cancel.Returns?
    requires forall st :: st in CompensationSteps(t, x) ==> GoodStep(st)
    ensures var rolled := Rolled(Run(Marked(w, t, x), x.afterMark), t, x);
            Tracked(Run(BrokerRecoveryPass.Cancelled(Run(rolled, x.between), t, x), x.beforeRecord).store, ts)
  {
    assert forall st :: st in x.afterMark || st in x.between || st in x.beforeRecord ==> st in CompensationSteps(t, x);
    TrackedIsKnown(w.store, ts, t);
    StepKeepsTracked(w, RowStep(t.id, Machine.Lost(x.now), 0), ts);
    RunKeepsTracked(Marked(w, t, x), x.afterMark, ts);
    var rolled := Rolled(Run(Marked(w, t, x), x.afterMark), t, x);
    RunKeepsTracked(rolled, x.between, ts);
    RunKeepsTracked(BrokerRecoveryPass.Cancelled(Run(rolled, x.between), t, x), x.beforeRecord, ts);
  }

  // ---- The listed tasks, one after the other ----

  function Short(t: Listed): Machine.Listed {
    Machine.Listed(t.id, t.row.generation)
  }

  function Shorts(ts: seq<Listed>): seq<Machine.Listed> {
    seq(|ts|, k requires 0 <= k < |ts| => Short(ts[k]))
  }

  function TaskSteps(w: World, c: Pass, n: nat): seq<Step>
    requires n < |c.listing|
  {
    (if c.Lost(n) && BrokerRecoveryPass.Marks(w, c.listing[n]) then CompensationSteps(c.listing[n], c.task(n)) else [])
    + c.task(n).after
  }

  /** The machine marks the task, or passes it over; all the rest are steps beside it. */
  function TaskEvents(w: World, c: Pass, n: nat): seq<Event>
    requires n < |c.listing|
  {
    [Machine.MarkNext(c.task(n).now)] + Others(TaskSteps(w, c, n))
  }

  /** The machine is about to handle the `n`-th listed task. */
  predicate About(b: System, w: World, epoch: Epoch, c: Pass, n: nat)
    requires n <= |c.listing|
  {
    b.world == w && b.pass == Machine.Recovering(epoch, c.generations, Shorts(c.listing[n..]))
  }

  lemma MarkIsMark(b: System, epoch: Epoch, w: World, c: Pass, n: nat)
    requires n < |c.listing| && About(b, w, epoch, c, n) && Tracked(w.store, c.listing)
    ensures var t, x := c.listing[n], c.task(n);
            var marks := c.Lost(n) && BrokerRecoveryPass.Marks(w, t);
            && Machine.Marks(b) == marks
            && Machine.After(b, Machine.MarkNext(x.now))
               == b.(world := if marks then Marked(w, t, x) else w,
                     pass := Machine.Recovering(epoch, c.generations, Shorts(c.listing[n + 1..])))
  {
    TrackedIsKnown(w.store, c.listing, c.listing[n]);
    assert Shorts(c.listing[n..])[0] == Short(c.listing[n]);
    assert Shorts(c.listing[n..])[1..] == Shorts(c.listing[n + 1..]);
  }

  lemma TaskStepsAreRun(w: World, c: Pass, n: nat)
    requires n < |c.listing| && Tracked(w.store, c.listing)
    requires forall st :: st in TaskSteps(w, c, n) ==> GoodStep(st)
    ensures var marks := c.Lost(n) && BrokerRecoveryPass.Marks(w, c.listing[n]);
            Run(if marks then Marked(w, c.listing[n], c.task(n)) else w, TaskSteps(w, c, n))
            == Run(if marks then Compensated(w, c.listing[n], c.task(n)) else w, c.task(n).after)
  {
    var t, x := c.listing[n], c.task(n);
    if c.Lost(n) && BrokerRecoveryPass.Marks(w, t) {
      assert forall st :: st in CompensationSteps(t, x) ==> st in TaskSteps(w, c, n);
      CompensationIsRun(w, t, x, c.listing);
      RunConcat(Marked(w, t, x), CompensationSteps(t, x), x.after);
    } else {
      assert TaskSteps(w, c, n) == x.after;
    }
  }

  lemma TaskIsRun(b: System, epoch: Epoch, p: Progress, c: Pass, n: nat)
    requires n < |c.listing| && About(b, p.world, epoch, c, n) && Tracked(p.world.store, c.listing)
    requires Fair(b, TaskEvents(p.world, c, n))
    ensures var after := RecoverNext(p, c, n).world;
            && Play(b, TaskEvents(p.world, c, n))
               == b.(world := after, pass := Machine.Recovering(epoch, c.generations, Shorts(c.listing[n + 1..])))
            && Tracked(after.store, c.listing)
  {
    var mark, steps := Machine.MarkNext(c.task(n).now), TaskSteps(p.world, c, n);
    MarkIsMark(b, epoch, p.world, c, n);
    var marked := Machine.After(b, mark);
    assert TaskEvents(p.world, c, n)[1..] == Others(steps);
    PlayOthers(marked, steps);
    TaskStepsAreRun(p.world, c, n);
    MarkedIsTracked(p.world, c, n);
    RunKeepsTracked(marked.world, steps, c.listing);
  }

  lemma MarkedIsTracked(w: World, c: Pass, n: nat)
    requires n < |c.listing| && Tracked(w.store, c.listing)
    ensures Tracked(Marked(w, c.listing[n], c.task(n)).store, c.listing)
  {
    TrackedIsKnown(w.store, c.listing, c.listing[n]);
    StepKeepsTracked(w, RowStep(c.listing[n].id, Machine.Lost(c.task(n).now), 0), c.listing);
  }

  /** The events of the first `n` listed tasks, given the progress before each. */
  function TasksTo(ps: seq<Progress>, c: Pass, n: nat): seq<Event>
    requires n <= |c.listing| && n <= |ps|
  {
    if n == 0 then [] else TasksTo(ps, c, n - 1) + TaskEvents(ps[n - 1].world, c, n - 1)
  }

  lemma {:induction false} FairPrefix(b: System, ps: seq<Progress>, c: Pass, k: nat, n: nat)
    requires k <= n <= |c.listing| && n <= |ps| && Fair(b, TasksTo(ps, c, n))
    ensures Fair(b, TasksTo(ps, c, k))
  {
    if k < n {
      PlayConcat(b, TasksTo(ps, c, n - 1), TaskEvents(ps[n - 1].world, c, n - 1));
      FairPrefix(b, ps, c, k, n - 1);
    }
  }

  /** The machine has handled the first `n` listed tasks. */
  ghost predicate Handled(b: System, there: System, p: Progress, epoch: Epoch, c: Pass, n: nat)
    requires n <= |c.listing|
  {
    && About(there, p.world, epoch, c, n) && Tracked(p.world.store, c.listing)
    && there.current == b.current && there.file == b.file
  }

  lemma NextTask(b: System, there: System, p: Progress, q: Progress, epoch: Epoch, c: Pass, n: nat)
    requires n < |c.listing| && Handled(b, there, p, epoch, c, n) && Fair(there, TaskEvents(p.world, c, n))
    requires q == RecoverNext(p, c, n)
    ensures Handled(b, Play(there, TaskEvents(p.world, c, n)), q, epoch, c, n + 1)
  {
    TaskIsRun(there, epoch, p, c, n);
  }

  lemma TasksAreRun(b: System, epoch: Epoch, w: World, ps: seq<Progress>, c: Pass, m: nat, n: nat)
    requires n <= m <= |c.listing| && About(b, w, epoch, c, 0) && Tracked(w.store, c.listing)
    requires Stages(w, c, m, ps) && Fair(b, TasksTo(ps, c, m))
    ensures Handled(b, Play(b, TasksTo(ps, c, n)), ps[n], epoch, c, n)
  {
    for k := 0 to n
      invariant Handled(b, Play(b, TasksTo(ps, c, k)), ps[k], epoch, c, k)
    {
      FairPrefix(b, ps, c, k + 1, m);
      PlayConcat(b, TasksTo(ps, c, k), TaskEvents(ps[k].world, c, k));
      NextTask(b, Play(b, TasksTo(ps, c, k)), ps[k], ps[k + 1], epoch, c, k);
    }
  }

  // ---- The cleanup backlog ----

  function Completions(order: seq<Epoch>): seq<Event> {
    seq(|order|, k requires 0 <= k < |order| => Machine.Complete(order[k]))
  }

  /** The order in which a set of generations is completed. */
  ghost predicate Enumerates(order: seq<Epoch>, generations: set<Epoch>) {
    forall g :: g in order <==> g in generations
  }

  lemma {:induction false} CompletionsAreRun(b: System, order: seq<Epoch>, generations: set<Epoch>)
    requires b.pass.Recovering? && b.pass.todo == [] && generations <= b.pass.obsolete && Enumerates(order, generations)
    ensures Play(b, Completions(order))
            == b.(world := b.world.(store := BacklogCleared(b.world.store, generations)))
    decreases |order|
  {
    if order == [] {
      assert BacklogCleared(b.world.store, generations) == b.world.store;
    } else {
      var c := Machine.After(b, Machine.Complete(order[0]));
      var rest := set g | g in order[1..];
      assert Completions(order)[1..] == Completions(order[1..]);
      assert order[0] in order && forall g :: g in order <==> g == order[0] || g in order[1..];
      CompletionsAreRun(c, order[1..], rest);
      CompletedFirst(b.world.store, order[0], rest, generations);
    }
  }

  lemma CompletedFirst(s: Store, first: Epoch, rest: set<Epoch>, generations: set<Epoch>)
    requires generations == rest + {first}
    ensures BacklogCleared(TaskTracking.Completed(s, first), rest) == BacklogCleared(s, generations)
  {
    var t := TaskTracking.Completed(s, first);
    forall g
      ensures HasActive(t, g) == HasActive(s, g)
    {
    }
  }

  // ---- The whole call ----

  function FillEvents(w: World, fallback: Option<Epoch>, e: Environment): seq<Event> {
    [Machine.ReadDurable] + if Fills(w, fallback) then Others(e.beforeFill) + [Machine.UseFallback] else []
  }

  function PersistEvents(w: World, fallback: Option<Epoch>, snapshot: Snapshot, e: Environment): seq<Event> {
    if FillLost(w, fallback, e) then []
    else if snapshot.MustWait(Durable(w, fallback)) then [Machine.Persist(false)]
    else Others(e.beforePersist) + [Machine.Persist(snapshot.EvidenceComplete())]
  }

  /** The world in which the backlog is read, and the one that is listed. */
  function AtBacklog(w: World, e: Environment): World {
    Run(w, e.beforeBacklog)
  }

  function AtListing(w: World, e: Environment): World {
    Run(AtBacklog(w, e), e.beforeListing)
  }

  /** What the recovery has read by the time it lists the tasks. */
  function PassOf(w: World, e: Environment): Pass {
    Pass(e.query(AtListing(w, e)), AtBacklog(w, e).store.obsolete, e.task)
  }

  function ReadEvents(w: World, e: Environment): seq<Event> {
    (Others(e.beforeBacklog) + [Machine.ReadObsolete])
    + (Others(e.beforeListing) + [Machine.ListTasks(Shorts(PassOf(w, e).listing))])
  }

  /** The progress before each listed task, and after the last. */
  function StagesIn(w: World, e: Environment): seq<Progress> {
    StagesOf(AtListing(w, e), PassOf(w, e), |PassOf(w, e).listing|)
  }

  function RecoveryEvents(w: World, e: Environment, order: seq<Epoch>): seq<Event> {
    ReadEvents(w, e) + (TasksTo(StagesIn(w, e), PassOf(w, e), |PassOf(w, e).listing|) + Completions(order))
  }

  /** All events of the call, with the backlog completed in the given order. */
  function CallEvents(w: World, fallback: Option<Epoch>, snapshot: Snapshot, e: Environment, order: seq<Epoch>): seq<Event> {
    FillEvents(w, fallback, e)
    + (PersistEvents(w, fallback, snapshot, e)
       + if Persists(w, fallback, snapshot, e) && snapshot.EvidenceComplete()
         then RecoveryEvents(Announced(w, fallback, snapshot, e), e, order) else [])
  }

  /** The listing query answers with rows of the table it sees. */
  ghost predicate Truthful(query: Query) {
    forall w, t :: t in query(w) ==> t.id in w.store.rows && w.store.rows[t.id] == t.row
  }

  lemma PlayOne(b: System, ev: Event)
    ensures Play(b, [ev]) == Machine.After(b, ev)
    ensures Fair(b, [ev]) <==> Machine.Fair(b, ev)
  {
    assert Play(Machine.After(b, ev), []) == Machine.After(b, ev);
  }

  /** Others act, then the machine takes one step. */
  lemma PlayThen(b: System, steps: seq<Step>, ev: Event)
    ensures Play(b, Others(steps) + [ev]) == Machine.After(b.(world := Run(b.world, steps)), ev)
  {
    PlayConcat(b, Others(steps), [ev]);
    PlayOthers(b, steps);
    PlayOne(Play(b, Others(steps)), ev);
  }

  ghost predicate AllGood(steps: seq<Step>) {
    forall st :: st in steps ==> GoodStep(st)
  }

  lemma FairThen(b: System, steps: seq<Step>, ev: Event)
    requires Fair(b, Others(steps) + [ev])
    ensures AllGood(steps)
  {
    PlayConcat(b, Others(steps), [ev]);
    PlayOthers(b, steps);
  }

  lemma FillIsRun(b: System, epoch: Epoch, active: set<Epoch>, e: Environment)
    requires b.pass == Machine.Confirmed(epoch, active) && StoreOk(b.world.store)
    requires Fair(b, FillEvents(b.world, b.file, e))
    ensures StoreOk(Filled(b.world, b.file, e).store)
    ensures Play(b, FillEvents(b.world, b.file, e))
            == b.(world := Filled(b.world, b.file, e),
                  pass := if FillLost(b.world, b.file, e) then Machine.Idle
                          else Machine.DurableRead(epoch, active, Durable(b.world, b.file)))
  {
    var c := Machine.After(b, Machine.ReadDurable);
    PlayOne(b, Machine.ReadDurable);
    if Fills(b.world, b.file) {
      PlayConcat(b, [Machine.ReadDurable], Others(e.beforeFill) + [Machine.UseFallback]);
      PlayThen(c, e.beforeFill, Machine.UseFallback);
      FairThen(c, e.beforeFill, Machine.UseFallback);
      RunKeepsStoreOk(b.world, e.beforeFill);
      NextKeepsStoreOk(Run(b.world, e.beforeFill), EpochStep(b.file.value, None, {}));
    } else {
      assert FillEvents(b.world, b.file, e) == [Machine.ReadDurable];
    }
  }

  /** The pass once the epoch was compared and set, or not. */
  function PassAfter(persisted: bool, snapshot: Snapshot): Machine.Pass {
    if !persisted then Machine.Idle
    else if snapshot.EvidenceComplete() then Machine.Persisted(snapshot.epoch)
    else Machine.Recovering(snapshot.epoch, {}, [])
  }

  lemma PersistIsRun(b: System, w: World, fallback: Option<Epoch>, snapshot: Snapshot, e: Environment)
    requires b.world == Filled(w, fallback, e) && b.file == fallback && StoreOk(b.world.store) && snapshot.Consistent()
    requires b.pass == if FillLost(w, fallback, e) then Machine.Idle
                       else Machine.DurableRead(snapshot.epoch, snapshot.active, Durable(w, fallback))
    requires Fair(b, PersistEvents(w, fallback, snapshot, e))
    ensures var persisted := Persists(w, fallback, snapshot, e);
            && Play(b, PersistEvents(w, fallback, snapshot, e))
               == b.(world := if persisted then Announced(w, fallback, snapshot, e)
                              else Snapshotted(w, fallback, snapshot, e).0,
                     pass := PassAfter(persisted, snapshot))
            && (persisted ==> StoreOk(Announced(w, fallback, snapshot, e).store))
  {
    if !FillLost(w, fallback, e) {
      if snapshot.MustWait(Durable(w, fallback)) {
        PlayOne(b, Machine.Persist(false));
      } else {
        PlayThen(b, e.beforePersist, Machine.Persist(snapshot.EvidenceComplete()));
        FairThen(b, e.beforePersist, Machine.Persist(snapshot.EvidenceComplete()));
        RunKeepsStoreOk(b.world, e.beforePersist);
        NextKeepsStoreOk(AtPersist(w, fallback, e), EpochStep(snapshot.epoch, Durable(w, fallback), snapshot.active));
      }
    }
  }

  lemma BacklogIsRead(b: System, epoch: Epoch, v: World)
    requires b.pass == Machine.Persisted(epoch)
    ensures Machine.After(b.(world := v), Machine.ReadObsolete)
            == b.(world := v, pass := Machine.ObsoleteRead(epoch, v.store.obsolete))
  {
  }

  lemma TasksAreListed(b: System, w: World, listing: seq<Machine.Listed>)
    requires b.pass.ObsoleteRead? && Machine.Lists(w.store, listing)
    ensures Machine.After(b.(world := w), Machine.ListTasks(listing))
            == b.(world := w, pass := Machine.Recovering(b.pass.epoch, b.pass.obsolete, listing))
  {
  }

  lemma ReadIsFair(b: System, e: Environment)
    requires Fair(b, ReadEvents(b.world, e))
    ensures AllGood(e.beforeBacklog) && AllGood(e.beforeListing)
  {
    var reading, listing := Others(e.beforeBacklog) + [Machine.ReadObsolete], Machine.ListTasks(Shorts(PassOf(b.world, e).listing));
    PlayConcat(b, reading, Others(e.beforeListing) + [listing]);
    FairThen(b, e.beforeBacklog, Machine.ReadObsolete);
    FairThen(Play(b, reading), e.beforeListing, listing);
  }

  lemma ReadIsRun(b: System, epoch: Epoch, e: Environment)
    requires b.pass == Machine.Persisted(epoch) && StoreOk(b.world.store) && Truthful(e.query)
    requires AllGood(e.beforeBacklog) && AllGood(e.beforeListing)
    ensures var w, c := AtListing(b.world, e), PassOf(b.world, e);
            && Play(b, ReadEvents(b.world, e))
               == b.(world := w, pass := Machine.Recovering(epoch, c.generations, Shorts(c.listing)))
            && Tracked(w.store, c.listing)
  {
    var listing := Shorts(PassOf(b.world, e).listing);
    RunKeepsStoreOk(b.world, e.beforeBacklog);
    RunKeepsStoreOk(AtBacklog(b.world, e), e.beforeListing);
    ListingIsGenuine(AtListing(b.world, e), e.query);
    var reading := Others(e.beforeBacklog) + [Machine.ReadObsolete];
    PlayConcat(b, reading, Others(e.beforeListing) + [Machine.ListTasks(listing)]);
    PlayThen(b, e.beforeBacklog, Machine.ReadObsolete);
    BacklogIsRead(b, epoch, AtBacklog(b.world, e));
    PlayThen(Play(b, reading), e.beforeListing, Machine.ListTasks(listing));
    TasksAreListed(Play(b, reading), AtListing(b.world, e), listing);
  }

  lemma ListingIsGenuine(w: World, query: Query)
    requires Truthful(query) && StoreOk(w.store)
    ensures Machine.Lists(w.store, Shorts(query(w))) && Tracked(w.store, query(w))
  {
    forall l | l in Shorts(query(w))
      ensures Machine.Genuine(w.store, l)
    {
      var k :| 0 <= k < |query(w)| && Shorts(query(w))[k] == l;
      assert query(w)[k] in query(w);
    }
  }

  lemma RecoveryIsRun(b: System, epoch: Epoch, previous: Option<Epoch>, snapshot: Snapshot, e: Environment, order: seq<Epoch>)
    requires b.pass == Machine.Persisted(epoch) && StoreOk(b.world.store) && Truthful(e.query)
    requires snapshot.EvidenceComplete() && Enumerates(order, AtBacklog(b.world, e).store.obsolete)
    requires Fair(b, RecoveryEvents(b.world, e, order))
    ensures Play(b, RecoveryEvents(b.world, e, order))
            == b.(world := Recovery(b.world, previous, snapshot, e).0,
                  pass := Machine.Recovering(epoch, AtBacklog(b.world, e).store.obsolete, []))
  {
    var w, c := AtListing(b.world, e), PassOf(b.world, e);
    var ps := StagesIn(b.world, e);
    var tasks := TasksTo(ps, c, |c.listing|);
    PlayConcat(b, ReadEvents(b.world, e), tasks + Completions(order));
    ReadIsFair(b, e);
    ReadIsRun(b, epoch, e);
    var listed := Play(b, ReadEvents(b.world, e));
    assert c.listing[0..] == c.listing;
    PlayConcat(listed, tasks, Completions(order));
    StagesFollow(w, c, |c.listing|);
    TasksAreRun(listed, epoch, w, ps, c, |c.listing|, |c.listing|);
    assert Shorts(c.listing[|c.listing|..]) == [];
    CompletionsAreRun(Play(listed, tasks), order, c.generations);
  }

  /**
   The call is a run of the machine, for every order in which the backlog is
   completed: it leaves the machine's world, and the machine ready to write the
   epoch file exactly when the call says that the epoch was persisted.
   */
  lemma CallIsRun(b: System, snapshot: Snapshot, e: Environment, order: seq<Epoch>)
    requires b.pass == Machine.Confirmed(snapshot.epoch, snapshot.active) && snapshot.Consistent()
    requires StoreOk(b.world.store) && Truthful(e.query)
    requires Enumerates(order, AtBacklog(Announced(b.world, b.file, snapshot, e), e).store.obsolete)
    requires Fair(b, CallEvents(b.world, b.file, snapshot, e, order))
    ensures var last := Play(b, CallEvents(b.world, b.file, snapshot, e, order));
            && last == b.(world := Snapshotted(b.world, b.file, snapshot, e).0, pass := last.pass)
            && if Snapshotted(b.world, b.file, snapshot, e).2
               then last.pass.Recovering? && last.pass.epoch == snapshot.epoch && last.pass.todo == []
               else last.pass.Idle?
  {
    var w, fallback := b.world, b.file;
    var recovers := Persists(w, fallback, snapshot, e) && snapshot.EvidenceComplete();
    var last := if recovers then RecoveryEvents(Announced(w, fallback, snapshot, e), e, order) else [];
    PlayConcat(b, FillEvents(w, fallback, e), PersistEvents(w, fallback, snapshot, e) + last);
    FillIsRun(b, snapshot.epoch, snapshot.active, e);
    var filled := Play(b, FillEvents(w, fallback, e));
    PlayConcat(filled, PersistEvents(w, fallback, snapshot, e), last);
    PersistIsRun(filled, w, fallback, snapshot, e);
    if recovers {
      RecoveryIsRun(Play(filled, PersistEvents(w, fallback, snapshot, e)), snapshot.epoch, Durable(w, fallback),
                    snapshot, e, order);
    }
  }

  // ---- What the machine's runs say of the call ----

  lemma {:induction false} PlayKeepsSystemOk(b: System, evs: seq<Event>)
    requires Machine.SystemOk(b) && Fair(b, evs)
    ensures Machine.SystemOk(Play(b, evs))
    decreases |evs|
  {
    if evs != [] {
      Machine.AfterKeepsSystemOk(b, evs[0]);
      PlayKeepsSystemOk(Machine.After(b, evs[0]), evs[1..]);
    }
  }

  /** The machine's state when the call has listed the tasks. */
  lemma ListedIsReached(b: System, snapshot: Snapshot, e: Environment, order: seq<Epoch>) returns (listed: System)
    requires b.pass == Machine.Confirmed(snapshot.epoch, snapshot.active) && Machine.SystemOk(b) && Truthful(e.query)
    requires Persists(b.world, b.file, snapshot, e) && snapshot.EvidenceComplete()
    requires Fair(b, CallEvents(b.world, b.file, snapshot, e, order))
    ensures var w := Announced(b.world, b.file, snapshot, e);
            var c := PassOf(w, e);
            && About(listed, AtListing(w, e), snapshot.epoch, c, 0) && Tracked(listed.world.store, c.listing)
            && listed.current == b.current && Machine.SystemOk(listed)
            && Fair(listed, TasksTo(StagesIn(w, e), c, |c.listing|))
  {
    var w := Announced(b.world, b.file, snapshot, e);
    var c := PassOf(w, e);
    var fill, persist := FillEvents(b.world, b.file, e), PersistEvents(b.world, b.file, snapshot, e);
    var tasks := TasksTo(StagesIn(w, e), c, |c.listing|);
    PlayConcat(b, fill, persist + RecoveryEvents(w, e, order));
    FillIsRun(b, snapshot.epoch, snapshot.active, e);
    var filled := Play(b, fill);
    PlayConcat(filled, persist, RecoveryEvents(w, e, order));
    PersistIsRun(filled, b.world, b.file, snapshot, e);
    var persisted := Play(filled, persist);
    PlayConcat(persisted, ReadEvents(w, e), tasks + Completions(order));
    ReadIsFair(persisted, e);
    ReadIsRun(persisted, snapshot.epoch, e);
    listed := Play(persisted, ReadEvents(w, e));
    PlayConcat(listed, tasks, Completions(order));
    PlayKeepsSystemOk(b, fill);
    PlayKeepsSystemOk(filled, persist);
    PlayKeepsSystemOk(persisted, ReadEvents(w, e));
    assert c.listing[0..] == c.listing;
  }

  /** The recovery that begins in this world marks its `k`-th listed task. */
  predicate MarksAt(w: World, e: Environment, k: nat) {
    var c := PassOf(w, e);
    k < |c.listing| && c.Lost(k) && BrokerRecoveryPass.Marks(StagesIn(w, e)[k].world, c.listing[k])
  }

  /**
   The call never fails a task of the broker's present generation: a row that it
   marks is active, and its generation is older than the snapshot's epoch, which
   is no newer than the broker.
   */
  lemma CallSparesCurrentGeneration(b: System, snapshot: Snapshot, e: Environment, order: seq<Epoch>, k: nat)
    requires b.pass == Machine.Confirmed(snapshot.epoch, snapshot.active) && Machine.SystemOk(b) && Truthful(e.query)
    requires Persists(b.world, b.file, snapshot, e) && snapshot.EvidenceComplete()
    requires Fair(b, CallEvents(b.world, b.file, snapshot, e, order))
    requires MarksAt(Announced(b.world, b.file, snapshot, e), e, k)
    ensures var w := Announced(b.world, b.file, snapshot, e);
            var r := RowOf(StagesIn(w, e)[k].world.store, PassOf(w, e).listing[k].row.celeryId);
            Active(r.status) && r.generation.Some? && r.generation.value < snapshot.epoch <= b.current
  {
    var w := Announced(b.world, b.file, snapshot, e);
    var c, ps := PassOf(w, e), StagesIn(w, e);
    var listed := ListedIsReached(b, snapshot, e, order);
    StagesFollow(AtListing(w, e), c, |c.listing|);
    TasksAreRun(listed, snapshot.epoch, AtListing(w, e), ps, c, |c.listing|, k);
    FairPrefix(listed, ps, c, k, |c.listing|);
    PlayKeepsSystemOk(listed, TasksTo(ps, c, k));
    MarkedIsOlder(Play(listed, TasksTo(ps, c, k)), ps[k].world, snapshot.epoch, c, k);
  }

  lemma MarkedIsOlder(there: System, w: World, epoch: Epoch, c: Pass, k: nat)
    requires k < |c.listing| && About(there, w, epoch, c, k) && Tracked(w.store, c.listing) && Machine.SystemOk(there)
    requires c.Lost(k) && BrokerRecoveryPass.Marks(w, c.listing[k])
    ensures var r := RowOf(w.store, c.listing[k].row.celeryId);
            Active(r.status) && r.generation.Some? && r.generation.value < epoch <= there.current
  {
    TrackedIsKnown(w.store, c.listing, c.listing[k]);
    assert Shorts(c.listing[k..])[0] == Short(c.listing[k]);
    assert there.pass.todo[0] in there.pass.todo;
  }

  /** The states that the events pass through. */
  function Trace(b: System, evs: seq<Event>): seq<System>
    decreases |evs|
  {
    [b] + if evs == [] then [] else Trace(Machine.After(b, evs[0]), evs[1..])
  }

  lemma {:induction false} TraceIsRun(b: System, evs: seq<Event>)
    requires Fair(b, evs)
    ensures var bs := Trace(b, evs);
            && |bs| == |evs| + 1 && bs[0] == b && bs[|evs|] == Play(b, evs)
            && forall k :: 0 <= k < |evs| ==> Machine.Fair(bs[k], evs[k]) && bs[k + 1] == Machine.After(bs[k], evs[k])
    decreases |evs|
  {
    if evs != [] {
      var c := Machine.After(b, evs[0]);
      TraceIsRun(c, evs[1..]);
      var bs, rest := Trace(b, evs), Trace(c, evs[1..]);
      forall k | 0 <= k < |evs|
        ensures Machine.Fair(bs[k], evs[k]) && bs[k + 1] == Machine.After(bs[k], evs[k])
      {
        if k > 0 {
          assert bs[k] == rest[k - 1] && bs[k + 1] == rest[k] && evs[k] == evs[1..][k - 1];
        }
      }
    }
  }

  /** Fair events make a longer run of a run. */
  lemma RunExtends(bs: seq<System>, evs: seq<Event>, more: seq<Event>)
    requires Machine.IsRecoveryRun(bs, evs) && Fair(bs[|evs|], more)
    ensures var cs := bs + Trace(bs[|evs|], more)[1..];
            Machine.IsRecoveryRun(cs, evs + more) && cs[|evs + more|] == Play(bs[|evs|], more)
  {
    var tail := Trace(bs[|evs|], more);
    TraceIsRun(bs[|evs|], more);
    var cs, all := bs + tail[1..], evs + more;
    forall k | 0 <= k < |all|
      ensures Machine.Fair(cs[k], all[k]) && cs[k + 1] == Machine.After(cs[k], all[k])
    {
      if k >= |evs| {
        assert cs[k] == tail[k - |evs|] && cs[k + 1] == tail[k - |evs| + 1] && all[k] == more[k - |evs|];
      }
    }
  }

  /** A run whose pass has confirmed its snapshot goes on, through the call, to a run that ends in what the call leaves. */
  lemma CallExtendsRun(bs: seq<System>, evs: seq<Event>, b: System, snapshot: Snapshot, e: Environment, order: seq<Epoch>)
    requires Machine.IsRecoveryRun(bs, evs) && b == bs[|evs|] && snapshot.Consistent() && Truthful(e.query)
    requires b.pass == Machine.Confirmed(snapshot.epoch, snapshot.active)
    requires Enumerates(order, AtBacklog(Announced(b.world, b.file, snapshot, e), e).store.obsolete)
    requires Fair(b, CallEvents(b.world, b.file, snapshot, e, order))
    ensures var more := CallEvents(b.world, b.file, snapshot, e, order);
            var cs := bs + Trace(b, more)[1..];
            Machine.IsRecoveryRun(cs, evs + more) && cs[|evs + more|].world == Snapshotted(b.world, b.file, snapshot, e).0
  {
    Machine.RecoveryRunIsOk(bs, evs, |evs|);
    CallIsRun(b, snapshot, e, order);
    RunExtends(bs, evs, CallEvents(b.world, b.file, snapshot, e, order));
  }
}
