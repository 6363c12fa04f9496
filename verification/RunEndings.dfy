/** Why a run ends: what cancellation and shutdown do to a run that streams, over whole histories. */
module RunEndings {
  import opened Basics
  import opened FairQueues
  import opened RunCoordinator

  /** The step asks the run to stop: it is cancelled itself, its parent's signal fires, or it is a
      worker and its parent, running or waiting, is cancelled. */
  ghost predicate Hits(c: Coord, step: Step, id: RunId)
    requires ValidQueue(c.queue)
  {
    match step
    case Cancel(x) =>
      || x == id
      || (id !in c.active && id in c.subagents && c.subagents[id].parent == Some(x)
          && (x in c.active || (x !in c.subagents && IsWaiting(c.queue, x))))
    case AbortSignal(x) => x == id && id !in c.active
    case _ => false
  }

  /** The job of a streaming run after a step that does not end its stream. */
  ghost function JobAfter(c: Coord, step: Step, id: RunId): Option<Job>
    requires ValidQueue(c.queue) && JobOf(c, id).Some?
  {
    var job := JobOf(c, id).value;
    Some(job.(cancelRequested := job.cancelRequested || Hits(c, step, id),
              shutdownRequested := job.shutdownRequested || (step.Shutdown? && c.accepting)))
  }

  // ----- steps that leave the job alone -----

  lemma BegunOther(c: Coord, x: RunId, broken: set<RunId>, id: RunId)
    requires x != id
    ensures JobOf(Begun(c, x, broken), id) == JobOf(c, id)
  {
    hide Appended;
  }

  lemma DispatchedOther(c: Coord, q: FairQueue, job: Job, broken: set<RunId>, id: RunId)
    requires ValidQueue(q) && job.id != id
    ensures JobOf(Dispatched(c, q, job, broken), id) == JobOf(c, id)
  {
    hide ValidQueue;
    hide Published;
    hide Begun;
    var moved := c.(queue := q, active := c.active[job.id := job]);
    PublishShape(moved);
    BegunOther(Published(moved), job.id, broken, id);
  }

  lemma {:induction false} PumpedOther(c: Coord, broken: set<RunId>, id: RunId)
    requires BooksOk(c) && JobOf(c, id).Some?
    ensures ValidQueue(c.queue) && JobOf(Pumped(c, broken), id) == JobOf(c, id)
    decreases |Contents(c.queue)|
  {
    hide BooksOk;
    hide ValidQueue;
    hide Contents;
    hide Dispatched;
    hide RunOk;
    BooksParts(c);
    if c.accepting && |c.active| < c.limits.maxConcurrent {
      var (job, q) := NextJob(c.limits, c.active, c.queue);
      if job.Some? {
        WaitingRun(c, job.value);
        PooledRun(c, id);
        DispatchKeeps(c, q, job.value, broken);
        DispatchShape(c, q, job.value, broken);
        DispatchedOther(c, q, job.value, broken, id);
        PumpedOther(Dispatched(c, q, job.value, broken), broken, id);
      }
    }
  }

  lemma StartOther(c: Coord, x: RunId, owner: OwnerKey, retry: bool, broken: set<RunId>, id: RunId)
    requires BooksOk(c) && ValidQueue(c.queue) && x !in c.ledgers && JobOf(c, id).Some?
    ensures JobOf(StartedRun(c, x, owner, retry, broken), id) == JobOf(c, id)
  {
    hide BooksOk;
    hide ValidQueue;
    hide Contents;
    hide Published;
    hide Pumped;
    hide Enqueued;
    if c.accepting && |Contents(c.queue)| + |c.active| < c.limits.maxDepth {
      var d := StartAdmits(c, x, owner, retry, broken);
      PumpedOther(d, broken, id);
    }
  }

  lemma LaunchOther(c: Coord, x: RunId, owner: OwnerKey, parent: RunId, aborted: bool, broken: set<RunId>, id: RunId)
    requires BooksOk(c) && x !in c.ledgers && JobOf(c, id).Some?
    ensures JobOf(Launched(c, x, owner, parent, aborted, broken), id) == JobOf(c, id)
  {
    hide BooksOk;
    hide Begun;
    hide RunOk;
    PooledRun(c, id);
    BegunOther(WithChild(c, x, owner, parent), x, broken, id);
  }

  lemma SettleOther(c: Coord, x: RunId, broken: set<RunId>, id: RunId)
    requires BooksOk(c) && ValidQueue(c.queue) && HasStage(c, x, Notified) && JobOf(c, id).Some? && x != id
    ensures JobOf(Settled(c, x, broken), id) == JobOf(c, id)
  {
    BooksParts(c);
    OnePool(c, x);
    ForgetKeeps(c, x);
    hide BooksOk;
    hide ValidQueue;
    hide Published;
    hide Pumped;
    if x in c.active {
      var d := c.(active := c.active - {x});
      PublishKeeps(d);
      PublishShape(d);
      PumpedOther(Published(d), broken, id);
    }
  }

  lemma EndOther(c: Coord, x: RunId, how: How, id: RunId)
    requires x != id
    ensures JobOf(StreamEnded(c, x, how), id) == JobOf(c, id)
  {
    hide Appended;
  }

  // ----- steps that ask it to stop -----

  lemma DiscardedShape(c: Coord, q: FairQueue, x: RunId, ending: Ending)
    ensures var d := Discarded(c, q, x, ending);
            d.queue == q && d.active == c.active && d.subagents == c.subagents && d.accepting == c.accepting
  {
  }

  /** Whom a cancel flags: a running run and its workers, a worker by itself, or the workers of a
      waiting run, which leaves the queue. */
  lemma CancelShape(c: Coord, x: RunId)
    requires QueueOk(c) && ValidQueue(c.queue)
    ensures var d := CancelledRun(c, x);
            var reaches := x in c.active || (x !in c.subagents && IsWaiting(c.queue, x));
            && d.accepting == c.accepting && ValidQueue(d.queue) && Contents(d.queue) <= Contents(c.queue)
            && d.active == Flagged(c.active, x)
            && d.subagents == (if reaches then MarkCancelled(c.subagents, x) else Flagged(c.subagents, x))
  {
    WaitingPosition(c, x);
    hide QueueOk;
    hide ValidQueue;
    hide IsWaiting;
    hide Values;
    hide Removed;
    hide Published;
    hide Discarded;
    hide MarkCancelled;
    hide Contents;
    if x !in c.active && x !in c.subagents && PositionOf(Values(c.queue), x) < |Values(c.queue)| {
      var job := WaitingAt(c, x);
      var discarded := Discarded(c, Removed(c.queue, job), x, Cancelled);
      DiscardedShape(c, Removed(c.queue, job), x, Cancelled);
      PublishShape(discarded.(completions := c.completions, subagents := MarkCancelled(c.subagents, x)));
    }
  }

  /** The workers a cancel asks to stop. */
  ghost predicate Reached(c: Coord, x: RunId, worker: RunId)
    requires ValidQueue(c.queue) && worker in c.subagents
  {
    if x in c.active || (x !in c.subagents && IsWaiting(c.queue, x)) then c.subagents[worker].parent == Some(x)
    else worker == x
  }

  /** What a cancel does to the pools and to a waiting run's record, field by field. */
  lemma CancelFields(c: Coord, x: RunId)
    requires QueueOk(c) && ValidQueue(c.queue)
    ensures var d := CancelledRun(c, x);
            && d.active == (if x in c.active then c.active[x := c.active[x].(cancelRequested := true)] else c.active)
            && d.subagents.Keys == c.subagents.Keys
            && (forall w :: w in c.subagents ==>
                  d.subagents[w] == if Reached(c, x, w) then c.subagents[w].(cancelRequested := true) else c.subagents[w])
    ensures x !in c.active && x !in c.subagents && !IsWaiting(c.queue, x) ==> CancelledRun(c, x) == c
  {
    CancelShape(c, x);
    WaitingPosition(c, x);
    hide QueueOk;
    hide ValidQueue;
    hide IsWaiting;
    hide Contents;
    hide Values;
    hide Removed;
    hide Published;
    hide Discarded;
  }

  lemma CancelRecord(c: Coord, x: RunId)
    requires QueueOk(c) && ValidQueue(c.queue) && x in c.ledgers
    requires x !in c.active && x !in c.subagents && IsWaiting(c.queue, x)
    ensures x in CancelledRun(c, x).ledgers && CancelledRun(c, x).ledgers[x].status == Over(Cancelled)
  {
    WaitingPosition(c, x);
    hide QueueOk;
    hide ValidQueue;
    hide IsWaiting;
    hide Contents;
    hide Values;
    hide Removed;
    hide Published;
    hide MarkCancelled;
    var job := WaitingAt(c, x);
    var discarded := Discarded(c, Removed(c.queue, job), x, Cancelled);
    var marked := discarded.(completions := c.completions, subagents := MarkCancelled(c.subagents, x));
    PublishShape(marked);
    assert marked.ledgers[x].status == Over(Cancelled);
    assert Published(marked).ledgers[x] == Announced(marked, x);
  }

  lemma MarksAt(pool: Pool, x: RunId, id: RunId)
    ensures id in Flagged(pool, x) <==> id in pool
    ensures id in MarkCancelled(pool, x) <==> id in pool
    ensures id in pool ==>
              Flagged(pool, x)[id] == (if id == x then pool[id].(cancelRequested := true) else pool[id])
              && MarkCancelled(pool, x)[id] ==
                 (if pool[id].parent == Some(x) then pool[id].(cancelRequested := true) else pool[id])
  {
  }

  lemma CancelJob(c: Coord, x: RunId, id: RunId)
    requires QueueOk(c) && ValidQueue(c.queue) && PoolsOk(c) && JobOf(c, id).Some?
    ensures JobOf(CancelledRun(c, x), id) == JobAfter(c, Cancel(x), id)
  {
    hide CancelledRun;
    hide QueueOk;
    hide ValidQueue;
    hide IsWaiting;
    hide Contents;
    hide Flagged;
    hide MarkCancelled;
    CancelShape(c, x);
    MarksAt(c.active, x, id);
    MarksAt(c.subagents, x, id);
  }

  lemma NotAsked(c: Coord, step: Step, id: RunId)
    requires ValidQueue(c.queue) && JobOf(c, id).Some?
    requires !step.Cancel? && !step.AbortSignal? && !step.Shutdown?
    ensures JobAfter(c, step, id) == JobOf(c, id)
  {
    hide ValidQueue;
  }

  lemma AbortJob(c: Coord, x: RunId, id: RunId)
    requires ValidQueue(c.queue) && JobOf(c, id).Some? && x in c.subagents
    ensures JobOf(c.(subagents := Flagged(c.subagents, x)), id) == JobAfter(c, AbortSignal(x), id)
  {
    hide ValidQueue;
  }

  lemma NotifyOther(c: Coord, x: RunId, id: RunId)
    requires x != id
    ensures JobOf(Advanced(c, x, RecordOf(c, x), Notified, true), id) == JobOf(c, id)
  {
  }

  lemma ShutDownJob(c: Coord, id: RunId)
    requires ValidQueue(c.queue) && JobOf(c, id).Some?
    ensures JobOf(ShutDown(c), id) == JobAfter(c, Shutdown, id)
  {
    DrainKeeps(c.(accepting := false));
    hide ValidQueue;
    hide Drained;
    hide Published;
    var d := Drained(c.(accepting := false));
    PublishShape(d.(active := MarkShutdown(d.active), subagents := MarkShutdown(d.subagents)));
  }

  lemma JobStep(c: Coord, step: Step, id: RunId)
    requires Inv(c) && ValidQueue(c.queue) && Enabled(c, step) && HasStage(c, id, Streaming)
    requires !(step.EndStream? && step.id == id)
    ensures JobOf(Next(c, step), id) == JobAfter(c, step, id)
  {
    hide Inv;
    hide BooksOk;
    hide QueueOk;
    hide RunsOk;
    hide ValidQueue;
    hide IsWaiting;
    hide StartedRun;
    hide Launched;
    hide CancelledRun;
    hide ShutDown;
    hide StreamEnded;
    hide Settled;
    hide Advanced;
    hide Appended;
    hide JobAfter;
    InvParts(c);
    BooksParts(c);
    BooksQueue(c);
    if !step.Cancel? && !step.AbortSignal? && !step.Shutdown? {
      NotAsked(c, step, id);
    }
    match step
    case Start(x, owner, retry, broken) => StartOther(c, x, owner, retry, broken, id);
    case Launch(x, owner, parent, aborted, broken) => LaunchOther(c, x, owner, parent, aborted, broken, id);
    case Cancel(x) => CancelJob(c, x, id);
    case AbortSignal(x) => AbortJob(c, x, id);
    case Shutdown => ShutDownJob(c, id);
    case Deliver(x) =>
    case EndStream(x, how) => EndOther(c, x, how, id);
    case Notify(x) => NotifyOther(c, x, id);
    case Settle(x, broken) => SettleOther(c, x, broken, id);
  }

  /** While a run streams, a step changes its job only by the flags, and only as it asks: the
      cancel flag when the step hits the run, the shutdown flag when it closes the coordinator. */
  lemma StreamingStep(c: Coord, step: Step, id: RunId)
    requires Inv(c) && ValidQueue(c.queue) && Enabled(c, step) && HasStage(c, id, Streaming)
    requires !(step.EndStream? && step.id == id)
    ensures JobOf(Next(c, step), id) == JobAfter(c, step, id) && HasStage(Next(c, step), id, Streaming)
  {
    JobStep(c, step, id);
    hide Inv;
    hide ValidQueue;
    hide Next;
    hide Enabled;
    hide IsWaiting;
  }

  // ----- whole histories -----

  /** Some step along the way asks the run to stop. */
  ghost predicate IsHit(c: Coord, steps: seq<Step>, id: RunId)
    requires Inv(c) && Possible(c, steps)
    decreases |steps|
  {
    InvParts(c);
    steps != [] && (Hits(c, steps[0], id) || (StepInv(c, steps[0]); IsHit(Next(c, steps[0]), steps[1..], id)))
  }

  predicate KeepsStreaming(steps: seq<Step>, id: RunId) {
    forall step | step in steps :: !(step.EndStream? && step.id == id)
  }

  lemma {:induction false} StreamingHistory(c: Coord, steps: seq<Step>, id: RunId)
    requires Inv(c) && HasStage(c, id, Streaming) && Possible(c, steps) && KeepsStreaming(steps, id)
    ensures var d := After(c, steps);
            HasStage(d, id, Streaming)
            && (JobOf(d, id).value.cancelRequested <==> JobOf(c, id).value.cancelRequested || IsHit(c, steps, id))
    decreases |steps|
  {
    hide Inv;
    hide Next;
    hide Enabled;
    hide Hits;
    InvParts(c);
    if steps != [] {
      assert steps[0] in steps;
      StepInv(c, steps[0]);
      StreamingStep(c, steps[0], id);
      StreamingHistory(Next(c, steps[0]), steps[1..], id);
    }
  }

  /** Pooled jobs have been told of the shutdown exactly when there was one, and no waiting job has
      been told anything. */
  ghost predicate FlagsOk(c: Coord)
    requires ValidQueue(c.queue)
  {
    && (forall id :: id in c.active ==> c.active[id].shutdownRequested == !c.accepting)
    && (forall id :: id in c.subagents ==> c.subagents[id].shutdownRequested == !c.accepting)
    && forall job :: job in Contents(c.queue) ==> !job.shutdownRequested && !job.cancelRequested
  }

  lemma BegunFlags(c: Coord, x: RunId, broken: set<RunId>)
    requires ValidQueue(c.queue) && FlagsOk(c)
    ensures Begun(c, x, broken).queue == c.queue && FlagsOk(Begun(c, x, broken))
  {
    hide ValidQueue;
    hide Contents;
    hide Appended;
  }

  lemma DispatchedFlags(c: Coord, q: FairQueue, job: Job, broken: set<RunId>)
    requires ValidQueue(c.queue) && ValidQueue(q) && FlagsOk(c) && c.accepting
    requires job in Contents(c.queue) && Contents(q) == Contents(c.queue) - multiset{job}
    ensures Dispatched(c, q, job, broken).queue == q && FlagsOk(Dispatched(c, q, job, broken))
  {
    hide ValidQueue;
    hide Contents;
    hide Published;
    hide Begun;
    var moved := c.(queue := q, active := c.active[job.id := job]);
    PublishShape(moved);
    BegunFlags(Published(moved), job.id, broken);
  }

  lemma {:induction false} PumpedFlags(c: Coord, broken: set<RunId>)
    requires ValidQueue(c.queue) && FlagsOk(c)
    ensures ValidQueue(Pumped(c, broken).queue) && FlagsOk(Pumped(c, broken))
    decreases |Contents(c.queue)|
  {
    hide ValidQueue;
    hide Contents;
    hide Dispatched;
    hide FlagsOk;
    if c.accepting && |c.active| < c.limits.maxConcurrent {
      var (job, q) := NextJob(c.limits, c.active, c.queue);
      if job.Some? {
        DispatchShape(c, q, job.value, broken);
        DispatchedFlags(c, q, job.value, broken);
        PumpedFlags(Dispatched(c, q, job.value, broken), broken);
      }
    }
  }

  lemma StartFlags(c: Coord, x: RunId, owner: OwnerKey, retry: bool, broken: set<RunId>)
    requires BooksOk(c) && ValidQueue(c.queue) && FlagsOk(c) && x !in c.ledgers
    ensures ValidQueue(StartedRun(c, x, owner, retry, broken).queue) && FlagsOk(StartedRun(c, x, owner, retry, broken))
  {
    hide BooksOk;
    hide ValidQueue;
    hide Contents;
    hide Published;
    hide Pumped;
    hide Enqueued;
    if c.accepting && |Contents(c.queue)| + |c.active| < c.limits.maxDepth {
      var d := StartAdmits(c, x, owner, retry, broken);
      PumpedFlags(d, broken);
    }
  }

  lemma LaunchFlags(c: Coord, x: RunId, owner: OwnerKey, parent: RunId, aborted: bool, broken: set<RunId>)
    requires ValidQueue(c.queue) && FlagsOk(c)
    ensures var d := Launched(c, x, owner, parent, aborted, broken); ValidQueue(d.queue) && FlagsOk(d)
  {
    hide ValidQueue;
    hide Contents;
    hide Begun;
    hide Appended;
    if c.accepting && parent in c.ledgers && parent !in c.delegation && !aborted {
      BegunFlags(WithChild(c, x, owner, parent), x, broken);
    }
  }

  /** Asking jobs to stop does not tell them of a shutdown. */
  lemma MarksKeepShutdown(pool: Pool, x: RunId)
    ensures Flagged(pool, x).Keys == pool.Keys && MarkCancelled(pool, x).Keys == pool.Keys
    ensures forall id :: id in pool ==> Flagged(pool, x)[id].shutdownRequested == pool[id].shutdownRequested
    ensures forall id :: id in pool ==> MarkCancelled(pool, x)[id].shutdownRequested == pool[id].shutdownRequested
  {
  }

  lemma CancelFlags(c: Coord, x: RunId)
    requires QueueOk(c) && ValidQueue(c.queue) && FlagsOk(c)
    ensures ValidQueue(CancelledRun(c, x).queue) && FlagsOk(CancelledRun(c, x))
  {
    hide CancelledRun;
    hide QueueOk;
    hide ValidQueue;
    hide IsWaiting;
    hide Contents;
    hide Flagged;
    hide MarkCancelled;
    CancelShape(c, x);
    MarksKeepShutdown(c.active, x);
    MarksKeepShutdown(c.subagents, x);
  }

  lemma AbortFlags(c: Coord, x: RunId)
    requires ValidQueue(c.queue) && FlagsOk(c)
    ensures FlagsOk(c.(subagents := Flagged(c.subagents, x)))
  {
    hide ValidQueue;
    hide Contents;
    hide Flagged;
    MarksKeepShutdown(c.subagents, x);
  }

  lemma EmittedFlags(c: Coord, x: RunId, kind: Kind)
    requires ValidQueue(c.queue) && FlagsOk(c)
    ensures Emitted(c, x, kind).queue == c.queue && FlagsOk(Emitted(c, x, kind))
  {
    hide ValidQueue;
    hide Contents;
    hide Appended;
  }

  lemma ShutDownFlags(c: Coord)
    requires ValidQueue(c.queue) && FlagsOk(c)
    ensures ValidQueue(ShutDown(c).queue) && FlagsOk(ShutDown(c))
  {
    DrainKeeps(c.(accepting := false));
    hide ValidQueue;
    hide Contents;
    hide Drained;
    hide Published;
    var d := Drained(c.(accepting := false));
    PublishShape(d.(active := MarkShutdown(d.active), subagents := MarkShutdown(d.subagents)));
  }

  lemma SettleFlags(c: Coord, x: RunId, broken: set<RunId>)
    requires ValidQueue(c.queue) && FlagsOk(c)
    ensures ValidQueue(Settled(c, x, broken).queue) && FlagsOk(Settled(c, x, broken))
  {
    hide ValidQueue;
    hide Contents;
    hide Published;
    hide Pumped;
    hide FlagsOk;
    var d := c.(active := c.active - {x});
    ForgottenFlags(c, x);
    PublishedFlags(d);
    PumpedFlags(Published(d), broken);
  }

  lemma ForgottenFlags(c: Coord, x: RunId)
    requires ValidQueue(c.queue) && FlagsOk(c)
    ensures FlagsOk(c.(active := c.active - {x})) && FlagsOk(c.(subagents := c.subagents - {x}))
  {
    hide ValidQueue;
    hide Contents;
  }

  lemma PublishedFlags(c: Coord)
    requires ValidQueue(c.queue) && FlagsOk(c)
    ensures Published(c).queue == c.queue && FlagsOk(Published(c))
  {
    hide ValidQueue;
    hide Contents;
    hide Published;
    PublishShape(c);
  }

  lemma RestagedFlags(c: Coord, x: RunId, record: Ledger, stage: Stage, reported: bool)
    requires ValidQueue(c.queue) && FlagsOk(c)
    ensures Advanced(c, x, record, stage, reported).queue == c.queue && FlagsOk(Advanced(c, x, record, stage, reported))
  {
    hide ValidQueue;
    hide Contents;
  }

  lemma EndFlags(c: Coord, x: RunId, how: How)
    requires ValidQueue(c.queue) && FlagsOk(c)
    ensures StreamEnded(c, x, how).queue == c.queue && FlagsOk(StreamEnded(c, x, how))
  {
    hide ValidQueue;
    hide Contents;
    hide Advanced;
    hide Appended;
    hide FlagsOk;
    var job := JobOf(c, x);
    if job.Some? {
      var ending := EndingOf(job.value, how);
      RestagedFlags(c, x, Appended(RecordOf(c, x), Finished(ending)), Ended, false);
      RestagedFlags(c, x, Appended(Appended(RecordOf(c, x), Streamed), Finished(ending)), Ended, false);
    }
  }

  lemma FlagsStep(c: Coord, step: Step)
    requires Inv(c) && ValidQueue(c.queue) && Enabled(c, step) && FlagsOk(c)
    ensures ValidQueue(Next(c, step).queue) && FlagsOk(Next(c, step))
  {
    hide Inv;
    hide BooksOk;
    hide QueueOk;
    hide ValidQueue;
    hide Contents;
    hide StartedRun;
    hide Launched;
    hide CancelledRun;
    hide ShutDown;
    hide StreamEnded;
    hide Settled;
    hide Advanced;
    hide Appended;
    hide FlagsOk;
    hide Emitted;
    hide Flagged;
    InvParts(c);
    BooksQueue(c);
    match step
    case Start(x, owner, retry, broken) => StartFlags(c, x, owner, retry, broken);
    case Launch(x, owner, parent, aborted, broken) => LaunchFlags(c, x, owner, parent, aborted, broken);
    case Cancel(x) => CancelFlags(c, x);
    case AbortSignal(x) => AbortFlags(c, x);
    case Shutdown => ShutDownFlags(c);
    case Deliver(x) => EmittedFlags(c, x, Streamed);
    case EndStream(x, how) => EndFlags(c, x, how);
    case Notify(x) => RestagedFlags(c, x, RecordOf(c, x), Notified, true);
    case Settle(x, broken) => SettleFlags(c, x, broken);
  }

  lemma {:induction false} FlagsAlways(c: Coord, steps: seq<Step>)
    requires Inv(c) && ValidQueue(c.queue) && Possible(c, steps) && FlagsOk(c)
    ensures ValidQueue(After(c, steps).queue) && FlagsOk(After(c, steps))
    decreases |steps|
  {
    hide Inv;
    hide Next;
    hide Enabled;
    hide FlagsOk;
    if steps != [] {
      FlagsStep(c, steps[0]);
      StepInv(c, steps[0]);
      FlagsAlways(Next(c, steps[0]), steps[1..]);
    }
  }

  /** How a run ends, over any history `before` in which it has come to stream and any further
      `steps` until its stream ends. The terminal event tells of the shutdown if there was one,
      and otherwise of a cancellation if the run had been asked to stop, by a cancel that reached it
      before or since, and only otherwise of how the stream itself ended. */
  lemma EndingExactly(limits: Limits, before: seq<Step>, steps: seq<Step>, id: RunId, how: How)
    requires (InitialInv(limits); Possible(Initial(limits), before))
    requires var c := (InitialInv(limits); After(Initial(limits), before));
             HasStage(c, id, Streaming) && Possible(c, steps) && KeepsStreaming(steps, id)
    ensures var c := (InitialInv(limits); After(Initial(limits), before));
            var d := After(c, steps);
            HasStage(d, id, Streaming) && ValidQueue(d.queue)
            && var e := Next(d, EndStream(id, how));
               id in e.ledgers &&
               EndingsIn(e.ledgers[id].events) ==
                 [if !d.accepting then Interrupted
                  else if JobOf(c, id).value.cancelRequested || IsHit(c, steps, id) then Cancelled
                  else if how.Aborted? then Interrupted
                  else if how == Exhausted(false) then Completed
                  else Failed]
  {
    InitialInv(limits);
    var start := Initial(limits);
    var c := After(start, before);
    StartUnflagged(limits);
    hide Inv;
    hide FlagsOk;
    hide After;
    hide Initial;
    hide EndingsIn;
    hide Next;
    FlagsAlways(start, before);
    FlagsAlways(c, steps);
    StreamingHistory(c, steps, id);
    var d := After(c, steps);
    InvParts(d);
    EndsAsFlagged(d, id, how);
  }

  lemma StartUnflagged(limits: Limits)
    ensures ValidQueue(Initial(limits).queue) && FlagsOk(Initial(limits))
  {
  }

  lemma EndsAsFlagged(d: Coord, id: RunId, how: How)
    requires Inv(d) && ValidQueue(d.queue) && FlagsOk(d) && HasStage(d, id, Streaming)
    ensures var e := Next(d, EndStream(id, how));
            id in e.ledgers &&
            EndingsIn(e.ledgers[id].events) ==
              [if !d.accepting then Interrupted
               else if JobOf(d, id).value.cancelRequested then Cancelled
               else if how.Aborted? then Interrupted
               else if how == Exhausted(false) then Completed
               else Failed]
  {
    hide Inv;
    hide ValidQueue;
    hide Contents;
    hide StreamEnded;
    hide EndingsIn;
    EndingTold(d, id, how);
  }

  /** A job that leaves the queue to run has not been asked to stop. */
  lemma WaitingUnflagged(limits: Limits, before: seq<Step>, job: Job)
    requires (InitialInv(limits); Possible(Initial(limits), before))
    requires ValidQueue((InitialInv(limits); After(Initial(limits), before)).queue)
    requires job in Contents((InitialInv(limits); After(Initial(limits), before)).queue)
    ensures !job.cancelRequested && !job.shutdownRequested
  {
    InitialInv(limits);
    InvParts(Initial(limits));
    FlagsAlways(Initial(limits), before);
  }
}
