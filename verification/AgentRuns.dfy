/** The run coordinator object: each method takes exactly the step the history proofs are about. */
module AgentRuns {
  import opened Basics
  import opened FairQueues
  import opened RunCoordinator
  import opened RunEndings

  datatype Admission = Admitted | CoordinatorClosed | AtCapacity
  datatype Launch = ChildLaunched | RuntimeClosed | ParentUnknown | NestedDelegation | LaunchAborted

  class AgentRunCoordinator {
    const limits: Limits
    const queue: OwnerFairQueue
    var accepting: bool
    var active: Pool
    var subagents: Pool
    var ledgers: map<RunId, Ledger>
    var delegation: map<RunId, RunId>
    var completions: seq<RunId>

    ghost function State(): Coord
      reads this, queue
    {
      Coord(limits, accepting, queue.State(), active, subagents, ledgers, delegation, completions)
    }

    ghost predicate Valid()
      reads this, queue
    {
      Inv(State())
    }

    constructor (limits: Limits)
      ensures Valid() && State() == Initial(limits) && fresh(queue)
    {
      this.limits := limits;
      queue := new OwnerFairQueue();
      accepting := true;
      active, subagents, ledgers, delegation, completions := map[], map[], map[], map[], [];
      new;
      InitialInv(limits);
    }

    method Emit(id: RunId, kind: Kind)
      modifies this`ledgers
      ensures State() == Emitted(old(State()), id, kind)
    {
      if id in ledgers {
        var l := ledgers[id];
        var sequence := l.lastSequence + 1;
        ledgers := ledgers[id := Ledger(StatusAfter(l.status, kind), sequence, l.events + [Event(sequence, kind)])];
      }
    }

    method TellRunning(depth: nat, ghost told: map<RunId, Ledger>)
      requires active.Keys <= ledgers.Keys && told.Keys == ledgers.Keys
      requires forall id :: id in active ==> told[id] == Appended(ledgers[id], QueueUpdated(0, depth))
      modifies this`ledgers
      ensures ledgers.Keys == old(ledgers).Keys
      ensures forall id :: id in ledgers ==> ledgers[id] == if id in active then told[id] else old(ledgers)[id]
    {
      var toTell := active.Keys;
      while toTell != {}
        invariant toTell <= active.Keys && ledgers.Keys == old(ledgers).Keys
        invariant forall id :: id in ledgers ==>
                    ledgers[id] == if id in active && id !in toTell then told[id] else old(ledgers)[id]
      {
        var id :| id in toTell;
        EmitFor(id, QueueUpdated(0, depth));
        toTell := toTell - {id};
      }
    }

    method TellWaiting(waiting: seq<Job>, depth: nat, ghost told: map<RunId, Ledger>)
      requires told.Keys == ledgers.Keys
      requires forall k :: 0 <= k < |waiting| ==>
                 waiting[k].id in ledgers && PositionOf(waiting, waiting[k].id) == k
                 && told[waiting[k].id] == Appended(ledgers[waiting[k].id], QueueUpdated(k + 1, depth))
      modifies this`ledgers
      ensures ledgers.Keys == old(ledgers).Keys
      ensures forall id :: id in ledgers ==>
                ledgers[id] == if PositionOf(waiting, id) < |waiting| then told[id] else old(ledgers)[id]
    {
      hide PositionOf;
      hide Appended;
      var index := 0;
      while index < |waiting|
        invariant 0 <= index <= |waiting| && ledgers.Keys == old(ledgers).Keys
        invariant forall id :: id in ledgers ==>
                    ledgers[id] == if PositionOf(waiting, id) < index then told[id] else old(ledgers)[id]
      {
        EmitFor(waiting[index].id, QueueUpdated(index + 1, depth));
        index := index + 1;
      }
    }

    method EmitFor(id: RunId, kind: Kind)
      requires id in ledgers
      modifies this`ledgers
      ensures ledgers == old(ledgers)[id := Appended(old(ledgers)[id], kind)]
    {
      Emit(id, kind);
    }

    /** Tells every running and every waiting run where it stands. */
    method PublishQueue()
      requires Announceable(State())
      modifies this`ledgers
      ensures State() == Published(old(State()))
    {
      hide Published;
      hide Contents;
      hide Values;
      hide Appended;
      hide Announced;
      hide ValidQueue;
      hide ListedOnce;
      hide PositionOf;
      ghost var c := State();
      ghost var told := Published(c).ledgers;
      var waiting := queue.Snapshot();
      var length := queue.Length();
      var depth := length + |active|;
      PublishShape(c);
      AnnouncedMeaning(c, waiting, depth);
      TellRunning(depth, told);
      TellWaiting(waiting, depth, told);
      assert ledgers == told;
      PublishedIs(c, told);
    }

    /** The synchronous head of a job: create the stream, or fail the run. */
    method RunJob(id: RunId, broken: set<RunId>)
      requires id in active || id in subagents
      requires id in ledgers && active.Keys !! subagents.Keys
      modifies this`ledgers, this`active, this`subagents, this`completions
      ensures State() == Begun(old(State()), id, broken)
    {
      var job := if id in active then active[id] else subagents[id];
      if id in broken {
        Emit(id, Finished(if job.shutdownRequested then Interrupted else Failed));
        completions := completions + [id];
        job := job.(stage := Notified);
      } else {
        Emit(id, Started);
        job := job.(stage := Streaming);
      }
      if id in active {
        active := active[id := job];
      } else {
        subagents := subagents[id := job];
      }
    }

    /** Moves a job just dequeued into the pool and runs it. */
    method Dispatch(job: Job, broken: set<RunId>, ghost c: Coord)
      requires BooksOk(c) && c.accepting && queue.Valid() && State() == c.(queue := queue.State())
      requires job in Contents(c.queue) && Contents(queue.State()) == Contents(c.queue) - multiset{job}
      modifies this`ledgers, this`active, this`subagents, this`completions
      ensures State() == Dispatched(c, queue.State(), job, broken)
    {
      ghost var q := queue.State();
      MoveKeeps(c, q, job);
      WaitingJobKnown(c, job);
      BooksParts(c);
      hide BooksOk;
      hide Contents;
      hide Published;
      hide Begun;
      active := active[job.id := job];
      PublishShape(State());
      BooksAnnounceable(State());
      PublishQueue();
      RunJob(job.id, broken);
    }

    method Pump(broken: set<RunId>)
      requires BooksOk(State())
      modifies this`ledgers, this`active, this`subagents, this`completions, queue
      ensures queue.Valid() && State() == Pumped(old(State()), broken)
    {
      ghost var c := State();
      BooksParts(c);
      hide BooksOk;
      hide Contents;
      hide Dispatched;
      hide ValidQueue;
      while accepting && |active| < limits.maxConcurrent
        invariant BooksOk(State()) && ValidQueue(queue.State()) && accepting == c.accepting
        invariant Pumped(State(), broken) == Pumped(c, broken)
        decreases |Contents(queue.State())|
      {
        ghost var before := State();
        var running, room := active, limits;
        assert queue.Valid() by { QueueValid(before); }
        var job := queue.DequeueWhere((j: Job) => OwnerHasRoom(room, running, j.owner));
        NextIsServed(before);
        if job.None? {
          break;
        }
        ghost var q := queue.State();
        DispatchKeeps(before, q, job.value, broken);
        DispatchShape(before, q, job.value, broken);
        Dispatch(job.value, broken, before);
      }
      assert queue.Valid() by { QueueValid(State()); }
    }

    lemma PublishedIs(c: Coord, told: map<RunId, Ledger>)
      requires ValidQueue(c.queue) && told == Published(c).ledgers
      ensures State() == c.(ledgers := told) ==> State() == Published(c)
    {
      hide ValidQueue;
    }

    lemma QueueValid(c: Coord)
      requires ValidQueue(c.queue) && c.queue == queue.State()
      ensures queue.Valid()
    {
    }

    method Start(id: RunId, owner: OwnerKey, retry: bool, broken: set<RunId>) returns (admission: Admission)
      requires Valid() && id !in ledgers
      modifies this, queue
      ensures Valid() && State() == StartedRun(old(State()), id, owner, retry, broken)
      ensures admission == CoordinatorClosed <==> !old(accepting)
      ensures admission == AtCapacity <==>
                old(accepting) && old(|Contents(queue.State())|) + |old(active)| >= limits.maxDepth
      ensures admission == Admitted <==> id in ledgers
    {
      hide Inv;
      hide BooksOk;
      hide ValidQueue;
      hide Contents;
      hide Published;
      hide Pumped;
      hide Values;
      hide Removed;
      hide QueueOk;
      hide PoolsOk;
      hide Drained;
      hide Enqueued;
      hide Appended;
      ghost var c := State();
      StartInv(c, id, owner, retry, broken);
      InvParts(c);
      if !accepting {
        return CoordinatorClosed;
      }
      var length := queue.Length();
      if length + |active| >= limits.maxDepth {
        return AtCapacity;
      }
      StartBooks(c, id, owner, retry);
      ledgers := ledgers[id := Ledger(Queued, 0, [])];
      Emit(id, Created);
      RegisteredRecord(c, id);
      if retry {
        Emit(id, Retried);
      }
      queue.Enqueue(NewJob(id, owner, None));
      ghost var announced := State();
      PublishKeeps(announced);
      PublishShape(announced);
      PumpKeysKept(Published(announced), broken);
      Refill(broken);
      return Admitted;
    }

    /** A worker is recorded with its parent and begins at once, outside the queue; a run that was
        itself launched as a worker may not launch one, however long ago it ended. */
    method LaunchSubagent(id: RunId, owner: OwnerKey, parent: RunId, aborted: bool, broken: set<RunId>)
      returns (launch: Launch)
      requires Valid() && id !in ledgers
      modifies this`ledgers, this`active, this`subagents, this`delegation, this`completions
      ensures Valid() && State() == Launched(old(State()), id, owner, parent, aborted, broken)
      ensures launch == RuntimeClosed <==> !old(accepting)
      ensures launch == ParentUnknown <==> old(accepting) && parent !in old(ledgers)
      ensures launch == NestedDelegation <==> old(accepting) && parent in old(ledgers) && parent in old(delegation)
      ensures launch == ChildLaunched <==> id in subagents
    {
      hide Inv;
      hide BooksOk;
      hide ValidQueue;
      hide Contents;
      hide Begun;
      hide Appended;
      ghost var c := State();
      LaunchInv(c, id, owner, parent, aborted, broken);
      InvParts(c);
      UnknownRun(c, id);
      BooksParts(c);
      if !accepting {
        return RuntimeClosed;
      }
      if parent !in ledgers {
        return ParentUnknown;
      }
      if parent in delegation {
        return NestedDelegation;
      }
      if aborted {
        return LaunchAborted;
      }
      ledgers := ledgers[id := Ledger(Queued, 0, [])];
      Emit(id, Created);
      RegisteredRecord(c, id);
      delegation := delegation[id := parent];
      subagents := subagents[id := NewJob(id, owner, Some(parent))];
      assert State() == WithChild(c, id, owner, parent);
      RunJob(id, broken);
      BegunPools(WithChild(c, id, owner, parent), id, broken);
      return ChildLaunched;
    }

    /** The parent's signal asks the worker's stream to stop. */
    method Abort(id: RunId)
      requires Valid() && id in subagents
      modifies this`subagents
      ensures Valid() && State() == Next(old(State()), AbortSignal(id))
      ensures subagents == old(subagents)[id := old(subagents)[id].(cancelRequested := true)]
    {
      hide Inv;
      hide BooksOk;
      hide ValidQueue;
      hide Contents;
      ghost var c := State();
      InvParts(c);
      AbortInv(c, id);
      subagents := subagents[id := subagents[id].(cancelRequested := true)];
    }

    /** One more event of a stream that is being read. */
    method Deliver(id: RunId)
      requires Valid() && HasStage(State(), id, Streaming)
      modifies this`ledgers
      ensures Valid() && State() == Next(old(State()), Step.Deliver(id))
      ensures id in ledgers && id in old(ledgers) && ledgers[id] == Appended(old(ledgers)[id], Streamed)
    {
      hide Inv;
      hide BooksOk;
      hide ValidQueue;
      hide Contents;
      hide Appended;
      ghost var c := State();
      InvParts(c);
      DeliverInv(c, id);
      KnownRun(c, id);
      Emit(id, Streamed);
    }

    /** The completion of a run whose terminal event is stored is reported, once. */
    method NotifyCompletion(id: RunId)
      requires Valid() && HasStage(State(), id, Ended)
      modifies this`active, this`subagents, this`completions
      ensures Valid() && State() == Next(old(State()), Notify(id))
      ensures completions == old(completions) + [id] && HasStage(State(), id, Notified)
    {
      hide Inv;
      hide BooksOk;
      hide ValidQueue;
      hide Contents;
      ghost var c := State();
      InvParts(c);
      NotifyInv(c, id);
      KnownRun(c, id);
      BooksParts(c);
      assert ledgers == ledgers[id := ledgers[id]];
      completions := completions + [id];
      if id in active {
        active := active[id := active[id].(stage := Notified)];
      } else {
        subagents := subagents[id := subagents[id].(stage := Notified)];
      }
    }

    method Cancel(id: RunId) returns (found: bool)
      requires Valid()
      modifies this`ledgers, this`active, this`subagents, this`completions, queue
      ensures Valid() && State() == CancelledRun(old(State()), id)
      ensures found <==> id in old(active) || id in old(subagents) || IsWaiting(old(queue.State()), id)
      ensures active == if id in old(active) then old(active)[id := old(active)[id].(cancelRequested := true)] else old(active)
      ensures subagents.Keys == old(subagents).Keys
      ensures forall w :: w in subagents ==>
                subagents[w] == if Reached(old(State()), id, w) then old(subagents)[w].(cancelRequested := true)
                                else old(subagents)[w]
      ensures IsWaiting(old(queue.State()), id) && id !in old(active) && id !in old(subagents) ==>
                id in ledgers && ledgers[id].status == Over(Cancelled)
      ensures !found ==> State() == old(State())
    {
      hide Inv;
      hide BooksOk;
      hide ValidQueue;
      hide Contents;
      hide Published;
      hide Pumped;
      hide Values;
      hide Removed;
      hide QueueOk;
      hide PoolsOk;
      hide Drained;
      hide Enqueued;
      hide Appended;
      ghost var c := State();
      CancelInv(c, id);
      InvParts(c);
      BooksQueue(c);
      CancelFields(c, id);
      if id !in c.active && id !in c.subagents && IsWaiting(c.queue, id) {
        WaitingKnown(c, id);
        CancelRecord(c, id);
      }
      WaitingPosition(c, id);
      if id in active {
        active := active[id := active[id].(cancelRequested := true)];
        CancelSubagentsForParent(id);
        return true;
      }
      if id in subagents {
        subagents := subagents[id := subagents[id].(cancelRequested := true)];
        return true;
      }
      var waiting := queue.Snapshot();
      var k := PositionOf(waiting, id);
      if k == |waiting| {
        return false;
      }
      CancelWaiting(id, waiting, k);
      return true;
    }

    /** A waiting run gets its terminal event and its report at once. */
    method CancelWaiting(id: RunId, waiting: seq<Job>, k: nat)
      requires BooksOk(State()) && ValidQueue(queue.State()) && id !in active && id !in subagents
      requires waiting == Values(queue.State()) && k == PositionOf(waiting, id) < |waiting|
      modifies this`ledgers, this`subagents, this`completions, queue
      ensures ValidQueue(old(State()).queue) && State() == CancelledRun(old(State()), id)
    {
      hide BooksOk;
      hide ValidQueue;
      hide Contents;
      hide Published;
      hide Values;
      hide Removed;
      hide QueueOk;
      hide Appended;
      hide CancelledRun;
      hide Discarded;
      ghost var c := State();
      BooksQueue(c);
      ghost var job := WaitingAt(c, id);
      WaitingJobKnown(c, job);
      CancelledAnnounceable(c, id);
      QueueValid(c);
      var removed := queue.Remove(waiting[k]);
      Emit(id, Finished(Cancelled));
      CancelSubagentsForParent(id);
      ghost var e := State();
      CancelledState(c, id, job, e);
      PublishQueue();
      completions := completions + [id];
      CancelledEnd(c, id, e);
    }

    method CancelSubagentsForParent(parent: RunId)
      modifies this`subagents
      ensures subagents == MarkCancelled(old(subagents), parent)
    {
      var before := subagents;
      var left := subagents.Keys;
      while left != {}
        invariant left <= before.Keys && subagents.Keys == before.Keys
        invariant forall id :: id in before ==>
                    subagents[id] == if id in left then before[id] else MarkCancelled(before, parent)[id]
      {
        var id :| id in left;
        left := left - {id};
        if subagents[id].parent == Some(parent) {
          subagents := subagents[id := subagents[id].(cancelRequested := true)];
        }
      }
      assert subagents == MarkCancelled(before, parent);
    }

    /** Stops admission, interrupts everything that waits and asks everything that runs to stop. */
    method Shutdown()
      requires Valid()
      modifies this, queue
      ensures Valid() && State() == ShutDown(old(State()))
      ensures !accepting && Contents(queue.State()) == multiset{}
      ensures old(accepting) ==>
                && active == (map id | id in old(active) :: old(active)[id].(shutdownRequested := true))
                && subagents == (map id | id in old(subagents) :: old(subagents)[id].(shutdownRequested := true))
      ensures !old(accepting) ==> State() == old(State())
    {
      hide Inv;
      hide BooksOk;
      hide ValidQueue;
      hide Contents;
      hide Published;
      hide Pumped;
      hide Values;
      hide Removed;
      hide QueueOk;
      hide PoolsOk;
      hide Drained;
      hide Enqueued;
      hide Appended;
      ghost var c := State();
      ShutDownInv(c);
      InvParts(c);
      ClosedIsEmpty(c);
      if !accepting {
        return;
      }
      accepting := false;
      DrainQueue(c);
      DrainKeeps(c.(accepting := false));
      ShutFlags(c);
      active := map id | id in active :: active[id].(shutdownRequested := true);
      subagents := map id | id in subagents :: subagents[id].(shutdownRequested := true);
      assert active == MarkShutdown(old(active)) && subagents == MarkShutdown(old(subagents));
      BooksAnnounceable(State());
      PublishQueue();
    }

    /** A job just dequeued is interrupted before it ever ran. */
    method Interrupt(job: Job, ghost c: Coord)
      requires job.id in ledgers && State() == c.(queue := queue.State())
      modifies this`ledgers, this`completions
      ensures State() == Discarded(c, queue.State(), job.id, Interrupted)
    {
      Emit(job.id, Finished(Interrupted));
      completions := completions + [job.id];
    }

    method DrainQueue(ghost c: Coord)
      requires BooksOk(c) && c.accepting && queue.Valid() && State() == c.(accepting := false)
      modifies this`ledgers, this`completions, queue
      ensures queue.Valid() && State() == Drained(c.(accepting := false))
    {
      ghost var open := c;
      BooksParts(c);
      hide BooksOk;
      hide Contents;
      hide ValidQueue;
      hide Drained;
      while true
        invariant ValidQueue(queue.State()) && State() == open.(accepting := false) && BooksOk(open) && open.accepting
        invariant Drained(State()) == Drained(c.(accepting := false))
        decreases |Contents(queue.State())|
      {
        ghost var before := State();
        assert queue.Valid() by { QueueValid(before); }
        var job := queue.DequeueWhere((j: Job) => true);
        DequeueKeeps(before.queue, (j: Job) => true);
        if job.None? {
          break;
        }
        DiscardKeeps(open, queue.State(), job.value, Interrupted);
        WaitingJobKnown(open, job.value);
        DrainStep(before, job.value, queue.State());
        Interrupt(job.value, before);
        open := Discarded(open, queue.State(), job.value.id, Interrupted);
      }
      assert queue.Valid() by { QueueValid(State()); }
    }

    /** A stream has ended: the terminal event, whose kind follows the job's flags. */
    method FinishStream(id: RunId, how: How)
      requires Valid() && HasStage(State(), id, Streaming)
      modifies this`ledgers, this`active, this`subagents
      ensures Valid() && State() == StreamEnded(old(State()), id, how)
    {
      hide StreamEnded;
      hide Inv;
      hide BooksOk;
      hide ValidQueue;
      hide Contents;
      hide Published;
      hide Pumped;
      hide Values;
      hide Removed;
      hide QueueOk;
      hide Drained;
      hide Enqueued;
      hide Appended;
      ghost var c := State();
      EndInv(c, id, how);
      InvParts(c);
      KnownRun(c, id);
      BooksParts(c);
      var job := if id in active then active[id] else subagents[id];
      var closed := ledgers[id];
      if how.Exhausted? && !job.shutdownRequested && !job.cancelRequested {
        Emit(id, Streamed);
        closed := ledgers[id];
      }
      Emit(id, Finished(EndingOf(job, how)));
      assert ledgers == old(ledgers)[id := Appended(closed, Finished(EndingOf(job, how)))];
      if id in active {
        active := active[id := job.(stage := Ended)];
      } else {
        subagents := subagents[id := job.(stage := Ended)];
      }
      EndedIs(c, id, how, State());
    }

    method Refill(broken: set<RunId>)
      requires BooksOk(State())
      modifies this`ledgers, this`active, this`subagents, this`completions, queue
      ensures ValidQueue(old(State()).queue) && State() == Pumped(Published(old(State())), broken)
    {
      ghost var c := State();
      BooksParts(c);
      BooksAnnounceable(c);
      PublishKeeps(c);
      PublishShape(c);
      hide BooksOk;
      hide Published;
      hide Pumped;
      PublishQueue();
      Pump(broken);
    }

    /** A finished job leaves the pool, which is refilled from the queue. */
    method SettleJob(id: RunId, broken: set<RunId>)
      requires Valid() && HasStage(State(), id, Notified)
      modifies this, queue
      ensures Valid() && State() == Settled(old(State()), id, broken)
    {
      hide Inv;
      hide BooksOk;
      hide ValidQueue;
      hide Contents;
      hide Published;
      hide Pumped;
      hide Values;
      hide Removed;
      hide QueueOk;
      hide PoolsOk;
      hide Drained;
      hide Enqueued;
      hide Appended;
      ghost var c := State();
      SettleInv(c, id, broken);
      InvParts(c);
      BooksParts(c);
      OnePool(c, id);
      ForgetKeeps(c, id);
      if id !in active {
        subagents := subagents - {id};
        return;
      }
      active := active - {id};
      Refill(broken);
    }
  }

  // ----- what the methods rely on -----

  lemma EndedIs(c: Coord, id: RunId, how: How, d: Coord)
    requires id in c.ledgers && JobOf(c, id).Some? && c.active.Keys !! c.subagents.Keys
    requires var job := JobOf(c, id).value;
             var normally := how.Exhausted? && !job.shutdownRequested && !job.cancelRequested;
             var closed := if normally then Appended(c.ledgers[id], Streamed) else c.ledgers[id];
             d == c.(ledgers := c.ledgers[id := Appended(closed, Finished(EndingOf(job, how)))],
                     active := if id in c.active then c.active[id := job.(stage := Ended)] else c.active,
                     subagents := if id in c.active then c.subagents else c.subagents[id := job.(stage := Ended)])
    ensures d == StreamEnded(c, id, how)
  {
    hide Appended;
    hide EndingOf;
  }

  lemma ClosedIsEmpty(c: Coord)
    requires BooksOk(c) && ValidQueue(c.queue)
    ensures !c.accepting ==> Contents(c.queue) == multiset{}
  {
    BooksQueue(c);
    hide BooksOk;
    hide ValidQueue;
  }

  lemma WaitingKnown(c: Coord, id: RunId)
    requires BooksOk(c) && ValidQueue(c.queue) && IsWaiting(c.queue, id)
    ensures id in c.ledgers
  {
    var job :| job in Contents(c.queue) && job.id == id;
    WaitingRun(c, job);
  }

  lemma BegunPools(c: Coord, id: RunId, broken: set<RunId>)
    ensures Begun(c, id, broken).subagents.Keys == c.subagents.Keys
  {
    hide Appended;
  }

  /** Every waiting or running run has a record, and the serving order lists each run once. */
  ghost predicate Announceable(c: Coord) {
    && ValidQueue(c.queue) && c.active.Keys <= c.ledgers.Keys
    && forall k :: 0 <= k < |Values(c.queue)| ==> ListedOnce(c, k)
  }

  ghost predicate ListedOnce(c: Coord, k: nat)
    requires ValidQueue(c.queue) && k < |Values(c.queue)|
  {
    var id := Values(c.queue)[k].id;
    id in c.ledgers && id !in c.active && PositionOf(Values(c.queue), id) == k
  }

  lemma WaitingOnce(c: Coord, k: nat)
    requires BooksOk(c) && k < |Values(c.queue)|
    ensures ListedOnce(c, k)
  {
    var waiting := Values(c.queue);
    RoundRobinContents(c.queue.buckets, c.queue.owners);
    assert waiting[k] in multiset(waiting);
    WaitingJobKnown(c, waiting[k]);
    var j := PositionOf(waiting, waiting[k].id);
    PositionFirst(waiting, k);
    assert waiting[j] in multiset(waiting);
    if j != k {
      SameJob(c, waiting[j], waiting[k]);
      TwiceCounted(waiting, j, k);
      assert false;
    }
  }

  lemma SameJob(c: Coord, a: Job, b: Job)
    requires QueueOk(c) && a in Contents(c.queue) && b in Contents(c.queue) && a.id == b.id
    ensures a == b && Contents(c.queue)[a] == 1
  {
    hide ValidQueue;
    hide Contents;
  }

  lemma BooksAnnounceable(c: Coord)
    requires BooksOk(c)
    ensures Announceable(c)
  {
    BooksParts(c);
    hide Values;
    hide ListedOnce;
    hide ValidQueue;
    forall k | 0 <= k < |Values(c.queue)|
      ensures ListedOnce(c, k)
    {
      WaitingOnce(c, k);
    }
    forall id | id in c.active
      ensures id in c.ledgers
    {
      PooledRun(c, id);
    }
  }

  /** While a waiting run is being cancelled, its report is still to come. */
  lemma CancelledAnnounceable(c: Coord, id: RunId)
    requires BooksOk(c) && id !in c.active && id !in c.subagents
    requires PositionOf(Values(c.queue), id) < |Values(c.queue)|
    ensures var q := Removed(c.queue, Values(c.queue)[PositionOf(Values(c.queue), id)]);
            Announceable(Discarded(c, q, id, Cancelled).(completions := c.completions, subagents := MarkCancelled(c.subagents, id)))
  {
    hide BooksOk;
    hide ValidQueue;
    hide Values;
    hide Removed;
    hide Contents;
    hide Discarded;
    BooksQueue(c);
    var job := WaitingAt(c, id);
    NotEmptyAccepts(c, job);
    var q := Removed(c.queue, job);
    DiscardKeeps(c, q, job, Cancelled);
    var d := Discarded(c, q, id, Cancelled);
    BooksAnnounceable(d);
    hide BooksOk;
    hide ValidQueue;
    hide Values;
    hide Removed;
    var e := d.(completions := c.completions, subagents := MarkCancelled(c.subagents, id));
    assert forall k :: 0 <= k < |Values(e.queue)| ==> ListedOnce(d, k) ==> ListedOnce(e, k);
  }

  lemma {:induction false} PositionFirst(jobs: seq<Job>, k: nat)
    requires k < |jobs|
    ensures PositionOf(jobs, jobs[k].id) <= k
  {
    if k > 0 && jobs[0].id != jobs[k].id {
      PositionFirst(jobs[1..], k - 1);
    }
  }

  lemma TwiceCounted(jobs: seq<Job>, j: nat, k: nat)
    requires j < k < |jobs| && jobs[j] == jobs[k]
    ensures multiset(jobs)[jobs[j]] >= 2
  {
    assert jobs == jobs[..k] + [jobs[k]] + jobs[k + 1..];
    assert jobs[..k][j] == jobs[j];
    assert jobs[j] in multiset(jobs[..k]);
  }

  lemma NextIsServed(c: Coord)
    requires ValidQueue(c.queue)
    ensures NextJob(c.limits, c.active, c.queue) ==
            Dequeued(c.queue, (j: Job) => OwnerHasRoom(c.limits, c.active, j.owner))
  {
  }

  lemma WaitingJobKnown(c: Coord, job: Job)
    requires BooksOk(c) && job in Contents(c.queue)
    ensures job.id in c.ledgers && job.id !in c.active && job.id !in c.subagents
  {
    WaitingRun(c, job);
  }

  lemma RegisteredRecord(c: Coord, id: RunId)
    ensures Emitted(c.(ledgers := c.ledgers[id := Ledger(Queued, 0, [])]), id, Created) == Registered(c, id)
  {
  }

  /** The books between registering a run and publishing the queue. */
  lemma StartBooks(c: Coord, id: RunId, owner: OwnerKey, retry: bool)
    requires BooksOk(c) && id !in c.ledgers && c.accepting
    ensures ValidQueue(c.queue)
    ensures var q := Enqueued(c.queue, NewJob(id, owner, None));
            var created := Registered(c, id);
            BooksOk((if retry then Emitted(created, id, Retried) else created).(queue := q))
  {
    BooksParts(c);
    hide BooksOk;
    hide ValidQueue;
    hide Contents;
    hide Enqueued;
    var job := NewJob(id, owner, None);
    EnqueueKeeps(c.queue, job);
    var q := Enqueued(c.queue, job);
    RegisterInQueue(c, id, owner, q);
    EmitKeeps(Registered(c, id).(queue := q), id, Retried);
    assert Emitted(Registered(c, id).(queue := q), id, Retried) == Emitted(Registered(c, id), id, Retried).(queue := q);
  }

  lemma {:induction false} PumpKeysKept(c: Coord, broken: set<RunId>)
    requires BooksOk(c)
    ensures ValidQueue(c.queue) && c.ledgers.Keys <= Pumped(c, broken).ledgers.Keys
    decreases |Contents(c.queue)|
  {
    hide BooksOk;
    hide ValidQueue;
    hide Contents;
    hide Dispatched;
    BooksParts(c);
    if c.accepting && |c.active| < c.limits.maxConcurrent {
      var (job, q) := NextJob(c.limits, c.active, c.queue);
      if job.Some? {
        DispatchKeeps(c, q, job.value, broken);
        DispatchShape(c, q, job.value, broken);
        DispatchKeys(c, q, job.value, broken);
        PumpKeysKept(Dispatched(c, q, job.value, broken), broken);
      }
    }
  }

  lemma DispatchKeys(c: Coord, q: FairQueue, job: Job, broken: set<RunId>)
    requires ValidQueue(q)
    ensures c.ledgers.Keys <= Dispatched(c, q, job, broken).ledgers.Keys
  {
    hide ValidQueue;
    hide Published;
    PublishShape(c.(queue := q, active := c.active[job.id := job]));
  }

  lemma AnnouncedAt(c: Coord, waiting: seq<Job>, depth: nat, id: RunId)
    requires ValidQueue(c.queue) && id in c.ledgers
    requires waiting == Values(c.queue) && depth == |Contents(c.queue)| + |c.active|
    ensures Announced(c, id) ==
            if id in c.active then Appended(c.ledgers[id], QueueUpdated(0, depth))
            else if PositionOf(waiting, id) < |waiting| then Appended(c.ledgers[id], QueueUpdated(PositionOf(waiting, id) + 1, depth))
            else c.ledgers[id]
  {
    hide ValidQueue;
    hide Contents;
    hide Values;
    hide Appended;
    hide PositionOf;
  }

  lemma AnnouncedMeaning(c: Coord, waiting: seq<Job>, depth: nat)
    requires Announceable(c) && waiting == Values(c.queue) && depth == |Contents(c.queue)| + |c.active|
    ensures c.active.Keys <= c.ledgers.Keys
    ensures forall id :: id in c.active ==> Announced(c, id) == Appended(c.ledgers[id], QueueUpdated(0, depth))
    ensures forall k :: 0 <= k < |waiting| ==>
              waiting[k].id in c.ledgers && waiting[k].id !in c.active && PositionOf(waiting, waiting[k].id) == k
              && Announced(c, waiting[k].id) == Appended(c.ledgers[waiting[k].id], QueueUpdated(k + 1, depth))
    ensures forall id :: id in c.ledgers && id !in c.active && PositionOf(waiting, id) == |waiting| ==>
              Announced(c, id) == c.ledgers[id]
  {
    hide ValidQueue;
    hide Contents;
    hide Values;
    hide Appended;
    hide PositionOf;
    hide Announced;
    forall id | id in c.ledgers
      ensures Announced(c, id) ==
              if id in c.active then Appended(c.ledgers[id], QueueUpdated(0, depth))
              else if PositionOf(waiting, id) < |waiting| then Appended(c.ledgers[id], QueueUpdated(PositionOf(waiting, id) + 1, depth))
              else c.ledgers[id]
    {
      AnnouncedAt(c, waiting, depth, id);
    }
    forall k | 0 <= k < |waiting|
      ensures waiting[k].id in c.ledgers && waiting[k].id !in c.active && PositionOf(waiting, waiting[k].id) == k
              && Announced(c, waiting[k].id) == Appended(c.ledgers[waiting[k].id], QueueUpdated(k + 1, depth))
    {
      assert ListedOnce(c, k);
      AnnouncedAt(c, waiting, depth, waiting[k].id);
    }
  }

  lemma DrainStep(c: Coord, job: Job, q: FairQueue)
    requires ValidQueue(c.queue) && Dequeued(c.queue, (j: Job) => true) == (Some(job), q)
    ensures ValidQueue(q) && Drained(c) == Drained(Discarded(c, q, job.id, Interrupted))
  {
    DequeueKeeps(c.queue, (j: Job) => true);
  }

  lemma CancelledState(c: Coord, id: RunId, job: Job, e: Coord)
    requires QueueOk(c) && id in c.ledgers && id !in c.active && id !in c.subagents
    requires PositionOf(Values(c.queue), id) < |Values(c.queue)| && job == Values(c.queue)[PositionOf(Values(c.queue), id)]
    requires e == Emitted(c.(queue := Removed(c.queue, job)), id, Finished(Cancelled)).(subagents := MarkCancelled(c.subagents, id))
    ensures e == Discarded(c, Removed(c.queue, job), id, Cancelled).(completions := c.completions, subagents := MarkCancelled(c.subagents, id))
  {
    hide QueueOk;
    hide Removed;
    hide Values;
    hide ValidQueue;
  }

  lemma CancelledEnd(c: Coord, id: RunId, e: Coord)
    requires ValidQueue(c.queue) && ValidQueue(e.queue) && id !in c.active && id !in c.subagents
    requires PositionOf(Values(c.queue), id) < |Values(c.queue)|
    requires e == Discarded(c, Removed(c.queue, Values(c.queue)[PositionOf(Values(c.queue), id)]), id, Cancelled)
                  .(completions := c.completions, subagents := MarkCancelled(c.subagents, id))
    ensures Published(e).(completions := c.completions + [id]) == CancelledRun(c, id)
  {
    hide ValidQueue;
    hide Published;
    hide Removed;
    hide Values;
    hide Contents;
    hide Discarded;
  }
}
