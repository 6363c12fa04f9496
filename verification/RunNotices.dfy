/** What the records of runs say: the events that steps add to them, over whole histories. */
module RunNotices {
  import opened Basics
  import opened FairQueues
  import opened RunCoordinator

  // ----- every run knows its place -----

  /** The last queue update among the events. */
  function LastTold(events: seq<Event>): Option<Kind> {
    if events == [] then None
    else if Last(events).kind.QueueUpdated? then Some(Last(events).kind)
    else LastTold(events[..|events| - 1])
  }

  /** Each running run was last told that it runs, each waiting one its place in serving order, and
      both how many there are. */
  ghost predicate Informed(c: Coord)
    requires ValidQueue(c.queue)
  {
    var waiting := Values(c.queue);
    var depth := |waiting| + |c.active|;
    && (forall id :: id in c.active ==> id in c.ledgers && LastTold(c.ledgers[id].events) == Some(QueueUpdated(0, depth)))
    && (forall k :: 0 <= k < |waiting| ==>
          waiting[k].id in c.ledgers && LastTold(c.ledgers[waiting[k].id].events) == Some(QueueUpdated(k + 1, depth)))
  }

  lemma ToldAfter(l: Ledger, kind: Kind)
    ensures LastTold(Appended(l, kind).events) == if kind.QueueUpdated? then Some(kind) else LastTold(l.events)
  {
    assert Appended(l, kind).events[..|l.events|] == l.events;
  }

  lemma DistinctPlaces(s: seq<Job>, i: nat, j: nat)
    requires i < j < |s| && multiset(s)[s[i]] == 1
    ensures s[i] != s[j]
  {
    assert s == s[..j] + s[j..];
    assert s[i] in s[..j] && s[j] in s[j..];
  }

  lemma WaitingPlaces(c: Coord, k: nat)
    requires QueueOk(c) && k < |Values(c.queue)|
    ensures Values(c.queue)[k] in Contents(c.queue) && PositionOf(Values(c.queue), Values(c.queue)[k].id) == k
    ensures |Contents(c.queue)| == |Values(c.queue)|
  {
    var waiting := Values(c.queue);
    RoundRobinContents(c.queue.buckets, c.queue.owners);
    hide ValidQueue;
    hide Contents;
    hide Values;
    assert waiting[k] in multiset(waiting);
    var i := PositionOf(waiting, waiting[k].id);
    assert i <= k by { FirstPosition(waiting, k); }
    assert waiting[i] in multiset(waiting);
    if i < k {
      DistinctPlaces(waiting, i, k);
    }
  }

  lemma {:induction false} FirstPosition(jobs: seq<Job>, k: nat)
    requires k < |jobs|
    ensures PositionOf(jobs, jobs[k].id) <= k
  {
    if jobs[0].id != jobs[k].id {
      FirstPosition(jobs[1..], k - 1);
    }
  }

  lemma DepthCounts(c: Coord)
    requires ValidQueue(c.queue)
    ensures |Contents(c.queue)| == |Values(c.queue)|
  {
    RoundRobinContents(c.queue.buckets, c.queue.owners);
    assert |multiset(Values(c.queue))| == |Values(c.queue)|;
  }

  lemma RunningInformed(c: Coord, id: RunId)
    requires BooksOk(c) && ValidQueue(c.queue) && id in c.active
    ensures id in c.ledgers
    ensures LastTold(Announced(c, id).events) == Some(QueueUpdated(0, |Values(c.queue)| + |c.active|))
  {
    hide BooksOk;
    hide ValidQueue;
    hide Contents;
    hide Values;
    hide Appended;
    hide LastTold;
    KnownRun(c, id);
    DepthCounts(c);
    ToldAfter(c.ledgers[id], QueueUpdated(0, |Values(c.queue)| + |c.active|));
  }

  lemma WaitingInformed(c: Coord, k: nat)
    requires BooksOk(c) && ValidQueue(c.queue) && k < |Values(c.queue)|
    ensures var id := Values(c.queue)[k].id;
            id in c.ledgers && LastTold(Announced(c, id).events) == Some(QueueUpdated(k + 1, |Values(c.queue)| + |c.active|))
  {
    hide BooksOk;
    hide ValidQueue;
    hide Contents;
    hide Values;
    hide Appended;
    hide LastTold;
    hide PlaceOf;
    BooksQueue(c);
    WaitingPlaces(c, k);
    var job := Values(c.queue)[k];
    WaitingRun(c, job);
    WaitsOnly(c, job);
    DepthCounts(c);
    ToldAfter(c.ledgers[job.id], QueueUpdated(k + 1, |Values(c.queue)| + |c.active|));
  }

  lemma WaitsOnly(c: Coord, job: Job)
    requires QueueOk(c) && job in Contents(c.queue)
    ensures job.id !in c.active
  {
    hide ValidQueue;
    hide Contents;
  }

  lemma PublishInforms(c: Coord)
    requires BooksOk(c)
    ensures ValidQueue(c.queue) && Informed(Published(c))
  {
    hide BooksOk;
    hide ValidQueue;
    hide Values;
    hide Published;
    hide Announced;
    hide LastTold;
    BooksParts(c);
    PublishShape(c);
    forall id | id in c.active
      ensures id in c.ledgers && LastTold(Announced(c, id).events) == Some(QueueUpdated(0, |Values(c.queue)| + |c.active|))
    {
      RunningInformed(c, id);
    }
    forall k | 0 <= k < |Values(c.queue)|
      ensures var id := Values(c.queue)[k].id;
              id in c.ledgers && LastTold(Announced(c, id).events) == Some(QueueUpdated(k + 1, |Values(c.queue)| + |c.active|))
    {
      WaitingInformed(c, k);
    }
  }

  /** Nothing is announced anew, but nothing has changed that would have to be. */
  lemma StillInformed(c: Coord, d: Coord)
    requires ValidQueue(c.queue) && Informed(c) && d.queue == c.queue && d.active.Keys == c.active.Keys
    requires forall id :: id in c.ledgers ==> id in d.ledgers && LastTold(d.ledgers[id].events) == LastTold(c.ledgers[id].events)
    ensures Informed(d)
  {
    hide ValidQueue;
    hide Values;
    hide LastTold;
    assert |d.active| == |d.active.Keys| && |c.active| == |c.active.Keys|;
  }

  lemma AdvanceInforms(c: Coord, id: RunId, record: Ledger, stage: Stage, reported: bool)
    requires ValidQueue(c.queue) && Informed(c)
    requires id in c.ledgers ==> LastTold(record.events) == LastTold(c.ledgers[id].events)
    ensures ValidQueue(Advanced(c, id, record, stage, reported).queue) && Informed(Advanced(c, id, record, stage, reported))
  {
    AdvanceShape(c, id, record, stage, reported);
    hide ValidQueue;
    hide Informed;
    hide LastTold;
    StillInformed(c, Advanced(c, id, record, stage, reported));
  }

  lemma BeginInforms(c: Coord, id: RunId, broken: set<RunId>)
    requires ValidQueue(c.queue) && Informed(c)
    ensures ValidQueue(Begun(c, id, broken).queue) && Informed(Begun(c, id, broken))
  {
    hide ValidQueue;
    hide Informed;
    hide LastTold;
    hide Appended;
    hide Advanced;
    var record := RecordOf(c, id);
    ToldAfter(record, Started);
    ToldAfter(record, Finished(RefusedEnding(c, id)));
    if id in broken {
      AdvanceInforms(c, id, Appended(record, Finished(RefusedEnding(c, id))), Notified, true);
    } else {
      AdvanceInforms(c, id, Appended(record, Started), Streaming, false);
    }
  }

  lemma DispatchInforms(c: Coord, q: FairQueue, job: Job, broken: set<RunId>)
    requires BooksOk(c) && c.accepting && ValidQueue(q)
    requires job in Contents(c.queue) && Contents(q) == Contents(c.queue) - multiset{job}
    ensures ValidQueue(Dispatched(c, q, job, broken).queue) && Informed(Dispatched(c, q, job, broken))
  {
    MoveKeeps(c, q, job);
    hide BooksOk;
    hide ValidQueue;
    hide Contents;
    hide Published;
    hide Begun;
    hide Informed;
    var moved := c.(queue := q, active := c.active[job.id := job]);
    PublishInforms(moved);
    PublishShape(moved);
    BeginInforms(Published(moved), job.id, broken);
  }

  lemma {:induction false} PumpInforms(c: Coord, broken: set<RunId>)
    requires BooksOk(c) && ValidQueue(c.queue) && Informed(c)
    ensures ValidQueue(Pumped(c, broken).queue) && Informed(Pumped(c, broken))
    decreases |Contents(c.queue)|
  {
    hide BooksOk;
    hide ValidQueue;
    hide Contents;
    hide Dispatched;
    hide Informed;
    if c.accepting && |c.active| < c.limits.maxConcurrent {
      var (job, q) := NextJob(c.limits, c.active, c.queue);
      if job.Some? {
        DispatchKeeps(c, q, job.value, broken);
        DispatchShape(c, q, job.value, broken);
        DispatchInforms(c, q, job.value, broken);
        PumpInforms(Dispatched(c, q, job.value, broken), broken);
      }
    }
  }

  /** Publishing and then filling the pool. */
  lemma RefillInforms(c: Coord, broken: set<RunId>)
    requires BooksOk(c) && ValidQueue(c.queue)
    ensures ValidQueue(Published(c).queue)
    ensures ValidQueue(Pumped(Published(c), broken).queue) && Informed(Pumped(Published(c), broken))
  {
    hide BooksOk;
    hide ValidQueue;
    hide Published;
    hide Pumped;
    hide Informed;
    PublishShape(c);
    PublishKeeps(c);
    PublishInforms(c);
    PumpInforms(Published(c), broken);
  }

  lemma EmitInforms(c: Coord, id: RunId)
    requires ValidQueue(c.queue) && Informed(c)
    ensures Emitted(c, id, Streamed).queue == c.queue && Informed(Emitted(c, id, Streamed))
  {
    hide ValidQueue;
    hide Informed;
    hide LastTold;
    hide Appended;
    if id in c.ledgers {
      ToldAfter(c.ledgers[id], Streamed);
    }
    StillInformed(c, Emitted(c, id, Streamed));
  }

  lemma LaunchInforms(c: Coord, id: RunId, owner: OwnerKey, parent: RunId, aborted: bool, broken: set<RunId>)
    requires ValidQueue(c.queue) && Informed(c) && id !in c.ledgers
    ensures var d := Launched(c, id, owner, parent, aborted, broken); ValidQueue(d.queue) && Informed(d)
  {
    hide ValidQueue;
    hide Informed;
    hide LastTold;
    hide Appended;
    hide Begun;
    if c.accepting && parent in c.ledgers && parent !in c.delegation && !aborted {
      StillInformed(c, WithChild(c, id, owner, parent));
      BeginInforms(WithChild(c, id, owner, parent), id, broken);
    }
  }

  lemma EndInforms(c: Coord, id: RunId, how: How)
    requires ValidQueue(c.queue) && Informed(c)
    ensures ValidQueue(StreamEnded(c, id, how).queue) && Informed(StreamEnded(c, id, how))
  {
    hide ValidQueue;
    hide Informed;
    hide LastTold;
    hide Appended;
    hide Advanced;
    if JobOf(c, id).Some? {
      var record, ending := RecordOf(c, id), Finished(EndingOf(JobOf(c, id).value, how));
      ToldAfter(record, Streamed);
      ToldAfter(record, ending);
      ToldAfter(Appended(record, Streamed), ending);
      AdvanceInforms(c, id, Appended(record, ending), Ended, false);
      AdvanceInforms(c, id, Appended(Appended(record, Streamed), ending), Ended, false);
    }
  }

  lemma CancelInforms(c: Coord, id: RunId)
    requires BooksOk(c) && ValidQueue(c.queue) && Informed(c)
    ensures ValidQueue(CancelledRun(c, id).queue) && Informed(CancelledRun(c, id))
  {
    BooksParts(c);
    hide BooksOk;
    hide ValidQueue;
    hide Informed;
    hide Values;
    hide Published;
    hide LastTold;
    if id in c.active || id in c.subagents {
      StillInformed(c, CancelledRun(c, id));
    } else if PositionOf(Values(c.queue), id) < |Values(c.queue)| {
      var e := CancelTakesOut(c, id);
      PublishInforms(e);
      PublishShape(e);
    }
  }

  lemma SettleInforms(c: Coord, id: RunId, broken: set<RunId>)
    requires BooksOk(c) && ValidQueue(c.queue) && Informed(c) && HasStage(c, id, Notified)
    ensures ValidQueue(Settled(c, id, broken).queue) && Informed(Settled(c, id, broken))
  {
    ForgetKeeps(c, id);
    BooksParts(c);
    hide BooksOk;
    hide ValidQueue;
    hide Informed;
    hide Published;
    hide Pumped;
    hide LastTold;
    if id in c.active {
      assert c.subagents - {id} == c.subagents;
      RefillInforms(c.(active := c.active - {id}), broken);
    } else {
      StillInformed(c, Settled(c, id, broken));
    }
  }

  lemma ShutDownInforms(c: Coord)
    requires BooksOk(c) && ValidQueue(c.queue) && Informed(c)
    ensures ValidQueue(ShutDown(c).queue) && Informed(ShutDown(c))
  {
    hide BooksOk;
    hide ValidQueue;
    hide Informed;
    hide Drained;
    hide Published;
    if c.accepting {
      ShutFlags(c);
      var d := Drained(c.(accepting := false));
      var e := d.(active := MarkShutdown(d.active), subagents := MarkShutdown(d.subagents));
      PublishInforms(e);
      PublishShape(e);
    }
  }

  lemma InformedStep(c: Coord, step: Step)
    requires Inv(c) && ValidQueue(c.queue) && Informed(c) && Enabled(c, step)
    ensures ValidQueue(Next(c, step).queue) && Informed(Next(c, step))
  {
    InvParts(c);
    hide Inv;
    hide BooksOk;
    hide ValidQueue;
    hide Contents;
    hide Informed;
    hide Published;
    hide Pumped;
    hide LastTold;
    match step
    case Start(id, owner, retry, broken) =>
      if c.accepting && |Contents(c.queue)| + |c.active| < c.limits.maxDepth {
        var e := StartWaits(c, id, owner, retry, broken);
        RefillInforms(e, broken);
      }
    case Launch(id, owner, parent, aborted, broken) => LaunchInforms(c, id, owner, parent, aborted, broken);
    case Cancel(id) => CancelInforms(c, id);
    case AbortSignal(id) => StillInformed(c, Next(c, step));
    case Shutdown => ShutDownInforms(c);
    case Deliver(id) => EmitInforms(c, id);
    case EndStream(id, how) => EndInforms(c, id, how);
    case Notify(id) => AdvanceInforms(c, id, RecordOf(c, id), Notified, true);
    case Settle(id, broken) => SettleInforms(c, id, broken);
  }

  lemma {:induction false} InformedKept(c: Coord, steps: seq<Step>)
    requires Inv(c) && ValidQueue(c.queue) && Informed(c) && Possible(c, steps)
    ensures ValidQueue(After(c, steps).queue) && Informed(After(c, steps))
    decreases |steps|
  {
    hide Inv;
    hide ValidQueue;
    hide Informed;
    hide Next;
    hide Enabled;
    if steps != [] {
      InformedStep(c, steps[0]);
      StepInv(c, steps[0]);
      InformedKept(Next(c, steps[0]), steps[1..]);
    }
  }

  /** In every history the last queue update of each running run says that it runs, that of each
      waiting run its present place in serving order, and both the present depth. */
  lemma InformedAlways(limits: Limits, steps: seq<Step>)
    requires (InitialInv(limits); Possible(Initial(limits), steps))
    ensures var c := (InitialInv(limits); After(Initial(limits), steps));
            && ValidQueue(c.queue)
            && (forall id :: id in c.active ==>
                  && id in c.ledgers
                  && LastTold(c.ledgers[id].events) == Some(QueueUpdated(0, |Values(c.queue)| + |c.active|)))
            && (forall k :: 0 <= k < |Values(c.queue)| ==>
                  var id := Values(c.queue)[k].id;
                  && id in c.ledgers
                  && LastTold(c.ledgers[id].events) == Some(QueueUpdated(k + 1, |Values(c.queue)| + |c.active|)))
  {
    InitialInv(limits);
    InvParts(Initial(limits));
    assert Informed(Initial(limits)) by { DepthCounts(Initial(limits)); }
    InformedKept(Initial(limits), steps);
  }

  // ----- records only grow -----

  /** Every run is still known, and its events are those it had and perhaps more. */
  predicate Continues(c: Coord, d: Coord) {
    forall id | id in c.ledgers :: id in d.ledgers && c.ledgers[id].events <= d.ledgers[id].events
  }

  lemma ContinuesFurther(c: Coord, d: Coord, e: Coord)
    requires Continues(c, d) && Continues(d, e)
    ensures Continues(c, e)
  {
  }

  lemma PublishContinues(c: Coord)
    requires ValidQueue(c.queue)
    ensures Continues(c, Published(c))
  {
    PublishShape(c);
    hide ValidQueue;
    hide Published;
    hide Values;
    hide Contents;
  }

  lemma BeginContinues(c: Coord, id: RunId, broken: set<RunId>)
    ensures Continues(c, Begun(c, id, broken))
  {
  }

  lemma DispatchContinues(c: Coord, q: FairQueue, job: Job, broken: set<RunId>)
    requires ValidQueue(q)
    ensures Continues(c, Dispatched(c, q, job, broken))
  {
    hide ValidQueue;
    hide Published;
    hide Begun;
    hide Continues;
    var moved := c.(queue := q, active := c.active[job.id := job]);
    PublishContinues(moved);
    BeginContinues(Published(moved), job.id, broken);
    assert Continues(c, moved) by { SameRecords(c, moved); }
    ContinuesFurther(c, moved, Published(moved));
    ContinuesFurther(c, Published(moved), Dispatched(c, q, job, broken));
  }

  lemma SameRecords(c: Coord, d: Coord)
    requires d.ledgers == c.ledgers
    ensures Continues(c, d)
  {
  }

  lemma {:induction false} PumpContinues(c: Coord, broken: set<RunId>)
    requires ValidQueue(c.queue)
    ensures Continues(c, Pumped(c, broken))
    decreases |Contents(c.queue)|
  {
    hide ValidQueue;
    hide Contents;
    hide Dispatched;
    hide Continues;
    SameRecords(c, c);
    if c.accepting && |c.active| < c.limits.maxConcurrent {
      var (job, q) := NextJob(c.limits, c.active, c.queue);
      if job.Some? {
        var d := Dispatched(c, q, job.value, broken);
        DispatchShape(c, q, job.value, broken);
        DispatchContinues(c, q, job.value, broken);
        PumpContinues(d, broken);
        ContinuesFurther(c, d, Pumped(d, broken));
      }
    }
  }

  lemma RefillContinues(c: Coord, broken: set<RunId>)
    requires ValidQueue(c.queue)
    ensures ValidQueue(Published(c).queue) && Continues(c, Pumped(Published(c), broken))
  {
    hide ValidQueue;
    hide Published;
    hide Pumped;
    hide Continues;
    PublishShape(c);
    PublishContinues(c);
    PumpContinues(Published(c), broken);
    ContinuesFurther(c, Published(c), Pumped(Published(c), broken));
  }

  lemma DiscardContinues(c: Coord, q: FairQueue, id: RunId, ending: Ending)
    ensures Continues(c, Discarded(c, q, id, ending))
  {
  }

  lemma {:induction false} DrainContinues(c: Coord)
    requires ValidQueue(c.queue)
    ensures Continues(c, Drained(c))
    decreases |Contents(c.queue)|
  {
    hide ValidQueue;
    hide Contents;
    hide Dequeued;
    hide Continues;
    SameRecords(c, c);
    var test := (j: Job) => true;
    var (job, q) := Dequeued(c.queue, test);
    DequeueKeeps(c.queue, test);
    if job.Some? {
      var d := Discarded(c, q, job.value.id, Interrupted);
      DiscardContinues(c, q, job.value.id, Interrupted);
      DrainContinues(d);
      ContinuesFurther(c, d, Drained(d));
    }
  }

  lemma ShutDownContinues(c: Coord)
    requires BooksOk(c) && ValidQueue(c.queue)
    ensures Continues(c, ShutDown(c))
  {
    hide BooksOk;
    hide ValidQueue;
    hide Drained;
    hide Published;
    hide Continues;
    SameRecords(c, c);
    if c.accepting {
      var closed := c.(accepting := false);
      ShutFlags(c);
      SameRecords(c, closed);
      DrainContinues(closed);
      var d := Drained(closed);
      var e := d.(active := MarkShutdown(d.active), subagents := MarkShutdown(d.subagents));
      SameRecords(d, e);
      PublishContinues(e);
      ContinuesFurther(c, closed, d);
      ContinuesFurther(c, d, e);
      ContinuesFurther(c, e, Published(e));
    }
  }

  lemma CancelContinues(c: Coord, id: RunId)
    requires BooksOk(c) && ValidQueue(c.queue)
    ensures Continues(c, CancelledRun(c, id))
  {
    hide BooksOk;
    hide ValidQueue;
    hide Values;
    hide Published;
    hide Discarded;
    hide Removed;
    hide Continues;
    if id in c.active || id in c.subagents {
      SameRecords(c, CancelledRun(c, id));
    } else if PositionOf(Values(c.queue), id) < |Values(c.queue)| {
      var e := CancelTakesOut(c, id);
      var job := Values(c.queue)[PositionOf(Values(c.queue), id)];
      var d := Discarded(c, Removed(c.queue, job), id, Cancelled);
      DiscardContinues(c, Removed(c.queue, job), id, Cancelled);
      SameRecords(d, e);
      ContinuesFurther(c, d, e);
      BooksParts(e);
      PublishContinues(e);
      ContinuesFurther(c, e, Published(e));
    } else {
      SameRecords(c, c);
    }
  }

  lemma SettleContinues(c: Coord, id: RunId, broken: set<RunId>)
    requires ValidQueue(c.queue)
    ensures Continues(c, Settled(c, id, broken))
  {
    hide ValidQueue;
    hide Published;
    hide Pumped;
    hide Continues;
    if id in c.active {
      var d := c.(active := c.active - {id});
      SameRecords(c, d);
      RefillContinues(d, broken);
      ContinuesFurther(c, d, Settled(c, id, broken));
    } else {
      SameRecords(c, Settled(c, id, broken));
    }
  }

  lemma StartContinues(c: Coord, id: RunId, owner: OwnerKey, retry: bool, broken: set<RunId>)
    requires BooksOk(c) && ValidQueue(c.queue) && id !in c.ledgers
    ensures Continues(c, StartedRun(c, id, owner, retry, broken))
    ensures c.accepting && |Contents(c.queue)| + |c.active| < c.limits.maxDepth ==>
              var d := StartedRun(c, id, owner, retry, broken);
              id in d.ledgers && [Event(1, Created)] + (if retry then [Event(2, Retried)] else []) <= d.ledgers[id].events
  {
    hide BooksOk;
    hide ValidQueue;
    hide Contents;
    hide Published;
    hide Pumped;
    hide StartedRun;
    if c.accepting && |Contents(c.queue)| + |c.active| < c.limits.maxDepth {
      var e := StartWaits(c, id, owner, retry, broken);
      RefillContinues(e, broken);
      assert e.ledgers[id].events == [Event(1, Created)] + if retry then [Event(2, Retried)] else [];
      assert Continues(c, e);
      ContinuesFurther(c, e, StartedRun(c, id, owner, retry, broken));
    } else {
      assert StartedRun(c, id, owner, retry, broken) == c by { NotAdmitted(c, id, owner, retry, broken); }
    }
  }

  lemma NotAdmitted(c: Coord, id: RunId, owner: OwnerKey, retry: bool, broken: set<RunId>)
    requires ValidQueue(c.queue) && !(c.accepting && |Contents(c.queue)| + |c.active| < c.limits.maxDepth)
    ensures StartedRun(c, id, owner, retry, broken) == c
  {
    hide ValidQueue;
    hide Contents;
    hide Pumped;
    hide Published;
  }

  lemma OtherContinues(c: Coord, step: Step)
    requires ValidQueue(c.queue) && Enabled(c, step)
    requires step.Launch? || step.AbortSignal? || step.Deliver? || step.EndStream? || step.Notify?
    ensures Continues(c, Next(c, step))
  {
    hide ValidQueue;
  }

  /** No step rewrites what a record says: every run is still known, with the events it had first. */
  lemma RecordsContinue(c: Coord, step: Step)
    requires Inv(c) && ValidQueue(c.queue) && Enabled(c, step)
    ensures forall id | id in c.ledgers ::
              id in Next(c, step).ledgers && c.ledgers[id].events <= Next(c, step).ledgers[id].events
  {
    InvParts(c);
    hide Inv;
    hide BooksOk;
    hide ValidQueue;
    hide Contents;
    hide StartedRun;
    hide CancelledRun;
    hide ShutDown;
    hide Settled;
    match step
    case Start(id, owner, retry, broken) => StartContinues(c, id, owner, retry, broken);
    case Cancel(id) => CancelContinues(c, id);
    case Shutdown => ShutDownContinues(c);
    case Settle(id, broken) => SettleContinues(c, id, broken);
    case _ => OtherContinues(c, step);
  }

  // ----- what single steps write -----

  /** A run is admitted exactly if admission is open and there is room, and its record then begins
      with its creation and, for a retry, the note of that. */
  lemma StartWrites(c: Coord, step: Step)
    requires Inv(c) && ValidQueue(c.queue) && Enabled(c, step) && step.Start?
    ensures var d := Next(c, step);
            var admitted := c.accepting && |Values(c.queue)| + |c.active| < c.limits.maxDepth;
            && (admitted <==> step.id in d.ledgers)
            && (admitted ==> [Event(1, Created)] + (if step.retry then [Event(2, Retried)] else []) <= d.ledgers[step.id].events)
            && (!admitted ==> d == c)
  {
    InvParts(c);
    DepthCounts(c);
    hide Inv;
    hide BooksOk;
    hide ValidQueue;
    hide Contents;
    hide StartedRun;
    hide Values;
    StartContinues(c, step.id, step.owner, step.retry, step.broken);
    if !(c.accepting && |Contents(c.queue)| + |c.active| < c.limits.maxDepth) {
      NotAdmitted(c, step.id, step.owner, step.retry, step.broken);
    }
  }

  /** A worker is admitted exactly if admission is open, its parent is known and no worker itself,
      and no abort came first. Its record is then its creation and its start, or its failure if its
      stream cannot be created; no other record changes. */
  lemma LaunchWrites(c: Coord, step: Step)
    requires ValidQueue(c.queue) && Enabled(c, step) && step.Launch? && step.id !in c.active
    ensures var d := Next(c, step);
            var admitted := c.accepting && step.parent in c.ledgers && step.parent !in c.delegation && !step.aborted;
            && (admitted <==> step.id in d.ledgers)
            && (admitted ==>
                  && d.ledgers == c.ledgers[step.id := d.ledgers[step.id]]
                  && d.ledgers[step.id].events ==
                     [Event(1, Created), Event(2, if step.id in step.broken then Finished(Failed) else Started)])
            && (!admitted ==> d == c)
  {
    hide ValidQueue;
  }

  lemma NumberedRecord(c: Coord, id: RunId)
    requires BooksOk(c) && JobOf(c, id).Some?
    ensures id in c.ledgers && c.ledgers[id].lastSequence == |c.ledgers[id].events|
  {
    hide BooksOk;
    hide PlaceOf;
    PooledRun(c, id);
  }

  /** Reading from a stream adds the event read to the run's record and changes nothing else. */
  lemma DeliverWrites(c: Coord, id: RunId)
    requires BooksOk(c) && ValidQueue(c.queue) && Enabled(c, Deliver(id))
    ensures id in c.ledgers
    ensures var d, before := Next(c, Deliver(id)), c.ledgers[id].events;
            && d == c.(ledgers := c.ledgers[id := d.ledgers[id]])
            && d.ledgers[id].events == before + [Event(|before| + 1, Streamed)]
  {
    NumberedRecord(c, id);
    hide BooksOk;
    hide ValidQueue;
  }

  /** The end of a stream that ends normally adds the completed answer and the run's ending, any
      other end only that; no other record changes and nothing is reported yet. */
  lemma EndWrites(c: Coord, id: RunId, how: How)
    requires BooksOk(c) && HasStage(c, id, Streaming)
    ensures id in c.ledgers
    ensures var d, job, before := StreamEnded(c, id, how), JobOf(c, id).value, c.ledgers[id].events;
            && d.ledgers == c.ledgers[id := d.ledgers[id]] && d.completions == c.completions
            && d.ledgers[id].events == before +
               (if job.shutdownRequested then [Event(|before| + 1, Finished(Interrupted))]
                else if job.cancelRequested then [Event(|before| + 1, Finished(Cancelled))]
                else if how.Aborted? then [Event(|before| + 1, Finished(Interrupted))]
                else if how.Broke? then [Event(|before| + 1, Finished(Failed))]
                else [Event(|before| + 1, Streamed),
                      Event(|before| + 2, Finished(if how.completionThrows then Failed else Completed))])
  {
    NumberedRecord(c, id);
    hide BooksOk;
    hide Restaged;
  }

  /** Where a job begins, its record gets the start or, if its stream cannot be created, the failure,
      told as an interruption once the host shuts down; in that case the run is reported at once. */
  lemma BeginWrites(c: Coord, id: RunId, broken: set<RunId>)
    requires id in c.ledgers && JobOf(c, id).Some?
    ensures var d, job, l := Begun(c, id, broken), JobOf(c, id).value, c.ledgers[id];
            && d.ledgers.Keys == c.ledgers.Keys
            && d.ledgers[id].events == l.events +
               [Event(l.lastSequence + 1,
                      if id !in broken then Started
                      else if job.shutdownRequested then Finished(Interrupted)
                      else Finished(Failed))]
            && d.completions == c.completions + if id in broken then [id] else []
  {
  }

  lemma KnownRecord(c: Coord, id: RunId)
    requires BooksOk(c) && id in c.ledgers
    ensures c.ledgers[id].lastSequence == |c.ledgers[id].events|
  {
    hide PlaceOf;
    hide ValidQueue;
    hide Contents;
    RunOf(c, id);
  }

  lemma AppendsOne(l: Ledger, kind: Kind)
    ensures Appended(l, kind).events == l.events + [Event(l.lastSequence + 1, kind)]
  {
  }

  lemma WaitingWrites(c: Coord, k: nat)
    requires BooksOk(c) && ValidQueue(c.queue) && k < |Values(c.queue)|
    ensures var id := Values(c.queue)[k].id;
            && id in c.ledgers && id in Published(c).ledgers
            && var before := c.ledgers[id].events;
               Published(c).ledgers[id].events ==
               before + [Event(|before| + 1, QueueUpdated(k + 1, |Values(c.queue)| + |c.active|))]
  {
    hide BooksOk;
    hide ValidQueue;
    hide Values;
    hide Contents;
    hide Published;
    hide Appended;
    hide PlaceOf;
    hide RunOk;
    hide PoolsOk;
    hide QueueOk;
    BooksQueue(c);
    WaitingPlaces(c, k);
    var job := Values(c.queue)[k];
    WaitingRun(c, job);
    WaitsOnly(c, job);
    KnownRecord(c, job.id);
    PublishShape(c);
    AppendsOne(c.ledgers[job.id], QueueUpdated(k + 1, |Values(c.queue)| + |c.active|));
  }

  lemma RunningWrites(c: Coord, id: RunId)
    requires BooksOk(c) && ValidQueue(c.queue) && id in c.active
    ensures id in c.ledgers && id in Published(c).ledgers
    ensures var before := c.ledgers[id].events;
            Published(c).ledgers[id].events == before + [Event(|before| + 1, QueueUpdated(0, |Values(c.queue)| + |c.active|))]
  {
    hide BooksOk;
    hide ValidQueue;
    hide Values;
    hide Contents;
    hide Published;
    KnownRun(c, id);
    KnownRecord(c, id);
    DepthCounts(c);
    PublishShape(c);
  }

  lemma OthersUntold(c: Coord, id: RunId)
    requires ValidQueue(c.queue) && id in c.ledgers && id !in c.active
    requires forall k :: 0 <= k < |Values(c.queue)| ==> Values(c.queue)[k].id != id
    ensures id in Published(c).ledgers && Published(c).ledgers[id] == c.ledgers[id]
  {
    hide ValidQueue;
    hide Values;
    hide Contents;
    hide Published;
    PublishShape(c);
  }

  /** Publishing the queue tells each running run that it runs and each waiting one its place, both the
      depth, in one event, and no other run anything. */
  lemma PublishWrites(c: Coord)
    requires BooksOk(c) && ValidQueue(c.queue)
    ensures var waiting, d := Values(c.queue), Published(c);
            && (forall id :: id in c.active ==>
                  && id in c.ledgers && id in d.ledgers
                  && d.ledgers[id].events ==
                     c.ledgers[id].events + [Event(|c.ledgers[id].events| + 1, QueueUpdated(0, |waiting| + |c.active|))])
            && (forall k :: 0 <= k < |waiting| ==>
                  && waiting[k].id in c.ledgers && waiting[k].id in d.ledgers
                  && d.ledgers[waiting[k].id].events ==
                     c.ledgers[waiting[k].id].events
                     + [Event(|c.ledgers[waiting[k].id].events| + 1, QueueUpdated(k + 1, |waiting| + |c.active|))])
            && (forall id :: id in c.ledgers && id !in c.active && (forall k :: 0 <= k < |waiting| ==> waiting[k].id != id) ==>
                  id in d.ledgers && d.ledgers[id] == c.ledgers[id])
  {
    hide *;
    forall id | id in c.active
      ensures id in c.ledgers && id in Published(c).ledgers
      ensures Published(c).ledgers[id].events ==
              c.ledgers[id].events + [Event(|c.ledgers[id].events| + 1, QueueUpdated(0, |Values(c.queue)| + |c.active|))]
    {
      RunningWrites(c, id);
    }
    forall k | 0 <= k < |Values(c.queue)|
      ensures var id := Values(c.queue)[k].id;
              && id in c.ledgers && id in Published(c).ledgers
              && Published(c).ledgers[id].events ==
                 c.ledgers[id].events + [Event(|c.ledgers[id].events| + 1, QueueUpdated(k + 1, |Values(c.queue)| + |c.active|))]
    {
      WaitingWrites(c, k);
    }
    forall id | id in c.ledgers && id !in c.active && forall k :: 0 <= k < |Values(c.queue)| ==> Values(c.queue)[k].id != id
      ensures id in Published(c).ledgers && Published(c).ledgers[id] == c.ledgers[id]
    {
      OthersUntold(c, id);
    }
  }

  /** The coordinator starts open and empty. */
  lemma StartsOpen(limits: Limits)
    ensures var c := Initial(limits);
            && c.accepting && c.limits == limits && c.active == map[] && c.subagents == map[] && c.ledgers == map[]
            && c.delegation == map[] && c.completions == [] && ValidQueue(c.queue) && Values(c.queue) == []
  {
  }

  /** Nothing is kept from happening: new runs and workers may be asked for, any run cancelled and the
      host shut down at any time; a stream may go on or end in any way, and an ended run is reported
      and then forgotten. */
  lemma MayHappen(c: Coord, id: RunId, owner: OwnerKey, parent: RunId, yes: bool, how: How, broken: set<RunId>)
    ensures Enabled(c, Cancel(id)) && Enabled(c, Shutdown)
    ensures id !in c.ledgers ==> Enabled(c, Start(id, owner, yes, broken)) && Enabled(c, Launch(id, owner, parent, yes, broken))
    ensures id in c.subagents ==> Enabled(c, AbortSignal(id))
    ensures id in c.active || id in c.subagents ==>
              match (if id in c.active then c.active[id] else c.subagents[id]).stage
              case Waiting => true
              case Streaming => Enabled(c, Deliver(id)) && Enabled(c, EndStream(id, how))
              case Ended => Enabled(c, Notify(id))
              case Notified => Enabled(c, Settle(id, broken))
  {
  }
}
