/** Admission, the bounded worker pool, cancellation, shutdown and the event ledger of runs. */
module RunCoordinator {
  import opened Basics
  import opened FairQueues

  datatype Ending = Completed | Failed | Cancelled | Interrupted
  datatype Status = Queued | Running | Over(ending: Ending)
  datatype Kind =
    | Created | Retried | QueueUpdated(position: nat, depth: nat) | Started | Streamed | Finished(ending: Ending)
  datatype Event = Event(sequence: nat, kind: Kind)

  /** The stored record of one run: its status, its last sequence number and its events. */
  datatype Ledger = Ledger(status: Status, lastSequence: nat, events: seq<Event>)

  datatype Limits = Limits(maxDepth: nat, maxConcurrent: nat, maxPerOwner: nat)

  type Pool = map<RunId, Job>

  /** `delegation` is the durable record of which run launched which child. */
  datatype Coord = Coord(
    limits: Limits, accepting: bool, queue: FairQueue, active: Pool, subagents: Pool,
    ledgers: map<RunId, Ledger>, delegation: map<RunId, RunId>, completions: seq<RunId>)

  /** How a run's stream ends. */
  datatype How = Exhausted(completionThrows: bool) | Aborted | Broke

  datatype Step =
    | Start(id: RunId, owner: OwnerKey, retry: bool, broken: set<RunId>)
    | Launch(id: RunId, owner: OwnerKey, parent: RunId, aborted: bool, broken: set<RunId>)
    | Cancel(id: RunId)
    | AbortSignal(id: RunId)
    | Shutdown
    | Deliver(id: RunId)
    | EndStream(id: RunId, how: How)
    | Notify(id: RunId)
    | Settle(id: RunId, broken: set<RunId>)

  // ----- the event ledger -----

  function StatusAfter(status: Status, kind: Kind): Status {
    match kind
    case Started => Running
    case Finished(e) => Over(e)
    case _ => status
  }

  function Appended(l: Ledger, kind: Kind): Ledger {
    Ledger(StatusAfter(l.status, kind), l.lastSequence + 1, l.events + [Event(l.lastSequence + 1, kind)])
  }

  function Emitted(c: Coord, id: RunId, kind: Kind): Coord {
    if id in c.ledgers then c.(ledgers := c.ledgers[id := Appended(c.ledgers[id], kind)]) else c
  }

  function PositionOf(jobs: seq<Job>, id: RunId): (k: nat)
    ensures k <= |jobs| && (k < |jobs| ==> jobs[k].id == id)
    ensures k == |jobs| ==> forall j | j in jobs :: j.id != id
  {
    if jobs == [] || jobs[0].id == id then 0 else 1 + PositionOf(jobs[1..], id)
  }

  /** The queue update a run receives whenever the queue changes, if it waits or runs. */
  ghost function Announced(c: Coord, id: RunId): Ledger
    requires ValidQueue(c.queue) && id in c.ledgers
  {
    var waiting := Values(c.queue);
    var depth := |Contents(c.queue)| + |c.active|;
    var k := PositionOf(waiting, id);
    if id in c.active then Appended(c.ledgers[id], QueueUpdated(0, depth))
    else if k < |waiting| then Appended(c.ledgers[id], QueueUpdated(k + 1, depth))
    else c.ledgers[id]
  }

  ghost function Published(c: Coord): Coord
    requires ValidQueue(c.queue)
  {
    c.(ledgers := map id | id in c.ledgers :: Announced(c, id))
  }

  // ----- jobs -----

  function OwnerIds(active: Pool, owner: OwnerKey): set<RunId> {
    set id | id in active && active[id].owner == owner
  }

  predicate OwnerHasRoom(limits: Limits, active: Pool, owner: OwnerKey) {
    |OwnerIds(active, owner)| < limits.maxPerOwner
  }

  function JobOf(c: Coord, id: RunId): Option<Job> {
    if id in c.active then Some(c.active[id])
    else if id in c.subagents then Some(c.subagents[id])
    else None
  }

  function Restaged(pool: Pool, id: RunId, stage: Stage): Pool {
    if id in pool then pool[id := pool[id].(stage := stage)] else pool
  }

  function Flagged(pool: Pool, id: RunId): Pool {
    if id in pool then pool[id := pool[id].(cancelRequested := true)] else pool
  }

  function RecordOf(c: Coord, id: RunId): Ledger {
    if id in c.ledgers then c.ledgers[id] else Ledger(Queued, 0, [])
  }

  /** One step in the life of a pooled run: its record, the stage of its job, and whether its
      completion is reported. */
  function Advanced(c: Coord, id: RunId, record: Ledger, stage: Stage, reported: bool): Coord {
    c.(ledgers := c.ledgers[id := record],
       active := Restaged(c.active, id, stage),
       subagents := Restaged(c.subagents, id, stage),
       completions := if reported then c.completions + [id] else c.completions)
  }

  /** The terminal event of a run whose stream could not be created. */
  function RefusedEnding(c: Coord, id: RunId): Ending {
    var job := JobOf(c, id);
    if job.Some? && job.value.shutdownRequested then Interrupted else Failed
  }

  /** Runs the synchronous head of a job: its stream is created, or creating it fails. */
  function Begun(c: Coord, id: RunId, broken: set<RunId>): Coord {
    if id in broken then
      Advanced(c, id, Appended(RecordOf(c, id), Finished(RefusedEnding(c, id))), Notified, true)
    else
      Advanced(c, id, Appended(RecordOf(c, id), Started), Streaming, false)
  }

  ghost function Dispatched(c: Coord, q: FairQueue, job: Job, broken: set<RunId>): Coord
    requires ValidQueue(q)
  {
    Begun(Published(c.(queue := q, active := c.active[job.id := job])), job.id, broken)
  }

  lemma PublishShape(c: Coord)
    requires ValidQueue(c.queue)
    ensures var d := Published(c);
            d.(ledgers := c.ledgers) == c && d.ledgers.Keys == c.ledgers.Keys
            && forall id :: id in c.ledgers ==> d.ledgers[id] == Announced(c, id)
  {
  }

  lemma AdvanceShape(c: Coord, id: RunId, record: Ledger, stage: Stage, reported: bool)
    ensures var d := Advanced(c, id, record, stage, reported);
            && d.queue == c.queue && d.limits == c.limits && d.accepting == c.accepting
            && d.active.Keys == c.active.Keys && d.subagents.Keys == c.subagents.Keys
            && (forall x :: x in c.active ==> d.active[x].owner == c.active[x].owner && d.active[x].id == c.active[x].id)
            && (forall x :: x in c.subagents ==> d.subagents[x].id == c.subagents[x].id)
            && (forall x :: x in c.active && x != id ==> d.active[x] == c.active[x])
            && (forall x :: x in c.subagents && x != id ==> d.subagents[x] == c.subagents[x])
  {
  }

  lemma DispatchShape(c: Coord, q: FairQueue, job: Job, broken: set<RunId>)
    requires ValidQueue(q)
    ensures var d := Dispatched(c, q, job, broken);
            && d.queue == q && d.limits == c.limits && d.accepting == c.accepting
            && d.active.Keys == c.active.Keys + {job.id} && d.active[job.id].owner == job.owner
            && forall x :: x in c.active && x != job.id ==> d.active[x] == c.active[x]
  {
    hide Published;
    hide Advanced;
    hide Appended;
    hide ValidQueue;
    var moved := c.(queue := q, active := c.active[job.id := job]);
    PublishShape(moved);
    var record := RecordOf(Published(moved), job.id);
    AdvanceShape(Published(moved), job.id, Appended(record, Started), Streaming, false);
    AdvanceShape(Published(moved), job.id, Appended(record, Finished(RefusedEnding(Published(moved), job.id))), Notified, true);
  }

  /** The next waiting job whose owner has room, and the queue without it. */
  ghost function NextJob(limits: Limits, active: Pool, queue: FairQueue): (r: (Option<Job>, FairQueue))
    requires ValidQueue(queue)
    ensures ValidQueue(r.1)
    ensures r.0.Some? ==> r.0.value in Contents(queue) && Contents(r.1) == Contents(queue) - multiset{r.0.value}
                          && OwnerHasRoom(limits, active, r.0.value.owner)
    ensures r.0.None? ==> r.1 == queue && forall job :: job in Contents(queue) ==> !OwnerHasRoom(limits, active, job.owner)
  {
    var test := (job: Job) => OwnerHasRoom(limits, active, job.owner);
    DequeueKeeps(queue, test);
    ServesIffEligible(queue, test);
    Dequeued(queue, test)
  }

  /** Fills the pool from the queue as long as some waiting owner has room. */
  ghost function Pumped(c: Coord, broken: set<RunId>): Coord
    requires ValidQueue(c.queue)
    decreases |Contents(c.queue)|
  {
    if !c.accepting || |c.active| >= c.limits.maxConcurrent then c
    else
      var (job, q) := NextJob(c.limits, c.active, c.queue);
      if job.None? then c
      else
        DispatchShape(c, q, job.value, broken);
        Pumped(Dispatched(c, q, job.value, broken), broken)
  }

  function MarkCancelled(pool: Pool, parent: RunId): Pool {
    map id | id in pool :: if pool[id].parent == Some(parent) then pool[id].(cancelRequested := true) else pool[id]
  }

  function MarkShutdown(pool: Pool): Pool {
    map id | id in pool :: pool[id].(shutdownRequested := true)
  }

  ghost predicate IsWaiting(q: FairQueue, id: RunId)
    requires ValidQueue(q)
  {
    exists job :: job in Contents(q) && job.id == id
  }

  /** Takes a waiting job out of the queue with a terminal event of its own. */
  ghost function Discarded(c: Coord, q: FairQueue, id: RunId, ending: Ending): Coord {
    c.(queue := q, ledgers := c.ledgers[id := Appended(RecordOf(c, id), Finished(ending))],
       completions := c.completions + [id])
  }

  ghost function Drained(c: Coord): Coord
    requires ValidQueue(c.queue)
    decreases |Contents(c.queue)|
  {
    var (job, q) := Dequeued(c.queue, (j: Job) => true);
    DequeueKeeps(c.queue, (j: Job) => true);
    if job.None? then c else Drained(Discarded(c, q, job.value.id, Interrupted))
  }

  /** The terminal event of a stream: shutdown first, then cancellation, then the error. */
  function EndingOf(job: Job, how: How): Ending {
    if job.shutdownRequested then Interrupted
    else if job.cancelRequested then Cancelled
    else match how
      case Exhausted(throws) => if throws then Failed else Completed
      case Aborted => Interrupted
      case Broke => Failed
  }

  // ----- the steps -----

  function NewJob(id: RunId, owner: OwnerKey, parent: Option<RunId>): Job {
    Job(id, owner, parent, false, false, Waiting)
  }

  function Registered(c: Coord, id: RunId): Coord {
    c.(ledgers := c.ledgers[id := Appended(Ledger(Queued, 0, []), Created)])
  }

  ghost function StartedRun(c: Coord, id: RunId, owner: OwnerKey, retry: bool, broken: set<RunId>): Coord
    requires ValidQueue(c.queue)
  {
    if !c.accepting || |Contents(c.queue)| + |c.active| >= c.limits.maxDepth then c
    else
      var created := Registered(c, id);
      var announced := if retry then Emitted(created, id, Retried) else created;
      EnqueueKeeps(c.queue, NewJob(id, owner, None));
      Pumped(Published(announced.(queue := Enqueued(c.queue, NewJob(id, owner, None)))), broken)
  }

  /** A child is recorded with its parent and pooled without waiting. */
  function WithChild(c: Coord, id: RunId, owner: OwnerKey, parent: RunId): Coord {
    Registered(c, id).(delegation := c.delegation[id := parent],
                       subagents := c.subagents[id := NewJob(id, owner, Some(parent))])
  }

  ghost function Launched(c: Coord, id: RunId, owner: OwnerKey, parent: RunId, aborted: bool, broken: set<RunId>): Coord {
    if !c.accepting || parent !in c.ledgers || parent in c.delegation || aborted then c
    else Begun(WithChild(c, id, owner, parent), id, broken)
  }

  ghost function CancelledRun(c: Coord, id: RunId): Coord
    requires ValidQueue(c.queue)
  {
    if id in c.active then
      c.(active := Flagged(c.active, id), subagents := MarkCancelled(c.subagents, id))
    else if id in c.subagents then c.(subagents := Flagged(c.subagents, id))
    else
      var waiting := Values(c.queue);
      var k := PositionOf(waiting, id);
      if k == |waiting| then c
      else
        RoundRobinContents(c.queue.buckets, c.queue.owners);
        assert waiting[k] in multiset(waiting);
        RemoveKeeps(c.queue, waiting[k]);
        var discarded := Discarded(c, Removed(c.queue, waiting[k]), id, Cancelled);
        var published := Published(discarded.(completions := c.completions, subagents := MarkCancelled(c.subagents, id)));
        published.(completions := c.completions + [id])
  }

  ghost function ShutDown(c: Coord): Coord
    requires ValidQueue(c.queue)
  {
    if !c.accepting then c
    else
      var drained := Drained(c.(accepting := false));
      DrainKeeps(c.(accepting := false));
      Published(drained.(active := MarkShutdown(drained.active), subagents := MarkShutdown(drained.subagents)))
  }

  /** A queue from which an unconditional dequeue takes nothing is empty. */
  lemma NothingRefused(q: FairQueue)
    requires ValidQueue(q) && Dequeued(q, (j: Job) => true).0.None?
    ensures Contents(q) == multiset{}
  {
    ServesIffEligible(q, (j: Job) => true);
    assert forall job :: job !in Contents(q);
  }

  lemma {:induction false} DrainKeeps(c: Coord)
    requires ValidQueue(c.queue)
    ensures ValidQueue(Drained(c).queue) && Contents(Drained(c).queue) == multiset{}
    ensures var d := Drained(c); d.limits == c.limits && d.accepting == c.accepting && d.active == c.active && d.subagents == c.subagents
    decreases |Contents(c.queue)|
  {
    var test := (j: Job) => true;
    var (job, q) := Dequeued(c.queue, test);
    DequeueKeeps(c.queue, test);
    if job.Some? {
      DrainKeeps(Discarded(c, q, job.value.id, Interrupted));
    } else {
      NothingRefused(c.queue);
    }
  }

  predicate HasStage(c: Coord, id: RunId, stage: Stage) {
    var job := JobOf(c, id);
    job.Some? && job.value.stage == stage
  }

  ghost predicate Enabled(c: Coord, step: Step) {
    match step
    case Start(id, owner, retry, broken) => id !in c.ledgers
    case Launch(id, owner, parent, aborted, broken) => id !in c.ledgers
    case Cancel(id) => true
    case AbortSignal(id) => id in c.subagents
    case Shutdown => true
    case Deliver(id) => HasStage(c, id, Streaming)
    case EndStream(id, how) => HasStage(c, id, Streaming)
    case Notify(id) => HasStage(c, id, Ended)
    case Settle(id, broken) => HasStage(c, id, Notified)
  }

  ghost function Settled(c: Coord, id: RunId, broken: set<RunId>): Coord
    requires ValidQueue(c.queue)
  {
    if id in c.active then Pumped(Published(c.(active := c.active - {id})), broken)
    else c.(subagents := c.subagents - {id})
  }

  ghost function StreamEnded(c: Coord, id: RunId, how: How): Coord {
    var job := JobOf(c, id);
    if job.None? then c
    else
      var normally := how.Exhausted? && !job.value.shutdownRequested && !job.value.cancelRequested;
      var closed := if normally then Appended(RecordOf(c, id), Streamed) else RecordOf(c, id);
      Advanced(c, id, Appended(closed, Finished(EndingOf(job.value, how))), Ended, false)
  }

  ghost function Next(c: Coord, step: Step): Coord
    requires ValidQueue(c.queue)
  {
    match step
    case Start(id, owner, retry, broken) => StartedRun(c, id, owner, retry, broken)
    case Launch(id, owner, parent, aborted, broken) => Launched(c, id, owner, parent, aborted, broken)
    case Cancel(id) => CancelledRun(c, id)
    case AbortSignal(id) => c.(subagents := Flagged(c.subagents, id))
    case Shutdown => ShutDown(c)
    case Deliver(id) => Emitted(c, id, Streamed)
    case EndStream(id, how) => StreamEnded(c, id, how)
    case Notify(id) => Advanced(c, id, RecordOf(c, id), Notified, true)
    case Settle(id, broken) => Settled(c, id, broken)
  }

  function Initial(limits: Limits): Coord {
    Coord(limits, true, EMPTY, map[], map[], map[], map[], [])
  }

  // ----- the books: every run is accounted for -----

  function EndingsIn(events: seq<Event>): seq<Ending> {
    if events == [] then []
    else EndingsIn(events[..|events| - 1]) + (if Last(events).kind.Finished? then [Last(events).kind.ending] else [])
  }

  /** Sequence numbers are 1, 2, 3, …; there is no terminal event while the run is queued or
      running, and exactly one, the one its status names, when it is over. */
  predicate LedgerOk(l: Ledger) {
    && l.lastSequence == |l.events|
    && (forall k :: 0 <= k < |l.events| ==> l.events[k].sequence == k + 1)
    && EndingsIn(l.events) == (if l.status.Over? then [l.status.ending] else [])
  }

  /** Where a run's job is. */
  datatype Place = Nowhere | InQueue | InPool(stage: Stage)

  ghost function PlaceOf(c: Coord, id: RunId): Place
    requires ValidQueue(c.queue)
  {
    if id in c.active then InPool(c.active[id].stage)
    else if id in c.subagents then InPool(c.subagents[id].stage)
    else if IsWaiting(c.queue, id) then InQueue
    else Nowhere
  }

  function LedgerFor(c: Coord, id: RunId): Option<Ledger> {
    if id in c.ledgers then Some(c.ledgers[id]) else None
  }

  ghost function Reports(c: Coord, id: RunId): nat {
    multiset(c.completions)[id]
  }

  /** The whole life of one run: queued while it waits, running while it streams, over once
      its stream has ended, and reported complete once, after that and before it is forgotten. */
  predicate RunOk(ledger: Option<Ledger>, place: Place, reports: nat) {
    match ledger
    case None => place == Nowhere && reports == 0
    case Some(l) =>
      LedgerOk(l) &&
      match place
      case Nowhere => l.status.Over? && reports == 1
      case InQueue => l.status == Queued && reports == 0
      case InPool(stage) =>
        (match stage
         case Waiting => l.status == Queued
         case Streaming => l.status == Running
         case Ended => l.status.Over?
         case Notified => l.status.Over?)
        && reports == (if stage == Notified then 1 else 0)
  }

  ghost predicate QueueOk(c: Coord) {
    && ValidQueue(c.queue)
    && (forall job :: job in Contents(c.queue) ==> job == NewJob(job.id, job.owner, None) && Contents(c.queue)[job] == 1)
    && (forall job :: job in Contents(c.queue) ==> job.id !in c.active && job.id !in c.subagents)
    && (forall a, b :: a in Contents(c.queue) && b in Contents(c.queue) && a.id == b.id ==> a == b)
    && (!c.accepting ==> Contents(c.queue) == multiset{})
  }

  predicate PoolsOk(c: Coord) {
    && c.active.Keys !! c.subagents.Keys
    && (forall id :: id in c.active ==> c.active[id].id == id)
    && (forall id :: id in c.subagents ==> c.subagents[id].id == id)
  }

  ghost predicate RunsOk(c: Coord)
    requires ValidQueue(c.queue)
  {
    forall id :: RunOk(LedgerFor(c, id), PlaceOf(c, id), Reports(c, id))
  }

  ghost predicate BooksOk(c: Coord) {
    QueueOk(c) && PoolsOk(c) && RunsOk(c)
  }

  // ----- one run at a time -----

  lemma AppendKeepsLedger(l: Ledger, kind: Kind)
    requires LedgerOk(l) && (kind.Finished? || kind.Started? ==> !l.status.Over?)
    ensures LedgerOk(Appended(l, kind))
  {
    var after := Appended(l, kind).events;
    assert after[..|after| - 1] == l.events;
  }

  /** Events that do not change a run's status fit anywhere. */
  lemma HarmlessEvent(l: Ledger, kind: Kind, place: Place, reports: nat)
    requires RunOk(Some(l), place, reports) && !kind.Finished? && !kind.Started?
    ensures RunOk(Some(Appended(l, kind)), place, reports)
  {
    AppendKeepsLedger(l, kind);
  }

  lemma RunBegins(l: Ledger, reports: nat, ending: Ending)
    requires RunOk(Some(l), InPool(Waiting), reports)
    ensures RunOk(Some(Appended(l, Started)), InPool(Streaming), reports)
    ensures RunOk(Some(Appended(l, Finished(ending))), InPool(Notified), reports + 1)
  {
    AppendKeepsLedger(l, Started);
    AppendKeepsLedger(l, Finished(ending));
  }

  lemma RunDiscarded(l: Ledger, reports: nat, ending: Ending)
    requires RunOk(Some(l), InQueue, reports)
    ensures RunOk(Some(Appended(l, Finished(ending))), Nowhere, reports + 1)
  {
    AppendKeepsLedger(l, Finished(ending));
  }

  lemma RunEnds(l: Ledger, reports: nat, ending: Ending)
    requires RunOk(Some(l), InPool(Streaming), reports)
    ensures RunOk(Some(Appended(l, Finished(ending))), InPool(Ended), reports)
    ensures RunOk(Some(Appended(Appended(l, Streamed), Finished(ending))), InPool(Ended), reports)
  {
    AppendKeepsLedger(l, Streamed);
    AppendKeepsLedger(l, Finished(ending));
    AppendKeepsLedger(Appended(l, Streamed), Finished(ending));
  }

  lemma NewLedgerOk()
    ensures RunOk(Some(Appended(Ledger(Queued, 0, []), Created)), InQueue, 0)
    ensures RunOk(Some(Appended(Ledger(Queued, 0, []), Created)), InPool(Waiting), 0)
  {
    AppendKeepsLedger(Ledger(Queued, 0, []), Created);
  }

  /** When a step touches one run only, only that run needs checking. */
  lemma OneRunChanges(c: Coord, d: Coord, id: RunId)
    requires ValidQueue(c.queue) && ValidQueue(d.queue) && RunsOk(c)
    requires forall x :: x != id ==>
               LedgerFor(d, x) == LedgerFor(c, x) && PlaceOf(d, x) == PlaceOf(c, x) && Reports(d, x) == Reports(c, x)
    requires RunOk(LedgerFor(d, id), PlaceOf(d, id), Reports(d, id))
    ensures RunsOk(d)
  {
    hide RunOk;
    hide LedgerFor;
    hide PlaceOf;
    hide Reports;
    hide ValidQueue;
  }

  lemma RunOf(c: Coord, id: RunId)
    requires ValidQueue(c.queue) && RunsOk(c)
    ensures RunOk(LedgerFor(c, id), PlaceOf(c, id), Reports(c, id))
  {
  }

  lemma SameQueue(c: Coord, d: Coord)
    requires QueueOk(c) && d.queue == c.queue && d.accepting == c.accepting
    requires d.active.Keys == c.active.Keys && d.subagents.Keys == c.subagents.Keys
    ensures QueueOk(d)
  {
    hide ValidQueue;
    hide Contents;
  }

  // ----- each part of a step keeps the books -----

  lemma EmittedOthers(c: Coord, id: RunId, kind: Kind, x: RunId)
    requires ValidQueue(c.queue) && x != id
    ensures var d := Emitted(c, id, kind);
            LedgerFor(d, x) == LedgerFor(c, x) && PlaceOf(d, x) == PlaceOf(c, x) && Reports(d, x) == Reports(c, x)
  {
    hide ValidQueue;
    hide IsWaiting;
  }

  lemma EmittedOwn(c: Coord, id: RunId, kind: Kind)
    requires ValidQueue(c.queue) && RunsOk(c) && !kind.Finished? && !kind.Started?
    ensures var d := Emitted(c, id, kind);
            RunOk(LedgerFor(d, id), PlaceOf(d, id), Reports(d, id))
  {
    hide ValidQueue;
    hide IsWaiting;
    hide RunOk;
    RunOf(c, id);
    if id in c.ledgers {
      HarmlessEvent(c.ledgers[id], kind, PlaceOf(c, id), Reports(c, id));
    }
  }

  lemma EmittedPools(c: Coord, id: RunId, kind: Kind)
    requires QueueOk(c) && PoolsOk(c)
    ensures QueueOk(Emitted(c, id, kind)) && PoolsOk(Emitted(c, id, kind)) && Emitted(c, id, kind).queue == c.queue
  {
    hide QueueOk;
    hide Appended;
    SameQueue(c, Emitted(c, id, kind));
  }

  lemma EmitKeeps(c: Coord, id: RunId, kind: Kind)
    requires BooksOk(c) && !kind.Finished? && !kind.Started?
    ensures BooksOk(Emitted(c, id, kind))
  {
    hide *;
    var d := Emitted(c, id, kind);
    BooksParts(c);
    BooksQueue(c);
    EmittedPools(c, id, kind);
    EmittedOwn(c, id, kind);
    forall x | x != id
      ensures LedgerFor(d, x) == LedgerFor(c, x) && PlaceOf(d, x) == PlaceOf(c, x) && Reports(d, x) == Reports(c, x)
    {
      EmittedOthers(c, id, kind, x);
    }
    OneRunChanges(c, d, id);
    BooksFromParts(d);
  }

  lemma PublishKeeps(c: Coord)
    requires BooksOk(c)
    ensures BooksOk(Published(c))
  {
    hide ValidQueue;
    hide Contents;
    hide Values;
    hide RunOk;
    hide IsWaiting;
    hide Published;
    hide Announced;
    var d := Published(c);
    PublishShape(c);
    SameQueue(c, d);
    forall x
      ensures RunOk(LedgerFor(d, x), PlaceOf(d, x), Reports(d, x))
    {
      RunOf(c, x);
      if x in c.ledgers {
        AnnouncedOk(c, x);
      }
    }
  }

  lemma AnnouncedOk(c: Coord, id: RunId)
    requires ValidQueue(c.queue) && RunsOk(c) && id in c.ledgers
    ensures RunOk(Some(Announced(c, id)), PlaceOf(c, id), Reports(c, id))
  {
    hide ValidQueue;
    hide Contents;
    hide Values;
    hide RunOk;
    RunOf(c, id);
    var depth := |Contents(c.queue)| + |c.active|;
    HarmlessEvent(c.ledgers[id], QueueUpdated(0, depth), PlaceOf(c, id), Reports(c, id));
    HarmlessEvent(c.ledgers[id], QueueUpdated(PositionOf(Values(c.queue), id) + 1, depth), PlaceOf(c, id), Reports(c, id));
  }

  lemma QueueWithout(c: Coord, q: FairQueue, job: Job)
    requires QueueOk(c) && ValidQueue(q)
    requires job in Contents(c.queue) && Contents(q) == Contents(c.queue) - multiset{job}
    ensures forall j :: j in Contents(q) <==> j in Contents(c.queue) && j != job
    ensures forall j :: j in Contents(q) ==> Contents(q)[j] == 1 && j.id != job.id
    ensures forall x :: x != job.id ==> (IsWaiting(q, x) <==> IsWaiting(c.queue, x))
    ensures IsWaiting(c.queue, job.id) && !IsWaiting(q, job.id)
  {
    hide ValidQueue;
    hide Contents;
  }

  /** The run of a waiting job. */
  lemma WaitingRun(c: Coord, job: Job)
    requires BooksOk(c) && job in Contents(c.queue)
    ensures job.id in c.ledgers && PlaceOf(c, job.id) == InQueue
    ensures RunOk(Some(c.ledgers[job.id]), InQueue, Reports(c, job.id))
  {
    hide ValidQueue;
    hide Contents;
    assert IsWaiting(c.queue, job.id);
    RunOf(c, job.id);
  }

  lemma MoveQueue(c: Coord, q: FairQueue, job: Job)
    requires BooksOk(c) && c.accepting && ValidQueue(q)
    requires job in Contents(c.queue) && Contents(q) == Contents(c.queue) - multiset{job}
    ensures var d := c.(queue := q, active := c.active[job.id := job]); QueueOk(d) && PoolsOk(d)
  {
    hide ValidQueue;
    hide Contents;
    hide RunsOk;
    QueueWithout(c, q, job);
  }

  lemma MoveOthers(c: Coord, q: FairQueue, job: Job, x: RunId)
    requires QueueOk(c) && ValidQueue(q) && x != job.id
    requires job in Contents(c.queue) && Contents(q) == Contents(c.queue) - multiset{job}
    ensures var d := c.(queue := q, active := c.active[job.id := job]);
            LedgerFor(d, x) == LedgerFor(c, x) && PlaceOf(d, x) == PlaceOf(c, x) && Reports(d, x) == Reports(c, x)
  {
    QueueWithout(c, q, job);
    hide ValidQueue;
    hide Contents;
    hide IsWaiting;
    hide QueueOk;
  }

  lemma MoveOwn(c: Coord, q: FairQueue, job: Job)
    requires BooksOk(c) && ValidQueue(q) && job in Contents(c.queue)
    ensures var d := c.(queue := q, active := c.active[job.id := job]);
            RunOk(LedgerFor(d, job.id), PlaceOf(d, job.id), Reports(d, job.id))
  {
    WaitingRun(c, job);
    QueuedToPool(c.ledgers[job.id], Reports(c, job.id));
    assert job.stage == Waiting;
    hide ValidQueue;
    hide Contents;
    hide IsWaiting;
    hide RunOk;
    hide BooksOk;
  }

  lemma MoveKeeps(c: Coord, q: FairQueue, job: Job)
    requires BooksOk(c) && c.accepting && ValidQueue(q)
    requires job in Contents(c.queue) && Contents(q) == Contents(c.queue) - multiset{job}
    ensures BooksOk(c.(queue := q, active := c.active[job.id := job]))
  {
    var d := c.(queue := q, active := c.active[job.id := job]);
    BooksParts(c);
    BooksQueue(c);
    hide *;
    MoveQueue(c, q, job);
    MoveOwn(c, q, job);
    forall x | x != job.id
      ensures LedgerFor(d, x) == LedgerFor(c, x) && PlaceOf(d, x) == PlaceOf(c, x) && Reports(d, x) == Reports(c, x)
    {
      MoveOthers(c, q, job, x);
    }
    OneRunChanges(c, d, job.id);
    BooksFromParts(d);
  }

  lemma QueuedToPool(l: Ledger, reports: nat)
    requires RunOk(Some(l), InQueue, reports)
    ensures RunOk(Some(l), InPool(Waiting), reports)
  {
  }

  lemma ReportAdded(reports: seq<RunId>, id: RunId)
    ensures multiset(reports + [id])[id] == multiset(reports)[id] + 1
    ensures forall x :: x != id ==> multiset(reports + [id])[x] == multiset(reports)[x]
  {
  }

  lemma AdvanceOthers(c: Coord, id: RunId, record: Ledger, stage: Stage, reported: bool, x: RunId)
    requires ValidQueue(c.queue) && x != id
    ensures var d := Advanced(c, id, record, stage, reported);
            LedgerFor(d, x) == LedgerFor(c, x) && PlaceOf(d, x) == PlaceOf(c, x) && Reports(d, x) == Reports(c, x)
  {
    hide ValidQueue;
    hide Contents;
    ReportAdded(c.completions, id);
  }

  /** Whatever happens to one pooled run, the books balance if that run's own account does. */
  lemma AdvanceKeeps(c: Coord, id: RunId, record: Ledger, stage: Stage, reported: bool)
    requires BooksOk(c) && JobOf(c, id).Some?
    requires RunOk(Some(record), InPool(stage), Reports(c, id) + (if reported then 1 else 0))
    ensures BooksOk(Advanced(c, id, record, stage, reported))
  {
    var d := Advanced(c, id, record, stage, reported);
    AdvanceShape(c, id, record, stage, reported);
    ReportAdded(c.completions, id);
    hide ValidQueue;
    hide Contents;
    hide IsWaiting;
    hide RunOk;
    SameQueue(c, d);
    hide QueueOk;
    hide RunsOk;
    assert RunOk(LedgerFor(d, id), PlaceOf(d, id), Reports(d, id));
    forall x | x != id
      ensures LedgerFor(d, x) == LedgerFor(c, x) && PlaceOf(d, x) == PlaceOf(c, x) && Reports(d, x) == Reports(c, x)
    {
      AdvanceOthers(c, id, record, stage, reported, x);
    }
    hide PlaceOf;
    hide LedgerFor;
    hide Reports;
    OneRunChanges(c, d, id);
  }

  /** A job in the pool that has not begun: its run starts, or ends at once when its stream
      cannot be created. */
  lemma BeginKeeps(c: Coord, id: RunId, broken: set<RunId>)
    requires BooksOk(c) && HasStage(c, id, Waiting)
    ensures BooksOk(Begun(c, id, broken))
  {
    hide BooksOk;
    hide RunOk;
    hide Advanced;
    hide Appended;
    PooledRun(c, id);
    RunBegins(c.ledgers[id], Reports(c, id), RefusedEnding(c, id));
    if id in broken {
      AdvanceKeeps(c, id, Appended(RecordOf(c, id), Finished(RefusedEnding(c, id))), Notified, true);
    } else {
      AdvanceKeeps(c, id, Appended(RecordOf(c, id), Started), Streaming, false);
    }
  }

  lemma PooledRun(c: Coord, id: RunId)
    requires BooksOk(c) && JobOf(c, id).Some?
    ensures id in c.ledgers && PlaceOf(c, id) == InPool(JobOf(c, id).value.stage)
    ensures RunOk(Some(c.ledgers[id]), InPool(JobOf(c, id).value.stage), Reports(c, id))
  {
    hide ValidQueue;
    hide Contents;
    RunOf(c, id);
  }

  lemma DispatchKeeps(c: Coord, q: FairQueue, job: Job, broken: set<RunId>)
    requires BooksOk(c) && c.accepting && ValidQueue(q)
    requires job in Contents(c.queue) && Contents(q) == Contents(c.queue) - multiset{job}
    ensures BooksOk(Dispatched(c, q, job, broken))
  {
    hide BooksOk;
    hide ValidQueue;
    hide Contents;
    hide Published;
    hide Begun;
    var moved := c.(queue := q, active := c.active[job.id := job]);
    BooksQueue(c);
    WaitingJob(c, job);
    MoveKeeps(c, q, job);
    PublishKeeps(moved);
    PublishShape(moved);
    BeginKeeps(Published(moved), job.id, broken);
  }

  lemma WaitingJob(c: Coord, job: Job)
    requires QueueOk(c) && job in Contents(c.queue)
    ensures job.stage == Waiting
  {
    hide ValidQueue;
    hide Contents;
  }

  lemma {:induction false} PumpKeeps(c: Coord, broken: set<RunId>)
    requires BooksOk(c)
    ensures BooksOk(Pumped(c, broken))
    decreases |Contents(c.queue)|
  {
    hide ValidQueue;
    hide Contents;
    hide Dispatched;
    hide RunsOk;
    hide PoolsOk;
    if c.accepting && |c.active| < c.limits.maxConcurrent {
      var (job, q) := NextJob(c.limits, c.active, c.queue);
      if job.Some? {
        DispatchKeeps(c, q, job.value, broken);
        DispatchShape(c, q, job.value, broken);
        PumpKeeps(Dispatched(c, q, job.value, broken), broken);
      }
    }
  }

  lemma QueueWith(c: Coord, q: FairQueue, job: Job)
    requires QueueOk(c) && c.accepting && ValidQueue(q) && job == NewJob(job.id, job.owner, None)
    requires !IsWaiting(c.queue, job.id) && job.id !in c.active && job.id !in c.subagents
    requires Contents(q) == Contents(c.queue) + multiset{job}
    ensures QueueOk(c.(queue := q))
    ensures forall x :: x != job.id ==> (IsWaiting(q, x) <==> IsWaiting(c.queue, x))
    ensures IsWaiting(q, job.id)
  {
    hide ValidQueue;
    hide Contents;
    assert job in Contents(q);
    assert forall j :: j in Contents(c.queue) ==> j.id != job.id;
  }

  lemma RegisterOthers(c: Coord, q: FairQueue, job: Job, x: RunId)
    requires QueueOk(c) && c.accepting && ValidQueue(q) && job == NewJob(job.id, job.owner, None)
    requires !IsWaiting(c.queue, job.id) && job.id !in c.active && job.id !in c.subagents && x != job.id
    requires Contents(q) == Contents(c.queue) + multiset{job}
    ensures var d := Registered(c, job.id).(queue := q);
            LedgerFor(d, x) == LedgerFor(c, x) && PlaceOf(d, x) == PlaceOf(c, x) && Reports(d, x) == Reports(c, x)
  {
    QueueWith(c, q, job);
    hide ValidQueue;
    hide Contents;
    hide IsWaiting;
    hide QueueOk;
  }

  lemma RegisterInQueue(c: Coord, id: RunId, owner: OwnerKey, q: FairQueue)
    requires BooksOk(c) && id !in c.ledgers && c.accepting && ValidQueue(q)
    requires Contents(q) == Contents(c.queue) + multiset{NewJob(id, owner, None)}
    ensures BooksOk(Registered(c, id).(queue := q))
  {
    var d := Registered(c, id).(queue := q);
    var job := NewJob(id, owner, None);
    BooksQueue(c);
    UnknownRun(c, id);
    assert PoolsOk(d);
    QueueWith(c, q, job);
    SameQueue(c.(queue := q), d);
    assert RunOk(LedgerFor(d, id), PlaceOf(d, id), Reports(d, id)) by {
      NewLedgerOk();
      hide ValidQueue;
      hide Contents;
      hide RunOk;
      hide BooksOk;
      hide IsWaiting;
    }
    forall x | x != id
      ensures LedgerFor(d, x) == LedgerFor(c, x) && PlaceOf(d, x) == PlaceOf(c, x) && Reports(d, x) == Reports(c, x)
    {
      RegisterOthers(c, q, job, x);
    }
    BooksParts(c);
    hide *;
    OneRunChanges(c, d, id);
    BooksFromParts(d);
  }

  lemma UnknownRun(c: Coord, id: RunId)
    requires BooksOk(c) && id !in c.ledgers
    ensures id !in c.active && id !in c.subagents && !IsWaiting(c.queue, id) && Reports(c, id) == 0
  {
    hide ValidQueue;
    hide Contents;
    RunOf(c, id);
  }

  lemma QueueBeside(c: Coord, id: RunId, job: Job)
    requires QueueOk(c) && !IsWaiting(c.queue, id)
    ensures QueueOk(c.(subagents := c.subagents[id := job]))
  {
    hide ValidQueue;
    hide Contents;
    assert forall j :: j in Contents(c.queue) ==> j.id != id;
  }

  lemma PooledOwn(c: Coord, id: RunId, job: Job)
    requires ValidQueue(c.queue) && id !in c.ledgers && job.id == id && job.stage == Waiting
    requires id !in c.active && id !in c.subagents && !IsWaiting(c.queue, id) && Reports(c, id) == 0
    ensures var d := Registered(c, id).(subagents := c.subagents[id := job]);
            RunOk(LedgerFor(d, id), PlaceOf(d, id), Reports(d, id))
  {
    NewLedgerOk();
    hide ValidQueue;
    hide IsWaiting;
    hide LedgerOk;
  }

  lemma PooledOthers(c: Coord, id: RunId, job: Job, x: RunId)
    requires ValidQueue(c.queue) && x != id
    ensures var d := Registered(c, id).(subagents := c.subagents[id := job]);
            LedgerFor(d, x) == LedgerFor(c, x) && PlaceOf(d, x) == PlaceOf(c, x) && Reports(d, x) == Reports(c, x)
  {
    hide ValidQueue;
    hide IsWaiting;
  }

  lemma RegisterPools(c: Coord, id: RunId, job: Job)
    requires QueueOk(c) && PoolsOk(c) && !IsWaiting(c.queue, id) && id !in c.active && job.id == id
    ensures var d := Registered(c, id).(subagents := c.subagents[id := job]); QueueOk(d) && PoolsOk(d)
  {
    QueueBeside(c, id, job);
    hide QueueOk;
    SameQueue(c.(subagents := c.subagents[id := job]), Registered(c, id).(subagents := c.subagents[id := job]));
  }

  lemma RegisterInPool(c: Coord, id: RunId, job: Job)
    requires BooksOk(c) && id !in c.ledgers && job.id == id && job.stage == Waiting
    ensures BooksOk(Registered(c, id).(subagents := c.subagents[id := job]))
  {
    var d := Registered(c, id).(subagents := c.subagents[id := job]);
    UnknownRun(c, id);
    BooksParts(c);
    BooksQueue(c);
    assert d.queue == c.queue;
    hide *;
    RegisterPools(c, id, job);
    PooledOwn(c, id, job);
    forall x | x != id
      ensures LedgerFor(d, x) == LedgerFor(c, x) && PlaceOf(d, x) == PlaceOf(c, x) && Reports(d, x) == Reports(c, x)
    {
      PooledOthers(c, id, job, x);
    }
    OneRunChanges(c, d, id);
    BooksFromParts(d);
  }

  /** An admitted run is recorded and waits, which is published before the pool is filled. */
  lemma StartWaits(c: Coord, id: RunId, owner: OwnerKey, retry: bool, broken: set<RunId>) returns (e: Coord)
    requires BooksOk(c) && ValidQueue(c.queue) && id !in c.ledgers
    requires c.accepting && |Contents(c.queue)| + |c.active| < c.limits.maxDepth
    ensures BooksOk(e) && ValidQueue(e.queue) && StartedRun(c, id, owner, retry, broken) == Pumped(Published(e), broken)
    ensures e == c.(queue := e.queue, ledgers := e.ledgers)
    ensures e.ledgers == (if retry then Emitted(Registered(c, id), id, Retried) else Registered(c, id)).ledgers
    ensures Contents(e.queue) == Contents(c.queue) + multiset{NewJob(id, owner, None)}
  {
    hide ValidQueue;
    hide Contents;
    hide Published;
    hide Pumped;
    hide Enqueued;
    hide RunsOk;
    hide PoolsOk;
    var job := NewJob(id, owner, None);
    EnqueueKeeps(c.queue, job);
    var q := Enqueued(c.queue, job);
    RegisterInQueue(c, id, owner, q);
    var created := Registered(c, id).(queue := q);
    EmitKeeps(created, id, Retried);
    e := if retry then Emitted(created, id, Retried) else created;
    assert e == (if retry then Emitted(Registered(c, id), id, Retried) else Registered(c, id)).(queue := q);
  }

  lemma StartAdmits(c: Coord, id: RunId, owner: OwnerKey, retry: bool, broken: set<RunId>) returns (d: Coord)
    requires BooksOk(c) && ValidQueue(c.queue) && id !in c.ledgers
    requires c.accepting && |Contents(c.queue)| + |c.active| < c.limits.maxDepth
    ensures BooksOk(d) && ValidQueue(d.queue) && StartedRun(c, id, owner, retry, broken) == Pumped(d, broken)
    ensures d.active == c.active && d.subagents == c.subagents && d.limits == c.limits && d.accepting
    ensures Contents(d.queue) == Contents(c.queue) + multiset{NewJob(id, owner, None)}
  {
    hide ValidQueue;
    hide Contents;
    hide Published;
    hide Pumped;
    hide Appended;
    var e := StartWaits(c, id, owner, retry, broken);
    PublishKeeps(e);
    PublishShape(e);
    d := Published(e);
  }

  lemma StartKeeps(c: Coord, id: RunId, owner: OwnerKey, retry: bool, broken: set<RunId>)
    requires BooksOk(c) && id !in c.ledgers
    ensures BooksOk(StartedRun(c, id, owner, retry, broken))
  {
    BooksParts(c);
    hide BooksOk;
    hide ValidQueue;
    hide Contents;
    hide Published;
    hide Pumped;
    hide Enqueued;
    if c.accepting && |Contents(c.queue)| + |c.active| < c.limits.maxDepth {
      var d := StartAdmits(c, id, owner, retry, broken);
      PumpKeeps(d, broken);
    }
  }

  lemma LaunchKeeps(c: Coord, id: RunId, owner: OwnerKey, parent: RunId, aborted: bool, broken: set<RunId>)
    requires BooksOk(c) && id !in c.ledgers
    ensures BooksOk(Launched(c, id, owner, parent, aborted, broken))
  {
    hide ValidQueue;
    hide Contents;
    hide Begun;
    hide RunsOk;
    hide QueueOk;
    if c.accepting && parent in c.ledgers && parent !in c.delegation && !aborted {
      var job := NewJob(id, owner, Some(parent));
      var child := Registered(c, id).(subagents := c.subagents[id := job]);
      UnknownRun(c, id);
      RegisterInPool(c, id, job);
      DelegationBeside(child, WithChild(c, id, owner, parent));
      BeginKeeps(WithChild(c, id, owner, parent), id, broken);
    }
  }

  /** Who launched whom is not part of the books. */
  lemma DelegationBeside(c: Coord, d: Coord)
    requires BooksOk(c) && d == c.(delegation := d.delegation)
    ensures BooksOk(d)
  {
    BooksParts(c);
    BooksQueue(c);
    SameQueue(c, d);
    hide ValidQueue;
    hide IsWaiting;
    hide QueueOk;
    hide RunOk;
    forall x
      ensures RunOk(LedgerFor(d, x), PlaceOf(d, x), Reports(d, x))
    {
      RunOf(c, x);
      assert PlaceOf(d, x) == PlaceOf(c, x);
    }
    hide PlaceOf;
    BooksFromParts(d);
  }

  /** Flags are not part of the books. */
  lemma FlagsKeep(c: Coord, active: Pool, subagents: Pool)
    requires BooksOk(c)
    requires active.Keys == c.active.Keys && forall id :: id in active ==> active[id].id == id && active[id].stage == c.active[id].stage
    requires subagents.Keys == c.subagents.Keys
    requires forall id :: id in subagents ==> subagents[id].id == id && subagents[id].stage == c.subagents[id].stage
    ensures BooksOk(c.(active := active, subagents := subagents))
  {
    hide ValidQueue;
    hide Contents;
    hide RunOk;
    hide IsWaiting;
    var d := c.(active := active, subagents := subagents);
    SameQueue(c, d);
    forall x
      ensures RunOk(LedgerFor(d, x), PlaceOf(d, x), Reports(d, x))
    {
      RunOf(c, x);
      assert PlaceOf(d, x) == PlaceOf(c, x);
    }
  }

  /** A waiting run that is cancelled or interrupted gets its terminal event and its report. */
  lemma DiscardQueue(c: Coord, q: FairQueue, job: Job, ending: Ending)
    requires BooksOk(c) && c.accepting && ValidQueue(q)
    requires job in Contents(c.queue) && Contents(q) == Contents(c.queue) - multiset{job}
    ensures QueueOk(Discarded(c, q, job.id, ending))
  {
    hide ValidQueue;
    hide Contents;
    hide RunsOk;
    QueueWithout(c, q, job);
  }

  lemma DiscardOthers(c: Coord, q: FairQueue, job: Job, ending: Ending, x: RunId)
    requires BooksOk(c) && c.accepting && ValidQueue(q) && x != job.id
    requires job in Contents(c.queue) && Contents(q) == Contents(c.queue) - multiset{job}
    ensures var d := Discarded(c, q, job.id, ending);
            LedgerFor(d, x) == LedgerFor(c, x) && PlaceOf(d, x) == PlaceOf(c, x) && Reports(d, x) == Reports(c, x)
  {
    QueueWithout(c, q, job);
    ReportAdded(c.completions, job.id);
    hide ValidQueue;
    hide Contents;
    hide BooksOk;
    hide IsWaiting;
  }

  lemma DiscardKeeps(c: Coord, q: FairQueue, job: Job, ending: Ending)
    requires BooksOk(c) && c.accepting && ValidQueue(q)
    requires job in Contents(c.queue) && Contents(q) == Contents(c.queue) - multiset{job}
    ensures BooksOk(Discarded(c, q, job.id, ending))
  {
    var d := Discarded(c, q, job.id, ending);
    DiscardQueue(c, q, job, ending);
    assert PoolsOk(d);
    assert RunOk(LedgerFor(d, job.id), PlaceOf(d, job.id), Reports(d, job.id)) by {
      QueueWithout(c, q, job);
      WaitingRun(c, job);
      RunDiscarded(c.ledgers[job.id], Reports(c, job.id), ending);
      ReportAdded(c.completions, job.id);
      hide ValidQueue;
      hide Contents;
      hide RunOk;
      hide RunsOk;
      hide QueueOk;
      hide IsWaiting;
    }
    forall x | x != job.id
      ensures LedgerFor(d, x) == LedgerFor(c, x) && PlaceOf(d, x) == PlaceOf(c, x) && Reports(d, x) == Reports(c, x)
    {
      DiscardOthers(c, q, job, ending, x);
    }
    hide *;
    OneRunChanges(c, d, job.id);
    BooksFromParts(d);
  }

  lemma BooksFromParts(c: Coord)
    requires QueueOk(c) && PoolsOk(c) && ValidQueue(c.queue) && RunsOk(c)
    ensures BooksOk(c)
  {
  }

  lemma {:induction false} DrainBooks(c: Coord)
    requires BooksOk(c) && c.accepting
    ensures BooksOk(Drained(c)) && Contents(Drained(c).queue) == multiset{}
    decreases |Contents(c.queue)|
  {
    hide ValidQueue;
    hide Contents;
    hide RunsOk;
    hide PoolsOk;
    hide Dequeued;
    var test := (j: Job) => true;
    var (job, q) := Dequeued(c.queue, test);
    DequeueKeeps(c.queue, test);
    DrainKeeps(c);
    if job.Some? {
      DiscardKeeps(c, q, job.value, Interrupted);
      DrainBooks(Discarded(c, q, job.value.id, Interrupted));
    }
  }

  /** Whether new work is accepted matters to the drained result only as a flag. */
  lemma {:induction false} DrainClosed(c: Coord)
    requires ValidQueue(c.queue)
    ensures Drained(c.(accepting := false)) == Drained(c).(accepting := false)
    decreases |Contents(c.queue)|
  {
    hide ValidQueue;
    hide Contents;
    hide Dequeued;
    var test := (j: Job) => true;
    var (job, q) := Dequeued(c.queue, test);
    DequeueKeeps(c.queue, test);
    if job.Some? {
      DrainClosed(Discarded(c, q, job.value.id, Interrupted));
    }
  }

  lemma ShutFlags(c: Coord)
    requires BooksOk(c) && c.accepting
    ensures ValidQueue(c.queue)
    ensures var d := Drained(c.(accepting := false));
            ValidQueue(d.queue) && BooksOk(d.(active := MarkShutdown(d.active), subagents := MarkShutdown(d.subagents)))
  {
    hide BooksOk;
    hide Drained;
    hide Contents;
    BooksParts(c);
    DrainBooks(c);
    DrainClosed(c);
    DrainKeeps(c);
    ClosedBooks(Drained(c));
    var d := Drained(c).(accepting := false);
    BooksParts(d);
    FlagsKeep(d, MarkShutdown(d.active), MarkShutdown(d.subagents));
  }

  lemma ShutDownKeeps(c: Coord)
    requires BooksOk(c)
    ensures BooksOk(ShutDown(c))
  {
    hide BooksOk;
    hide Published;
    hide Drained;
    hide Contents;
    if c.accepting {
      ShutFlags(c);
      var d := Drained(c.(accepting := false));
      PublishKeeps(d.(active := MarkShutdown(d.active), subagents := MarkShutdown(d.subagents)));
    }
  }

  lemma BooksParts(c: Coord)
    requires BooksOk(c)
    ensures ValidQueue(c.queue) && PoolsOk(c) && RunsOk(c)
  {
  }

  lemma ClosedBooks(c: Coord)
    requires BooksOk(c) && Contents(c.queue) == multiset{}
    ensures BooksOk(c.(accepting := false))
  {
    hide ValidQueue;
    hide Contents;
    hide RunOk;
    var d := c.(accepting := false);
    forall x
      ensures RunOk(LedgerFor(d, x), PlaceOf(d, x), Reports(d, x))
    {
      RunOf(c, x);
    }
  }

  lemma WaitingAt(c: Coord, id: RunId) returns (job: Job)
    requires QueueOk(c) && PositionOf(Values(c.queue), id) < |Values(c.queue)|
    ensures job == Values(c.queue)[PositionOf(Values(c.queue), id)] && job in Contents(c.queue) && job.id == id
    ensures ValidQueue(Removed(c.queue, job)) && Contents(Removed(c.queue, job)) == Contents(c.queue) - multiset{job}
  {
    var waiting := Values(c.queue);
    job := waiting[PositionOf(waiting, id)];
    RoundRobinContents(c.queue.buckets, c.queue.owners);
    assert job in multiset(waiting);
    RemoveKeeps(c.queue, job);
  }

  lemma NotEmptyAccepts(c: Coord, job: Job)
    requires QueueOk(c) && job in Contents(c.queue)
    ensures c.accepting
  {
  }

  /** The report of a completed run may be appended before or after a queue update. */
  lemma ReportCommutes(c: Coord, reports: seq<RunId>)
    requires ValidQueue(c.queue)
    ensures Published(c.(completions := reports)) == Published(c).(completions := reports)
  {
    hide ValidQueue;
    hide Contents;
    hide Values;
    hide Appended;
    assert forall id :: id in c.ledgers ==> Announced(c.(completions := reports), id) == Announced(c, id);
  }

  /** Cancelling a waiting run ends it, flags its workers, and publishes what then waits. */
  lemma CancelTakesOut(c: Coord, id: RunId) returns (e: Coord)
    requires BooksOk(c) && id !in c.active && id !in c.subagents
    requires PositionOf(Values(c.queue), id) < |Values(c.queue)|
    ensures BooksOk(e) && CancelledRun(c, id) == Published(e)
    ensures var job := Values(c.queue)[PositionOf(Values(c.queue), id)];
            e == Discarded(c, Removed(c.queue, job), id, Cancelled).(subagents := MarkCancelled(c.subagents, id))
  {
    hide BooksOk;
    hide ValidQueue;
    hide Contents;
    hide Values;
    hide Removed;
    hide Published;
    BooksQueue(c);
    var job := WaitingAt(c, id);
    NotEmptyAccepts(c, job);
    var q := Removed(c.queue, job);
    DiscardKeeps(c, q, job, Cancelled);
    var d := Discarded(c, q, id, Cancelled);
    BooksParts(d);
    FlagsKeep(d, d.active, MarkCancelled(c.subagents, id));
    e := d.(subagents := MarkCancelled(c.subagents, id));
    ReportCommutes(e, c.completions);
    assert CancelledRun(c, id) == Published(e.(completions := c.completions)).(completions := c.completions + [id]);
    PublishShape(e);
  }

  lemma CancelWaiting(c: Coord, id: RunId)
    requires BooksOk(c) && id !in c.active && id !in c.subagents
    requires PositionOf(Values(c.queue), id) < |Values(c.queue)|
    ensures BooksOk(CancelledRun(c, id))
  {
    hide BooksOk;
    hide CancelledRun;
    var e := CancelTakesOut(c, id);
    PublishKeeps(e);
  }

  lemma BooksQueue(c: Coord)
    requires BooksOk(c)
    ensures QueueOk(c)
  {
  }

  lemma WaitingPosition(c: Coord, id: RunId)
    requires QueueOk(c)
    ensures IsWaiting(c.queue, id) <==> PositionOf(Values(c.queue), id) < |Values(c.queue)|
  {
    var waiting := Values(c.queue);
    RoundRobinContents(c.queue.buckets, c.queue.owners);
    if PositionOf(waiting, id) < |waiting| {
      assert waiting[PositionOf(waiting, id)] in multiset(waiting);
    }
    if job :| job in Contents(c.queue) && job.id == id {
      assert job in multiset(waiting);
    }
  }

  lemma CancelKeeps(c: Coord, id: RunId)
    requires BooksOk(c)
    ensures BooksOk(CancelledRun(c, id))
  {
    hide BooksOk;
    hide Contents;
    hide Values;
    hide Removed;
    hide Published;
    BooksParts(c);
    hide ValidQueue;
    if id in c.active {
      FlagsKeep(c, Flagged(c.active, id), MarkCancelled(c.subagents, id));
    } else if id in c.subagents {
      FlagsKeep(c, c.active, Flagged(c.subagents, id));
    } else if PositionOf(Values(c.queue), id) < |Values(c.queue)| {
      CancelWaiting(c, id);
    }
  }

  lemma EndKeeps(c: Coord, id: RunId, how: How)
    requires BooksOk(c) && HasStage(c, id, Streaming)
    ensures BooksOk(StreamEnded(c, id, how))
  {
    hide BooksOk;
    hide RunOk;
    hide Advanced;
    hide Appended;
    PooledRun(c, id);
    var ending := EndingOf(JobOf(c, id).value, how);
    RunEnds(c.ledgers[id], Reports(c, id), ending);
    AdvanceKeeps(c, id, Appended(RecordOf(c, id), Finished(ending)), Ended, false);
    AdvanceKeeps(c, id, Appended(Appended(RecordOf(c, id), Streamed), Finished(ending)), Ended, false);
  }

  lemma NotifyKeeps(c: Coord, id: RunId)
    requires BooksOk(c) && HasStage(c, id, Ended)
    ensures BooksOk(Advanced(c, id, RecordOf(c, id), Notified, true))
  {
    hide BooksOk;
    PooledRun(c, id);
    AdvanceKeeps(c, id, RecordOf(c, id), Notified, true);
  }

  lemma ForgetOthers(c: Coord, id: RunId, x: RunId)
    requires ValidQueue(c.queue) && x != id
    ensures var d := c.(active := c.active - {id}, subagents := c.subagents - {id});
            LedgerFor(d, x) == LedgerFor(c, x) && PlaceOf(d, x) == PlaceOf(c, x) && Reports(d, x) == Reports(c, x)
  {
    hide ValidQueue;
    hide IsWaiting;
  }

  lemma ForgetOwn(c: Coord, id: RunId)
    requires BooksOk(c) && HasStage(c, id, Notified)
    ensures var d := c.(active := c.active - {id}, subagents := c.subagents - {id});
            RunOk(LedgerFor(d, id), PlaceOf(d, id), Reports(d, id))
  {
    PooledRun(c, id);
    assert RunOk(Some(c.ledgers[id]), Nowhere, Reports(c, id));
    hide ValidQueue;
    hide Contents;
    hide RunOk;
    hide RunsOk;
    assert !IsWaiting(c.queue, id);
  }

  lemma ForgetPools(c: Coord, id: RunId)
    requires QueueOk(c) && PoolsOk(c)
    ensures var d := c.(active := c.active - {id}, subagents := c.subagents - {id}); QueueOk(d) && PoolsOk(d)
  {
    hide ValidQueue;
    hide Contents;
  }

  lemma ForgetKeeps(c: Coord, id: RunId)
    requires BooksOk(c) && HasStage(c, id, Notified)
    ensures BooksOk(c.(active := c.active - {id}, subagents := c.subagents - {id}))
  {
    var d := c.(active := c.active - {id}, subagents := c.subagents - {id});
    BooksParts(c);
    BooksQueue(c);
    hide *;
    ForgetPools(c, id);
    ForgetOwn(c, id);
    forall x | x != id
      ensures LedgerFor(d, x) == LedgerFor(c, x) && PlaceOf(d, x) == PlaceOf(c, x) && Reports(d, x) == Reports(c, x)
    {
      ForgetOthers(c, id, x);
    }
    OneRunChanges(c, d, id);
    BooksFromParts(d);
  }

  lemma SettleKeeps(c: Coord, id: RunId, broken: set<RunId>)
    requires BooksOk(c) && HasStage(c, id, Notified)
    ensures BooksOk(Settled(c, id, broken))
  {
    ForgetKeeps(c, id);
    BooksParts(c);
    hide BooksOk;
    hide ValidQueue;
    hide Contents;
    hide Published;
    hide Pumped;
    if id in c.active {
      var d := c.(active := c.active - {id});
      assert c.subagents - {id} == c.subagents;
      PublishKeeps(d);
      BooksParts(Published(d));
      PumpKeeps(Published(d), broken);
    } else {
      assert c.active - {id} == c.active;
    }
  }

  /** Every step, in whatever order steps come, keeps every run accounted for. */
  lemma BooksStep(c: Coord, step: Step)
    requires BooksOk(c) && Enabled(c, step)
    ensures BooksOk(Next(c, step))
  {
    hide QueueOk;
    hide RunsOk;
    hide ValidQueue;
    hide Contents;
    hide Pumped;
    hide Published;
    hide Drained;
    match step
    case Start(id, owner, retry, broken) => StartKeeps(c, id, owner, retry, broken);
    case Launch(id, owner, parent, aborted, broken) => LaunchKeeps(c, id, owner, parent, aborted, broken);
    case Cancel(id) => CancelKeeps(c, id);
    case AbortSignal(id) => FlagsKeep(c, c.active, Flagged(c.subagents, id));
    case Shutdown => ShutDownKeeps(c);
    case Deliver(id) => EmitKeeps(c, id, Streamed);
    case EndStream(id, how) => EndKeeps(c, id, how);
    case Notify(id) => NotifyKeeps(c, id);
    case Settle(id, broken) => SettleKeeps(c, id, broken);
  }

  // ----- the pool stays within its limits and never idles -----

  /** The bounds on depth, concurrency and each owner's share. */
  ghost predicate BoundsOk(c: Coord)
    requires ValidQueue(c.queue)
  {
    && |Contents(c.queue)| + |c.active| <= c.limits.maxDepth
    && |c.active| <= c.limits.maxConcurrent
    && forall owner :: |OwnerIds(c.active, owner)| <= c.limits.maxPerOwner
  }

  /** While new work is accepted, either the pool is full or no waiting job's owner has room. */
  ghost predicate Busy(c: Coord)
    requires ValidQueue(c.queue)
  {
    c.accepting ==>
      |c.active| >= c.limits.maxConcurrent
      || forall job :: job in Contents(c.queue) ==> !OwnerHasRoom(c.limits, c.active, job.owner)
  }

  lemma OwnerIdsAdded(active: Pool, id: RunId, job: Job, owner: OwnerKey)
    requires id !in active
    ensures OwnerIds(active[id := job], owner) == OwnerIds(active, owner) + (if job.owner == owner then {id} else {})
  {
  }

  lemma SameOwners(a: Pool, b: Pool)
    requires a.Keys == b.Keys && forall id :: id in a ==> a[id].owner == b[id].owner
    ensures forall owner :: OwnerIds(a, owner) == OwnerIds(b, owner)
    ensures |a| == |b|
  {
    assert |a.Keys| == |a| && |b.Keys| == |b|;
  }

  lemma OneMoreFits(limits: Limits, active: Pool, job: Job, after: Pool, owner: OwnerKey)
    requires job.id !in active && OwnerHasRoom(limits, active, job.owner)
    requires |OwnerIds(active, owner)| <= limits.maxPerOwner
    requires OwnerIds(after, owner) == OwnerIds(active[job.id := job], owner)
    ensures |OwnerIds(after, owner)| <= limits.maxPerOwner
  {
    OwnerIdsAdded(active, job.id, job, owner);
  }

  lemma DispatchBounds(c: Coord, q: FairQueue, job: Job, broken: set<RunId>)
    requires ValidQueue(c.queue) && ValidQueue(q) && BoundsOk(c)
    requires job in Contents(c.queue) && Contents(q) == Contents(c.queue) - multiset{job} && job.id !in c.active
    requires |c.active| < c.limits.maxConcurrent && OwnerHasRoom(c.limits, c.active, job.owner)
    ensures Dispatched(c, q, job, broken).queue == q && BoundsOk(Dispatched(c, q, job, broken))
  {
    hide ValidQueue;
    hide Contents;
    hide Dispatched;
    hide OwnerIds;
    hide OwnerHasRoom;
    DispatchShape(c, q, job, broken);
    var d := Dispatched(c, q, job, broken);
    var moved := c.active[job.id := job];
    SameOwners(moved, d.active);
    assert |d.active| == |c.active| + 1;
    assert |Contents(q)| == |Contents(c.queue)| - 1;
    forall owner
      ensures |OwnerIds(d.active, owner)| <= c.limits.maxPerOwner
    {
      OneMoreFits(c.limits, c.active, job, d.active, owner);
    }
  }

  /** The pump respects every bound and stops only when nothing more may run. */
  lemma {:induction false} PumpFills(c: Coord, broken: set<RunId>)
    requires BooksOk(c) && BoundsOk(c)
    ensures BooksOk(Pumped(c, broken)) && BoundsOk(Pumped(c, broken)) && Busy(Pumped(c, broken))
    decreases |Contents(c.queue)|
  {
    hide ValidQueue;
    hide Contents;
    hide Dispatched;
    hide RunsOk;
    hide PoolsOk;
    if c.accepting && |c.active| < c.limits.maxConcurrent {
      var (job, q) := NextJob(c.limits, c.active, c.queue);
      if job.Some? {
        DispatchKeeps(c, q, job.value, broken);
        DispatchShape(c, q, job.value, broken);
        DispatchBounds(c, q, job.value, broken);
        PumpFills(Dispatched(c, q, job.value, broken), broken);
      }
    }
  }

  /** What holds whenever control returns to the event loop. */
  ghost predicate Inv(c: Coord) {
    BooksOk(c) && BoundsOk(c) && Busy(c)
  }

  /** Neither bounds nor the pump's business depend on ledgers, reports, flags or stages. */
  lemma SameSchedule(c: Coord, d: Coord)
    requires ValidQueue(c.queue) && BoundsOk(c) && Busy(c)
    requires d.queue == c.queue && d.limits == c.limits && d.accepting == c.accepting
    requires d.active.Keys == c.active.Keys && forall id :: id in c.active ==> d.active[id].owner == c.active[id].owner
    ensures BoundsOk(d) && Busy(d)
  {
    hide ValidQueue;
    hide Contents;
    SameOwners(c.active, d.active);
  }

  lemma StartInv(c: Coord, id: RunId, owner: OwnerKey, retry: bool, broken: set<RunId>)
    requires Inv(c) && id !in c.ledgers
    ensures Inv(StartedRun(c, id, owner, retry, broken))
  {
    BooksParts(c);
    hide BooksOk;
    hide ValidQueue;
    hide Contents;
    hide Published;
    hide Pumped;
    hide Enqueued;
    hide OwnerIds;
    if c.accepting && |Contents(c.queue)| + |c.active| < c.limits.maxDepth {
      var d := StartAdmits(c, id, owner, retry, broken);
      PumpFills(d, broken);
    }
  }

  lemma ForgetBounds(c: Coord, id: RunId)
    requires ValidQueue(c.queue) && BoundsOk(c)
    ensures BoundsOk(c.(active := c.active - {id}))
  {
    hide ValidQueue;
    hide Contents;
    var active := c.active - {id};
    assert active.Keys == c.active.Keys - {id} && |active.Keys| == |active|;
    Subset(active.Keys, c.active.Keys);
    forall owner
      ensures |OwnerIds(active, owner)| <= c.limits.maxPerOwner
    {
      Subset(OwnerIds(active, owner), OwnerIds(c.active, owner));
    }
  }

  lemma {:induction false} Subset<T>(a: set<T>, b: set<T>)
    requires a <= b
    ensures |a| <= |b|
  {
    if a != {} {
      var x :| x in a;
      Subset(a - {x}, b - {x});
    }
  }

  lemma OnePool(c: Coord, id: RunId)
    requires PoolsOk(c)
    ensures id in c.active ==> c.subagents - {id} == c.subagents
    ensures id !in c.active ==> c.active - {id} == c.active
  {
  }

  lemma SettleInv(c: Coord, id: RunId, broken: set<RunId>)
    requires Inv(c) && HasStage(c, id, Notified)
    ensures Inv(Settled(c, id, broken))
  {
    InvParts(c);
    ForgetKeeps(c, id);
    BooksParts(c);
    OnePool(c, id);
    assert BoundsOk(c);
    hide *;
    if id in c.active {
      ForgetBounds(c, id);
      SettledPump(c, id, c.(active := c.active - {id}), broken);
    } else {
      SettledChild(c, id, c.(active := c.active - {id}, subagents := c.subagents - {id}));
    }
  }

  lemma SettledPump(c: Coord, id: RunId, d: Coord, broken: set<RunId>)
    requires ValidQueue(c.queue) && id in c.active && d == c.(active := c.active - {id})
    requires BooksOk(d) && BoundsOk(d)
    ensures Inv(Settled(c, id, broken))
  {
    hide BooksOk;
    hide ValidQueue;
    hide Contents;
    hide Published;
    hide Pumped;
    hide BoundsOk;
    hide Busy;
    PublishKeeps(d);
    PublishBounds(d);
    PumpFills(Published(d), broken);
  }

  lemma SettledChild(c: Coord, id: RunId, d: Coord)
    requires Inv(c) && id !in c.active && BooksOk(d)
    requires d == c.(active := c.active - {id}, subagents := c.subagents - {id}) && d.active == c.active
    ensures ValidQueue(c.queue)
    ensures forall broken :: Inv(Settled(c, id, broken))
  {
    InvParts(c);
    hide Inv;
    hide BooksOk;
    hide ValidQueue;
    QuietInv(c, d);
    assert d == c.(subagents := c.subagents - {id});
  }

  lemma PublishBounds(c: Coord)
    requires ValidQueue(c.queue) && BoundsOk(c)
    ensures Published(c).queue == c.queue && BoundsOk(Published(c))
  {
    hide Published;
    hide ValidQueue;
    hide Contents;
    PublishShape(c);
  }

  /** With the same jobs in the pool and no more waiting, bounds and business remain. */
  lemma FewerWaiting(c: Coord, d: Coord)
    requires ValidQueue(c.queue) && ValidQueue(d.queue) && BoundsOk(c) && Busy(c)
    requires d.limits == c.limits && (d.accepting ==> c.accepting) && Contents(d.queue) <= Contents(c.queue)
    requires d.active.Keys == c.active.Keys && forall id :: id in c.active ==> d.active[id].owner == c.active[id].owner
    ensures BoundsOk(d) && Busy(d)
  {
    SameOwners(c.active, d.active);
    hide ValidQueue;
    hide Contents;
    hide OwnerIds;
    var m, n := Contents(d.queue), Contents(c.queue);
    assert n == m + (n - m);
    assert |m| <= |n|;
    assert forall owner :: OwnerHasRoom(d.limits, d.active, owner) <==> OwnerHasRoom(c.limits, c.active, owner);
  }

  /** Shutting down empties the queue and keeps who is in the pool. */
  lemma ShutDownShape(c: Coord)
    requires ValidQueue(c.queue) && c.accepting
    ensures var d := ShutDown(c);
            && ValidQueue(d.queue) && d.limits == c.limits && !d.accepting && Contents(d.queue) == multiset{}
            && d.active.Keys == c.active.Keys && forall id :: id in c.active ==> d.active[id].owner == c.active[id].owner
  {
    DrainKeeps(c.(accepting := false));
    var d := Drained(c.(accepting := false));
    var e := d.(active := MarkShutdown(d.active), subagents := MarkShutdown(d.subagents));
    hide ValidQueue;
    hide Drained;
    hide Published;
    hide Contents;
    PublishShape(e);
  }

  lemma ShutDownInv(c: Coord)
    requires Inv(c)
    ensures Inv(ShutDown(c))
  {
    ShutDownKeeps(c);
    BooksParts(c);
    BooksParts(ShutDown(c));
    if c.accepting {
      hide *;
      InvAll(c);
      ShutDownShape(c);
      FewerWaiting(c, ShutDown(c));
      InvFromParts(ShutDown(c));
    } else {
      assert ShutDown(c) == c;
    }
  }

  lemma InvAll(c: Coord)
    requires Inv(c)
    ensures BooksOk(c) && BoundsOk(c) && Busy(c)
  {
  }

  lemma CancelInv(c: Coord, id: RunId)
    requires Inv(c)
    ensures Inv(CancelledRun(c, id))
  {
    CancelKeeps(c, id);
    BooksParts(c);
    BooksParts(CancelledRun(c, id));
    BooksQueue(c);
    hide *;
    CancelSchedule(c, id);
    InvFromParts(CancelledRun(c, id));
  }

  lemma InvFromParts(c: Coord)
    requires ValidQueue(c.queue) && BooksOk(c) && BoundsOk(c) && Busy(c)
    ensures Inv(c)
  {
  }

  lemma CancelSchedule(c: Coord, id: RunId)
    requires QueueOk(c) && ValidQueue(c.queue) && ValidQueue(CancelledRun(c, id).queue)
    requires Inv(c)
    ensures BoundsOk(CancelledRun(c, id)) && Busy(CancelledRun(c, id))
  {
    hide QueueOk;
    hide ValidQueue;
    hide Contents;
    hide Values;
    hide Removed;
    hide Published;
    hide BoundsOk;
    hide Busy;
    hide BooksOk;
    if id in c.active || id in c.subagents {
      FewerWaiting(c, CancelledRun(c, id));
    } else if PositionOf(Values(c.queue), id) < |Values(c.queue)| {
      var job := WaitingAt(c, id);
      var q := Removed(c.queue, job);
      var e := Discarded(c, q, id, Cancelled).(completions := c.completions, subagents := MarkCancelled(c.subagents, id));
      PublishShape(e);
      FewerWaiting(c, CancelledRun(c, id));
    } else {
      assert CancelledRun(c, id) == c;
      FewerWaiting(c, c);
    }
  }

  lemma LaunchShape(c: Coord, id: RunId, owner: OwnerKey, parent: RunId, aborted: bool, broken: set<RunId>)
    requires id !in c.active
    ensures var d := Launched(c, id, owner, parent, aborted, broken);
            d.queue == c.queue && d.limits == c.limits && d.accepting == c.accepting && d.active == c.active
  {
  }

  lemma AdvanceInv(c: Coord, id: RunId, record: Ledger, stage: Stage, reported: bool)
    requires Inv(c) && BooksOk(Advanced(c, id, record, stage, reported))
    ensures Inv(Advanced(c, id, record, stage, reported))
  {
    BooksParts(c);
    hide BooksOk;
    hide ValidQueue;
    hide Contents;
    hide BoundsOk;
    hide Busy;
    AdvanceShape(c, id, record, stage, reported);
    hide Advanced;
    SameSchedule(c, Advanced(c, id, record, stage, reported));
  }

  lemma EndInv(c: Coord, id: RunId, how: How)
    requires Inv(c) && HasStage(c, id, Streaming)
    ensures Inv(StreamEnded(c, id, how))
  {
    EndKeeps(c, id, how);
    hide BooksOk;
    hide BoundsOk;
    hide Busy;
    hide Inv;
    hide Advanced;
    hide Appended;
    var ending := EndingOf(JobOf(c, id).value, how);
    if how.Exhausted? && !JobOf(c, id).value.shutdownRequested && !JobOf(c, id).value.cancelRequested {
      AdvanceInv(c, id, Appended(Appended(RecordOf(c, id), Streamed), Finished(ending)), Ended, false);
    } else {
      AdvanceInv(c, id, Appended(RecordOf(c, id), Finished(ending)), Ended, false);
    }
  }

  /** Steps that leave the queue and the pool's membership alone. */
  lemma QuietInv(c: Coord, d: Coord)
    requires Inv(c) && BooksOk(d)
    requires d.queue == c.queue && d.limits == c.limits && d.accepting == c.accepting && d.active == c.active
    ensures Inv(d)
  {
    BooksParts(c);
    hide BooksOk;
    hide ValidQueue;
    hide Contents;
    hide BoundsOk;
    hide Busy;
    SameSchedule(c, d);
  }

  lemma LaunchInv(c: Coord, id: RunId, owner: OwnerKey, parent: RunId, aborted: bool, broken: set<RunId>)
    requires Inv(c) && id !in c.ledgers
    ensures Inv(Launched(c, id, owner, parent, aborted, broken))
  {
    LaunchKeeps(c, id, owner, parent, aborted, broken);
    UnknownRun(c, id);
    LaunchShape(c, id, owner, parent, aborted, broken);
    hide BooksOk;
    hide BoundsOk;
    hide Busy;
    hide Inv;
    hide Launched;
    QuietInv(c, Launched(c, id, owner, parent, aborted, broken));
  }

  lemma InvParts(c: Coord)
    requires Inv(c)
    ensures BooksOk(c) && ValidQueue(c.queue)
  {
  }

  lemma AbortInv(c: Coord, id: RunId)
    requires Inv(c) && ValidQueue(c.queue) && id in c.subagents
    ensures Inv(c.(subagents := Flagged(c.subagents, id)))
  {
    InvAll(c);
    FlagsKeep(c, c.active, Flagged(c.subagents, id));
    hide *;
    QuietInv(c, c.(subagents := Flagged(c.subagents, id)));
  }

  lemma EmittedShape(c: Coord, id: RunId, kind: Kind)
    ensures var d := Emitted(c, id, kind);
            d.queue == c.queue && d.limits == c.limits && d.accepting == c.accepting && d.active == c.active
  {
    hide Appended;
  }

  lemma DeliverInv(c: Coord, id: RunId)
    requires Inv(c) && HasStage(c, id, Streaming)
    ensures Inv(Emitted(c, id, Streamed))
  {
    assert !Kind.Streamed.Finished? && !Kind.Streamed.Started?;
    hide *;
    InvAll(c);
    EmitKeeps(c, id, Streamed);
    EmittedShape(c, id, Streamed);
    QuietInv(c, Emitted(c, id, Streamed));
  }

  lemma NotifyInv(c: Coord, id: RunId)
    requires Inv(c) && HasStage(c, id, Ended)
    ensures Inv(Advanced(c, id, RecordOf(c, id), Notified, true))
  {
    hide *;
    InvAll(c);
    NotifyKeeps(c, id);
    AdvanceInv(c, id, RecordOf(c, id), Notified, true);
  }

  lemma StepInv(c: Coord, step: Step)
    requires Inv(c) && Enabled(c, step)
    ensures Inv(Next(c, step))
  {
    InvParts(c);
    hide Inv;
    hide BooksOk;
    hide ValidQueue;
    hide Advanced;
    hide StartedRun;
    hide Launched;
    hide CancelledRun;
    hide ShutDown;
    hide Emitted;
    hide StreamEnded;
    hide Settled;
    hide Flagged;
    match step
    case Start(id, owner, retry, broken) => StartInv(c, id, owner, retry, broken);
    case Launch(id, owner, parent, aborted, broken) => LaunchInv(c, id, owner, parent, aborted, broken);
    case Cancel(id) => CancelInv(c, id);
    case AbortSignal(id) => AbortInv(c, id);
    case Shutdown => ShutDownInv(c);
    case Deliver(id) => DeliverInv(c, id);
    case EndStream(id, how) => EndInv(c, id, how);
    case Notify(id) => NotifyInv(c, id);
    case Settle(id, broken) => SettleInv(c, id, broken);
  }

  // ----- whole histories -----

  ghost predicate Possible(c: Coord, steps: seq<Step>)
    requires Inv(c)
    decreases |steps|
  {
    steps != [] ==> Enabled(c, steps[0]) && (StepInv(c, steps[0]); Possible(Next(c, steps[0]), steps[1..]))
  }

  ghost function After(c: Coord, steps: seq<Step>): (d: Coord)
    requires Inv(c) && Possible(c, steps)
    ensures Inv(d)
    decreases |steps|
  {
    if steps == [] then c else (StepInv(c, steps[0]); After(Next(c, steps[0]), steps[1..]))
  }

  lemma InitialInv(limits: Limits)
    ensures Inv(Initial(limits))
  {
    var c := Initial(limits);
    assert Contents(c.queue) == multiset{};
    assert forall owner :: OwnerIds(c.active, owner) == {};
  }

  /** In every history: gapless sequence numbers, no terminal event before a run is over and
      exactly one after, and exactly one completion report once the run is also forgotten. */
  lemma EveryRunAccounted(limits: Limits, steps: seq<Step>, id: RunId)
    requires (InitialInv(limits); Possible(Initial(limits), steps))
    requires id in (InitialInv(limits); After(Initial(limits), steps)).ledgers
    ensures var c := (InitialInv(limits); After(Initial(limits), steps));
            var l := c.ledgers[id];
            && l.lastSequence == |l.events|
            && (forall k :: 0 <= k < |l.events| ==> l.events[k].sequence == k + 1)
            && EndingsIn(l.events) == (if l.status.Over? then [l.status.ending] else [])
            && (!l.status.Over? <==> IsWaiting(c.queue, id) || HasStage(c, id, Streaming) || HasStage(c, id, Waiting))
            && (id !in c.active && id !in c.subagents && !IsWaiting(c.queue, id) ==> l.status.Over? && Reports(c, id) == 1)
  {
    InitialInv(limits);
    var c := After(Initial(limits), steps);
    RunOf(c, id);
    assert PlaceOf(c, id) == InQueue ==> IsWaiting(c.queue, id);
    if IsWaiting(c.queue, id) {
      var job :| job in Contents(c.queue) && job.id == id;
    }
  }

  /** The bounds hold in every history, no job both waits and runs, and the pool never idles
      while some waiting owner has room. */
  lemma ScheduleAlways(limits: Limits, steps: seq<Step>)
    requires (InitialInv(limits); Possible(Initial(limits), steps))
    ensures var c := (InitialInv(limits); After(Initial(limits), steps));
            && BoundsOk(c) && Busy(c)
            && forall job :: job in Contents(c.queue) ==> job.id !in c.active && job.id !in c.subagents
  {
    InitialInv(limits);
  }

  // ----- delegation is one level deep -----

  /** Both ends of every delegation are recorded, no child has a child, and the pooled workers
      are children of the parents recorded for them. */
  ghost predicate DelegationOk(c: Coord) {
    && (forall child :: child in c.delegation ==> child in c.ledgers && ParentOk(c, c.delegation[child]))
    && forall id :: id in c.subagents ==> id in c.delegation && c.subagents[id].parent == Some(c.delegation[id])
  }

  predicate ParentOk(c: Coord, parent: RunId) {
    parent in c.ledgers && parent !in c.delegation
  }

  /** A change that delegates nothing: no record is lost and no worker appears. */
  ghost predicate DelegatesNothing(c: Coord, d: Coord) {
    && d.delegation == c.delegation && c.ledgers.Keys <= d.ledgers.Keys && d.subagents.Keys <= c.subagents.Keys
    && forall id :: id in d.subagents ==> d.subagents[id].parent == c.subagents[id].parent
  }

  lemma AdvanceDelegates(c: Coord, id: RunId, record: Ledger, stage: Stage, reported: bool)
    ensures DelegatesNothing(c, Advanced(c, id, record, stage, reported))
  {
  }

  lemma BegunDelegates(c: Coord, id: RunId, broken: set<RunId>)
    ensures DelegatesNothing(c, Begun(c, id, broken))
  {
    hide Advanced;
    hide Appended;
    AdvanceDelegates(c, id, Appended(RecordOf(c, id), Finished(RefusedEnding(c, id))), Notified, true);
    AdvanceDelegates(c, id, Appended(RecordOf(c, id), Started), Streaming, false);
  }

  lemma DispatchDelegates(c: Coord, q: FairQueue, job: Job, broken: set<RunId>)
    requires ValidQueue(q)
    ensures DelegatesNothing(c, Dispatched(c, q, job, broken))
  {
    hide ValidQueue;
    hide Published;
    hide Begun;
    hide DelegatesNothing;
    var moved := c.(queue := q, active := c.active[job.id := job]);
    SameRecordsDelegate(c, moved);
    PublishDelegates(moved);
    BegunDelegates(Published(moved), job.id, broken);
    DelegatesNothingTwice(c, moved, Published(moved));
    DelegatesNothingTwice(c, Published(moved), Begun(Published(moved), job.id, broken));
  }

  lemma SameRecordsDelegate(c: Coord, d: Coord)
    requires d.delegation == c.delegation && d.ledgers == c.ledgers && d.subagents == c.subagents
    ensures DelegatesNothing(c, d)
  {
  }

  lemma PublishDelegates(c: Coord)
    requires ValidQueue(c.queue)
    ensures DelegatesNothing(c, Published(c))
  {
    hide ValidQueue;
    hide Published;
    PublishShape(c);
  }

  lemma DelegatesNothingTwice(c: Coord, d: Coord, e: Coord)
    requires DelegatesNothing(c, d) && DelegatesNothing(d, e)
    ensures DelegatesNothing(c, e)
  {
  }

  lemma {:induction false} PumpDelegates(c: Coord, broken: set<RunId>)
    requires ValidQueue(c.queue)
    ensures DelegatesNothing(c, Pumped(c, broken))
    decreases |Contents(c.queue)|
  {
    hide ValidQueue;
    hide Contents;
    hide Dispatched;
    hide DelegatesNothing;
    SameRecordsDelegate(c, c);
    if c.accepting && |c.active| < c.limits.maxConcurrent {
      var (job, q) := NextJob(c.limits, c.active, c.queue);
      if job.Some? {
        var d := Dispatched(c, q, job.value, broken);
        DispatchShape(c, q, job.value, broken);
        DispatchDelegates(c, q, job.value, broken);
        PumpDelegates(d, broken);
        DelegatesNothingTwice(c, d, Pumped(d, broken));
      }
    }
  }

  lemma DiscardDelegates(c: Coord, q: FairQueue, id: RunId, ending: Ending)
    ensures DelegatesNothing(c, Discarded(c, q, id, ending))
  {
    hide Appended;
  }

  lemma {:induction false} DrainDelegates(c: Coord)
    requires ValidQueue(c.queue)
    ensures DelegatesNothing(c, Drained(c))
    decreases |Contents(c.queue)|
  {
    hide ValidQueue;
    hide Contents;
    hide Dequeued;
    hide Discarded;
    hide DelegatesNothing;
    var (job, q) := Dequeued(c.queue, (j: Job) => true);
    DequeueKeeps(c.queue, (j: Job) => true);
    if job.Some? {
      var d := Discarded(c, q, job.value.id, Interrupted);
      DiscardDelegates(c, q, job.value.id, Interrupted);
      assert d.queue == q by { DiscardedQueue(c, q, job.value.id, Interrupted); }
      DrainDelegates(d);
      DelegatesNothingTwice(c, d, Drained(d));
    } else {
      SameRecordsDelegate(c, c);
    }
  }

  lemma DiscardedQueue(c: Coord, q: FairQueue, id: RunId, ending: Ending)
    ensures Discarded(c, q, id, ending).queue == q
  {
  }

  lemma StartDelegates(c: Coord, id: RunId, owner: OwnerKey, retry: bool, broken: set<RunId>)
    requires ValidQueue(c.queue)
    ensures DelegatesNothing(c, StartedRun(c, id, owner, retry, broken))
  {
    hide ValidQueue;
    hide Contents;
    hide Published;
    hide Pumped;
    hide Enqueued;
    hide Emitted;
    hide Registered;
    hide DelegatesNothing;
    var q := Enqueued(c.queue, NewJob(id, owner, None));
    EnqueueKeeps(c.queue, NewJob(id, owner, None));
    SameRecordsDelegate(c, c);
    RegisterDelegates(c, id, retry, q);
    var announced := (if retry then Emitted(Registered(c, id), id, Retried) else Registered(c, id)).(queue := q);
    PublishDelegates(announced);
    assert Published(announced).queue == q by { PublishShape(announced); }
    PumpDelegates(Published(announced), broken);
    DelegatesNothingTwice(c, announced, Published(announced));
    DelegatesNothingTwice(c, Published(announced), Pumped(Published(announced), broken));
  }

  lemma RegisterDelegates(c: Coord, id: RunId, retry: bool, q: FairQueue)
    ensures DelegatesNothing(c, (if retry then Emitted(Registered(c, id), id, Retried) else Registered(c, id)).(queue := q))
  {
    hide Appended;
  }

  lemma ShutDownDelegates(c: Coord)
    requires ValidQueue(c.queue)
    ensures DelegatesNothing(c, ShutDown(c))
  {
    hide ValidQueue;
    hide Contents;
    hide Drained;
    hide Published;
    hide MarkShutdown;
    hide DelegatesNothing;
    var closed := c.(accepting := false);
    var d := Drained(closed);
    var e := d.(active := MarkShutdown(d.active), subagents := MarkShutdown(d.subagents));
    DrainDelegates(closed);
    DrainKeeps(closed);
    SameRecordsDelegate(c, c);
    SameRecordsDelegate(c, closed);
    ShutdownFlagsDelegate(d, e);
    PublishDelegates(e);
    DelegatesNothingTwice(c, closed, d);
    DelegatesNothingTwice(c, d, e);
    DelegatesNothingTwice(c, e, Published(e));
  }

  lemma ShutdownFlagsDelegate(d: Coord, e: Coord)
    requires e == d.(active := MarkShutdown(d.active), subagents := MarkShutdown(d.subagents))
    ensures DelegatesNothing(d, e)
  {
  }

  lemma CancelDelegates(c: Coord, id: RunId)
    requires QueueOk(c) && ValidQueue(c.queue)
    ensures DelegatesNothing(c, CancelledRun(c, id))
  {
    hide ValidQueue;
    hide QueueOk;
    hide Contents;
    hide Values;
    hide Removed;
    hide Published;
    hide Discarded;
    hide MarkCancelled;
    hide Flagged;
    hide DelegatesNothing;
    FlagsDelegate(c, id);
    SameRecordsDelegate(c, c);
    if id !in c.active && id !in c.subagents && PositionOf(Values(c.queue), id) < |Values(c.queue)| {
      var job := WaitingAt(c, id);
      var discarded := Discarded(c, Removed(c.queue, job), id, Cancelled);
      var marked := discarded.(completions := c.completions, subagents := MarkCancelled(c.subagents, id));
      MarkedDelegates(c, Removed(c.queue, job), id);
      assert marked.queue == Removed(c.queue, job) by { DiscardedQueue(c, Removed(c.queue, job), id, Cancelled); }
      PublishDelegates(marked);
      var reported := Published(marked).(completions := c.completions + [id]);
      SameRecordsDelegate(Published(marked), reported);
      DelegatesNothingTwice(c, marked, Published(marked));
      DelegatesNothingTwice(c, Published(marked), reported);
    }
  }

  lemma FlagsDelegate(c: Coord, id: RunId)
    ensures DelegatesNothing(c, c.(active := Flagged(c.active, id), subagents := MarkCancelled(c.subagents, id)))
    ensures DelegatesNothing(c, c.(subagents := Flagged(c.subagents, id)))
  {
  }

  lemma MarkedDelegates(c: Coord, q: FairQueue, id: RunId)
    ensures DelegatesNothing(c, Discarded(c, q, id, Cancelled)
                                  .(completions := c.completions, subagents := MarkCancelled(c.subagents, id)))
  {
    hide Appended;
  }

  lemma SettleDelegates(c: Coord, id: RunId, broken: set<RunId>)
    requires ValidQueue(c.queue)
    ensures DelegatesNothing(c, Settled(c, id, broken))
  {
    hide ValidQueue;
    hide Published;
    hide Pumped;
    hide DelegatesNothing;
    var d := c.(active := c.active - {id});
    ForgottenDelegates(c, id);
    PublishDelegates(d);
    assert Published(d).queue == d.queue by { PublishShape(d); }
    PumpDelegates(Published(d), broken);
    DelegatesNothingTwice(c, d, Published(d));
    DelegatesNothingTwice(c, Published(d), Pumped(Published(d), broken));
  }

  lemma ForgottenDelegates(c: Coord, id: RunId)
    ensures DelegatesNothing(c, c.(active := c.active - {id})) && DelegatesNothing(c, c.(subagents := c.subagents - {id}))
  {
  }

  lemma EndDelegates(c: Coord, id: RunId, how: How)
    ensures DelegatesNothing(c, StreamEnded(c, id, how))
  {
    hide Advanced;
    hide Appended;
    var job := JobOf(c, id);
    if job.Some? {
      var ending := EndingOf(job.value, how);
      AdvanceDelegates(c, id, Appended(RecordOf(c, id), Finished(ending)), Ended, false);
      AdvanceDelegates(c, id, Appended(Appended(RecordOf(c, id), Streamed), Finished(ending)), Ended, false);
    }
  }

  lemma OtherStepsDelegateNothing(c: Coord, step: Step)
    requires Inv(c) && QueueOk(c) && ValidQueue(c.queue) && Enabled(c, step) && !step.Launch?
    ensures DelegatesNothing(c, Next(c, step))
  {
    hide Inv;
    hide QueueOk;
    hide ValidQueue;
    hide StartedRun;
    hide CancelledRun;
    hide ShutDown;
    hide StreamEnded;
    hide Settled;
    hide Advanced;
    hide Appended;
    match step
    case Start(id, owner, retry, broken) => StartDelegates(c, id, owner, retry, broken);
    case Cancel(id) => CancelDelegates(c, id);
    case AbortSignal(id) =>
    case Shutdown => ShutDownDelegates(c);
    case Deliver(id) =>
    case EndStream(id, how) => EndDelegates(c, id, how);
    case Notify(id) => AdvanceDelegates(c, id, RecordOf(c, id), Notified, true);
    case Settle(id, broken) => SettleDelegates(c, id, broken);
  }

  lemma NothingDelegatedKeeps(c: Coord, d: Coord)
    requires DelegationOk(c) && DelegatesNothing(c, d)
    ensures DelegationOk(d)
  {
    forall child | child in d.delegation
      ensures child in d.ledgers && ParentOk(d, d.delegation[child])
    {
      assert ParentOk(c, c.delegation[child]);
    }
  }

  lemma ChildDelegated(c: Coord, id: RunId, owner: OwnerKey, parent: RunId)
    requires DelegationOk(c) && id !in c.ledgers && ParentOk(c, parent)
    ensures DelegationOk(WithChild(c, id, owner, parent))
  {
    hide Appended;
    var d := WithChild(c, id, owner, parent);
    forall child | child in d.delegation
      ensures child in d.ledgers && ParentOk(d, d.delegation[child])
    {
      assert child != id ==> ParentOk(c, c.delegation[child]);
    }
  }

  lemma DelegationStep(c: Coord, step: Step)
    requires Inv(c) && ValidQueue(c.queue) && Enabled(c, step) && DelegationOk(c)
    ensures DelegationOk(Next(c, step))
  {
    InvParts(c);
    BooksQueue(c);
    hide Inv;
    hide BooksOk;
    hide QueueOk;
    hide ValidQueue;
    hide DelegationOk;
    hide DelegatesNothing;
    if step.Launch? {
      hide Begun;
      hide WithChild;
      if c.accepting && ParentOk(c, step.parent) && !step.aborted {
        ChildDelegated(c, step.id, step.owner, step.parent);
        var d := WithChild(c, step.id, step.owner, step.parent);
        BegunDelegates(d, step.id, step.broken);
        NothingDelegatedKeeps(d, Begun(d, step.id, step.broken));
      }
    } else {
      OtherStepsDelegateNothing(c, step);
      NothingDelegatedKeeps(c, Next(c, step));
    }
  }

  lemma {:induction false} DelegationKept(c: Coord, steps: seq<Step>)
    requires Inv(c) && DelegationOk(c) && Possible(c, steps)
    ensures DelegationOk(After(c, steps))
    decreases |steps|
  {
    hide Inv;
    hide DelegationOk;
    hide Next;
    InvParts(c);
    if steps != [] {
      StepInv(c, steps[0]);
      DelegationStep(c, steps[0]);
      DelegationKept(Next(c, steps[0]), steps[1..]);
    }
  }

  /** In every history workers are launched by runs that are not workers themselves, whether
      the launching worker still runs or is long over. */
  lemma OneLevelOfDelegation(limits: Limits, steps: seq<Step>, child: RunId)
    requires (InitialInv(limits); Possible(Initial(limits), steps))
    requires child in (InitialInv(limits); After(Initial(limits), steps)).delegation
    ensures var c := (InitialInv(limits); After(Initial(limits), steps));
            && child in c.ledgers && c.delegation[child] in c.ledgers && c.delegation[child] !in c.delegation
            && (child in c.subagents ==> c.subagents[child].parent == Some(c.delegation[child]))
  {
    InitialInv(limits);
    DelegationKept(Initial(limits), steps);
    var c := After(Initial(limits), steps);
    assert ParentOk(c, c.delegation[child]);
  }

  /** Once shut down, nothing waits and nothing is admitted any more. */
  lemma ShutdownIsFinal(c: Coord, step: Step)
    requires Inv(c) && !c.accepting && Enabled(c, step)
    ensures Contents(c.queue) == multiset{} && ValidQueue(Next(c, step).queue)
    ensures ShutOff(c, Next(c, step))
  {
    InvParts(c);
    BooksQueue(c);
    StepInv(c, step);
    InvParts(Next(c, step));
    hide Inv;
    hide BooksOk;
    hide ValidQueue;
    hide StreamEnded;
    hide Settled;
    hide Advanced;
    hide CancelledRun;
    hide Published;
    hide StartedRun;
    hide Launched;
    hide ShutDown;
    hide Emitted;
    hide ShutOff;
    match step
    case Start(id, owner, retry, broken) => ClosedShut(c, step);
    case Launch(id, owner, parent, aborted, broken) => ClosedShut(c, step);
    case Cancel(id) => CancelShut(c, id);
    case AbortSignal(id) => ClosedShut(c, step);
    case Shutdown => ClosedShut(c, step);
    case Deliver(id) => ClosedShut(c, step);
    case EndStream(id, how) =>
      KnownRun(c, id);
      EndedShut(c, id, how);
    case Notify(id) =>
      KnownRun(c, id);
      NotifiedShut(c, id);
    case Settle(id, broken) => SettledShut(c, id, broken);
  }

  lemma CancelShut(c: Coord, id: RunId)
    requires QueueOk(c) && Contents(c.queue) == multiset{} && !c.accepting
    ensures ShutOff(c, CancelledRun(c, id))
  {
    NothingToCancel(c, id);
    hide QueueOk;
  }

  lemma ClosedShut(c: Coord, step: Step)
    requires ValidQueue(c.queue) && !c.accepting
    requires step.Start? || step.Launch? || step.AbortSignal? || step.Shutdown? || step.Deliver?
    ensures ShutOff(c, Next(c, step))
  {
    hide ValidQueue;
  }

  lemma NotifiedShut(c: Coord, id: RunId)
    requires !c.accepting && id in c.ledgers
    ensures ShutOff(c, Advanced(c, id, RecordOf(c, id), Notified, true))
  {
    AdvanceShape(c, id, RecordOf(c, id), Notified, true);
  }

  /** Neither a new run nor a new job appears. */
  predicate ShutOff(c: Coord, d: Coord) {
    !d.accepting && d.ledgers.Keys == c.ledgers.Keys
    && d.active.Keys <= c.active.Keys && d.subagents.Keys <= c.subagents.Keys
  }

  lemma EndedShut(c: Coord, id: RunId, how: How)
    requires !c.accepting && id in c.ledgers
    ensures ShutOff(c, StreamEnded(c, id, how))
  {
    hide Appended;
    var job := JobOf(c, id);
    if job.Some? {
      var ending := EndingOf(job.value, how);
      AdvanceShape(c, id, Appended(RecordOf(c, id), Finished(ending)), Ended, false);
      AdvanceShape(c, id, Appended(Appended(RecordOf(c, id), Streamed), Finished(ending)), Ended, false);
    }
  }

  lemma SettledShut(c: Coord, id: RunId, broken: set<RunId>)
    requires ValidQueue(c.queue) && !c.accepting
    ensures ShutOff(c, Settled(c, id, broken))
  {
    hide Published;
    hide ValidQueue;
    PublishShape(c.(active := c.active - {id}));
  }

  lemma KnownRun(c: Coord, id: RunId)
    requires BooksOk(c) && JobOf(c, id).Some?
    ensures id in c.ledgers
  {
    PooledRun(c, id);
  }

  lemma NothingToCancel(c: Coord, id: RunId)
    requires QueueOk(c) && Contents(c.queue) == multiset{}
    ensures PositionOf(Values(c.queue), id) == |Values(c.queue)|
  {
    RoundRobinContents(c.queue.buckets, c.queue.owners);
    assert |multiset(Values(c.queue))| == |Values(c.queue)|;
  }

  /** The terminal event of a run tells why it ended: shutdown outranks cancellation, which
      outranks how the stream itself ended. */
  lemma EndingTold(c: Coord, id: RunId, how: How)
    requires Inv(c) && HasStage(c, id, Streaming)
    ensures id in c.ledgers && EndingsIn(c.ledgers[id].events) == []
    ensures var d := StreamEnded(c, id, how);
            HasStage(d, id, Ended) && id in d.ledgers
            && var job := JobOf(c, id).value;
               EndingsIn(d.ledgers[id].events) ==
                 [if job.shutdownRequested then Interrupted
                  else if job.cancelRequested then Cancelled
                  else if how.Aborted? then Interrupted
                  else if how == Exhausted(false) then Completed
                  else Failed]
  {
    hide StreamEnded;
    hide BooksOk;
    hide Inv;
    hide EndingsIn;
    hide ValidQueue;
    hide RecordOf;
    InvParts(c);
    EndedRecord(c, id, how);
    EndKeeps(c, id, how);
    PooledEndings(c, id);
    PooledEndings(StreamEnded(c, id, how), id);
  }

  lemma PooledEndings(c: Coord, id: RunId)
    requires BooksOk(c) && JobOf(c, id).Some?
    ensures id in c.ledgers
    ensures HasStage(c, id, Streaming) ==> EndingsIn(c.ledgers[id].events) == []
    ensures c.ledgers[id].status.Over? ==> EndingsIn(c.ledgers[id].events) == [c.ledgers[id].status.ending]
  {
    hide BooksOk;
    PooledRun(c, id);
    RunEndings(c.ledgers[id], JobOf(c, id).value.stage, Reports(c, id));
  }

  lemma RunEndings(l: Ledger, stage: Stage, reports: nat)
    requires RunOk(Some(l), InPool(stage), reports)
    ensures stage == Streaming ==> EndingsIn(l.events) == []
    ensures l.status.Over? ==> EndingsIn(l.events) == [l.status.ending]
  {
  }

  lemma EndedRecord(c: Coord, id: RunId, how: How)
    requires HasStage(c, id, Streaming)
    ensures var d := StreamEnded(c, id, how);
            id in d.ledgers && d.ledgers[id].status == Over(EndingOf(JobOf(c, id).value, how)) && HasStage(d, id, Ended)
  {
  }
}
