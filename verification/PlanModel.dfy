/** Durable plans: the values stored, and the pure updater behind each plan operation. */
module PlanModel {
  import opened Basics
  import opened Graphs

  type RunId = string

  datatype Route = DefaultRoute | FastRoute | SmartRoute
  datatype Owner = MainAgent | Worker
  datatype Status = Pending | Running | Completed
  datatype Phase = Active | ReadyForAnswer | Answered

  datatype Item = Item(
    id: Id, task: string, deps: seq<Id>, owner: Owner, workerEligible: bool, required: bool,
    status: Status, attempts: nat, workerRun: Option<RunId>, result: string, error: string)

  datatype Plan = Plan(revision: nat, phase: Phase, items: seq<Item>, routes: seq<Route>)

  /** A worker run as the plan operations see it in the run store. */
  datatype RunStatus = RunQueued | RunRunning | RunCompleted | RunFailed | RunCancelled | RunInterrupted
  datatype RunEvent = AssistantText(text: string) | OtherEvent
  datatype WorkerRun = WorkerRun(status: RunStatus, events: seq<RunEvent>, error: string, route: Option<Route>)
  type Runs = map<RunId, WorkerRun>

  datatype PlanError =
    | DuplicateIds | ImplicitFinalization | UnknownDependency | SelfDependency | CyclicDependencies
    | TooFewWorkerItems | NoMainOnlyItem | NotActive | RemovesRunning
    | ItemNotFound | NotWorkerEligible | NotPending | Blocked | RunningOnWorker | DelegatesEverything
    | WorkersMissing | RequiredOpen | NotReady

  /** What an updater asks for: throw, leave the plan alone, or replace it. */
  datatype Change = Throw(error: PlanError) | Keep | Replace(plan: Plan)

  /** One submitted item. `finalization` says that the item's id or task matches the
      patterns reserved for the implicit final-answer phase. */
  datatype Input = Input(id: Id, task: string, deps: seq<Id>, workerEligible: bool, required: bool, finalization: bool)

  datatype Op =
    | SetPlan(inputs: seq<Input>, requiredRoutes: seq<Route>)
    | UpdateItem(itemId: Id, status: Status, report: string)
    | AssignWorker(itemId: Id, worker: RunId)
    | Reconcile
    | MarkReady
    | CompleteAfterAnswer

  // ----- lookups -----

  function Find(items: seq<Item>, id: Id): Option<Item> {
    if items == [] then None
    else if items[0].id == id then Some(items[0])
    else Find(items[1..], id)
  }

  predicate DoneIn(items: seq<Item>, id: Id) {
    var found := Find(items, id);
    found.Some? && found.value.status == Completed
  }

  predicate Unblocked(items: seq<Item>, item: Item) {
    forall d | d in item.deps :: DoneIn(items, d)
  }

  predicate OpenRequired(item: Item) {
    item.required && item.status != Completed
  }

  predicate HasOpenRequired(items: seq<Item>) {
    exists item | item in items :: OpenRequired(item)
  }

  function TextOf(events: seq<RunEvent>): string {
    if events == [] then ""
    else (if events[0].AssistantText? then events[0].text else "") + TextOf(events[1..])
  }

  /** The report collected from a completed worker: the text in the first page of its events. */
  function Report(run: WorkerRun): string {
    TextOf(run.events[..Min(|run.events|, EVENT_READ_LIMIT)])
  }

  // ----- required worker launches -----

  function LaunchedRoute(runs: Runs, item: Item): Option<Route> {
    if item.workerRun.Some? && item.workerRun.value in runs then runs[item.workerRun.value].route else None
  }

  function RemoveFirst(routes: seq<Route>, route: Route): seq<Route> {
    if routes == [] then []
    else if routes[0] == route then routes[1..]
    else [routes[0]] + RemoveFirst(routes[1..], route)
  }

  function StillMissing(runs: Runs, items: seq<Item>, remaining: seq<Route>): seq<Route> {
    if items == [] then remaining
    else
      var launched := LaunchedRoute(runs, items[0]);
      StillMissing(runs, items[1..], if launched.Some? then RemoveFirst(remaining, launched.value) else remaining)
  }

  function Missing(runs: Runs, plan: Plan): seq<Route> {
    StillMissing(runs, plan.items, plan.routes)
  }

  function Launched(runs: Runs, items: seq<Item>): multiset<Route> {
    if items == [] then multiset{}
    else
      var launched := LaunchedRoute(runs, items[0]);
      (if launched.Some? then multiset{launched.value} else multiset{}) + Launched(runs, items[1..])
  }

  // ----- phase promotion and the saved candidate -----

  /** How often an operation reads and tries to save before it gives up. */
  const MAX_ATTEMPTS := 5

  predicate Promotable(runs: Runs, plan: Plan) {
    plan.phase == Active && !HasOpenRequired(plan.items) && Missing(runs, plan) == []
  }

  function Promote(runs: Runs, plan: Plan): Plan {
    if Promotable(runs, plan) then plan.(phase := ReadyForAnswer) else plan
  }

  datatype Attempt = Fails(error: PlanError) | Absent | Unchanged(plan: Plan) | Saves(plan: Plan)

  /** One pass of the mutation loop up to its save, on the plan just read. */
  function Candidate(runs: Runs, current: Plan, change: Change): Attempt {
    match change
    case Throw(e) => Fails(e)
    case Keep =>
      if Promotable(runs, current) then Saves(Promote(runs, current).(revision := current.revision + 1))
      else Unchanged(current)
    case Replace(p) => Saves(Promote(runs, p).(revision := current.revision + 1))
  }

  // ----- updaters -----

  function ReplaceItem(items: seq<Item>, id: Id, with: Item -> Item): seq<Item> {
    seq(|items|, i requires 0 <= i < |items| => if items[i].id == id then with(items[i]) else items[i])
  }

  predicate Terminal(status: RunStatus) {
    status != RunQueued && status != RunRunning
  }

  /** A worker item whose run has ended but whose outcome is not yet in the plan. */
  predicate Stale(runs: Runs, item: Item) {
    item.owner == Worker && item.status == Running && item.workerRun.Some?
    && item.workerRun.value in runs && Terminal(runs[item.workerRun.value].status)
  }

  const NO_REPORT := "Worker completed without a written report."
  const REASSIGNED := "Worker ended; reassigned to the main agent."
  const NO_RESULT := "Completed by main agent."

  function ReconciledItem(runs: Runs, item: Item): Item {
    if !Stale(runs, item) then item
    else
      var run := runs[item.workerRun.value];
      if run.status == RunCompleted then
        item.(status := Completed, error := "", result := if Report(run) != "" then Report(run) else NO_REPORT)
      else
        item.(owner := MainAgent, status := Pending, error := if run.error != "" then run.error else REASSIGNED)
  }

  function ReconciledItems(runs: Runs, items: seq<Item>): seq<Item> {
    seq(|items|, i requires 0 <= i < |items| => ReconciledItem(runs, items[i]))
  }

  function ReconcileChange(runs: Runs, plan: Plan): Change {
    if exists item | item in plan.items :: Stale(runs, item)
    then Replace(plan.(items := ReconciledItems(runs, plan.items)))
    else Keep
  }

  function UpdatedItem(item: Item, status: Status, report: string): Item {
    if status == Completed then
      item.(owner := MainAgent, status := Completed, error := "",
            result := if Trim(report) != "" then Trim(report) else if item.result != "" then item.result else NO_RESULT)
    else item.(owner := MainAgent, status := status)
  }

  function UpdateChange(plan: Plan, id: Id, status: Status, report: string): Change {
    if plan.phase != Active then Throw(NotActive)
    else match Find(plan.items, id)
      case None => Throw(ItemNotFound)
      case Some(item) =>
        if item.owner == Worker && item.status == Running then Throw(RunningOnWorker)
        else if status == Running && !Unblocked(plan.items, item) then Throw(Blocked)
        else Replace(plan.(items := ReplaceItem(plan.items, id, (x: Item) => UpdatedItem(x, status, report))))
  }

  function AssignedItem(item: Item, worker: RunId): Item {
    item.(owner := Worker, status := Running, attempts := item.attempts + 1, workerRun := Some(worker), error := "")
  }

  predicate RequiredOnMain(item: Item) {
    item.required && item.owner == MainAgent
  }

  function AssignChange(plan: Plan, id: Id, worker: RunId): Change {
    match Find(plan.items, id)
    case None => Throw(ItemNotFound)
    case Some(item) =>
      if !item.workerEligible then Throw(NotWorkerEligible)
      else if item.status != Pending then Throw(NotPending)
      else if !Unblocked(plan.items, item) then Throw(Blocked)
      else
        var items := ReplaceItem(plan.items, id, (x: Item) => AssignedItem(x, worker));
        if exists x | x in items :: RequiredOnMain(x) then Replace(plan.(items := items))
        else Throw(DelegatesEverything)
  }

  function ReadyChange(runs: Runs, plan: Plan): Change {
    if plan.phase != Active then Keep
    else if Missing(runs, plan) != [] then Throw(WorkersMissing)
    else if HasOpenRequired(plan.items) then Throw(RequiredOpen)
    else Replace(plan.(phase := ReadyForAnswer))
  }

  function CompleteChange(plan: Plan): Change {
    if plan.phase == Answered then Keep
    else if plan.phase != ReadyForAnswer then Throw(NotReady)
    else Replace(plan.(phase := Answered))
  }

  // ----- submitting a plan -----

  function InputNodes(inputs: seq<Input>): seq<Node> {
    seq(|inputs|, i requires 0 <= i < |inputs| => Node(inputs[i].id, inputs[i].deps))
  }

  function InputIds(inputs: seq<Input>): set<Id> {
    set input | input in inputs :: input.id
  }

  function InputError(known: set<Id>, input: Input): Option<PlanError> {
    if input.finalization then Some(ImplicitFinalization)
    else if exists d | d in input.deps :: d !in known then Some(UnknownDependency)
    else if input.id in input.deps then Some(SelfDependency)
    else None
  }

  /** The first error in submission order. */
  function FirstInputError(known: set<Id>, inputs: seq<Input>): Option<PlanError> {
    if inputs == [] then None
    else
      var e := InputError(known, inputs[0]);
      if e.Some? then e else FirstInputError(known, inputs[1..])
  }

  function CountEligible(inputs: seq<Input>): nat {
    if inputs == [] then 0
    else (if inputs[0].required && inputs[0].workerEligible then 1 else 0) + CountEligible(inputs[1..])
  }

  function FanOutError(inputs: seq<Input>, routes: seq<Route>): Option<PlanError> {
    if routes == [] then None
    else if CountEligible(inputs) < |routes| then Some(TooFewWorkerItems)
    else if !exists input | input in inputs :: input.required && !input.workerEligible then Some(NoMainOnlyItem)
    else None
  }

  predicate RemovesRunningItem(existing: Plan, known: set<Id>) {
    exists item | item in existing.items :: item.status == Running && item.id !in known
  }

  function ExistingError(existing: Option<Plan>, known: set<Id>): Option<PlanError> {
    if existing.None? then None
    else if existing.value.phase != Active then Some(NotActive)
    else if RemovesRunningItem(existing.value, known) then Some(RemovesRunning)
    else None
  }

  /** Keeps the first occurrence of every id. */
  function Dedupe(ids: seq<Id>): seq<Id> {
    if ids == [] then []
    else
      var front := Dedupe(ids[..|ids| - 1]);
      if Last(ids) in front then front else front + [Last(ids)]
  }

  function MergedItem(input: Input, prior: Option<Item>): Item {
    match prior
    case None =>
      Item(input.id, Trim(input.task), Dedupe(input.deps), MainAgent, input.workerEligible, input.required,
           Pending, 0, None, "", "")
    case Some(p) =>
      Item(input.id, Trim(input.task), Dedupe(input.deps), p.owner, input.workerEligible, input.required,
           p.status, p.attempts, p.workerRun, p.result, p.error)
  }

  function Prior(existing: Option<Plan>, id: Id): Option<Item> {
    if existing.Some? then Find(existing.value.items, id) else None
  }

  function MergedItems(inputs: seq<Input>, existing: Option<Plan>): seq<Item> {
    seq(|inputs|, i requires 0 <= i < |inputs| => MergedItem(inputs[i], Prior(existing, inputs[i].id)))
  }

  predicate UniqueInputIds(inputs: seq<Input>) {
    forall i, j :: 0 <= i < j < |inputs| ==> inputs[i].id != inputs[j].id
  }

  /** The verdict on a submitted plan, in the order the checks are made. */
  ghost function SetError(inputs: seq<Input>, routes: seq<Route>, existing: Option<Plan>): Option<PlanError> {
    var known := InputIds(inputs);
    var inputError := FirstInputError(known, inputs);
    var fanOutError := FanOutError(inputs, routes);
    if !UniqueInputIds(inputs) then Some(DuplicateIds)
    else if inputError.Some? then inputError
    else if HasCycle(GraphOf(InputNodes(inputs))) then Some(CyclicDependencies)
    else if fanOutError.Some? then fanOutError
    else ExistingError(existing, known)
  }

  function SubmittedPlan(inputs: seq<Input>, routes: seq<Route>, existing: Option<Plan>): Plan {
    Plan(if existing.Some? then existing.value.revision + 1 else 1, Active, MergedItems(inputs, existing), routes)
  }

  ghost function SetAttempt(runs: Runs, inputs: seq<Input>, routes: seq<Route>, existing: Option<Plan>): Attempt {
    var error := SetError(inputs, routes, existing);
    if error.Some? then Fails(error.value)
    else Saves(Promote(runs, SubmittedPlan(inputs, routes, existing)))
  }

  // ----- every operation -----

  function ChangeOf(runs: Runs, plan: Plan, op: Op): Change
    requires !op.SetPlan?
  {
    match op
    case UpdateItem(id, status, report) => UpdateChange(plan, id, status, report)
    case AssignWorker(id, worker) => AssignChange(plan, id, worker)
    case Reconcile => ReconcileChange(runs, plan)
    case MarkReady => ReadyChange(runs, plan)
    case CompleteAfterAnswer => CompleteChange(plan)
  }

  /** What an operation that read `base` goes on to do. */
  ghost function Attempted(runs: Runs, base: Option<Plan>, op: Op): Attempt {
    if op.SetPlan? then SetAttempt(runs, op.inputs, op.requiredRoutes, base)
    else if base.None? then Absent
    else Candidate(runs, base.value, ChangeOf(runs, base.value, op))
  }
}
