/** No plan that can be saved is ever stuck. */
module PlanProgress {
  import opened Basics
  import opened Graphs
  import opened PlanModel
  import opened PlanSafety

  function OpenIds(items: seq<Item>): set<Id> {
    set item | item in items && item.status != Completed :: item.id
  }

  /** `q` leads from one listed id to another along dependencies, through open items only. */
  ghost predicate OpenChain(items: seq<Item>, q: seq<Id>) {
    IsPath(GraphOf(Nodes(items)), q) && forall x | x in q :: x in OpenIds(items)
  }

  lemma DependencyEdge(items: seq<Item>, k: nat, d: Id)
    requires UniqueNodeIds(Nodes(items)) && k < |items|
    ensures Edge(GraphOf(Nodes(items)), items[k].id, d) <==> d in items[k].deps
  {
    GraphOfAt(Nodes(items), k);
    assert Nodes(items)[k] == Node(items[k].id, items[k].deps);
  }

  /** Behind every open item there is an open item whose dependencies are all completed. */
  lemma SomeOpenItemIsReady(items: seq<Item>, r: nat) returns (k: nat, q: seq<Id>)
    requires ItemsOk(items) && r < |items| && items[r].status != Completed
    ensures k < |items| && items[k].status != Completed && ReadyAt(items, k)
    ensures OpenChain(items, q) && q[0] == items[r].id && Last(q) == items[k].id
  {
    var g := GraphOf(Nodes(items));
    q := MinimalMember(g, OpenIds(items), [items[r].id]);
    assert Last(q) in OpenIds(items);
    k :| 0 <= k < |items| && items[k].status != Completed && items[k].id == Last(q);
    forall d | d in items[k].deps
      ensures CompletedAt(items, d)
    {
      DependencyEdge(items, k, d);
      assert Nodes(items)[k] in Nodes(items);
      var m :| m in Nodes(items) && m.id == d;
      var j :| 0 <= j < |items| && Nodes(items)[j] == m;
      assert items[j] in items && d !in OpenIds(items);
    }
  }

  /** Deadlock freedom. Whatever required work is open, the work it waits for contains an
      item that can move now: either the main agent may start it, or a worker is running it
      and the end of that worker's run, however it ends, lets reconciliation move it. */
  lemma NeverStuck(runs: Runs, plan: Plan, r: nat) returns (k: nat, q: seq<Id>)
    requires PlanOk(plan) && plan.phase == Active
    requires r < |plan.items| && OpenRequired(plan.items[r])
    ensures k < |plan.items| && plan.items[k].status != Completed && ReadyAt(plan.items, k)
    ensures OpenChain(plan.items, q) && q[0] == plan.items[r].id && Last(q) == plan.items[k].id
    ensures var item := plan.items[k];
            if item.owner == MainAgent then
              var attempt := Attempted(runs, Some(plan), UpdateItem(item.id, Running, ""));
              attempt.Saves? && attempt.plan.items[k].status == Running
            else
              item.status == Running && item.workerRun.Some?
              && forall ended: Runs :: item.workerRun.value in ended && Terminal(ended[item.workerRun.value].status) ==>
                   var attempt := Attempted(ended, Some(plan), Reconcile);
                   attempt.Saves?
                   && (attempt.plan.items[k].status == Completed
                       || (attempt.plan.items[k].owner == MainAgent && attempt.plan.items[k].status == Pending))
  {
    k, q := SomeOpenItemIsReady(plan.items, r);
    var item := plan.items[k];
    UpdateExactly(runs, plan, k, Running, "");
    assert ItemOk(item);
    forall ended: Runs | item.owner == Worker && item.workerRun.value in ended
                         && Terminal(ended[item.workerRun.value].status)
      ensures var attempt := Attempted(ended, Some(plan), Reconcile);
              attempt.Saves? && attempt.plan.items[k] == ReconciledItem(ended, item)
    {
      assert Stale(ended, item) && item in plan.items;
    }
  }

  // ----- from anywhere, the plan can be brought to its answer phase -----

  /** The run store together with the plan. */
  datatype World = World(runs: Runs, plan: Plan)

  /** One thing that happens: an operation on the plan, the launch of a new worker on a route,
      or the completion of a worker that has not ended. */
  datatype Move = Do(op: Op) | LaunchWorker(worker: RunId, route: Route) | WorkerCompletes(worker: RunId)

  /** Reconciliation, readiness and work on items, where only what was started is finished:
      nothing is resubmitted or skipped. */
  predicate Ordinary(plan: Plan, op: Op) {
    || op.Reconcile? || op.MarkReady? || op.AssignWorker?
    || (op.UpdateItem? && (op.status == Completed ==>
          forall item | item in plan.items && item.id == op.itemId :: item.status != Pending))
  }

  /** The names of runs in use, in the store or in the plan. */
  function NamesUsed(world: World): set<RunId> {
    world.runs.Keys + set item | item in world.plan.items && item.workerRun.Some? :: item.workerRun.value
  }

  /** The world after a move, unless the operation throws or the move is not possible. */
  ghost function Moved(world: World, move: Move): Option<World> {
    match move
    case Do(op) =>
      var attempt := Attempted(world.runs, Some(world.plan), op);
      if Ordinary(world.plan, op) && (attempt.Saves? || attempt.Unchanged?) then Some(World(world.runs, attempt.plan)) else None
    case LaunchWorker(worker, route) =>
      if worker in NamesUsed(world) then None
      else Some(World(world.runs[worker := WorkerRun(RunRunning, [], "", Some(route))], world.plan))
    case WorkerCompletes(worker) =>
      if worker !in world.runs || Terminal(world.runs[worker].status) then None
      else Some(World(world.runs[worker := world.runs[worker].(status := RunCompleted)], world.plan))
  }

  ghost function Played(world: World, moves: seq<Move>): Option<World>
    decreases |moves|
  {
    if moves == [] then Some(world)
    else
      var next := Moved(world, moves[0]);
      if next.Some? then Played(next.value, moves[1..]) else None
  }

  /** Some sequence of moves brings the plan to its answer phase. */
  ghost predicate Reaches(world: World) {
    exists moves: seq<Move> :: Finishes(world, moves)
  }

  ghost predicate Finishes(world: World, moves: seq<Move>) {
    Played(world, moves).Some? && Played(world, moves).value.plan.phase == ReadyForAnswer
  }

  lemma ReachedAlready(world: World)
    requires world.plan.phase == ReadyForAnswer
    ensures Reaches(world)
  {
    assert Finishes(world, []);
  }

  lemma ReachedBy(world: World, move: Move, next: World)
    requires Moved(world, move) == Some(next) && Reaches(next)
    ensures Reaches(world)
  {
    hide Moved;
    var rest :| Finishes(next, rest);
    var moves := [move] + rest;
    assert moves[0] == move && moves[1..] == rest;
    assert Finishes(world, moves);
  }

  predicate NoWorkerRunning(items: seq<Item>) {
    forall item | item in items :: !(item.owner == Worker && item.status == Running)
  }

  predicate WorkersEnded(runs: Runs, items: seq<Item>) {
    forall item | item in items :: item.owner == Worker && item.status == Running ==> Stale(runs, item)
  }

  /** A saved plan, not yet answered, no part of which is with a running worker. */
  ghost predicate Settled(world: World) {
    PlanOk(world.plan) && world.plan.phase != Answered && NoWorkerRunning(world.plan.items)
  }

  function MissingIn(world: World): seq<Route> {
    Missing(world.runs, world.plan)
  }

  // ----- working on items -----

  lemma OperationKeeps(world: World, op: Op)
    requires world.plan.phase != Answered && (op.Reconcile? || op.UpdateItem? || op.AssignWorker?)
    requires Attempted(world.runs, Some(world.plan), op).Saves?
    ensures var next := Attempted(world.runs, Some(world.plan), op).plan;
            next.routes == world.plan.routes && next.phase != Answered
    ensures var next := Attempted(world.runs, Some(world.plan), op).plan;
            world.plan.phase == Active && (Missing(world.runs, next) != [] || HasOpenRequired(next.items))
            ==> next.phase == Active
  {
    hide StillMissing;
    hide ReplaceItem;
    hide ReconciledItems;
    hide Unblocked;
    hide Find;
  }

  lemma UpdatedNoneRunning(items: seq<Item>, k: nat, status: Status)
    requires NoWorkerRunning(items) && k < |items|
    ensures NoWorkerRunning(items[k := UpdatedItem(items[k], status, "")])
  {
    var after := items[k := UpdatedItem(items[k], status, "")];
    forall item | item in after
      ensures !(item.owner == Worker && item.status == Running)
    {
      var i :| 0 <= i < |after| && after[i] == item;
      assert i != k ==> items[i] in items;
    }
  }

  lemma FinishingIsOrdinary(plan: Plan, k: nat, status: Status)
    requires PlanOk(plan) && k < |plan.items| && (status == Completed ==> plan.items[k].status != Pending)
    ensures Ordinary(plan, UpdateItem(plan.items[k].id, status, ""))
  {
    forall item | item in plan.items && item.id == plan.items[k].id
      ensures item == plan.items[k]
    {
      var i :| 0 <= i < |plan.items| && plan.items[i] == item;
      IdsDiffer(plan.items, i, k);
    }
  }

  /** The main agent may move any item of a settled plan, and start those that are ready. */
  lemma UpdateStep(world: World, k: nat, status: Status) returns (next: World)
    requires Settled(world) && world.plan.phase == Active
    requires k < |world.plan.items| && (status == Running ==> ReadyAt(world.plan.items, k))
    requires status == Completed ==> world.plan.items[k].status != Pending
    ensures Moved(world, Do(UpdateItem(world.plan.items[k].id, status, ""))) == Some(next)
    ensures Settled(next) && next.runs == world.runs && next.plan.routes == world.plan.routes
    ensures next.plan.items == world.plan.items[k := UpdatedItem(world.plan.items[k], status, "")]
    ensures MissingIn(next) == MissingIn(world)
    ensures MissingIn(world) != [] ==> next.plan.phase == Active
  {
    hide Attempted;
    hide PlanOk;
    hide StillMissing;
    hide ReadyAt;
    hide HasOpenRequired;
    var items := world.plan.items;
    var op := UpdateItem(items[k].id, status, "");
    assert items[k] in items;
    UpdateExactly(world.runs, world.plan, k, status, "");
    next := World(world.runs, Attempted(world.runs, Some(world.plan), op).plan);
    SavedPlanOk(world.runs, Some(world.plan), op);
    OperationKeeps(world, op);
    FinishingIsOrdinary(world.plan, k, status);
    UpdatedNoneRunning(items, k, status);
    SameWorkersSameMissing(world.runs, items, next.plan.items, world.plan.routes);
  }

  lemma FewerOpen(before: seq<Item>, after: seq<Item>, k: nat)
    requires ItemsOk(before) && k < |before| == |after| && before[k].status != Completed && after[k].status == Completed
    requires forall i :: 0 <= i < |before| && i != k ==> after[i] == before[i]
    ensures OpenIds(after) < OpenIds(before)
  {
    forall id | id in OpenIds(after)
      ensures id in OpenIds(before) && id != before[k].id
    {
      var i :| 0 <= i < |after| && after[i].status != Completed && after[i].id == id;
      assert i != k && before[i] == after[i] && before[i] in before;
      IdsDiffer(before, i, k);
    }
    assert before[k] in before && before[k].id in OpenIds(before);
  }

  /** Some open item can be started and then finished, unless starting it ends the work. */
  lemma WorkOff(world: World) returns (started: World, finished: World, start: Move, finish: Move)
    requires Settled(world) && world.plan.phase == Active && OpenIds(world.plan.items) != {}
    ensures Moved(world, start) == Some(started)
    ensures started.plan.phase != ReadyForAnswer ==>
            && Moved(started, finish) == Some(finished)
            && Settled(finished) && MissingIn(finished) == MissingIn(world)
            && OpenIds(finished.plan.items) < OpenIds(world.plan.items)
  {
    hide Moved;
    hide ReadyAt;
    hide StillMissing;
    var items := world.plan.items;
    var r :| 0 <= r < |items| && items[r].status != Completed;
    var k, q := SomeOpenItemIsReady(items, r);
    start, finish := Do(UpdateItem(items[k].id, Running, "")), Do(UpdateItem(items[k].id, Completed, ""));
    started := UpdateStep(world, k, Running);
    finished := started;
    if started.plan.phase == Active {
      assert started.plan.items[k].id == items[k].id;
      finished := UpdateStep(started, k, Completed);
      FewerOpen(items, finished.plan.items, k);
    }
  }

  // ----- an item to spare -----

  predicate Delegable(item: Item) {
    item.required && item.workerEligible
  }

  /** The credits of the required items workers may do. */
  function EligibleCredits(runs: Runs, items: seq<Item>): multiset<Route> {
    if items == [] then multiset{}
    else (if Delegable(items[0]) then Credit(runs, items[0]) else multiset{}) + EligibleCredits(runs, items[1..])
  }

  lemma {:induction false} EligibleCreditsBound(runs: Runs, items: seq<Item>)
    ensures EligibleCredits(runs, items) <= Launched(runs, items)
  {
    if items != [] {
      EligibleCreditsBound(runs, items[1..]);
      hide LaunchedRoute;
    }
  }

  lemma {:induction false} EligibleCreditsCount(runs: Runs, items: seq<Item>)
    requires forall item | item in items && Delegable(item) :: LaunchedRoute(runs, item).Some?
    ensures |EligibleCredits(runs, items)| == EligibleCount(items)
  {
    if items != [] {
      assert items[0] in items;
      EligibleCreditsCount(runs, items[1..]);
      hide LaunchedRoute;
    }
  }

  lemma {:induction false} EligibleCreditOf(runs: Runs, items: seq<Item>, route: Route)
    requires route in EligibleCredits(runs, items)
    ensures exists item | item in items :: Delegable(item) && LaunchedRoute(runs, item) == Some(route)
  {
    if Delegable(items[0]) && LaunchedRoute(runs, items[0]) == Some(route) {
      assert items[0] in items;
    } else {
      EligibleCreditOf(runs, items[1..], route);
      var item :| item in items[1..] && Delegable(item) && LaunchedRoute(runs, item) == Some(route);
      assert item in items;
    }
  }

  /** An item whose worker is not needed: it had none, or its route was launched too often. */
  predicate Spare(runs: Runs, plan: Plan, item: Item) {
    Delegable(item)
    && var route := LaunchedRoute(runs, item);
       route.Some? ==> Launched(runs, plan.items)[route.value] > multiset(plan.routes)[route.value]
  }

  lemma SameSize(a: multiset<Route>, b: multiset<Route>)
    requires a <= b && |a| >= |b|
    ensures a == b
  {
    assert b == a + (b - a);
  }

  /** Without such an item, the workers launched are all that were required. */
  lemma NoSpareFits(runs: Runs, plan: Plan)
    requires EligibleCount(plan.items) >= |plan.routes|
    requires forall item | item in plan.items :: !Spare(runs, plan, item)
    ensures multiset(plan.routes) <= Launched(runs, plan.items)
  {
    var credits, required := EligibleCredits(runs, plan.items), multiset(plan.routes);
    EligibleCreditsBound(runs, plan.items);
    EligibleCreditsCount(runs, plan.items);
    forall route | route in credits
      ensures credits[route] <= required[route]
    {
      EligibleCreditOf(runs, plan.items, route);
      var item :| item in plan.items && Delegable(item) && LaunchedRoute(runs, item) == Some(route);
      assert !Spare(runs, plan, item);
    }
    SameSize(credits, required);
  }

  lemma SpareItem(runs: Runs, plan: Plan) returns (k: nat)
    requires FanOutOk(plan.items, plan.routes) && Missing(runs, plan) != []
    ensures k < |plan.items| && Spare(runs, plan, plan.items[k])
  {
    hide EligibleCount;
    hide StillMissing;
    hide Launched;
    hide Spare;
    MissingIsDifference(runs, plan.items, plan.routes);
    var route := Missing(runs, plan)[0];
    assert route in multiset(Missing(runs, plan));
    if forall item | item in plan.items :: !Spare(runs, plan, item) {
      NoSpareFits(runs, plan);
      assert false;
    }
    var item :| item in plan.items && Spare(runs, plan, item);
    k :| 0 <= k < |plan.items| && plan.items[k] == item;
  }

  lemma MainOnlyItem(runs: Runs, plan: Plan) returns (j: nat)
    requires FanOutOk(plan.items, plan.routes) && Missing(runs, plan) != []
    ensures j < |plan.items| && plan.items[j].required && !plan.items[j].workerEligible
  {
    hide StillMissing;
    hide Launched;
    MissingIsDifference(runs, plan.items, plan.routes);
    assert |multiset(Missing(runs, plan))| > 0;
    var item :| item in plan.items && item.required && !item.workerEligible;
    j :| 0 <= j < |plan.items| && plan.items[j] == item;
  }

  // ----- launching a worker for a missing route -----

  lemma {:induction false} NoLongerThan(names: set<string>) returns (bound: nat)
    ensures forall name | name in names :: |name| <= bound
  {
    if names == {} {
      bound := 0;
    } else {
      var name :| name in names;
      bound := NoLongerThan(names - {name});
      bound := Max(bound, |name|);
    }
  }

  lemma FreshName(names: set<string>) returns (name: string)
    ensures name !in names
  {
    var bound := NoLongerThan(names);
    name := seq(bound + 1, _ => 'w');
  }

  /** What a change of the run store must keep for the credits of some items to stay. */
  predicate SameRoutes(before: Runs, after: Runs, items: seq<Item>) {
    forall item | item in items :: LaunchedRoute(before, item) == LaunchedRoute(after, item)
  }

  lemma {:induction false} SameRoutesSameMissing(before: Runs, after: Runs, items: seq<Item>, remaining: seq<Route>)
    requires SameRoutes(before, after, items)
    ensures StillMissing(before, items, remaining) == StillMissing(after, items, remaining)
    ensures Launched(before, items) == Launched(after, items)
  {
    if items != [] {
      assert items[0] in items && forall item | item in items[1..] :: item in items;
      var launched := LaunchedRoute(before, items[0]);
      assert SameRoutes(before, after, items[1..]) by {
        hide LaunchedRoute;
      }
      SameRoutesSameMissing(before, after, items[1..],
                            if launched.Some? then RemoveFirst(remaining, launched.value) else remaining);
      hide LaunchedRoute;
    }
  }

  lemma LaunchStep(world: World, worker: RunId, route: Route) returns (next: World)
    requires worker !in NamesUsed(world)
    ensures Moved(world, LaunchWorker(worker, route)) == Some(next)
    ensures next.plan == world.plan && MissingIn(next) == MissingIn(world)
    ensures Launched(next.runs, next.plan.items) == Launched(world.runs, world.plan.items)
    ensures SameRoutes(world.runs, next.runs, world.plan.items)
    ensures worker in next.runs && next.runs[worker] == WorkerRun(RunRunning, [], "", Some(route))
  {
    next := World(world.runs[worker := WorkerRun(RunRunning, [], "", Some(route))], world.plan);
    forall item | item in world.plan.items
      ensures LaunchedRoute(world.runs, item) == LaunchedRoute(next.runs, item)
    {
      assert item.workerRun.Some? ==> item.workerRun.value in NamesUsed(world);
    }
    SameRoutesSameMissing(world.runs, next.runs, world.plan.items, world.plan.routes);
  }

  lemma CompletionStep(world: World, worker: RunId) returns (next: World)
    requires worker in world.runs && world.runs[worker].status == RunRunning
    ensures Moved(world, WorkerCompletes(worker)) == Some(next)
    ensures next.plan == world.plan && MissingIn(next) == MissingIn(world)
    ensures worker in next.runs && next.runs[worker].status == RunCompleted
  {
    next := World(world.runs[worker := world.runs[worker].(status := RunCompleted)], world.plan);
    SameRoutesSameMissing(world.runs, next.runs, world.plan.items, world.plan.routes);
  }

  lemma NotItsOwnDependency(items: seq<Item>, k: nat)
    requires ItemsOk(items) && k < |items|
    ensures items[k].id !in items[k].deps
  {
    var g, p := GraphOf(Nodes(items)), [items[k].id, items[k].id];
    DependencyEdge(items, k, items[k].id);
    if items[k].id in items[k].deps {
      assert IsCycle(g, p);
      assert false;
    }
  }

  /** With everything else completed, an item is ready. */
  lemma LastOneIsReady(items: seq<Item>, k: nat)
    requires ItemsOk(items) && k < |items|
    requires forall i :: 0 <= i < |items| && i != k ==> items[i].status == Completed
    ensures ReadyAt(items, k)
  {
    NotItsOwnDependency(items, k);
    forall d | d in items[k].deps
      ensures CompletedAt(items, d)
    {
      assert Nodes(items)[k] in Nodes(items);
      var m :| m in Nodes(items) && m.id == d;
      var i :| 0 <= i < |items| && Nodes(items)[i] == m;
      assert i != k && items[i].id == d;
    }
  }

  lemma AssignStep(world: World, k: nat, j: nat, worker: RunId) returns (next: World)
    requires PlanOk(world.plan) && world.plan.phase == Active
    requires k < |world.plan.items| && j < |world.plan.items| && j != k
    requires Delegable(world.plan.items[k]) && world.plan.items[k].status == Pending && ReadyAt(world.plan.items, k)
    requires RequiredOnMain(world.plan.items[j])
    ensures Moved(world, Do(AssignWorker(world.plan.items[k].id, worker))) == Some(next)
    ensures PlanOk(next.plan) && next.plan.phase == Active
    ensures next.runs == world.runs && next.plan.routes == world.plan.routes
    ensures var before, after := world.plan.items, next.plan.items;
            after == before[k := after[k]] && after[k].workerRun == Some(worker) && after[k].required
  {
    hide Attempted;
    hide PlanOk;
    hide StillMissing;
    hide ReadyAt;
    var op := AssignWorker(world.plan.items[k].id, worker);
    AssignExactly(world.runs, world.plan, k, worker);
    next := World(world.runs, Attempted(world.runs, Some(world.plan), op).plan);
    SavedPlanOk(world.runs, Some(world.plan), op);
    OperationKeeps(world, op);
    assert next.plan.items[k] in next.plan.items && OpenRequired(next.plan.items[k]);
  }

  lemma NoneLeftRunning(runs: Runs, plan: Plan, settled: Plan)
    requires WorkersEnded(runs, plan.items) && settled.items == ReconciledItems(runs, plan.items)
    ensures NoWorkerRunning(settled.items)
  {
    forall item | item in settled.items
      ensures !(item.owner == Worker && item.status == Running)
    {
      var k :| 0 <= k < |settled.items| && settled.items[k] == item;
      ReconcileExactly(runs, plan, k);
      assert plan.items[k] in plan.items;
    }
  }

  lemma ReconcileStep(world: World) returns (next: World)
    requires PlanOk(world.plan) && world.plan.phase != Answered && WorkersEnded(world.runs, world.plan.items)
    ensures Moved(world, Do(Reconcile)) == Some(next)
    ensures Settled(next) && next.runs == world.runs && MissingIn(next) == MissingIn(world)
  {
    hide Attempted;
    hide PlanOk;
    hide StillMissing;
    hide WorkersEnded;
    hide NoWorkerRunning;
    ReconcileSettles(world.runs, world.plan);
    var attempt := Attempted(world.runs, Some(world.plan), Reconcile);
    next := World(world.runs, attempt.plan);
    if attempt.Saves? {
      SavedPlanOk(world.runs, Some(world.plan), Reconcile);
      OperationKeeps(world, Reconcile);
    }
    NoneLeftRunning(world.runs, world.plan, next.plan);
    SameWorkersSameMissing(world.runs, world.plan.items, next.plan.items, world.plan.routes);
  }

  lemma OneLessMissing(required: multiset<Route>, before: multiset<Route>, after: multiset<Route>,
                       withdrawn: Option<Route>, route: Route)
    requires after + (if withdrawn.Some? then multiset{withdrawn.value} else multiset{}) == before + multiset{route}
    requires withdrawn.Some? ==> before[withdrawn.value] > required[withdrawn.value]
    requires route in required - before
    ensures required - after == (required - before) - multiset{route}
  {
    forall r: Route
      ensures (required - after)[r] == ((required - before) - multiset{route})[r]
    {
      assert (after + (if withdrawn.Some? then multiset{withdrawn.value} else multiset{}))[r] == (before + multiset{route})[r];
    }
  }

  /** Giving a spare item to a worker on a missing route leaves one route fewer missing. */
  lemma DelegationHelps(before: World, after: World, k: nat, worker: RunId, route: Route)
    requires k < |before.plan.items| == |after.plan.items|
    requires after.runs == before.runs && after.plan.routes == before.plan.routes
    requires after.plan.items == before.plan.items[k := after.plan.items[k]]
    requires after.plan.items[k].workerRun == Some(worker)
    requires worker in before.runs && before.runs[worker].route == Some(route)
    requires route in MissingIn(before) && Spare(before.runs, before.plan, before.plan.items[k])
    ensures |MissingIn(after)| < |MissingIn(before)|
  {
    hide Launched;
    hide StillMissing;
    var runs, required := before.runs, multiset(before.plan.routes);
    var was, now := Launched(runs, before.plan.items), Launched(runs, after.plan.items);
    LaunchedAt(runs, before.plan.items, k, after.plan.items[k]);
    MissingIsDifference(runs, before.plan.items, before.plan.routes);
    MissingIsDifference(runs, after.plan.items, before.plan.routes);
    assert route in multiset(MissingIn(before));
    OneLessMissing(required, was, now, LaunchedRoute(runs, before.plan.items[k]), route);
    assert |multiset(MissingIn(after))| == |multiset(MissingIn(before))| - 1;
  }

  lemma {:induction false} SameWorkersSameLaunched(runs: Runs, a: seq<Item>, b: seq<Item>)
    requires |a| == |b| && forall i :: 0 <= i < |a| ==> a[i].workerRun == b[i].workerRun
    ensures Launched(runs, a) == Launched(runs, b)
  {
    if a != [] {
      assert a[0].workerRun == b[0].workerRun;
      SameWorkersSameLaunched(runs, a[1..], b[1..]);
    }
  }

  /** A plan ready to hand its k-th item to a worker, while the j-th stays with the main agent. */
  ghost predicate Prepared(world: World, k: nat, j: nat) {
    && PlanOk(world.plan) && world.plan.phase == Active && NoWorkerRunning(world.plan.items)
    && k < |world.plan.items| && j < |world.plan.items| && j != k
    && world.plan.items[k].status == Pending && ReadyAt(world.plan.items, k)
    && RequiredOnMain(world.plan.items[j])
    && Spare(world.runs, world.plan, world.plan.items[k])
    && MissingIn(world) != []
  }

  /** With nothing open but a route missing, the main agent takes a main-only item back and
      reopens an item whose worker is not needed. */
  lemma Prepare(world: World) returns (ready: World, k: nat, j: nat)
    requires Settled(world) && world.plan.phase == Active && MissingIn(world) != []
    requires OpenIds(world.plan.items) == {}
    ensures Prepared(ready, k, j) && MissingIn(ready) == MissingIn(world)
    ensures Reaches(ready) ==> Reaches(world)
  {
    hide Moved;
    hide StillMissing;
    hide Launched;
    hide ReadyAt;
    hide EligibleCount;
    hide Reaches;
    hide Unblocked;
    var items := world.plan.items;
    k := SpareItem(world.runs, world.plan);
    j := MainOnlyItem(world.runs, world.plan);
    forall i | 0 <= i < |items|
      ensures items[i].status == Completed
    {
      var item := items[i];
      assert item in items;
      assert item.status != Completed ==> item.id in OpenIds(items);
    }
    var taken := UpdateStep(world, j, Completed);
    ready := UpdateStep(taken, k, Pending);
    SameWorkersSameLaunched(world.runs, items, ready.plan.items);
    LastOneIsReady(ready.plan.items, k);
    if Reaches(ready) {
      ReachedBy(taken, Do(UpdateItem(taken.plan.items[k].id, Pending, "")), ready);
      ReachedBy(world, Do(UpdateItem(items[j].id, Completed, "")), taken);
    }
  }

  lemma OnlyThatWorkerEnded(before: seq<Item>, after: seq<Item>, k: nat, runs: Runs, worker: RunId)
    requires NoWorkerRunning(before) && k < |before| == |after| && after == before[k := after[k]]
    requires after[k].workerRun == Some(worker) && worker in runs && Terminal(runs[worker].status)
    ensures WorkersEnded(runs, after)
  {
    forall i | 0 <= i < |after| && i != k
      ensures !(after[i].owner == Worker && after[i].status == Running)
    {
      assert after[i] == before[i] && before[i] in before;
    }
    forall item | item in after && item.owner == Worker && item.status == Running
      ensures Stale(runs, item)
    {
      var i :| 0 <= i < |after| && after[i] == item;
    }
  }

  /** Launching a worker on a missing route, handing it the spare item, and its completion. */
  lemma Delegate(world: World, k: nat, j: nat) returns (next: World)
    requires Prepared(world, k, j)
    ensures Settled(next) && |MissingIn(next)| < |MissingIn(world)|
    ensures Reaches(next) ==> Reaches(world)
  {
    hide Moved;
    hide StillMissing;
    hide Launched;
    hide ReadyAt;
    hide Reaches;
    hide PlanOk;
    hide NoWorkerRunning;
    hide WorkersEnded;
    hide LaunchedRoute;
    var route := MissingIn(world)[0];
    var worker := FreshName(NamesUsed(world));
    var launched := LaunchStep(world, worker, route);
    assert world.plan.items[k] in world.plan.items;
    var handed := AssignStep(launched, k, j, worker);
    DelegationHelps(launched, handed, k, worker, route);
    var ended := CompletionStep(handed, worker);
    OnlyThatWorkerEnded(world.plan.items, handed.plan.items, k, ended.runs, worker);
    next := ReconcileStep(ended);
    if Reaches(next) {
      ReachedBy(ended, Do(Reconcile), next);
      ReachedBy(handed, WorkerCompletes(worker), ended);
      ReachedBy(launched, Do(AssignWorker(world.plan.items[k].id, worker)), handed);
      ReachedBy(world, LaunchWorker(worker, route), launched);
    }
  }

  lemma ReadyStep(world: World) returns (next: World)
    requires Settled(world) && world.plan.phase == Active && MissingIn(world) == []
    requires OpenIds(world.plan.items) == {}
    ensures Moved(world, Do(MarkReady)) == Some(next) && next.plan.phase == ReadyForAnswer
  {
    hide StillMissing;
    var items := world.plan.items;
    forall item | item in items
      ensures !OpenRequired(item)
    {
      assert item.status != Completed ==> item.id in OpenIds(items);
    }
    next := World(world.runs, Attempted(world.runs, Some(world.plan), MarkReady).plan);
  }

  lemma {:induction false} FinishSettled(world: World)
    requires Settled(world)
    ensures Reaches(world)
    decreases |MissingIn(world)|, OpenIds(world.plan.items)
  {
    hide Moved;
    hide StillMissing;
    hide PlanOk;
    hide NoWorkerRunning;
    hide OpenIds;
    hide Prepared;
    hide Reaches;
    if world.plan.phase == ReadyForAnswer {
      ReachedAlready(world);
    } else if OpenIds(world.plan.items) != {} {
      var started, finished, start, finish := WorkOff(world);
      if started.plan.phase == ReadyForAnswer {
        ReachedAlready(started);
      } else {
        FinishSettled(finished);
        ReachedBy(started, finish, finished);
      }
      ReachedBy(world, start, started);
    } else if MissingIn(world) == [] {
      var next := ReadyStep(world);
      ReachedAlready(next);
      ReachedBy(world, Do(MarkReady), next);
    } else {
      var ready, k, j := Prepare(world);
      var next := Delegate(ready, k, j);
      FinishSettled(next);
    }
  }

  /** No reachable plan is a dead end. Once its workers have ended, any saved plan that is not
      answered can be brought to its answer phase by starting items and finishing what was started
      and by handing items to new workers that complete: whatever is open, and whichever of the
      required routes have not been launched. */
  lemma CanAlwaysFinish(world: World)
    requires PlanOk(world.plan) && world.plan.phase != Answered
    requires WorkersEnded(world.runs, world.plan.items)
    ensures Reaches(world)
  {
    hide Moved;
    hide Reaches;
    hide PlanOk;
    hide WorkersEnded;
    var settled := ReconcileStep(world);
    FinishSettled(settled);
    ReachedBy(world, Do(Reconcile), settled);
  }
}
