/** The delegation tool of one parent turn: launch a worker, then assign it durably. */
module SubagentTools {
  import opened Basics
  import opened PlanModel
  import opened PlanTools

  datatype Refusal = UnknownItem | ItemNotReady | ItemBlocked | UnknownRole | BudgetExhausted | NoParentTask
  datatype Dispatch =
    | Declined(reason: Refusal)
    | Dispatched(run: RunId)
    | BadRoute
    | ReconcileThrew
    | LaunchThrew
    | AssignThrew(run: RunId)

  datatype Launch = Launch(run: RunId, route: Route, itemId: string)

  function LaunchesOn(launches: seq<Launch>, route: Route): nat {
    if launches == [] then 0
    else LaunchesOn(launches[..|launches| - 1], route) + (if Last(launches).route == route then 1 else 0)
  }

  lemma {:induction false} LaunchesCounted(launches: seq<Launch>, route: Route)
    ensures LaunchesOn(launches, route) == |set k | 0 <= k < |launches| && launches[k].route == route|
  {
    var all := set k | 0 <= k < |launches| && launches[k].route == route;
    if launches == [] {
      assert all == {};
    } else {
      LaunchesCounted(launches[..|launches| - 1], route);
      CountedLast(launches, route);
    }
  }

  lemma CountedLast(launches: seq<Launch>, route: Route)
    requires launches != []
    ensures var n := |launches| - 1;
            |set k | 0 <= k < |launches| && launches[k].route == route| ==
            |set k | 0 <= k < |launches[..n]| && launches[..n][k].route == route| + (if launches[n].route == route then 1 else 0)
  {
    var n := |launches| - 1;
    var before := set k | 0 <= k < |launches[..n]| && launches[..n][k].route == route;
    var all := set k | 0 <= k < |launches| && launches[k].route == route;
    assert all == if launches[n].route == route then before + {n} else before;
  }

  /** The first item under an id. */
  predicate FirstItem(items: seq<Item>, id: string, j: int) {
    0 <= j < |items| && items[j].id == id && forall i :: 0 <= i < j ==> items[i].id != id
  }

  predicate HasItem(items: seq<Item>, id: string) {
    exists j :: 0 <= j < |items| && items[j].id == id
  }

  lemma HasItemIs(items: seq<Item>, id: string)
    ensures HasItem(items, id) <==> Find(items, id).Some?
  {
    FindIsFirst(items, id);
  }

  /** An item that workers may do and nobody has begun. */
  ghost predicate Waits(items: seq<Item>, id: string) {
    exists j :: FirstItem(items, id, j) && items[j].workerEligible && items[j].status == Pending
  }

  /** Such an item, everything it depends on being completed. */
  ghost predicate Delegable(items: seq<Item>, id: string) {
    exists j :: FirstItem(items, id, j) && items[j].workerEligible && items[j].status == Pending
                && forall d | d in items[j].deps :: exists m :: FirstItem(items, d, m) && items[m].status == Completed
  }

  /** The plan that reconciling leaves, under whatever other writers do meanwhile. */
  ghost predicate Leaves(runs: Runs, parent: RunId, reconciling: seq<Interference>, plan: Plan) {
    exists k :: 0 <= k < |reconciling| && LeavesAt(runs, parent, reconciling, k, plan)
  }

  ghost predicate LeavesAt(runs: Runs, parent: RunId, reconciling: seq<Interference>, k: nat, plan: Plan)
    requires k < |reconciling|
  {
    && (forall j :: 0 <= j < k ==> LosesRace(runs, parent, Reconcile, reconciling[j]))
    && !LosesRace(runs, parent, Reconcile, reconciling[k])
    && var attempt := Attempted(runs, Lookup(reconciling[k].atRead, parent), Reconcile);
       (attempt == Saves(plan) || attempt == Unchanged(plan))
  }

  /** There is only one such plan. */
  lemma LeavesOne(runs: Runs, parent: RunId, reconciling: seq<Interference>, a: Plan, b: Plan)
    requires Leaves(runs, parent, reconciling, a) && Leaves(runs, parent, reconciling, b)
    ensures a == b
  {
    hide Attempted;
    hide LosesRace;
    var i :| 0 <= i < |reconciling| && LeavesAt(runs, parent, reconciling, i, a);
    var j :| 0 <= j < |reconciling| && LeavesAt(runs, parent, reconciling, j, b);
    assert i == j;
  }

  lemma {:induction false} FindIsFirst(items: seq<Item>, id: string)
    ensures Find(items, id).None? <==> forall j :: 0 <= j < |items| ==> items[j].id != id
    ensures forall j :: FirstItem(items, id, j) ==> Find(items, id) == Some(items[j])
    ensures Find(items, id).Some? ==> exists j :: FirstItem(items, id, j)
  {
    if items != [] {
      FindIsFirst(items[1..], id);
      assert forall j :: 0 <= j < |items| - 1 ==> items[1..][j] == items[j + 1];
      if items[0].id == id {
        assert FirstItem(items, id, 0);
      } else {
        forall j | FirstItem(items, id, j)
          ensures FirstItem(items[1..], id, j - 1)
        {
        }
        if Find(items, id).Some? {
          var j :| FirstItem(items[1..], id, j);
          assert FirstItem(items, id, j + 1);
        }
      }
    }
  }

  lemma DelegableIs(items: seq<Item>, id: string)
    ensures Waits(items, id) <==>
            Find(items, id).Some? && Find(items, id).value.workerEligible && Find(items, id).value.status == Pending
    ensures Delegable(items, id) <==> Waits(items, id) && Unblocked(items, Find(items, id).value)
  {
    FindIsFirst(items, id);
    forall d: string
      ensures DoneIn(items, d) <==> exists m :: FirstItem(items, d, m) && items[m].status == Completed
    {
      FindIsFirst(items, d);
    }
    hide Find;
    hide FirstItem;
    hide DoneIn;
  }

  lemma DecidedLeaves(runs: Runs, parent: RunId, reconciling: seq<Interference>, outcome: Outcome, plans: PlanTable, plan: Plan)
    requires exists k :: DecidedAt(runs, parent, Reconcile, reconciling, k, outcome, plans)
    ensures Leaves(runs, parent, reconciling, plan) <==> outcome == Stored(plan) || outcome == AsItWas(plan)
  {
    hide Attempted;
    hide LosesRace;
    var k :| DecidedAt(runs, parent, Reconcile, reconciling, k, outcome, plans);
    if outcome == Stored(plan) || outcome == AsItWas(plan) {
      assert LeavesAt(runs, parent, reconciling, k, plan);
    }
    if j :| 0 <= j < |reconciling| && LeavesAt(runs, parent, reconciling, j, plan) {
      assert j == k;
    }
  }

  lemma LostLeavesNothing(runs: Runs, parent: RunId, reconciling: seq<Interference>, plan: Plan)
    requires forall k :: 0 <= k < |reconciling| ==> LosesRace(runs, parent, Reconcile, reconciling[k])
    ensures !Leaves(runs, parent, reconciling, plan)
  {
    hide LosesRace;
  }

  class SubagentTool {
    const parent: RunId
    const metered: bool
    const budget: map<Route, nat>
    var used: map<Route, nat>
    /** Every worker this turn launched, and those cancelled again at once. */
    ghost var launches: seq<Launch>
    ghost var cancelled: set<RunId>

    /** Launches on a route never exceed the launches counted, nor those the budget. */
    ghost predicate Valid()
      reads this
    {
      forall r: Route :: r in used && r in budget && LaunchesOn(launches, r) <= used[r] <= budget[r]
    }

    constructor (parent: RunId, metered: bool, budget: map<Route, nat>)
      requires forall r: Route :: r in budget
      ensures Valid() && launches == [] && cancelled == {} && this.budget == budget && this.parent == parent
    {
      this.parent, this.metered, this.budget := parent, metered, budget;
      used := map[DefaultRoute := 0, FastRoute := 0, SmartRoute := 0];
      launches, cancelled := [], {};
      new;
      forall r: Route
        ensures r in used && used[r] == 0
      {
        match r
        case DefaultRoute =>
        case FastRoute =>
        case SmartRoute =>
      }
    }

    /** One tool call. Whatever other writers do meanwhile, a launched worker ends up either
        assigned to exactly the requested item or cancelled, and a call that launches
        nothing leaves the counters alone unless the launch itself failed. */
    method Execute(store: PlanStore, itemId: string, route: Option<Route>, roleKnown: bool, parentTask: string,
                   worker: RunId, launchThrows: bool,
                   reconciling: seq<Interference>, assigning: seq<Interference>) returns (result: Dispatch)
      requires Valid() && worker !in store.runs
      requires |reconciling| == MAX_ATTEMPTS && |assigning| == MAX_ATTEMPTS
      modifies this, store
      ensures Valid()
      ensures forall r: Route :: r in budget && LaunchesOn(launches, r) <= budget[r]
      ensures result.Dispatched? || result.AssignThrew? <==> launches != old(launches)
      ensures launches != old(launches) <==>
                && route.Some? && roleKnown && !launchThrows && old(used)[route.value] < budget[route.value]
                && !(metered && route == Some(SmartRoute) && Trim(parentTask) == "")
                && exists plan :: Leaves(old(store.runs), parent, reconciling, plan) && Delegable(plan.items, itemId)
      ensures launches != old(launches) ==>
                route.Some? && result.run == worker && launches == old(launches) + [Launch(worker, route.value, itemId)]
                && used == old(used)[route.value := old(used)[route.value] + 1]
                && old(used)[route.value] < budget[route.value]
      ensures result.AssignThrew? ==> cancelled == old(cancelled) + {worker}
      ensures !result.AssignThrew? ==> cancelled == old(cancelled)
      ensures result.Dispatched? ==>
                exists k, p :: DecidedAt(store.runs, parent, AssignWorker(itemId, worker), assigning, k, Stored(p), store.plans)
      ensures result.Declined? || result.BadRoute? || result.ReconcileThrew? ==> used == old(used) && store.runs == old(store.runs)
      ensures result == Declined(BudgetExhausted) ==> route.Some? && used[route.value] == budget[route.value]
    {
      hide DecidedAt;
      hide Leaves;
      hide Delegable;
      hide Trim;
      if route.None? {
        return BadRoute;
      }
      var objection := Objection(store, itemId, route.value, roleKnown, parentTask, reconciling);
      if objection.Some? {
        return objection.value;
      }
      used := used[route.value := used[route.value] + 1];
      if launchThrows {
        return LaunchThrew;
      }
      store.runs := store.runs[worker := WorkerRun(RunRunning, [], "", route)];
      launches := launches + [Launch(worker, route.value, itemId)];
      result := AssignOrCancel(store, itemId, worker, assigning);
    }

    /** Which objection is raised against a launch: the first that applies, in this order. */
    ghost predicate Objected(objection: Option<Dispatch>, items: seq<Item>, itemId: string, route: Route, roleKnown: bool,
                       parentTask: string)
      requires route in used && route in budget
      reads this
    {
      var spent := used[route] >= budget[route];
      objection ==
        if !HasItem(items, itemId) then Some(Declined(UnknownItem))
        else if !Waits(items, itemId) then Some(Declined(ItemNotReady))
        else if !Delegable(items, itemId) then Some(Declined(ItemBlocked))
        else if !roleKnown then Some(Declined(UnknownRole))
        else if spent then Some(Declined(BudgetExhausted))
        else if metered && route == SmartRoute && Trim(parentTask) == "" then Some(Declined(NoParentTask))
        else None
    }

    lemma LeavesIs(store: PlanStore, reconciling: seq<Interference>, outcome: Outcome, plan: Plan)
      requires |reconciling| == MAX_ATTEMPTS
      requires outcome == GaveUp ==> forall k :: 0 <= k < MAX_ATTEMPTS ==> LosesRace(store.runs, parent, Reconcile, reconciling[k])
      requires outcome != GaveUp ==> exists k :: DecidedAt(store.runs, parent, Reconcile, reconciling, k, outcome, store.plans)
      ensures Leaves(store.runs, parent, reconciling, plan) <==> outcome == Stored(plan) || outcome == AsItWas(plan)
    {
      if outcome == GaveUp {
        LostLeavesNothing(store.runs, parent, reconciling, plan);
      } else {
        DecidedLeaves(store.runs, parent, reconciling, outcome, store.plans, plan);
      }
    }

    /** Why nothing is launched, after the plan has been reconciled. */
    method Objection(store: PlanStore, itemId: string, route: Route, roleKnown: bool, parentTask: string,
                     reconciling: seq<Interference>) returns (objection: Option<Dispatch>)
      requires Valid() && |reconciling| == MAX_ATTEMPTS
      modifies store`plans
      ensures objection.Some? ==> objection.value.Declined? || objection.value == ReconcileThrew
      ensures objection == Some(Declined(BudgetExhausted)) ==> used[route] == budget[route]
      ensures objection.None? <==>
                && roleKnown && used[route] < budget[route] && !(metered && route == SmartRoute && Trim(parentTask) == "")
                && exists plan :: Leaves(store.runs, parent, reconciling, plan) && Delegable(plan.items, itemId)
      ensures forall plan :: Leaves(store.runs, parent, reconciling, plan) ==>
                Objected(objection, plan.items, itemId, route, roleKnown, parentTask)
    {
      hide DecidedAt;
      hide LosesRace;
      hide Unblocked;
      hide Find;
      hide Trim;
      hide Leaves;
      hide Waits;
      hide Delegable;
      hide HasItem;
      var reconciled := MutatePlan(store, parent, Reconcile, reconciling);
      forall plan: Plan
        ensures Leaves(store.runs, parent, reconciling, plan) <==> reconciled == Stored(plan) || reconciled == AsItWas(plan)
      {
        LeavesIs(store, reconciling, reconciled, plan);
      }
      if reconciled.GaveUp? || reconciled.Raised? {
        return Some(ReconcileThrew);
      }
      if !reconciled.NoPlan? {
        DelegableIs(reconciled.plan.items, itemId);
        HasItemIs(reconciled.plan.items, itemId);
        assert Leaves(store.runs, parent, reconciling, reconciled.plan);
      }
      var item := if reconciled.NoPlan? then None else Find(reconciled.plan.items, itemId);
      if item.None? {
        return Some(Declined(UnknownItem));
      }
      if !item.value.workerEligible || item.value.status != Pending {
        return Some(Declined(ItemNotReady));
      }
      if !Unblocked(reconciled.plan.items, item.value) {
        return Some(Declined(ItemBlocked));
      }
      if !roleKnown {
        return Some(Declined(UnknownRole));
      }
      if used[route] >= budget[route] {
        return Some(Declined(BudgetExhausted));
      }
      if metered && route == SmartRoute && Trim(parentTask) == "" {
        return Some(Declined(NoParentTask));
      }
      objection := None;
    }

    /** Gives a launched worker its item, or cancels it. */
    method AssignOrCancel(store: PlanStore, itemId: string, worker: RunId, assigning: seq<Interference>)
      returns (result: Dispatch)
      requires |assigning| == MAX_ATTEMPTS
      modifies this`cancelled, store`plans
      ensures result == Dispatched(worker) || result == AssignThrew(worker)
      ensures cancelled == if result.Dispatched? then old(cancelled) else old(cancelled) + {worker}
      ensures result.Dispatched? ==>
                exists k, p :: DecidedAt(store.runs, parent, AssignWorker(itemId, worker), assigning, k, Stored(p), store.plans)
    {
      hide DecidedAt;
      hide LosesRace;
      var assignment := MutatePlan(store, parent, AssignWorker(itemId, worker), assigning);
      if assignment.Stored? {
        return Dispatched(worker);
      }
      cancelled := cancelled + {worker};
      return AssignThrew(worker);
    }
  }
}
