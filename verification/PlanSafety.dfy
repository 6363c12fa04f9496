/** What every plan operation keeps, and what each one does when it saves. */
module PlanSafety {
  import opened Basics
  import opened Graphs
  import opened PlanModel

  function Nodes(items: seq<Item>): seq<Node> {
    seq(|items|, i requires 0 <= i < |items| => Node(items[i].id, items[i].deps))
  }

  ghost predicate GraphOk(nodes: seq<Node>) {
    && UniqueNodeIds(nodes)
    && !HasCycle(GraphOf(nodes))
    && forall n | n in nodes :: Distinct(n.deps) && forall d | d in n.deps :: exists m :: m in nodes && m.id == d
  }

  /** Work given to a worker is running or finished, and names the worker's run. */
  predicate ItemOk(item: Item) {
    item.owner == Worker ==> item.status != Pending && item.workerRun.Some?
  }

  ghost predicate ItemsOk(items: seq<Item>) {
    GraphOk(Nodes(items)) && forall item | item in items :: ItemOk(item)
  }

  function EligibleCount(items: seq<Item>): nat {
    if items == [] then 0
    else (if items[0].required && items[0].workerEligible then 1 else 0) + EligibleCount(items[1..])
  }

  /** Where workers are required there are required items for all of them, and one more that only
      the main agent may do. */
  predicate FanOutOk(items: seq<Item>, routes: seq<Route>) {
    routes != [] ==>
      EligibleCount(items) >= |routes| && exists item | item in items :: item.required && !item.workerEligible
  }

  /** The invariant of every plan that is ever saved. */
  ghost predicate PlanOk(plan: Plan) {
    && plan.revision >= 1
    && ItemsOk(plan.items)
    && FanOutOk(plan.items, plan.routes)
    && (plan.phase != Active ==> !HasOpenRequired(plan.items))
  }

  function Rank(phase: Phase): nat {
    match phase case Active => 0 case ReadyForAnswer => 1 case Answered => 2
  }

  // ----- lookups agree with positions -----

  lemma {:induction false} FindSound(items: seq<Item>, id: Id)
    ensures Find(items, id).Some? ==> Find(items, id).value in items && Find(items, id).value.id == id
    ensures Find(items, id).None? ==> forall item | item in items :: item.id != id
  {
    if items != [] {
      FindSound(items[1..], id);
      assert items == [items[0]] + items[1..];
    }
  }

  lemma IdsDiffer(items: seq<Item>, i: nat, j: nat)
    requires UniqueNodeIds(Nodes(items)) && i < |items| && j < |items|
    ensures items[i].id == items[j].id ==> i == j
  {
    assert Nodes(items)[i].id == items[i].id && Nodes(items)[j].id == items[j].id;
  }

  lemma FindAt(items: seq<Item>, k: nat)
    requires UniqueNodeIds(Nodes(items)) && k < |items|
    ensures Find(items, items[k].id) == Some(items[k])
  {
    FindSound(items, items[k].id);
    var found := Find(items, items[k].id);
    assert found.Some?;
    var j :| 0 <= j < |items| && items[j] == found.value;
    IdsDiffer(items, j, k);
  }

  lemma FindIndex(items: seq<Item>, id: Id) returns (k: nat)
    requires Find(items, id).Some?
    ensures k < |items| && items[k].id == id && Find(items, id) == Some(items[k])
  {
    FindSound(items, id);
    k :| 0 <= k < |items| && items[k] == Find(items, id).value;
  }

  // ----- updates by position -----

  lemma ReplaceKeepsNodes(items: seq<Item>, id: Id, with: Item -> Item)
    requires forall x: Item :: with(x).id == x.id && with(x).deps == x.deps
    ensures Nodes(ReplaceItem(items, id, with)) == Nodes(items)
  {
  }

  lemma ReplaceAt(items: seq<Item>, k: nat, with: Item -> Item)
    requires UniqueNodeIds(Nodes(items)) && k < |items|
    ensures ReplaceItem(items, items[k].id, with) == items[k := with(items[k])]
  {
    forall i | 0 <= i < |items|
      ensures items[i].id == items[k].id ==> i == k
    {
      IdsDiffer(items, i, k);
    }
  }

  lemma ReconcileKeepsNodes(runs: Runs, items: seq<Item>)
    ensures Nodes(ReconciledItems(runs, items)) == Nodes(items)
  {
  }

  // ----- submission -----

  lemma {:induction false} InputsChecked(known: set<Id>, inputs: seq<Input>, k: nat)
    requires FirstInputError(known, inputs) == None && k < |inputs|
    ensures InputError(known, inputs[k]) == None
  {
    if k > 0 {
      InputsChecked(known, inputs[1..], k - 1);
    }
  }

  lemma {:induction false} DedupeMeaning(ids: seq<Id>)
    ensures Distinct(Dedupe(ids)) && forall d :: d in Dedupe(ids) <==> d in ids
  {
    if ids != [] {
      DedupeMeaning(ids[..|ids| - 1]);
      assert ids == ids[..|ids| - 1] + [Last(ids)];
    }
  }

  lemma MergedNodes(inputs: seq<Input>, existing: Option<Plan>)
    ensures var nodes := Nodes(MergedItems(inputs, existing));
            |nodes| == |inputs| && forall k :: 0 <= k < |inputs| ==> nodes[k] == Node(inputs[k].id, Dedupe(inputs[k].deps))
  {
  }

  lemma DedupedEdge(before: seq<Node>, after: seq<Node>, a: Id, b: Id)
    requires |before| == |after| && UniqueNodeIds(before) && UniqueNodeIds(after)
    requires forall k :: 0 <= k < |before| ==> after[k] == Node(before[k].id, Dedupe(before[k].deps))
    ensures Edge(GraphOf(before), a, b) <==> Edge(GraphOf(after), a, b)
  {
    GraphOfKeys(before);
    GraphOfKeys(after);
    if k :| 0 <= k < |before| && before[k].id == a {
      GraphOfAt(before, k);
      GraphOfAt(after, k);
      DedupeMeaning(before[k].deps);
    }
  }

  lemma SubmittedEdges(inputs: seq<Input>, existing: Option<Plan>)
    requires UniqueInputIds(inputs)
    ensures UniqueNodeIds(Nodes(MergedItems(inputs, existing)))
    ensures HasCycle(GraphOf(Nodes(MergedItems(inputs, existing)))) <==> HasCycle(GraphOf(InputNodes(inputs)))
  {
    var before, after := InputNodes(inputs), Nodes(MergedItems(inputs, existing));
    MergedNodes(inputs, existing);
    forall a, b
      ensures Edge(GraphOf(before), a, b) <==> Edge(GraphOf(after), a, b)
    {
      DedupedEdge(before, after, a, b);
    }
    SameEdgesSameCycles(GraphOf(before), GraphOf(after));
  }

  lemma CheckedInputsKnown(inputs: seq<Input>, k: nat, d: Id) returns (j: nat)
    requires FirstInputError(InputIds(inputs), inputs) == None && k < |inputs| && d in inputs[k].deps
    ensures j < |inputs| && inputs[j].id == d
  {
    InputsChecked(InputIds(inputs), inputs, k);
    assert d in InputIds(inputs);
    var input :| input in inputs && input.id == d;
    j :| 0 <= j < |inputs| && inputs[j] == input;
  }

  ghost predicate DepsListed(nodes: seq<Node>) {
    forall n | n in nodes :: forall d | d in n.deps :: exists m :: m in nodes && m.id == d
  }

  lemma CheckedNodesKnown(inputs: seq<Input>)
    requires FirstInputError(InputIds(inputs), inputs) == None
    ensures DepsListed(InputNodes(inputs))
  {
    var nodes := InputNodes(inputs);
    forall n, d | n in nodes && d in n.deps
      ensures exists m :: m in nodes && m.id == d
    {
      var k :| 0 <= k < |nodes| && nodes[k] == n;
      var j := CheckedInputsKnown(inputs, k, d);
      assert nodes[j] in nodes && nodes[j].id == d;
    }
  }

  lemma DedupedDepsKnown(before: seq<Node>, after: seq<Node>)
    requires DepsListed(before) && |before| == |after|
    requires forall k :: 0 <= k < |before| ==> after[k] == Node(before[k].id, Dedupe(before[k].deps))
    ensures DepsListed(after) && forall n | n in after :: Distinct(n.deps)
  {
    forall n | n in after
      ensures Distinct(n.deps) && forall d | d in n.deps :: exists m :: m in after && m.id == d
    {
      var k :| 0 <= k < |after| && after[k] == n;
      DedupeMeaning(before[k].deps);
      assert before[k] in before;
      forall d | d in n.deps
        ensures exists m :: m in after && m.id == d
      {
        var m :| m in before && m.id == d;
        var j :| 0 <= j < |before| && before[j] == m;
        assert after[j] in after && after[j].id == d;
      }
    }
  }

  lemma MergedItemOk(input: Input, existing: Option<Plan>)
    requires existing.Some? ==> PlanOk(existing.value)
    ensures ItemOk(MergedItem(input, Prior(existing, input.id)))
  {
    if existing.Some? {
      FindSound(existing.value.items, input.id);
    }
  }

  lemma SubmittedItemsOk(inputs: seq<Input>, routes: seq<Route>, existing: Option<Plan>)
    requires SetError(inputs, routes, existing) == None
    requires existing.Some? ==> PlanOk(existing.value)
    ensures ItemsOk(MergedItems(inputs, existing))
  {
    var items := MergedItems(inputs, existing);
    forall k | 0 <= k < |items|
      ensures ItemOk(items[k])
    {
      MergedItemOk(inputs[k], existing);
    }
    SubmittedGraphOk(inputs, routes, existing);
  }

  lemma SubmittedGraphOk(inputs: seq<Input>, routes: seq<Route>, existing: Option<Plan>)
    requires SetError(inputs, routes, existing) == None
    ensures GraphOk(Nodes(MergedItems(inputs, existing)))
  {
    hide MergedItem;
    var items := MergedItems(inputs, existing);
    SubmittedEdges(inputs, existing);
    MergedNodes(inputs, existing);
    CheckedNodesKnown(inputs);
    DedupedDepsKnown(InputNodes(inputs), Nodes(items));
  }

  // ----- what every operation keeps -----

  /** A submission lists exactly the items submitted, in order. An item already in the plan keeps
      its owner, status and results, a new one starts out pending with the main agent, and no
      running work is dropped. */
  lemma SubmissionMerges(runs: Runs, inputs: seq<Input>, routes: seq<Route>, existing: Plan, i: nat)
    requires PlanOk(existing) && i < |inputs|
    requires Attempted(runs, Some(existing), SetPlan(inputs, routes)).Saves?
    ensures var next := Attempted(runs, Some(existing), SetPlan(inputs, routes)).plan;
            && |next.items| == |inputs| && next.routes == routes
            && var input, item := inputs[i], next.items[i];
               && item.id == input.id && item.task == Trim(input.task)
               && item.workerEligible == input.workerEligible && item.required == input.required
               && (forall d :: d in item.deps <==> d in input.deps) && Distinct(item.deps)
               && (forall k :: 0 <= k < |existing.items| && existing.items[k].id == input.id ==>
                     var was := existing.items[k];
                     item == was.(task := item.task, deps := item.deps, workerEligible := item.workerEligible, required := item.required))
               && ((forall k :: 0 <= k < |existing.items| ==> existing.items[k].id != input.id) ==>
                     item.owner == MainAgent && item.status == Pending && item.attempts == 0
                     && item.workerRun.None? && item.result == "" && item.error == "")
    ensures forall k :: 0 <= k < |existing.items| && existing.items[k].status == Running ==>
              exists j :: 0 <= j < |inputs| && inputs[j].id == existing.items[k].id
  {
    DedupeMeaning(inputs[i].deps);
    forall k | 0 <= k < |existing.items| && existing.items[k].id == inputs[i].id
      ensures Prior(Some(existing), inputs[i].id) == Some(existing.items[k])
    {
      FindAt(existing.items, k);
    }
    FindSound(existing.items, inputs[i].id);
    hide Dedupe;
    hide PlanOk;
    forall k | 0 <= k < |existing.items| && existing.items[k].status == Running
      ensures exists j :: 0 <= j < |inputs| && inputs[j].id == existing.items[k].id
    {
      RunningStaysListed(inputs, existing, k);
    }
  }

  lemma RunningStaysListed(inputs: seq<Input>, existing: Plan, k: nat)
    requires k < |existing.items| && existing.items[k].status == Running
    requires ExistingError(Some(existing), InputIds(inputs)) == None
    ensures exists j :: 0 <= j < |inputs| && inputs[j].id == existing.items[k].id
  {
    assert existing.items[k] in existing.items;
    var input :| input in inputs && input.id == existing.items[k].id;
    var j :| 0 <= j < |inputs| && inputs[j] == input;
  }

  predicate SameFlags(a: Item, b: Item) {
    a.required == b.required && a.workerEligible == b.workerEligible
  }

  lemma {:induction false} SameFlagsCount(a: seq<Item>, b: seq<Item>)
    requires |a| == |b| && forall i :: 0 <= i < |a| ==> SameFlags(a[i], b[i])
    ensures EligibleCount(a) == EligibleCount(b)
  {
    if a != [] {
      assert SameFlags(a[0], b[0]);
      assert forall i :: 0 <= i < |a[1..]| ==> a[1..][i] == a[i + 1] && b[1..][i] == b[i + 1];
      SameFlagsCount(a[1..], b[1..]);
    }
  }

  lemma SameFlagsFanOut(a: seq<Item>, b: seq<Item>, routes: seq<Route>)
    requires |a| == |b| && forall i :: 0 <= i < |a| ==> SameFlags(a[i], b[i])
    requires FanOutOk(a, routes)
    ensures FanOutOk(b, routes)
  {
    SameFlagsCount(a, b);
    hide EligibleCount;
    if routes != [] {
      var item :| item in a && item.required && !item.workerEligible;
      var i :| 0 <= i < |a| && a[i] == item;
      assert SameFlags(a[i], b[i]) && b[i] in b;
    }
  }

  lemma MergedTail(inputs: seq<Input>, existing: Option<Plan>)
    requires inputs != []
    ensures var items := MergedItems(inputs, existing);
            items != [] && items[1..] == MergedItems(inputs[1..], existing)
            && items[0].required == inputs[0].required && items[0].workerEligible == inputs[0].workerEligible
  {
  }

  lemma {:induction false} MergedCount(inputs: seq<Input>, existing: Option<Plan>)
    ensures EligibleCount(MergedItems(inputs, existing)) == CountEligible(inputs)
  {
    if inputs != [] {
      MergedTail(inputs, existing);
      hide MergedItems;
      MergedCount(inputs[1..], existing);
    }
  }

  lemma SubmittedFanOut(inputs: seq<Input>, routes: seq<Route>, existing: Option<Plan>)
    requires FanOutError(inputs, routes) == None
    ensures FanOutOk(MergedItems(inputs, existing), routes)
  {
    MergedCount(inputs, existing);
    hide CountEligible;
    hide EligibleCount;
    if routes != [] {
      var input :| input in inputs && input.required && !input.workerEligible;
      var i :| 0 <= i < |inputs| && inputs[i] == input;
      MainOnlyMerged(inputs, existing, i);
    }
  }

  lemma MainOnlyMerged(inputs: seq<Input>, existing: Option<Plan>, i: nat)
    requires i < |inputs| && inputs[i].required && !inputs[i].workerEligible
    ensures exists item | item in MergedItems(inputs, existing) :: item.required && !item.workerEligible
  {
    var items := MergedItems(inputs, existing);
    assert items[i] in items;
  }

  /** No operation on an existing plan changes what it requires of the main agent and of workers. */
  lemma FanOutKept(runs: Runs, plan: Plan, op: Op)
    requires FanOutOk(plan.items, plan.routes) && !op.SetPlan? && Attempted(runs, Some(plan), op).Saves?
    ensures var next := Attempted(runs, Some(plan), op).plan; FanOutOk(next.items, next.routes)
  {
    hide StillMissing;
    hide EligibleCount;
    hide FanOutOk;
    hide Find;
    hide Unblocked;
    hide HasOpenRequired;
    hide Report;
    hide Trim;
    var next := Attempted(runs, Some(plan), op).plan;
    assert next.routes == plan.routes && |next.items| == |plan.items|;
    assert forall i :: 0 <= i < |plan.items| ==> SameFlags(plan.items[i], next.items[i]);
    SameFlagsFanOut(plan.items, next.items, plan.routes);
  }

  lemma UpdateKeepsItems(plan: Plan, id: Id, status: Status, report: string)
    requires PlanOk(plan) && UpdateChange(plan, id, status, report).Replace?
    ensures ItemsOk(UpdateChange(plan, id, status, report).plan.items)
  {
    var items := UpdateChange(plan, id, status, report).plan.items;
    ReplaceKeepsNodes(plan.items, id, (x: Item) => UpdatedItem(x, status, report));
    assert Nodes(items) == Nodes(plan.items);
  }

  lemma OpenStaysOpen(before: seq<Item>, after: seq<Item>)
    requires |before| == |after|
    requires forall i :: 0 <= i < |after| ==> OpenRequired(after[i]) ==> OpenRequired(before[i])
    ensures HasOpenRequired(after) ==> HasOpenRequired(before)
  {
    if item :| item in after && OpenRequired(item) {
      var i :| 0 <= i < |after| && after[i] == item;
      assert before[i] in before;
    }
  }

  lemma AssignKeepsItems(plan: Plan, id: Id, worker: RunId)
    requires PlanOk(plan) && AssignChange(plan, id, worker).Replace?
    ensures var next := AssignChange(plan, id, worker).plan;
            ItemsOk(next.items) && next.phase == plan.phase
            && (plan.phase != Active ==> !HasOpenRequired(next.items))
  {
    var next := AssignChange(plan, id, worker).plan;
    ReplaceKeepsNodes(plan.items, id, (x: Item) => AssignedItem(x, worker));
    assert Nodes(next.items) == Nodes(plan.items);
    var k := FindIndex(plan.items, id);
    ReplaceAt(plan.items, k, (x: Item) => AssignedItem(x, worker));
    OpenStaysOpen(plan.items, next.items);
  }

  lemma ReconcileKeepsItems(runs: Runs, plan: Plan)
    requires PlanOk(plan)
    ensures ItemsOk(ReconciledItems(runs, plan.items))
    ensures !HasOpenRequired(plan.items) ==> !HasOpenRequired(ReconciledItems(runs, plan.items))
  {
    var items := ReconciledItems(runs, plan.items);
    ReconcileKeepsNodes(runs, plan.items);
    OpenStaysOpen(plan.items, items);
  }

  lemma SavedItemsOk(runs: Runs, base: Option<Plan>, op: Op)
    requires base.Some? ==> PlanOk(base.value)
    requires Attempted(runs, base, op).Saves?
    ensures var next := Attempted(runs, base, op).plan;
            next.revision >= 1 && ItemsOk(next.items) && (next.phase != Active ==> !HasOpenRequired(next.items))
  {
    hide FanOutOk;
    hide StillMissing;
    hide Trim;
    hide Report;
    hide FanOutError;
    match op
    case SetPlan(inputs, routes) => SubmittedItemsOk(inputs, routes, base);
    case UpdateItem(id, status, report) =>
      UpdateKeepsItems(base.value, id, status, report);
    case AssignWorker(id, worker) => AssignKeepsItems(base.value, id, worker);
    case Reconcile => ReconcileKeepsItems(runs, base.value);
    case MarkReady =>
    case CompleteAfterAnswer =>
  }

  /** Every plan an operation saves satisfies the invariant, whatever it was computed from. */
  lemma SavedPlanOk(runs: Runs, base: Option<Plan>, op: Op)
    requires base.Some? ==> PlanOk(base.value)
    requires Attempted(runs, base, op).Saves?
    ensures PlanOk(Attempted(runs, base, op).plan)
  {
    SavedItemsOk(runs, base, op);
    hide ItemsOk;
    if op.SetPlan? {
      SubmittedFanOut(op.inputs, op.requiredRoutes, base);
      hide FanOutOk;
    } else {
      FanOutKept(runs, base.value, op);
    }
  }

  /** A required item is not completed. */
  predicate WorkOpen(plan: Plan) {
    exists k :: 0 <= k < |plan.items| && plan.items[k].required && plan.items[k].status != Completed
  }

  /** The item's current worker was launched on the route. */
  predicate RanOn(runs: Runs, item: Item, route: Route) {
    item.workerRun.Some? && item.workerRun.value in runs && runs[item.workerRun.value].route == Some(route)
  }

  function LaunchesOn(runs: Runs, items: seq<Item>, route: Route): nat {
    |set k | 0 <= k < |items| && RanOn(runs, items[k], route)|
  }

  /** Fewer of the items' workers ran on some route than are required on it. */
  ghost predicate WorkersOwed(runs: Runs, plan: Plan) {
    exists route :: LaunchesOn(runs, plan.items, route) < multiset(plan.routes)[route]
  }

  /** The phase only moves forward, one save at a time: completion happens only in the
      runtime's own step from a ready plan, readiness exactly when nothing required is open
      and no required worker route is missing. */
  lemma PhaseStep(runs: Runs, base: Option<Plan>, op: Op)
    requires base.Some? ==> PlanOk(base.value)
    requires Attempted(runs, base, op).Saves?
    ensures var next := Attempted(runs, base, op).plan;
            var was := if base.Some? then base.value.phase else Active;
            && Rank(was) <= Rank(next.phase)
            && next.revision == (if base.Some? then base.value.revision else 0) + 1
            && (next.phase == Active <==> was == Active && (WorkOpen(next) || WorkersOwed(runs, next)))
            && (next.phase == Answered <==> was == Answered || (op.CompleteAfterAnswer? && was == ReadyForAnswer))
  {
    PhaseDecided(runs, base, op);
    hide Attempted;
    var next := Attempted(runs, base, op).plan;
    OpenMeans(next);
    OwedMeans(runs, next);
  }

  lemma PhaseDecided(runs: Runs, base: Option<Plan>, op: Op)
    requires base.Some? ==> PlanOk(base.value)
    requires Attempted(runs, base, op).Saves?
    ensures var next := Attempted(runs, base, op).plan;
            var was := if base.Some? then base.value.phase else Active;
            && Rank(was) <= Rank(next.phase)
            && next.revision == (if base.Some? then base.value.revision else 0) + 1
            && (next.phase == Active <==> was == Active && (HasOpenRequired(next.items) || Missing(runs, next) != []))
            && (next.phase == Answered <==> was == Answered || (op.CompleteAfterAnswer? && was == ReadyForAnswer))
  {
    match op
    case SetPlan(inputs, routes) =>
    case UpdateItem(id, status, report) =>
    case AssignWorker(id, worker) =>
    case Reconcile =>
    case MarkReady =>
    case CompleteAfterAnswer =>
  }

  lemma OpenMeans(plan: Plan)
    ensures HasOpenRequired(plan.items) <==> WorkOpen(plan)
  {
    if item :| item in plan.items && OpenRequired(item) {
      var k :| 0 <= k < |plan.items| && plan.items[k] == item;
    }
    if k :| 0 <= k < |plan.items| && plan.items[k].required && plan.items[k].status != Completed {
      assert plan.items[k] in plan.items;
    }
  }

  lemma {:induction false} LaunchedApart(runs: Runs, a: seq<Item>, b: seq<Item>)
    ensures Launched(runs, a + b) == Launched(runs, a) + Launched(runs, b)
  {
    if a == [] {
      assert a + b == b;
    } else {
      assert (a + b)[1..] == a[1..] + b;
      LaunchedApart(runs, a[1..], b);
    }
  }

  /** The routes credited are those the items' current workers ran on, each as often as it occurs. */
  lemma {:induction false} LaunchedCounts(runs: Runs, items: seq<Item>, route: Route)
    ensures Launched(runs, items)[route] == LaunchesOn(runs, items, route)
  {
    var all := set k | 0 <= k < |items| && RanOn(runs, items[k], route);
    if items == [] {
      assert all == {};
    } else {
      var n := |items| - 1;
      assert items == items[..n] + [items[n]];
      LaunchedApart(runs, items[..n], [items[n]]);
      LaunchedCounts(runs, items[..n], route);
      LaunchesOnLast(runs, items, route);
    }
  }

  lemma LaunchesOnLast(runs: Runs, items: seq<Item>, route: Route)
    requires items != []
    ensures var n := |items| - 1;
            LaunchesOn(runs, items, route) == LaunchesOn(runs, items[..n], route) + if RanOn(runs, items[n], route) then 1 else 0
  {
    var n := |items| - 1;
    var before := set k | 0 <= k < |items[..n]| && RanOn(runs, items[..n][k], route);
    var all := set k | 0 <= k < |items| && RanOn(runs, items[k], route);
    assert all == if RanOn(runs, items[n], route) then before + {n} else before;
  }

  /** Of each route as many launches are still missing as are required beyond those made. */
  lemma MissingExactly(runs: Runs, plan: Plan, route: Route)
    ensures multiset(Missing(runs, plan))[route] ==
            Max(0, multiset(plan.routes)[route] - LaunchesOn(runs, plan.items, route))
  {
    MissingIsDifference(runs, plan.items, plan.routes);
    LaunchedCounts(runs, plan.items, route);
  }

  lemma OwedMeans(runs: Runs, plan: Plan)
    ensures Missing(runs, plan) != [] <==> WorkersOwed(runs, plan)
  {
    hide Missing;
    hide LaunchesOn;
    var missing := Missing(runs, plan);
    if missing != [] {
      assert missing[0] in multiset(missing);
      MissingExactly(runs, plan, missing[0]);
    }
    if route :| LaunchesOn(runs, plan.items, route) < multiset(plan.routes)[route] {
      MissingExactly(runs, plan, route);
      assert route in multiset(missing);
    }
  }

  lemma RevisionStep(runs: Runs, base: Option<Plan>, op: Op)
    requires Attempted(runs, base, op).Saves?
    ensures Attempted(runs, base, op).plan.revision == (if base.Some? then base.value.revision else 0) + 1
  {
  }

  lemma OnlySubmissionCreates(runs: Runs, op: Op)
    requires Attempted(runs, None, op).Saves?
    ensures op.SetPlan?
  {
  }

  // ----- delegation -----

  predicate CompletedAt(items: seq<Item>, id: Id) {
    exists m :: 0 <= m < |items| && items[m].id == id && items[m].status == Completed
  }

  lemma DoneMeaning(items: seq<Item>, id: Id)
    requires UniqueNodeIds(Nodes(items))
    ensures DoneIn(items, id) <==> CompletedAt(items, id)
  {
    if DoneIn(items, id) {
      var k := FindIndex(items, id);
    }
    if CompletedAt(items, id) {
      var m :| 0 <= m < |items| && items[m].id == id && items[m].status == Completed;
      FindAt(items, m);
    }
  }

  predicate ReadyAt(items: seq<Item>, k: int) {
    0 <= k < |items| && forall d | d in items[k].deps :: CompletedAt(items, d)
  }

  lemma ReadyMeaning(items: seq<Item>, k: nat)
    requires UniqueNodeIds(Nodes(items)) && k < |items|
    ensures Unblocked(items, items[k]) <==> ReadyAt(items, k)
  {
    forall d | d in items[k].deps
      ensures DoneIn(items, d) <==> CompletedAt(items, d)
    {
      DoneMeaning(items, d);
    }
  }

  /** Delegation succeeds on exactly the pending, worker-eligible items whose dependencies
      are completed, provided another required item stays with the main agent; it changes
      that item alone and records the worker. */
  lemma AssignExactly(runs: Runs, plan: Plan, k: nat, worker: RunId)
    requires PlanOk(plan) && k < |plan.items|
    ensures var item := plan.items[k];
            var attempt := Attempted(runs, Some(plan), AssignWorker(item.id, worker));
            && (attempt.Saves? <==>
                  item.workerEligible && item.status == Pending && ReadyAt(plan.items, k)
                  && exists j :: 0 <= j < |plan.items| && j != k && plan.items[j].required && plan.items[j].owner == MainAgent)
            && (attempt.Saves? ==>
                  var next := attempt.plan.items;
                  && next == plan.items[k := next[k]]
                  && next[k].owner == Worker && next[k].status == Running && next[k].workerRun == Some(worker)
                  && next[k].attempts == item.attempts + 1 && next[k].error == ""
                  && next[k].(owner := item.owner, status := item.status, workerRun := item.workerRun,
                              attempts := item.attempts, error := item.error) == item
                  && exists j :: 0 <= j < |plan.items| && j != k && attempt.plan.items[j].required && attempt.plan.items[j].owner == MainAgent)
  {
    var item := plan.items[k];
    FindAt(plan.items, k);
    ReadyMeaning(plan.items, k);
    ReplaceAt(plan.items, k, (x: Item) => AssignedItem(x, worker));
    var items := plan.items[k := AssignedItem(item, worker)];
    if j :| 0 <= j < |plan.items| && j != k && RequiredOnMain(plan.items[j]) {
      assert items[j] == plan.items[j] && items[j] in items;
    }
    if x :| x in items && RequiredOnMain(x) {
      var j :| 0 <= j < |items| && items[j] == x;
      assert j != k;
      assert RequiredOnMain(plan.items[j]);
    }
  }

  /** The main agent may start exactly the items whose dependencies are completed and which
      no worker is running, and may finish or reopen any item no worker is running. */
  lemma UpdateExactly(runs: Runs, plan: Plan, k: nat, status: Status, report: string)
    requires PlanOk(plan) && k < |plan.items|
    ensures var item := plan.items[k];
            var attempt := Attempted(runs, Some(plan), UpdateItem(item.id, status, report));
            && (attempt.Saves? <==>
                  plan.phase == Active && !(item.owner == Worker && item.status == Running)
                  && (status == Running ==> ReadyAt(plan.items, k)))
            && (attempt.Saves? ==>
                  var next := attempt.plan.items;
                  && next == plan.items[k := UpdatedItem(item, status, report)]
                  && next[k].owner == MainAgent && next[k].status == status
                  && next[k].(owner := item.owner, status := item.status, result := item.result, error := item.error) == item
                  && if status == Completed
                     then next[k].error == "" && next[k].result != ""
                          && (Trim(report) != "" ==> next[k].result == Trim(report))
                          && (Trim(report) == "" && item.result != "" ==> next[k].result == item.result)
                          && (Trim(report) == "" && item.result == "" ==> next[k].result == "Completed by main agent.")
                     else next[k].error == item.error && next[k].result == item.result)
  {
    FindAt(plan.items, k);
    ReadyMeaning(plan.items, k);
    ReplaceAt(plan.items, k, (x: Item) => UpdatedItem(x, status, report));
  }

  /** `next` starts the i-th item of `items`, found there under the same id. */
  predicate Starts(items: seq<Item>, i: int, next: seq<Item>) {
    0 <= i < |items| && items[i].status != Running
    && exists j :: 0 <= j < |next| && next[j].id == items[i].id && next[j].status == Running
  }

  /** Dependency order holds at the step that starts an item: nothing begins to run unless
      its dependencies were completed in the plan the step was applied to. */
  lemma StartsOnlyReadyItems(runs: Runs, plan: Plan, op: Op, i: nat)
    requires PlanOk(plan) && Attempted(runs, Some(plan), op).Saves?
    requires Starts(plan.items, i, Attempted(runs, Some(plan), op).plan.items)
    ensures (op.UpdateItem? || op.AssignWorker?) && op.itemId == plan.items[i].id && ReadyAt(plan.items, i)
  {
    match op
    case SetPlan(inputs, routes) => ResubmissionStartsNothing(inputs, plan, i);
    case UpdateItem(id, status, report) =>
      ReplacementStarts(plan.items, i, id, (x: Item) => UpdatedItem(x, status, report));
      FindAt(plan.items, i);
      ReadyMeaning(plan.items, i);
    case AssignWorker(id, worker) =>
      ReplacementStarts(plan.items, i, id, (x: Item) => AssignedItem(x, worker));
      FindAt(plan.items, i);
      ReadyMeaning(plan.items, i);
    case Reconcile =>
      ReconcileStartsNothing(runs, plan.items, i);
      SameItemsStartNothing(plan.items, i);
    case MarkReady => SameItemsStartNothing(plan.items, i);
    case CompleteAfterAnswer => SameItemsStartNothing(plan.items, i);
  }

  lemma ReplacementStarts(items: seq<Item>, i: nat, id: Id, with: Item -> Item)
    requires UniqueNodeIds(Nodes(items)) && (forall x: Item :: with(x).id == x.id)
    requires Starts(items, i, ReplaceItem(items, id, with))
    ensures id == items[i].id && with(items[i]).status == Running
  {
    var next := ReplaceItem(items, id, with);
    var j :| 0 <= j < |next| && next[j].id == items[i].id && next[j].status == Running;
    IdsDiffer(items, i, j);
  }

  lemma ReconcileStartsNothing(runs: Runs, items: seq<Item>, i: nat)
    requires UniqueNodeIds(Nodes(items))
    ensures !Starts(items, i, ReconciledItems(runs, items))
  {
    var next := ReconciledItems(runs, items);
    forall j | 0 <= j < |next| && i < |items| && next[j].id == items[i].id
      ensures next[j].status == Running ==> items[i].status == Running
    {
      IdsDiffer(items, i, j);
    }
  }

  lemma SameItemsStartNothing(items: seq<Item>, i: nat)
    requires UniqueNodeIds(Nodes(items))
    ensures !Starts(items, i, items)
  {
    forall j | 0 <= j < |items| && i < |items| && items[j].id == items[i].id
      ensures items[j].status == items[i].status
    {
      IdsDiffer(items, i, j);
    }
  }

  lemma ResubmissionStartsNothing(inputs: seq<Input>, plan: Plan, i: nat)
    requires ItemsOk(plan.items)
    ensures !Starts(plan.items, i, MergedItems(inputs, Some(plan)))
  {
    if i < |plan.items| {
      FindAt(plan.items, i);
    }
  }

  // ----- reconciliation -----

  /** A worker is running the item, and that worker's run is over. */
  predicate RunOver(runs: Runs, item: Item) {
    && item.owner == Worker && item.status == Running && item.workerRun.Some? && item.workerRun.value in runs
    && var status := runs[item.workerRun.value].status;
       status == RunCompleted || status == RunFailed || status == RunCancelled || status == RunInterrupted
  }

  /** Reconciling settles exactly the worker items whose run has ended: a completed run
      completes the item with the run's report, any other end returns the item to the main
      agent as pending; all other items stay as they are. */
  lemma ReconcileExactly(runs: Runs, plan: Plan, k: nat)
    requires k < |plan.items|
    ensures var item, next := plan.items[k], ReconciledItems(runs, plan.items)[k];
            && (!RunOver(runs, item) ==> next == item)
            && (RunOver(runs, item) ==>
                  && !RunOver(runs, next)
                  && next.(owner := item.owner, status := item.status, result := item.result, error := item.error) == item
                  && if runs[item.workerRun.value].status == RunCompleted
                     then
                       var report := Report(runs[item.workerRun.value]);
                       next.owner == Worker && next.status == Completed && next.error == ""
                       && next.result == if report != "" then report else "Worker completed without a written report."
                     else
                       var error := runs[item.workerRun.value].error;
                       next.owner == MainAgent && next.status == Pending && next.result == item.result
                       && next.error == if error != "" then error else "Worker ended; reassigned to the main agent.")
  {
  }

  lemma {:induction false} SameWorkersSameMissing(runs: Runs, a: seq<Item>, b: seq<Item>, remaining: seq<Route>)
    requires |a| == |b| && forall i :: 0 <= i < |a| ==> a[i].workerRun == b[i].workerRun
    ensures StillMissing(runs, a, remaining) == StillMissing(runs, b, remaining)
  {
    if a != [] {
      assert a[0].workerRun == b[0].workerRun;
      var launched := LaunchedRoute(runs, a[0]);
      SameWorkersSameMissing(runs, a[1..], b[1..],
                             if launched.Some? then RemoveFirst(remaining, launched.value) else remaining);
    }
  }

  /** Reconciliation leaves the plan reconciled and promoted: running it again saves nothing. */
  lemma ReconcileSettles(runs: Runs, plan: Plan)
    requires PlanOk(plan)
    ensures var attempt := Attempted(runs, Some(plan), Reconcile);
            (attempt.Saves? || attempt == Unchanged(plan))
            && var settled := attempt.plan;
               && settled.items == ReconciledItems(runs, plan.items)
               && Attempted(runs, Some(settled), Reconcile) == Unchanged(settled)
  {
    if !exists item | item in plan.items :: Stale(runs, item) {
      assert ReconciledItems(runs, plan.items) == plan.items;
    }
    var settled := Attempted(runs, Some(plan), Reconcile).plan;
    forall item | item in settled.items
      ensures !Stale(runs, item)
    {
      var k :| 0 <= k < |settled.items| && settled.items[k] == item;
      ReconcileExactly(runs, plan, k);
    }
  }

  // ----- required worker launches -----

  lemma {:induction false} RemoveFirstCounts(routes: seq<Route>, route: Route)
    ensures multiset(RemoveFirst(routes, route)) == multiset(routes) - multiset{route}
  {
    if routes != [] {
      var first, rest := routes[0], routes[1..];
      assert routes == [first] + rest;
      if first != route {
        RemoveFirstCounts(rest, route);
        TakeFromRest(first, route, multiset(rest));
        assert multiset([first] + RemoveFirst(rest, route)) == multiset{first} + multiset(RemoveFirst(rest, route));
      }
    }
  }

  lemma TakeFromRest(kept: Route, taken: Route, rest: multiset<Route>)
    requires kept != taken
    ensures multiset{kept} + (rest - multiset{taken}) == (multiset{kept} + rest) - multiset{taken}
  {
  }

  /** What is reported missing is the multiset difference of required and launched routes. */
  lemma {:induction false} MissingIsDifference(runs: Runs, items: seq<Item>, remaining: seq<Route>)
    ensures multiset(StillMissing(runs, items, remaining)) == multiset(remaining) - Launched(runs, items)
  {
    if items != [] {
      var launched := LaunchedRoute(runs, items[0]);
      if launched.Some? {
        RemoveFirstCounts(remaining, launched.value);
        MissingIsDifference(runs, items[1..], RemoveFirst(remaining, launched.value));
      } else {
        MissingIsDifference(runs, items[1..], remaining);
      }
    }
  }

  lemma {:induction false} LaunchedAt(runs: Runs, items: seq<Item>, k: nat, item: Item)
    requires k < |items|
    ensures Launched(runs, items[k := item]) + Credit(runs, items[k]) == Launched(runs, items) + Credit(runs, item)
  {
    var after := items[k := item];
    assert Launched(runs, items) == Credit(runs, items[0]) + Launched(runs, items[1..]);
    assert Launched(runs, after) == Credit(runs, after[0]) + Launched(runs, after[1..]);
    if k > 0 {
      assert after[1..] == items[1..][k - 1 := item];
      LaunchedAt(runs, items[1..], k - 1, item);
      AddToBoth(Credit(runs, items[0]), Launched(runs, after[1..]), Credit(runs, items[k]),
                Launched(runs, items[1..]), Credit(runs, item));
    } else {
      assert after[1..] == items[1..];
    }
  }

  /** The credit one item contributes towards the required worker routes. */
  function Credit(runs: Runs, item: Item): multiset<Route> {
    var launched := LaunchedRoute(runs, item);
    if launched.Some? then multiset{launched.value} else multiset{}
  }

  /** Delegating an item credits the new worker's route and withdraws the credit of the
      item's previous worker, so re-delegation can make a required route missing again. */
  lemma DelegationCredit(runs: Runs, plan: Plan, k: nat, worker: RunId)
    requires PlanOk(plan) && k < |plan.items|
    requires Attempted(runs, Some(plan), AssignWorker(plan.items[k].id, worker)).Saves?
    ensures Launched(runs, Attempted(runs, Some(plan), AssignWorker(plan.items[k].id, worker)).plan.items)
            + Credit(runs, plan.items[k]) ==
            Launched(runs, plan.items) + Credit(runs, plan.items[k].(workerRun := Some(worker)))
  {
    hide Attempted;
    hide Launched;
    AssignExactly(runs, plan, k, worker);
    var next := Attempted(runs, Some(plan), AssignWorker(plan.items[k].id, worker)).plan.items;
    hide PlanOk;
    LaunchedAt(runs, plan.items, k, next[k]);
  }

  lemma AssignKeepsRoutes(runs: Runs, plan: Plan, id: Id, worker: RunId)
    requires Attempted(runs, Some(plan), AssignWorker(id, worker)).Saves?
    ensures Attempted(runs, Some(plan), AssignWorker(id, worker)).plan.routes == plan.routes
  {
  }

  /** Delegating an item makes a route missing once more exactly when the item's previous worker
      ran on it, the new one does not, and no launch of that route was to spare. */
  lemma MissingAgainExactly(runs: Runs, plan: Plan, k: nat, worker: RunId, route: Route)
    requires PlanOk(plan) && k < |plan.items|
    requires Attempted(runs, Some(plan), AssignWorker(plan.items[k].id, worker)).Saves?
    ensures var next := Attempted(runs, Some(plan), AssignWorker(plan.items[k].id, worker)).plan;
            multiset(Missing(runs, next))[route] > multiset(Missing(runs, plan))[route] <==>
            && LaunchedRoute(runs, plan.items[k]) == Some(route)
            && LaunchedRoute(runs, plan.items[k].(workerRun := Some(worker))) != Some(route)
            && Launched(runs, plan.items)[route] <= multiset(plan.routes)[route]
  {
    hide Attempted;
    hide Launched;
    hide StillMissing;
    hide PlanOk;
    hide LaunchedRoute;
    var next := Attempted(runs, Some(plan), AssignWorker(plan.items[k].id, worker)).plan;
    AssignKeepsRoutes(runs, plan, plan.items[k].id, worker);
    DelegationCredit(runs, plan, k, worker);
    MissingIsDifference(runs, plan.items, plan.routes);
    MissingIsDifference(runs, next.items, plan.routes);
    var before, after := Launched(runs, plan.items), Launched(runs, next.items);
    var withdrawn, granted := Credit(runs, plan.items[k]), Credit(runs, plan.items[k].(workerRun := Some(worker)));
    assert (after + withdrawn)[route] == (before + granted)[route];
  }

  lemma {:induction false} TextSplit(a: seq<RunEvent>, b: seq<RunEvent>)
    ensures TextOf(a + b) == TextOf(a) + TextOf(b)
  {
    if a == [] {
      assert a + b == b;
    } else {
      assert (a + b)[1..] == a[1..] + b;
      TextSplit(a[1..], b);
    }
  }

  /** What the assistant says in each event; other events say nothing. */
  function Said(events: seq<RunEvent>): seq<string> {
    seq(|events|, i requires 0 <= i < |events| => match events[i] case AssistantText(text) => text case OtherEvent => "")
  }

  lemma {:induction false} TextInOrder(events: seq<RunEvent>)
    ensures TextOf(events) == Flatten(Said(events))
  {
    if events != [] {
      assert Said(events)[1..] == Said(events[1..]);
      TextInOrder(events[1..]);
    }
  }

  /** The report collected is the assistant's text in the first thousand events, all of it and in
      order. */
  lemma ReportInOrder(run: WorkerRun)
    ensures Report(run) == Flatten(Said(run.events[..Min(|run.events|, 1000)]))
  {
    TextInOrder(run.events[..Min(|run.events|, 1000)]);
  }

  /** The collected report is the worker's whole text exactly when nothing was written
      after the first page of its events. */
  lemma ReportIsWholeText(run: WorkerRun)
    ensures Report(run) == TextOf(run.events) <==>
            TextOf(run.events[Min(|run.events|, EVENT_READ_LIMIT)..]) == ""
  {
    var n := Min(|run.events|, EVENT_READ_LIMIT);
    assert run.events == run.events[..n] + run.events[n..];
    TextSplit(run.events[..n], run.events[n..]);
  }
}
