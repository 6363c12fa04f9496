/** The plan operations as they run against the store. */
module PlanTools {
  import opened Basics
  import opened Graphs
  import opened PlanModel
  import opened PlanSafety
  import CycleChecking

  type PlanTable = map<RunId, Plan>

  function Lookup(plans: PlanTable, runId: RunId): Option<Plan> {
    if runId in plans then Some(plans[runId]) else None
  }

  function RevisionOf(plan: Option<Plan>): Option<nat> {
    if plan.Some? then Some(plan.value.revision) else None
  }

  /** The durable store, reduced to plans and the worker runs they refer to. */
  class PlanStore {
    var plans: PlanTable
    var runs: Runs

    constructor ()
      ensures plans == map[] && runs == map[]
    {
      plans, runs := map[], map[];
    }

    /** Refuses only a save whose expected revision is given and no longer current. A save
        that expects nothing is not checked against an existing plan. */
    method SaveRunPlan(runId: RunId, plan: Plan, expected: Option<nat>) returns (saved: bool)
      modifies this`plans
      ensures saved <==> expected.None? || (runId in old(plans) && old(plans)[runId].revision == expected.value)
      ensures plans == if saved then old(plans)[runId := plan] else old(plans)
    {
      var existing := Lookup(plans, runId);
      if expected.Some? && RevisionOf(existing) != expected {
        return false;
      }
      plans := plans[runId := plan];
      return true;
    }
  }

  lemma {:induction false} RemoveFirstAt(routes: seq<Route>, route: Route, index: nat)
    requires index <= |routes| && route !in routes[..index] && (index < |routes| ==> routes[index] == route)
    ensures RemoveFirst(routes, route) ==
            if index < |routes| then routes[..index] + routes[index + 1..] else routes
  {
    if index > 0 {
      assert routes[0] == routes[..index][0];
      assert routes[1..][..index - 1] == routes[..index][1..];
      RemoveFirstAt(routes[1..], route, index - 1);
      assert routes == [routes[0]] + routes[1..];
    }
  }

  method StrikeOut(routes: seq<Route>, route: Route) returns (rest: seq<Route>)
    ensures rest == RemoveFirst(routes, route)
  {
    var index := IndexOf(routes, route);
    RemoveFirstAt(routes, route, if index >= 0 then index else |routes|);
    assert routes[..|routes|] == routes;
    rest := if index >= 0 then routes[..index] + routes[index + 1..] else routes;
  }

  /** Strikes out one required route for every launched worker. */
  method MissingRequiredWorkers(runs: Runs, plan: Plan) returns (remaining: seq<Route>)
    ensures remaining == Missing(runs, plan)
    ensures multiset(remaining) == multiset(plan.routes) - Launched(runs, plan.items)
  {
    remaining := plan.routes;
    var i := 0;
    while i < |plan.items|
      invariant 0 <= i <= |plan.items|
      invariant StillMissing(runs, plan.items[i..], remaining) == Missing(runs, plan)
    {
      assert plan.items[i..][0] == plan.items[i] && plan.items[i..][1..] == plan.items[i + 1..];
      var launched := LaunchedRoute(runs, plan.items[i]);
      if launched.Some? {
        remaining := StrikeOut(remaining, launched.value);
      }
      i := i + 1;
    }
    MissingIsDifference(runs, plan.items, plan.routes);
  }

  // ----- the compare-and-swap loop -----

  /** What other writers left in the plan table before one attempt's read and its save. */
  datatype Interference = Interference(atRead: PlanTable, atSave: PlanTable)

  datatype Outcome = Stored(plan: Plan) | AsItWas(plan: Plan) | NoPlan | Raised(error: PlanError) | GaveUp

  /** The attempt had something to save but the plan had changed in the meantime. */
  ghost predicate LosesRace(runs: Runs, runId: RunId, op: Op, round: Interference) {
    Attempted(runs, Lookup(round.atRead, runId), op).Saves?
    && RevisionOf(Lookup(round.atSave, runId)) != RevisionOf(Lookup(round.atRead, runId))
  }

  /** How a round that is not lost ends, and the table it leaves behind. */
  ghost predicate EndsCall(runs: Runs, runId: RunId, op: Op, round: Interference, outcome: Outcome, plans: PlanTable) {
    match Attempted(runs, Lookup(round.atRead, runId), op)
    case Saves(p) => outcome == Stored(p) && plans == round.atSave[runId := p]
    case Unchanged(p) => outcome == AsItWas(p) && plans == round.atRead
    case Absent => outcome == NoPlan && plans == round.atRead
    case Fails(e) => outcome == Raised(e) && plans == round.atRead
  }

  /** All rounds before the k-th were lost, and the k-th ended the call. */
  ghost predicate DecidedAt(runs: Runs, runId: RunId, op: Op, rounds: seq<Interference>, k: int,
                            outcome: Outcome, plans: PlanTable) {
    && 0 <= k < |rounds|
    && (forall j :: 0 <= j < k ==> LosesRace(runs, runId, op, rounds[j]))
    && !LosesRace(runs, runId, op, rounds[k])
    && EndsCall(runs, runId, op, rounds[k], outcome, plans)
  }

  /** The plan changed, or went, between a round's read and its save. */
  predicate Overtaken(runId: RunId, round: Interference)
    requires runId in round.atRead
  {
    runId !in round.atSave || round.atSave[runId].revision != round.atRead[runId].revision
  }

  /** The round read a plan, had something to save, and was overtaken. */
  ghost predicate Lost(runs: Runs, runId: RunId, op: Op, round: Interference) {
    runId in round.atRead && Attempted(runs, Some(round.atRead[runId]), op).Saves? && Overtaken(runId, round)
  }

  lemma LostMeans(runs: Runs, runId: RunId, op: Op, round: Interference)
    requires !op.SetPlan?
    ensures LosesRace(runs, runId, op, round) <==> Lost(runs, runId, op, round)
  {
    hide ChangeOf;
    hide Candidate;
  }

  /** A call ends in its first round that is not lost. There it stores what the operation makes of the
      plan read, on top of whatever else the table holds by then, and only if that plan has not
      changed; or it leaves the table alone and tells why. */
  lemma DecidedExactly(runs: Runs, runId: RunId, op: Op, rounds: seq<Interference>, k: nat, outcome: Outcome, plans: PlanTable)
    requires !op.SetPlan? && DecidedAt(runs, runId, op, rounds, k, outcome, plans)
    ensures forall j :: 0 <= j < k ==> Lost(runs, runId, op, rounds[j])
    ensures var round := rounds[k];
            if runId !in round.atRead then outcome == NoPlan && plans == round.atRead
            else
              match Attempted(runs, Some(round.atRead[runId]), op)
              case Saves(p) => !Overtaken(runId, round) && outcome == Stored(p) && plans == round.atSave[runId := p]
              case Unchanged(p) => outcome == AsItWas(p) && plans == round.atRead
              case Fails(e) => outcome == Raised(e) && plans == round.atRead
              case Absent => false
  {
    hide ChangeOf;
    hide LosesRace;
    forall j | 0 <= j <= k
      ensures LosesRace(runs, runId, op, rounds[j]) <==> Lost(runs, runId, op, rounds[j])
    {
      LostMeans(runs, runId, op, rounds[j]);
    }
  }

  /** Applies one updater under whatever interference the rounds describe. The call is
      decided by its first round that is not lost; after five lost rounds it gives up
      having written nothing. */
  method MutatePlan(store: PlanStore, runId: RunId, op: Op, rounds: seq<Interference>) returns (outcome: Outcome)
    requires !op.SetPlan? && |rounds| == MAX_ATTEMPTS
    modifies store`plans
    ensures outcome == GaveUp ==>
              (forall k :: 0 <= k < 5 ==> LosesRace(store.runs, runId, op, rounds[k]) && Lost(store.runs, runId, op, rounds[k]))
              && store.plans == rounds[4].atSave
    ensures outcome != GaveUp ==> exists k :: DecidedAt(store.runs, runId, op, rounds, k, outcome, store.plans)
  {
    hide ChangeOf;
    var attempt := 0;
    while attempt < MAX_ATTEMPTS
      invariant 0 <= attempt <= MAX_ATTEMPTS
      invariant forall k :: 0 <= k < attempt ==> LosesRace(store.runs, runId, op, rounds[k])
      invariant attempt > 0 ==> store.plans == rounds[attempt - 1].atSave
    {
      store.plans := rounds[attempt].atRead;
      var current := Lookup(store.plans, runId);
      if current.None? {
        assert DecidedAt(store.runs, runId, op, rounds, attempt, NoPlan, store.plans);
        return NoPlan;
      }
      match Candidate(store.runs, current.value, ChangeOf(store.runs, current.value, op))
      case Fails(e) =>
        assert DecidedAt(store.runs, runId, op, rounds, attempt, Raised(e), store.plans);
        return Raised(e);
      case Unchanged(p) =>
        assert DecidedAt(store.runs, runId, op, rounds, attempt, AsItWas(p), store.plans);
        return AsItWas(p);
      case Saves(next) =>
        store.plans := rounds[attempt].atSave;
        var saved := store.SaveRunPlan(runId, next, Some(current.value.revision));
        if saved {
          assert DecidedAt(store.runs, runId, op, rounds, attempt, Stored(next), store.plans);
          return Stored(next);
        }
      attempt := attempt + 1;
    }
    forall k | 0 <= k < MAX_ATTEMPTS
      ensures Lost(store.runs, runId, op, rounds[k])
    {
      LostMeans(store.runs, runId, op, rounds[k]);
    }
    return GaveUp;
  }

  // ----- submitting a plan -----

  method HasDuplicateId(inputs: seq<Input>) returns (duplicate: bool)
    ensures duplicate <==> !UniqueInputIds(inputs)
  {
    var ids: set<Id> := {};
    var i := 0;
    while i < |inputs|
      invariant 0 <= i <= |inputs| && UniqueInputIds(inputs[..i])
      invariant forall x :: x in ids <==> exists k :: 0 <= k < i && inputs[k].id == x
    {
      if inputs[i].id in ids {
        return true;
      }
      ids := ids + {inputs[i].id};
      i := i + 1;
    }
    assert inputs[..i] == inputs;
    return false;
  }

  method CheckInputs(known: set<Id>, inputs: seq<Input>) returns (error: Option<PlanError>)
    ensures error == FirstInputError(known, inputs)
  {
    var i := 0;
    while i < |inputs|
      invariant 0 <= i <= |inputs|
      invariant FirstInputError(known, inputs) == FirstInputError(known, inputs[i..])
    {
      error := InputError(known, inputs[i]);
      if error.Some? {
        return;
      }
      i := i + 1;
    }
    error := None;
  }

  /** Checks a submitted plan, merges it with the progress already made and saves it.
      `atSave` is what other writers left in the table just before the save. */
  method SubmitPlan(store: PlanStore, runId: RunId, inputs: seq<Input>, routes: seq<Route>, atSave: PlanTable)
      returns (outcome: Outcome)
    modifies store`plans
    ensures var stored := old(store.plans);
            match SetAttempt(store.runs, inputs, routes, if runId in stored then Some(stored[runId]) else None)
            case Fails(e) => outcome == Raised(e) && store.plans == old(store.plans)
            case Saves(p) =>
              if runId !in stored || (runId in atSave && atSave[runId].revision == stored[runId].revision)
              then outcome == Stored(p) && store.plans == atSave[runId := p]
              else outcome == GaveUp && store.plans == atSave
            case _ => false
  {
    var duplicate := HasDuplicateId(inputs);
    if duplicate {
      return Raised(DuplicateIds);
    }
    var known := InputIds(inputs);
    var error := CheckInputs(known, inputs);
    if error.Some? {
      return Raised(error.value);
    }
    var acyclic, order := CycleChecking.AssertAcyclic(InputNodes(inputs));
    if !acyclic {
      return Raised(CyclicDependencies);
    }
    error := FanOutError(inputs, routes);
    if error.Some? {
      return Raised(error.value);
    }
    var existing := Lookup(store.plans, runId);
    error := ExistingError(existing, known);
    if error.Some? {
      return Raised(error.value);
    }
    var plan := Promote(store.runs, SubmittedPlan(inputs, routes, existing));
    store.plans := atSave;
    var saved := store.SaveRunPlan(runId, plan, RevisionOf(existing));
    return if saved then Stored(plan) else GaveUp;
  }

  // ----- which submissions are accepted -----

  predicate Listed(inputs: seq<Input>, id: Id) {
    exists j :: 0 <= j < |inputs| && inputs[j].id == id
  }

  /** The item repeats the final answer, or depends on an item that is not listed or on itself. */
  predicate Broken(inputs: seq<Input>, k: nat)
    requires k < |inputs|
  {
    inputs[k].finalization || !DepsAreListed(inputs, k) || inputs[k].id in inputs[k].deps
  }

  predicate DepsAreListed(inputs: seq<Input>, k: nat)
    requires k < |inputs|
  {
    forall d | d in inputs[k].deps :: Listed(inputs, d)
  }

  /** The first broken item. */
  predicate FirstBroken(inputs: seq<Input>, k: int) {
    0 <= k < |inputs| && Broken(inputs, k) && forall j :: 0 <= j < k ==> !Broken(inputs, j)
  }

  predicate NoneBroken(inputs: seq<Input>) {
    forall k :: 0 <= k < |inputs| ==> !Broken(inputs, k)
  }

  /** Some item lists the second id among its dependencies. */
  predicate DependsOn(inputs: seq<Input>, a: Id, b: Id) {
    exists k :: 0 <= k < |inputs| && inputs[k].id == a && b in inputs[k].deps
  }

  /** Ids that depend each on the next, back to the first. */
  predicate Circle(inputs: seq<Input>, p: seq<Id>) {
    |p| >= 2 && p[0] == p[|p| - 1] && forall i :: 0 <= i < |p| - 1 ==> DependsOn(inputs, p[i], p[i + 1])
  }

  ghost predicate Circular(inputs: seq<Input>) {
    exists p :: Circle(inputs, p)
  }

  /** The required items that workers may do. */
  function ForWorkers(inputs: seq<Input>): set<nat> {
    set k: nat | k < |inputs| && inputs[k].required && inputs[k].workerEligible
  }

  predicate HasMainOnly(inputs: seq<Input>) {
    exists k :: 0 <= k < |inputs| && inputs[k].required && !inputs[k].workerEligible
  }

  /** The conditions on a plan by itself. */
  ghost predicate Sound(inputs: seq<Input>, routes: seq<Route>) {
    && (forall i, j :: 0 <= i < j < |inputs| ==> inputs[i].id != inputs[j].id)
    && NoneBroken(inputs) && !Circular(inputs)
    && (routes != [] ==> |ForWorkers(inputs)| >= |routes| && HasMainOnly(inputs))
  }

  /** No item that is running is left out. */
  predicate KeepsRunning(inputs: seq<Input>, plan: Plan) {
    forall k :: 0 <= k < |plan.items| && plan.items[k].status == Running ==> Listed(inputs, plan.items[k].id)
  }

  lemma ListedMeaning(inputs: seq<Input>, id: Id)
    ensures Listed(inputs, id) <==> id in InputIds(inputs)
  {
    if j :| 0 <= j < |inputs| && inputs[j].id == id {
      assert inputs[j] in inputs;
    }
    if id in InputIds(inputs) {
      var input :| input in inputs && input.id == id;
      var j :| 0 <= j < |inputs| && inputs[j] == input;
    }
  }

  lemma BrokenMeaning(inputs: seq<Input>, k: nat)
    requires k < |inputs|
    ensures InputError(InputIds(inputs), inputs[k]) ==
            if inputs[k].finalization then Some(ImplicitFinalization)
            else if !DepsAreListed(inputs, k) then Some(UnknownDependency)
            else if inputs[k].id in inputs[k].deps then Some(SelfDependency)
            else None
  {
    forall d: Id
      ensures Listed(inputs, d) <==> d in InputIds(inputs)
    {
      ListedMeaning(inputs, d);
    }
    hide InputIds;
    hide Listed;
  }

  lemma DependsOnEdge(inputs: seq<Input>, a: Id, b: Id)
    requires UniqueInputIds(inputs)
    ensures DependsOn(inputs, a, b) <==> Edge(GraphOf(InputNodes(inputs)), a, b)
  {
    var nodes := InputNodes(inputs);
    GraphOfKeys(nodes);
    if k :| 0 <= k < |inputs| && inputs[k].id == a {
      GraphOfAt(nodes, k);
      assert nodes[k] == Node(a, inputs[k].deps);
      assert forall j :: 0 <= j < |inputs| && inputs[j].id == a ==> j == k;
    } else {
      assert a !in GraphOf(nodes);
    }
  }

  lemma CircularMeaning(inputs: seq<Input>)
    requires UniqueInputIds(inputs)
    ensures Circular(inputs) <==> HasCycle(GraphOf(InputNodes(inputs)))
  {
    forall a, b
      ensures DependsOn(inputs, a, b) <==> Edge(GraphOf(InputNodes(inputs)), a, b)
    {
      DependsOnEdge(inputs, a, b);
    }
    hide DependsOn;
    hide Edge;
    var g := GraphOf(InputNodes(inputs));
    if p :| Circle(inputs, p) {
      assert IsCycle(g, p);
    }
    if HasCycle(g) {
      var p :| IsCycle(g, p);
      assert Circle(inputs, p);
    }
  }

  lemma {:induction false} FirstErrorAt(known: set<Id>, inputs: seq<Input>, from: nat)
    requires from <= |inputs|
    requires forall j :: 0 <= j < from ==> InputError(known, inputs[j]) == None
    ensures var error := FirstInputError(known, inputs[from..]);
            if error.None? then forall j :: 0 <= j < |inputs| ==> InputError(known, inputs[j]) == None
            else exists k :: from <= k < |inputs| && error == InputError(known, inputs[k])
                             && forall j :: 0 <= j < k ==> InputError(known, inputs[j]) == None
    decreases |inputs| - from
  {
    if from < |inputs| {
      assert inputs[from..][0] == inputs[from] && inputs[from..][1..] == inputs[from + 1..];
      if InputError(known, inputs[from]) == None {
        FirstErrorAt(known, inputs, from + 1);
      }
    }
  }

  /** The first rule an item breaks, if any, is reported for the first item that breaks one. */
  lemma InputErrorExactly(inputs: seq<Input>)
    ensures var error := FirstInputError(InputIds(inputs), inputs);
            if error.None? then NoneBroken(inputs)
            else exists k :: FirstBroken(inputs, k)
                   && error == Some(if inputs[k].finalization then ImplicitFinalization
                                    else if !DepsAreListed(inputs, k) then UnknownDependency
                                    else SelfDependency)
  {
    var known := InputIds(inputs);
    forall k | 0 <= k < |inputs|
      ensures InputError(known, inputs[k]).None? <==> !Broken(inputs, k)
    {
      BrokenMeaning(inputs, k);
    }
    FirstErrorAt(known, inputs, 0);
    assert inputs[0..] == inputs;
    var error := FirstInputError(known, inputs);
    if error.Some? {
      var k :| 0 <= k < |inputs| && error == InputError(known, inputs[k])
               && forall j :: 0 <= j < k ==> InputError(known, inputs[j]) == None;
      BrokenMeaning(inputs, k);
      assert FirstBroken(inputs, k);
    }
  }

  lemma {:induction false} CountFrom(inputs: seq<Input>, from: nat)
    requires from <= |inputs|
    ensures CountEligible(inputs[from..]) ==
            |set k: nat | from <= k < |inputs| && inputs[k].required && inputs[k].workerEligible|
    decreases |inputs| - from
  {
    var here := set k: nat | from <= k < |inputs| && inputs[k].required && inputs[k].workerEligible;
    if from < |inputs| {
      CountFrom(inputs, from + 1);
      var rest := set k: nat | from + 1 <= k < |inputs| && inputs[k].required && inputs[k].workerEligible;
      assert inputs[from..][0] == inputs[from] && inputs[from..][1..] == inputs[from + 1..];
      assert here == if inputs[from].required && inputs[from].workerEligible then rest + {from} else rest;
    } else {
      assert here == {};
    }
  }

  lemma FanOutMeaning(inputs: seq<Input>, routes: seq<Route>)
    ensures FanOutError(inputs, routes) ==
            if routes == [] then None
            else if |ForWorkers(inputs)| < |routes| then Some(TooFewWorkerItems)
            else if !HasMainOnly(inputs) then Some(NoMainOnlyItem)
            else None
  {
    CountFrom(inputs, 0);
    assert inputs[0..] == inputs;
    assert ForWorkers(inputs) == set k: nat | 0 <= k < |inputs| && inputs[k].required && inputs[k].workerEligible;
    if input :| input in inputs && input.required && !input.workerEligible {
      var k :| 0 <= k < |inputs| && inputs[k] == input;
    }
    if k :| 0 <= k < |inputs| && inputs[k].required && !inputs[k].workerEligible {
      assert inputs[k] in inputs;
    }
    hide CountEligible;
    hide ForWorkers;
  }

  lemma RevisionMeaning(inputs: seq<Input>, existing: Option<Plan>)
    ensures ExistingError(existing, InputIds(inputs)) ==
            if existing.None? then None
            else if existing.value.phase != Active then Some(NotActive)
            else if !KeepsRunning(inputs, existing.value) then Some(RemovesRunning)
            else None
  {
    forall d: Id
      ensures Listed(inputs, d) <==> d in InputIds(inputs)
    {
      ListedMeaning(inputs, d);
    }
    hide Listed;
    hide InputIds;
    if existing.Some? {
      var items := existing.value.items;
      if item :| item in items && item.status == Running && item.id !in InputIds(inputs) {
        var k :| 0 <= k < |items| && items[k] == item;
      }
      if k :| 0 <= k < |items| && items[k].status == Running && !Listed(inputs, items[k].id) {
        assert items[k] in items;
      }
    }
  }

  /** A submission is accepted exactly when it is sound by itself and, if it revises a plan, that
      plan is active and none of its running items is left out. */
  lemma AcceptedExactly(inputs: seq<Input>, routes: seq<Route>, existing: Option<Plan>)
    ensures SetError(inputs, routes, existing) == None <==>
            Sound(inputs, routes)
            && (existing.Some? ==> existing.value.phase == Active && KeepsRunning(inputs, existing.value))
  {
    RefusedExactly(inputs, routes, existing);
  }

  /** The error a refused submission raises: the first rule it breaks, in this order. */
  lemma RefusedExactly(inputs: seq<Input>, routes: seq<Route>, existing: Option<Plan>)
    ensures var unique := forall i, j :: 0 <= i < j < |inputs| ==> inputs[i].id != inputs[j].id;
            match SetError(inputs, routes, existing)
            case Some(DuplicateIds) => !unique
            case Some(ImplicitFinalization) =>
              unique && exists k :: FirstBroken(inputs, k) && inputs[k].finalization
            case Some(UnknownDependency) =>
              unique && exists k :: FirstBroken(inputs, k) && !inputs[k].finalization && !DepsAreListed(inputs, k)
            case Some(SelfDependency) =>
              unique && exists k :: FirstBroken(inputs, k) && !inputs[k].finalization && DepsAreListed(inputs, k)
            case Some(CyclicDependencies) => unique && NoneBroken(inputs) && Circular(inputs)
            case Some(TooFewWorkerItems) =>
              unique && NoneBroken(inputs) && !Circular(inputs) && |ForWorkers(inputs)| < |routes|
            case Some(NoMainOnlyItem) =>
              unique && NoneBroken(inputs) && !Circular(inputs) && 0 < |routes| <= |ForWorkers(inputs)| && !HasMainOnly(inputs)
            case Some(NotActive) => Sound(inputs, routes) && existing.Some? && existing.value.phase != Active
            case Some(RemovesRunning) =>
              Sound(inputs, routes) && existing.Some? && existing.value.phase == Active && !KeepsRunning(inputs, existing.value)
            case Some(_) => false
            case None =>
              Sound(inputs, routes)
              && (existing.Some? ==> existing.value.phase == Active && KeepsRunning(inputs, existing.value))
  {
    hide FirstInputError;
    hide FanOutError;
    hide ExistingError;
    hide HasCycle;
    hide Circular;
    hide NoneBroken;
    hide FirstBroken;
    hide DepsAreListed;
    hide ForWorkers;
    hide HasMainOnly;
    hide KeepsRunning;
    InputErrorExactly(inputs);
    FanOutMeaning(inputs, routes);
    RevisionMeaning(inputs, existing);
    if UniqueInputIds(inputs) {
      CircularMeaning(inputs);
    }
  }
}
