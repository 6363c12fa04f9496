/** What the operations on a stored plan decide: when each saves, leaves the plan alone, or is
    refused and why, in terms of the plan's fields. */
module PlanVerdicts {
  import opened Basics
  import opened Graphs
  import opened PlanModel
  import opened PlanSafety

  predicate SomeRunOver(runs: Runs, plan: Plan) {
    exists k :: 0 <= k < |plan.items| && RunOver(runs, plan.items[k])
  }

  lemma OverMeans(runs: Runs, item: Item)
    ensures Stale(runs, item) <==> RunOver(runs, item)
  {
  }

  lemma SomeOverMeans(runs: Runs, plan: Plan)
    ensures (exists item | item in plan.items :: Stale(runs, item)) <==> SomeRunOver(runs, plan)
  {
    hide Stale;
    hide RunOver;
    if item :| item in plan.items && Stale(runs, item) {
      var k :| 0 <= k < |plan.items| && plan.items[k] == item;
      OverMeans(runs, item);
    }
    if k :| 0 <= k < |plan.items| && RunOver(runs, plan.items[k]) {
      OverMeans(runs, plan.items[k]);
      assert plan.items[k] in plan.items;
    }
  }

  /** Looking at a plan saves it exactly if a worker's end is to be entered, or if the plan is
      active with nothing open and no worker owed, and it is then ready for its answer. */
  lemma ReconcileSavesExactly(runs: Runs, plan: Plan)
    ensures var attempt := Attempted(runs, Some(plan), Reconcile);
            var due := plan.phase == Active && !WorkOpen(plan) && !WorkersOwed(runs, plan);
            && (SomeRunOver(runs, plan) || due <==> attempt.Saves?)
            && (!SomeRunOver(runs, plan) && due ==>
                  attempt == Saves(plan.(phase := ReadyForAnswer, revision := plan.revision + 1)))
            && (!attempt.Saves? ==> attempt == Unchanged(plan))
  {
    SomeOverMeans(runs, plan);
    OpenMeans(plan);
    OwedMeans(runs, plan);
    hide HasOpenRequired;
    hide Missing;
    hide Stale;
  }

  /** Declaring a plan ready: refused while workers are owed, then while required work is open;
      a plan that is no longer active is left alone. */
  lemma ReadyExactly(runs: Runs, plan: Plan)
    ensures Attempted(runs, Some(plan), MarkReady) ==
            if plan.phase != Active then Unchanged(plan)
            else if WorkersOwed(runs, plan) then Fails(WorkersMissing)
            else if WorkOpen(plan) then Fails(RequiredOpen)
            else Saves(plan.(phase := ReadyForAnswer, revision := plan.revision + 1))
  {
    OpenMeans(plan);
    OwedMeans(runs, plan);
    hide HasOpenRequired;
    hide Missing;
    hide WorkOpen;
    hide WorkersOwed;
  }

  /** The step after the answer completes a ready plan, refuses an active one and leaves a
      completed one alone. */
  lemma AnsweredExactly(runs: Runs, plan: Plan)
    ensures Attempted(runs, Some(plan), CompleteAfterAnswer) ==
            match plan.phase
            case Active => Fails(NotReady)
            case ReadyForAnswer => Saves(plan.(phase := Answered, revision := plan.revision + 1))
            case Answered => Unchanged(plan)
  {
  }

  /** Why a delegation is refused: the first that applies. */
  lemma AssignRefusedExactly(runs: Runs, plan: Plan, k: nat, worker: RunId)
    requires PlanOk(plan) && k < |plan.items|
    ensures var item := plan.items[k];
            var attempt := Attempted(runs, Some(plan), AssignWorker(item.id, worker));
            !attempt.Saves? ==>
              attempt == Fails(if !item.workerEligible then NotWorkerEligible
                               else if item.status != Pending then NotPending
                               else if !ReadyAt(plan.items, k) then Blocked
                               else DelegatesEverything)
  {
    FindAt(plan.items, k);
    ReadyMeaning(plan.items, k);
    hide ReplaceItem;
    hide PlanOk;
  }

  /** Why an update is refused: the first that applies. */
  lemma UpdateRefusedExactly(runs: Runs, plan: Plan, k: nat, status: Status, report: string)
    requires PlanOk(plan) && k < |plan.items|
    ensures var item := plan.items[k];
            var attempt := Attempted(runs, Some(plan), UpdateItem(item.id, status, report));
            !attempt.Saves? ==>
              attempt == Fails(if plan.phase != Active then NotActive
                               else if item.owner == Worker && item.status == Running then RunningOnWorker
                               else Blocked)
  {
    FindAt(plan.items, k);
    ReadyMeaning(plan.items, k);
    hide ReplaceItem;
    hide PlanOk;
  }

  /** An item that is not in the plan can be neither delegated nor updated, and without a plan
      nothing but a submission does anything. */
  lemma UnknownExactly(runs: Runs, plan: Plan, id: Id, worker: RunId, status: Status, report: string, op: Op)
    requires forall k :: 0 <= k < |plan.items| ==> plan.items[k].id != id
    ensures Attempted(runs, Some(plan), AssignWorker(id, worker)) == Fails(ItemNotFound)
    ensures Attempted(runs, Some(plan), UpdateItem(id, status, report)) ==
            Fails(if plan.phase != Active then NotActive else ItemNotFound)
    ensures !op.SetPlan? ==> Attempted(runs, None, op) == Absent
  {
    FindSound(plan.items, id);
  }
}
