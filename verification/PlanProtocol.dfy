/** Several callers working on one run's plan: every interleaving of their store accesses. */
module PlanProtocol {
  import opened Basics
  import opened Graphs
  import opened PlanModel
  import opened PlanSafety

  type CallId = nat

  datatype Result = Stored | ReturnedAsIs | Raised | GaveUp

  /** Where a call is. A save is two store accesses: looking up the current row, then writing. */
  datatype Stage =
    | Reading(op: Op, lost: nat)
    | Saving(op: Op, lost: nat, base: Option<Plan>, seen: Runs, next: Plan)
    | Writing(op: Op, lost: nat, base: Option<Plan>, seen: Runs, next: Plan, found: Option<Plan>)
    | Finished(result: Result)

  /** One successful save: the call, what it had read, and what it stored. */
  datatype Entry = Entry(call: CallId, op: Op, base: Option<Plan>, seen: Runs, saved: Plan)

  datatype State = State(cell: Option<Plan>, log: seq<Entry>, calls: map<CallId, Stage>)

  datatype Step = Invoke(call: CallId, op: Op) | Read(call: CallId, runs: Runs) | Check(call: CallId) | Write(call: CallId)

  const START := State(None, [], map[])

  predicate Enabled(s: State, step: Step) {
    match step
    case Invoke(c, op) => c !in s.calls
    case Read(c, runs) => c in s.calls && s.calls[c].Reading?
    case Check(c) => c in s.calls && s.calls[c].Saving?
    case Write(c) => c in s.calls && s.calls[c].Writing?
  }

  /** A lost race is retried up to five times, except that a submission is never retried. */
  function AfterLoss(op: Op, lost: nat): Stage {
    if op.SetPlan? then Finished(Raised)
    else if lost + 1 < MAX_ATTEMPTS then Reading(op, lost + 1)
    else Finished(GaveUp)
  }

  /** The row update applies when the row is still the one looked up. */
  predicate Lands(s: State, stage: Stage)
    requires stage.Writing?
  {
    if stage.found.None? then s.cell.None? else s.cell.Some? && s.cell.value.revision == stage.found.value.revision
  }

  ghost function Next(s: State, step: Step): State
    requires Enabled(s, step)
  {
    match step
    case Invoke(c, op) => s.(calls := s.calls[c := Reading(op, 0)])
    case Read(c, runs) =>
      var stage := s.calls[c];
      var after := match Attempted(runs, s.cell, stage.op)
        case Fails(e) => Finished(Raised)
        case Absent => Finished(Raised)
        case Unchanged(p) => Finished(ReturnedAsIs)
        case Saves(p) => Saving(stage.op, stage.lost, s.cell, runs, p);
      s.(calls := s.calls[c := after])
    case Check(c) =>
      var stage := s.calls[c];
      var after :=
        if stage.base.Some? && !(s.cell.Some? && s.cell.value.revision == stage.base.value.revision)
        then AfterLoss(stage.op, stage.lost)
        else Writing(stage.op, stage.lost, stage.base, stage.seen, stage.next, s.cell);
      s.(calls := s.calls[c := after])
    case Write(c) =>
      var stage := s.calls[c];
      if Lands(s, stage) then
        State(Some(stage.next), s.log + [Entry(c, stage.op, stage.base, stage.seen, stage.next)],
              s.calls[c := Finished(Stored)])
      else if stage.found.None? then s.(calls := s.calls[c := Finished(Raised)])
      else s.(calls := s.calls[c := AfterLoss(stage.op, stage.lost)])
  }

  /** A save whose plan is no longer current, when it looks the row up or when it writes: a submission
      raises, any other operation reads again unless this was its fifth attempt. */
  predicate Retries(before: Stage, after: Stage)
    requires before.Saving? || before.Writing?
  {
    if before.op.SetPlan? then after == Finished(Raised)
    else if before.lost >= 4 then after == Finished(GaveUp)
    else after == Reading(before.op, before.lost + 1)
  }

  /** Reading computes the operation on the plan then stored, and ends the call unless there is
      something to save. */
  lemma ReadExactly(s: State, c: CallId, runs: Runs)
    requires Enabled(s, Read(c, runs))
    ensures var stage, t := s.calls[c], Next(s, Read(c, runs));
            && t == s.(calls := s.calls[c := t.calls[c]])
            && match Attempted(runs, s.cell, stage.op)
               case Saves(p) => t.calls[c] == Saving(stage.op, stage.lost, s.cell, runs, p)
               case Unchanged(p) => t.calls[c] == Finished(ReturnedAsIs)
               case Absent => t.calls[c] == Finished(Raised)
               case Fails(e) => t.calls[c] == Finished(Raised)
  {
    hide Attempted;
  }

  /** Looking up the row ends in a retry exactly if the plan read is not there any more under its
      revision, and otherwise remembers the row found. */
  lemma CheckExactly(s: State, c: CallId)
    requires Enabled(s, Check(c))
    ensures var stage, t := s.calls[c], Next(s, Check(c));
            && t == s.(calls := s.calls[c := t.calls[c]])
            && if stage.base.None? || (s.cell.Some? && s.cell.value.revision == stage.base.value.revision)
               then t.calls[c] == Writing(stage.op, stage.lost, stage.base, stage.seen, stage.next, s.cell)
               else Retries(stage, t.calls[c])
  {
  }

  /** Writing stores the plan exactly if the table still holds no row where none was found, or one of
      the revision found; a row that was inserted meanwhile raises, a changed one is a retry. */
  lemma WriteExactly(s: State, c: CallId)
    requires Enabled(s, Write(c))
    ensures var stage, t := s.calls[c], Next(s, Write(c));
            var same := if stage.found.None? then s.cell.None?
                        else s.cell.Some? && s.cell.value.revision == stage.found.value.revision;
            && (forall d | d in s.calls && d != c :: d in t.calls && t.calls[d] == s.calls[d])
            && c in t.calls
            && if same then
                 && t.cell == Some(stage.next) && t.calls[c] == Finished(Stored)
                 && t.log == s.log + [Entry(c, stage.op, stage.base, stage.seen, stage.next)]
               else
                 && t.cell == s.cell && t.log == s.log
                 && if stage.found.None? then t.calls[c] == Finished(Raised) else Retries(stage, t.calls[c])
  {
  }

  /** Nothing is kept from happening: calls may begin at any time, and each goes on with its next
      access to the store. */
  lemma MayHappen(s: State, c: CallId, op: Op, runs: Runs)
    ensures c !in s.calls ==> Enabled(s, Invoke(c, op)) && Next(s, Invoke(c, op)) == s.(calls := s.calls[c := Reading(op, 0)])
    ensures c in s.calls ==>
              match s.calls[c]
              case Reading(_, _) => Enabled(s, Read(c, runs))
              case Saving(_, _, _, _, _) => Enabled(s, Check(c))
              case Writing(_, _, _, _, _, _) => Enabled(s, Write(c))
              case Finished(_) => true
  {
  }

  /** The one harmful step: a first submission that read no plan writes over one. */
  predicate Overwrites(s: State, step: Step) {
    step.Write? && step.call in s.calls && s.calls[step.call].Writing?
    && s.calls[step.call].base.None? && s.cell.Some? && Lands(s, s.calls[step.call])
  }

  ghost predicate IsRun(s: State, steps: seq<Step>)
    decreases |steps|
  {
    steps != [] ==> Enabled(s, steps[0]) && IsRun(Next(s, steps[0]), steps[1..])
  }

  ghost function After(s: State, steps: seq<Step>): State
    requires IsRun(s, steps)
    decreases |steps|
  {
    if steps == [] then s else After(Next(s, steps[0]), steps[1..])
  }

  ghost predicate OverwriteFree(s: State, steps: seq<Step>)
    requires IsRun(s, steps)
    decreases |steps|
  {
    steps != [] ==> !Overwrites(s, steps[0]) && OverwriteFree(Next(s, steps[0]), steps[1..])
  }

  // ----- what holds in every state -----

  /** The log is a linear history: revisions 1, 2, 3, … and each save was computed from the
      plan saved just before it. */
  predicate Linear(log: seq<Entry>) {
    forall i :: 0 <= i < |log| ==> log[i].saved.revision == i + 1 && log[i].base == LastSaved(log[..i])
  }

  /** The plan left by a history of saves. */
  function LastSaved(log: seq<Entry>): Option<Plan> {
    if log == [] then None else Some(Last(log).saved)
  }

  ghost predicate Computed(base: Option<Plan>, seen: Runs, op: Op, next: Plan) {
    (base.Some? ==> PlanOk(base.value)) && (base.None? ==> op.SetPlan?) && Attempted(seen, base, op) == Saves(next)
  }

  ghost predicate StageOk(stage: Stage) {
    match stage
    case Reading(op, lost) => lost < MAX_ATTEMPTS
    case Saving(op, lost, base, seen, next) => lost < MAX_ATTEMPTS && Computed(base, seen, op, next)
    case Writing(op, lost, base, seen, next, found) =>
      lost < MAX_ATTEMPTS && Computed(base, seen, op, next)
      && (base.Some? ==> found.Some? && found.value.revision == base.value.revision)
    case Finished(r) => true
  }

  /** A plan some call still holds is one that was saved. */
  predicate Known(log: seq<Entry>, plan: Option<Plan>) {
    plan.Some? ==> exists i :: 0 <= i < |log| && log[i].saved == plan.value
  }

  predicate HoldsKnown(log: seq<Entry>, stage: Stage) {
    (stage.Saving? || stage.Writing? ==> Known(log, stage.base)) && (stage.Writing? ==> Known(log, stage.found))
  }

  ghost predicate EntryOk(e: Entry) {
    Computed(e.base, e.seen, e.op, e.saved) && PlanOk(e.saved)
  }

  ghost predicate Inv(s: State) {
    && s.cell == LastSaved(s.log)
    && (forall i :: 0 <= i < |s.log| ==> EntryOk(s.log[i]))
    && (forall c :: c in s.calls ==> StageOk(s.calls[c]) && HoldsKnown(s.log, s.calls[c]))
    && (forall i :: 0 <= i < |s.log| ==> s.log[i].call in s.calls && s.calls[s.log[i].call] == Finished(Stored))
    && (forall i, j :: 0 <= i < j < |s.log| ==> s.log[i].call != s.log[j].call)
    && (forall c :: c in s.calls && s.calls[c] == Finished(Stored) ==> exists i :: 0 <= i < |s.log| && s.log[i].call == c)
  }

  lemma KnownGrows(log: seq<Entry>, e: Entry, stage: Stage)
    requires HoldsKnown(log, stage)
    ensures HoldsKnown(log + [e], stage)
  {
    hide Attempted;
    hide PlanOk;
    var longer := log + [e];
    forall plan: Option<Plan> | Known(log, plan)
      ensures Known(longer, plan)
    {
      if plan.Some? {
        var i :| 0 <= i < |log| && log[i].saved == plan.value;
        assert longer[i].saved == plan.value;
      }
    }
  }

  lemma InvRead(s: State, c: CallId, runs: Runs)
    requires Inv(s) && Enabled(s, Read(c, runs))
    ensures Inv(Next(s, Read(c, runs)))
  {
    hide Attempted;
    hide PlanOk;
    if s.log != [] {
      assert EntryOk(s.log[|s.log| - 1]);
    }
    assert Known(s.log, s.cell);
    var stage := s.calls[c];
    if s.cell.None? && Attempted(runs, s.cell, stage.op).Saves? {
      OnlySubmissionCreates(runs, stage.op);
    }
  }

  lemma InvCheck(s: State, c: CallId)
    requires Inv(s) && Enabled(s, Check(c))
    ensures Inv(Next(s, Check(c)))
  {
    hide Attempted;
    hide PlanOk;
    assert Known(s.log, s.cell);
  }

  /** What a landed write leaves of the other calls. */
  lemma InvLanded(s: State, c: CallId)
    requires Inv(s) && Enabled(s, Write(c)) && Lands(s, s.calls[c])
    ensures var t := Next(s, Write(c));
            && (forall d :: d in t.calls ==> StageOk(t.calls[d]) && HoldsKnown(t.log, t.calls[d]))
            && forall d :: d in t.calls && t.calls[d] == Finished(Stored) ==>
                 exists i :: 0 <= i < |t.log| && t.log[i].call == d
  {
    hide Attempted;
    hide PlanOk;
    var stage := s.calls[c];
    var t := Next(s, Write(c));
    var e := Entry(c, stage.op, stage.base, stage.seen, stage.next);
    forall d | d in t.calls
      ensures StageOk(t.calls[d]) && HoldsKnown(t.log, t.calls[d])
    {
      if d != c {
        KnownGrows(s.log, e, s.calls[d]);
      }
    }
    forall d | d in t.calls && t.calls[d] == Finished(Stored)
      ensures exists i :: 0 <= i < |t.log| && t.log[i].call == d
    {
      if d == c {
        assert t.log[|s.log|].call == c;
      } else {
        var i :| 0 <= i < |s.log| && s.log[i].call == d;
        assert t.log[i].call == d;
      }
    }
  }

  lemma InvWrite(s: State, c: CallId)
    requires Inv(s) && Enabled(s, Write(c))
    ensures Inv(Next(s, Write(c)))
  {
    hide Attempted;
    hide PlanOk;
    var stage := s.calls[c];
    if Lands(s, stage) {
      SavedPlanOk(stage.seen, stage.base, stage.op);
      InvLanded(s, c);
      hide StageOk;
      hide HoldsKnown;
    }
  }

  lemma InvStep(s: State, step: Step)
    requires Inv(s) && Enabled(s, step)
    ensures Inv(Next(s, step))
  {
    hide Attempted;
    hide PlanOk;
    match step
    case Invoke(c, op) =>
    case Read(c, runs) => InvRead(s, c, runs);
    case Check(c) => InvCheck(s, c);
    case Write(c) => InvWrite(s, c);
  }

  lemma PrefixLinear(log: seq<Entry>, e: Entry)
    ensures Linear(log + [e]) <==> Linear(log) && e.saved.revision == |log| + 1 && e.base == LastSaved(log)
  {
    var longer := log + [e];
    assert longer[|log|] == e && longer[..|log|] == log;
    forall i | 0 <= i < |log|
      ensures longer[i] == log[i] && longer[..i] == log[..i]
    {
    }
    if Linear(longer) {
      forall i | 0 <= i < |log|
        ensures log[i].saved.revision == i + 1 && log[i].base == LastSaved(log[..i])
      {
        assert longer[i].base == LastSaved(longer[..i]);
      }
    }
  }

  /** In a linear history a plan is identified by its revision. */
  lemma RevisionIdentifies(log: seq<Entry>, plan: Plan)
    requires Linear(log) && log != [] && Known(log, Some(plan)) && Last(log).saved.revision == plan.revision
    ensures LastSaved(log) == Some(plan)
  {
    var i :| 0 <= i < |log| && log[i].saved == plan;
    assert log[|log| - 1].saved.revision == |log|;
  }

  /** A write that lands without overwriting extends a linear history; an overwrite always
      breaks it. */
  lemma LinearStep(s: State, step: Step)
    requires Inv(s) && Enabled(s, step)
    ensures Linear(Next(s, step).log) <==> Linear(s.log) && !Overwrites(s, step)
  {
    hide Attempted;
    hide PlanOk;
    hide Linear;
    if step.Write? && Lands(s, s.calls[step.call]) {
      var stage := s.calls[step.call];
      PrefixLinear(s.log, Entry(step.call, stage.op, stage.base, stage.seen, stage.next));
      RevisionStep(stage.seen, stage.base, stage.op);
      if Linear(s.log) && stage.base.Some? {
        RevisionIdentifies(s.log, stage.base.value);
      }
      if Linear(s.log) && s.cell.Some? {
        LastRevision(s.log);
      }
    }
  }

  lemma LastRevision(log: seq<Entry>)
    requires Linear(log) && log != []
    ensures Last(log).saved.revision == |log|
  {
    assert log[|log| - 1].saved.revision == |log|;
  }

  lemma {:induction false} RunsFrom(s: State, steps: seq<Step>)
    requires Inv(s) && IsRun(s, steps)
    ensures Inv(After(s, steps))
    ensures Linear(After(s, steps).log) <==> Linear(s.log) && OverwriteFree(s, steps)
    decreases |steps|
  {
    hide Attempted;
    hide PlanOk;
    if steps != [] {
      InvStep(s, steps[0]);
      LinearStep(s, steps[0]);
      RunsFrom(Next(s, steps[0]), steps[1..]);
    }
  }

  /** Optimistic concurrency linearizes the saves of a run exactly when no first submission
      writes over a plan it had not read. */
  lemma LinearExactly(steps: seq<Step>)
    requires IsRun(START, steps)
    ensures Linear(After(START, steps).log) <==> OverwriteFree(START, steps)
  {
    RunsFrom(START, steps);
  }

  /** Whatever the interleaving, every stored plan is exactly one operation applied to a plan
      that was stored before it (or to none), it is well formed, required work is finished
      once the plan is ready, and an active plan has something left to do. */
  lemma EverySave(steps: seq<Step>, i: nat)
    requires IsRun(START, steps) && i < |After(START, steps).log|
    ensures var e := After(START, steps).log[i];
            && Attempted(e.seen, e.base, e.op) == Saves(e.saved)
            && PlanOk(e.saved)
            && (e.saved.phase == Active ==> WorkOpen(e.saved) || WorkersOwed(e.seen, e.saved))
            && (e.saved.phase == Answered && (e.base.None? || e.base.value.phase != Answered) ==>
                  e.op == CompleteAfterAnswer && e.base.Some? && e.base.value.phase == ReadyForAnswer)
  {
    RunsFrom(START, steps);
    var e := After(START, steps).log[i];
    assert EntryOk(e);
    PhaseStep(e.seen, e.base, e.op);
  }

  /** A call stores at most one plan, and a call that raised or gave up stored none. */
  lemma SavesOnce(steps: seq<Step>, c: CallId)
    requires IsRun(START, steps) && c in After(START, steps).calls
    ensures var s := After(START, steps);
            && (s.calls[c] == Finished(Stored) <==> exists i :: 0 <= i < |s.log| && s.log[i].call == c)
            && forall i, j :: 0 <= i < |s.log| && 0 <= j < |s.log| && s.log[i].call == c && s.log[j].call == c ==> i == j
  {
    RunsFrom(START, steps);
  }

  /** Along a linear history the phase never moves back. */
  lemma {:induction false} PhaseNeverReturns(log: seq<Entry>, i: nat, j: nat)
    requires Linear(log) && forall k :: 0 <= k < |log| ==> EntryOk(log[k])
    requires i <= j < |log|
    ensures Rank(log[i].saved.phase) <= Rank(log[j].saved.phase)
    decreases j - i
  {
    hide Attempted;
    hide PlanOk;
    if i < j {
      PhaseNeverReturns(log, i, j - 1);
      var e := log[j];
      assert EntryOk(e) && e.base == Some(log[j - 1].saved);
      PhaseStep(e.seen, e.base, e.op);
    }
  }

  /** Phase safety over whole runs: with no overwrite, the stored phase only moves from
      active to ready to completed. */
  lemma PhaseSafety(steps: seq<Step>, i: nat, j: nat)
    requires IsRun(START, steps) && OverwriteFree(START, steps)
    requires i <= j < |After(START, steps).log|
    ensures Rank(After(START, steps).log[i].saved.phase) <= Rank(After(START, steps).log[j].saved.phase)
  {
    RunsFrom(START, steps);
    PhaseNeverReturns(After(START, steps).log, i, j);
  }

  // ----- the overwrite is real -----

  const ONE_TASK := Input("a", "a", [], false, true, false)
  const SUBMIT_ONE := SetPlan([ONE_TASK], [])
  const FINISH_ONE := UpdateItem("a", Completed, "done")

  /** Two first submissions and one update: the late submission reads before the plan exists. */
  const LATE_SUBMISSION := [
    Invoke(0, SUBMIT_ONE), Invoke(1, SUBMIT_ONE), Read(0, map[]), Read(1, map[]),
    Check(0), Write(0), Invoke(2, FINISH_ONE), Read(2, map[]), Check(2), Write(2), Check(1), Write(1)]

  function SubmittedOne(): Plan {
    Plan(1, Active, [Item("a", "a", [], MainAgent, false, true, Pending, 0, None, "", "")], [])
  }

  function FinishedOne(): Plan {
    Plan(2, ReadyForAnswer, [Item("a", "a", [], MainAgent, false, true, Completed, 0, None, "done", "")], [])
  }

  lemma NoEdgesNoCycle()
    ensures !HasCycle(GraphOf([Node("a", [])]))
  {
    var g := GraphOf([Node("a", [])]);
    forall p | |p| >= 2
      ensures !IsCycle(g, p)
    {
      assert !Edge(g, p[0], p[1]);
    }
  }

  lemma SubmitOneAttempt()
    ensures Attempted(map[], None, SUBMIT_ONE) == Saves(SubmittedOne())
  {
    NoEdgesNoCycle();
    assert InputNodes([ONE_TASK]) == [Node("a", [])];
    assert FirstInputError(InputIds([ONE_TASK]), [ONE_TASK]) == None;
    assert MergedItems([ONE_TASK], None) == SubmittedOne().items;
    assert OpenRequired(SubmittedOne().items[0]) && SubmittedOne().items[0] in SubmittedOne().items;
  }

  lemma FinishOneAttempt()
    ensures Attempted(map[], Some(SubmittedOne()), FINISH_ONE) == Saves(FinishedOne())
  {
    var items := SubmittedOne().items;
    assert Trim("done") == "done";
    assert ReplaceItem(items, "a", (x: Item) => UpdatedItem(x, Completed, "done")) == FinishedOne().items;
    assert !HasOpenRequired(FinishedOne().items);
  }

  /** Taking the k-th step leads from any run of the later steps to a run of this and the later ones. */
  lemma Prepend(s: State, steps: seq<Step>, k: nat)
    requires k < |steps| && Enabled(s, steps[k])
    ensures var next := Next(s, steps[k]);
            IsRun(next, steps[k + 1..]) ==> IsRun(s, steps[k..]) && After(s, steps[k..]) == After(next, steps[k + 1..])
  {
    hide Next;
    hide Enabled;
    assert steps[k..][0] == steps[k] && steps[k..][1..] == steps[k + 1..];
  }

  /** The late submission has read that there is no plan yet. */
  lemma BothRead() returns (s: State)
    ensures s == State(None, [], map[0 := Saving(SUBMIT_ONE, 0, None, map[], SubmittedOne()),
                                     1 := Saving(SUBMIT_ONE, 0, None, map[], SubmittedOne())])
    ensures IsRun(s, LATE_SUBMISSION[4..]) ==>
              IsRun(START, LATE_SUBMISSION[0..]) && After(START, LATE_SUBMISSION[0..]) == After(s, LATE_SUBMISSION[4..])
  {
    hide Attempted;
    hide IsRun;
    hide After;
    SubmitOneAttempt();
    var s1 := Next(START, LATE_SUBMISSION[0]);
    var s2 := Next(s1, LATE_SUBMISSION[1]);
    var s3 := Next(s2, LATE_SUBMISSION[2]);
    s := Next(s3, LATE_SUBMISSION[3]);
    Prepend(s3, LATE_SUBMISSION, 3);
    Prepend(s2, LATE_SUBMISSION, 2);
    Prepend(s1, LATE_SUBMISSION, 1);
    Prepend(START, LATE_SUBMISSION, 0);
  }

  /** The other submission has been saved, and an update of it is about to be written. */
  lemma FirstSaved(s: State) returns (t: State)
    requires s == State(None, [], map[0 := Saving(SUBMIT_ONE, 0, None, map[], SubmittedOne()),
                                      1 := Saving(SUBMIT_ONE, 0, None, map[], SubmittedOne())])
    ensures t.cell == Some(SubmittedOne()) && |t.log| == 1
    ensures t.calls.Keys == {0, 1, 2} && t.calls[1] == Saving(SUBMIT_ONE, 0, None, map[], SubmittedOne())
    ensures t.calls[2] == Saving(FINISH_ONE, 0, Some(SubmittedOne()), map[], FinishedOne())
    ensures IsRun(t, LATE_SUBMISSION[8..]) ==>
              IsRun(s, LATE_SUBMISSION[4..]) && After(s, LATE_SUBMISSION[4..]) == After(t, LATE_SUBMISSION[8..])
  {
    hide Attempted;
    hide IsRun;
    hide After;
    FinishOneAttempt();
    var s1 := Next(s, LATE_SUBMISSION[4]);
    var s2 := Next(s1, LATE_SUBMISSION[5]);
    var s3 := Next(s2, LATE_SUBMISSION[6]);
    t := Next(s3, LATE_SUBMISSION[7]);
    Prepend(s3, LATE_SUBMISSION, 7);
    Prepend(s2, LATE_SUBMISSION, 6);
    Prepend(s1, LATE_SUBMISSION, 5);
    Prepend(s, LATE_SUBMISSION, 4);
  }

  /** The update is saved, and then the late submission writes over it. */
  lemma WrittenOver(s: State) returns (t: State)
    requires s.cell == Some(SubmittedOne()) && |s.log| == 1 && s.calls.Keys == {0, 1, 2}
    requires s.calls[1] == Saving(SUBMIT_ONE, 0, None, map[], SubmittedOne())
    requires s.calls[2] == Saving(FINISH_ONE, 0, Some(SubmittedOne()), map[], FinishedOne())
    ensures t.cell == Some(SubmittedOne())
    ensures |t.log| == 3 && t.log[1].saved == FinishedOne() && t.log[2].saved == SubmittedOne()
    ensures IsRun(s, LATE_SUBMISSION[8..]) && After(s, LATE_SUBMISSION[8..]) == t
  {
    hide IsRun;
    hide After;
    var s1 := Next(s, LATE_SUBMISSION[8]);
    var s2 := Next(s1, LATE_SUBMISSION[9]);
    var s3 := Next(s2, LATE_SUBMISSION[10]);
    t := Next(s3, LATE_SUBMISSION[11]);
    AfterNothing(t, LATE_SUBMISSION[12..]);
    Prepend(s3, LATE_SUBMISSION, 11);
    Prepend(s2, LATE_SUBMISSION, 10);
    Prepend(s1, LATE_SUBMISSION, 9);
    Prepend(s, LATE_SUBMISSION, 8);
  }

  lemma AfterNothing(s: State, steps: seq<Step>)
    requires steps == []
    ensures IsRun(s, steps) && After(s, steps) == s
  {
  }

  lemma LateSubmissionStates() returns (s: State)
    ensures IsRun(START, LATE_SUBMISSION) && s == After(START, LATE_SUBMISSION)
    ensures s.cell == Some(SubmittedOne())
    ensures |s.log| == 3 && s.log[1].saved == FinishedOne() && s.log[2].saved == SubmittedOne()
  {
    hide IsRun;
    hide After;
    var a := BothRead();
    var b := FirstSaved(a);
    s := WrittenOver(b);
    assert LATE_SUBMISSION[0..] == LATE_SUBMISSION;
  }

  /** There is a run in which a finished plan that was ready for its answer is replaced by
      revision 1 of a fresh active plan: neither linearity nor phase order holds of it. */
  lemma OverwriteLosesWork()
    ensures exists steps :: IsRun(START, steps) && !Linear(After(START, steps).log)
                            && |After(START, steps).log| == 3
                            && After(START, steps).log[1].saved.phase == ReadyForAnswer
                            && After(START, steps).log[2].saved.phase == Active
                            && After(START, steps).log[2].saved.revision == 1
  {
    var s := LateSubmissionStates();
    assert s.log[2].saved.revision == 1;
    assert !Linear(s.log);
  }
}
