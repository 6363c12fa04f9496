/** The hosting service with its operations split where they wait: every interleaving of updates,
    repairs, reloads of the settings file, watcher passes and restarts. */
module HostingProtocol {
  import opened Basics
  import opened Hosting

  type CallId = nat

  /** The hosting part of a patch: the fields it sets. */
  datatype Patch = Patch(enabled: Option<bool>, startAtLogin: Option<bool>, publicPort: Option<nat>,
                         gatewayPort: Option<nat>, supported: Option<bool>)

  function Either<T>(a: Option<T>, b: T): T {
    if a.Some? then a.value else b
  }

  function Merged(s: Settings, p: Patch): Settings {
    Settings(Either(p.enabled, s.enabled), Either(p.startAtLogin, s.startAtLogin),
             Either(p.publicPort, s.publicPort), Either(p.gatewayPort, s.gatewayPort), Either(p.supported, s.supported))
  }

  /** An update under way: its patch, the settings it read, and what it previewed from them. */
  datatype Call = Call(patch: Patch, current: Settings, next: Settings)

  /** What a call waits for. A command to the funnel takes effect, or not, before its answer. */
  datatype Stage =
    | Switching(call: Call)
    | Switched(call: Call, took: bool)
    | Registering(call: Call)
    | Unregistering(call: Call)
    | SwitchingBack(call: Call)
    | Repairing

  /** What a watcher pass waits for: the status, the funnel, or the registration. */
  datatype Pass = Inspecting(desired: Settings) | Turning(on: bool) | Closing

  /** What the starting host waits for. */
  datatype Opening = Looking(existed: bool) | OpeningSwitch(on: bool)

  /** The settings in memory and those at the start, whether the gateway is published, the passes
      queued behind the one under way, and the calls under way. */
  datatype State = State(
    saved: Settings, initial: Settings, funnel: bool, queued: nat,
    calls: map<CallId, Stage>, pass: Option<Pass>, opening: Option<Opening>)

  /** Booleans say how things outside turn out: whether a patch is valid, a save works, a command
      takes effect and reports success, and what the status shows. */
  datatype Step =
    | Begin(id: CallId, patch: Patch, valid: bool, works: bool)
    | Switch(id: CallId, took: bool)
    | Resume(id: CallId, reported: bool, works: bool)
    | Register(id: CallId, done: bool, works: bool)
    | Unregister(id: CallId)
    | SwitchBack(id: CallId, took: bool)
    | Repair(id: CallId)
    | Edit(next: Settings)
    | BeginPass
    | Inspect(seen: bool)
    | Turn(took: bool)
    | EndPass
    | Restart(existed: bool, next: Settings)
    | Look(seen: bool, works: bool)
    | Open(took: bool)

  function StageOf(s: State, id: CallId): Option<Stage> {
    if id in s.calls then Some(s.calls[id]) else None
  }

  /** A command that reports success took effect. */
  predicate Enabled(s: State, step: Step) {
    match step
    case Begin(id, patch, valid, works) => id !in s.calls
    case Switch(id, took) => StageOf(s, id).Some? && (s.calls[id].Switching? || s.calls[id].Repairing?)
    case Resume(id, reported, works) => StageOf(s, id).Some? && s.calls[id].Switched? && (reported ==> s.calls[id].took)
    case Register(id, done, works) => StageOf(s, id).Some? && s.calls[id].Registering?
    case Unregister(id) => StageOf(s, id).Some? && s.calls[id].Unregistering?
    case SwitchBack(id, took) => StageOf(s, id).Some? && s.calls[id].SwitchingBack?
    case Repair(id) => id !in s.calls
    case Edit(next) => true
    case BeginPass => s.pass.None? && s.queued > 0
    case Inspect(seen) => s.pass.Some? && s.pass.value.Inspecting?
    case Turn(took) => s.pass.Some? && s.pass.value.Turning?
    case EndPass => s.pass.Some? && s.pass.value.Closing?
    case Restart(existed, next) => true
    case Look(seen, works) => s.opening.Some? && s.opening.value.Looking?
    case Open(took) => s.opening.Some? && s.opening.value.OpeningSwitch?
  }

  predicate StartupChanges(call: Call) {
    call.next.startAtLogin != call.current.startAtLogin
  }

  predicate Applies(call: Call) {
    FunnelApplies(call.current, call.next)
  }

  function Over(s: State, id: CallId): State {
    s.(calls := s.calls - {id})
  }

  function At(s: State, id: CallId, stage: Stage): State {
    s.(calls := s.calls[id := stage])
  }

  /** The patch is merged into the settings as they are now, not as the call read them. */
  function Saved(s: State, id: CallId, patch: Patch): State {
    Over(s, id).(saved := Merged(s.saved, patch))
  }

  /** A failed call with the registration as it was: the funnel is switched back if it was switched. */
  function Failing(s: State, id: CallId, call: Call): State {
    if Applies(call) then At(s, id, SwitchingBack(call)) else Over(s, id)
  }

  function Begun(s: State, id: CallId, patch: Patch, valid: bool, works: bool): State {
    var call := Call(patch, s.saved, Merged(s.saved, patch));
    if !valid || !call.next.supported then s
    else if Applies(call) then At(s, id, Switching(call))
    else if StartupChanges(call) then At(s, id, Registering(call))
    else if works then s.(saved := call.next)
    else s
  }

  function Resumed(s: State, id: CallId, call: Call, reported: bool, works: bool): State {
    if !reported then Over(s, id)
    else if StartupChanges(call) then At(s, id, Registering(call))
    else if works then Saved(s, id, call.patch)
    else Failing(s, id, call)
  }

  function Registered(s: State, id: CallId, call: Call, done: bool, works: bool): State {
    if !done then Failing(s, id, call)
    else if works then Saved(s, id, call.patch)
    else At(s, id, Unregistering(call))
  }

  /** The pass acts on the settings it read before it asked for the status. */
  function Inspected(s: State, desired: Settings, seen: bool): Pass {
    if desired.enabled && !seen && !PortsChanged(s.initial, desired) then Turning(true)
    else if !desired.enabled && seen then Turning(false)
    else Closing
  }

  /** A funnel found without a settings file is adopted; otherwise the settings decide. */
  function Looked(s: State, existed: bool, seen: bool, works: bool): State {
    if seen && !s.saved.enabled && !existed then
      s.(saved := if works then s.saved.(enabled := true) else s.saved, opening := None)
    else if seen != s.saved.enabled then s.(opening := Some(OpeningSwitch(s.saved.enabled)))
    else s.(opening := None)
  }

  function Next(s: State, step: Step): State
    requires Enabled(s, step)
  {
    match step
    case Begin(id, patch, valid, works) => Begun(s, id, patch, valid, works)
    case Switch(id, took) =>
      var t := s.(funnel := Either(Turned(s, step), s.funnel));
      if s.calls[id].Repairing? then Over(t, id) else At(t, id, Switched(s.calls[id].call, took))
    case Resume(id, reported, works) => Resumed(s, id, s.calls[id].call, reported, works)
    case Register(id, done, works) => Registered(s, id, s.calls[id].call, done, works)
    case Unregister(id) => Failing(s, id, s.calls[id].call)
    case SwitchBack(id, took) => Over(s.(funnel := Either(Turned(s, step), s.funnel)), id)
    case Repair(id) => if s.saved.enabled && !PortsChanged(s.initial, s.saved) then At(s, id, Repairing) else s
    case Edit(next) => s.(saved := next, queued := s.queued + 1)
    case BeginPass => s.(pass := Some(Inspecting(s.saved)), queued := s.queued - 1)
    case Inspect(seen) => s.(pass := Some(Inspected(s, s.pass.value.desired, seen)))
    case Turn(took) => s.(funnel := Either(Turned(s, step), s.funnel), pass := Some(Closing))
    case EndPass => s.(pass := None)
    case Restart(existed, next) => State(next, next, s.funnel, 0, map[], None, Some(Looking(existed)))
    case Look(seen, works) => Looked(s, s.opening.value.existed, seen, works)
    case Open(took) => s.(funnel := Either(Turned(s, step), s.funnel), opening := None)
  }

  /** What a step turns the funnel to, if it does. */
  function Turned(s: State, step: Step): Option<bool>
    requires Enabled(s, step)
  {
    match step
    case Switch(id, took) =>
      if !took then None else if s.calls[id].Repairing? then Some(true) else Some(s.calls[id].call.next.enabled)
    case SwitchBack(id, took) => if took then Some(s.calls[id].call.current.enabled) else None
    case Turn(took) => if took then Some(s.pass.value.on) else None
    case Open(took) => if took then Some(s.opening.value.on) else None
    case _ => None
  }

  predicate IsRun(s: State, steps: seq<Step>)
    decreases |steps|
  {
    steps != [] ==> Enabled(s, steps[0]) && IsRun(Next(s, steps[0]), steps[1..])
  }

  function After(s: State, steps: seq<Step>): State
    requires IsRun(s, steps)
    decreases |steps|
  {
    if steps == [] then s else After(Next(s, steps[0]), steps[1..])
  }

  // ----- what single steps do -----

  lemma MergedExactly(s: Settings, p: Patch)
    ensures var t := Merged(s, p);
            && t.enabled == (if p.enabled.Some? then p.enabled.value else s.enabled)
            && t.startAtLogin == (if p.startAtLogin.Some? then p.startAtLogin.value else s.startAtLogin)
            && t.publicPort == (if p.publicPort.Some? then p.publicPort.value else s.publicPort)
            && t.gatewayPort == (if p.gatewayPort.Some? then p.gatewayPort.value else s.gatewayPort)
            && t.supported == (if p.supported.Some? then p.supported.value else s.supported)
  {
  }

  /** A call that saves merges its patch into the settings in force then, which others may have
      changed since the call read them; no other step of a call touches the settings. */
  lemma SavesExactly(s: State, step: Step)
    requires Enabled(s, step) && (step.Switch? || step.Resume? || step.Register? || step.Unregister? || step.SwitchBack?)
    ensures Next(s, step).saved ==
            if step.Resume? && step.reported && step.works
               && s.calls[step.id].call.next.startAtLogin == s.calls[step.id].call.current.startAtLogin
            then Merged(s.saved, s.calls[step.id].call.patch)
            else if step.Register? && step.done && step.works then Merged(s.saved, s.calls[step.id].call.patch)
            else s.saved
  {
  }

  /** Where commands take the funnel. One that takes effect switches it as the update, the undoing, the
      repair, the pass or the starting host wants it, one that does not leaves it, and no other step
      moves it. What waited for the command then goes on. */
  lemma CommandsExactly(s: State, step: Step)
    requires Enabled(s, step)
    ensures var t := Next(s, step);
            match step
            case Switch(id, took) =>
              (match s.calls[id]
               case Repairing => t == s.(funnel := s.funnel || took, calls := s.calls - {id})
               case Switching(call) =>
                 t == s.(funnel := if took then call.next.enabled else s.funnel, calls := s.calls[id := Switched(call, took)])
               case _ => false)
            case SwitchBack(id, took) =>
              t == s.(funnel := if took then s.calls[id].call.current.enabled else s.funnel, calls := s.calls - {id})
            case Turn(took) => t == s.(funnel := if took then s.pass.value.on else s.funnel, pass := Some(Closing))
            case Open(took) => t == s.(funnel := if took then s.opening.value.on else s.funnel, opening := None)
            case _ => t.funnel == s.funnel
  {
    hide Begun;
    hide Resumed;
    hide Registered;
    hide Failing;
    match step
    case Begin(id, patch, valid, works) => CallsKeepFunnel(s, step);
    case Resume(id, reported, works) => CallsKeepFunnel(s, step);
    case Register(id, done, works) => CallsKeepFunnel(s, step);
    case Unregister(id) => CallsKeepFunnel(s, step);
    case _ =>
  }

  lemma CallsKeepFunnel(s: State, step: Step)
    requires Enabled(s, step) && (step.Begin? || step.Resume? || step.Register? || step.Unregister?)
    ensures Next(s, step).funnel == s.funnel
  {
    hide FunnelApplies;
    hide Merged;
  }

  /** Nothing is kept from happening: settings may be edited and the host restarted at any time, new
      calls and repairs may begin, a queued pass begins once none is under way, and whatever a call, a
      pass or the starting host waits for may come, in either way. */
  lemma MayHappen(s: State, id: CallId, patch: Patch, next: Settings, yes: bool, works: bool)
    ensures Enabled(s, Edit(next)) && Enabled(s, Restart(yes, next))
    ensures id !in s.calls ==> Enabled(s, Begin(id, patch, yes, works)) && Enabled(s, Repair(id))
    ensures id in s.calls ==>
              match s.calls[id]
              case Switching(call) => Enabled(s, Switch(id, yes))
              case Switched(call, took) => Enabled(s, Resume(id, false, works)) && (took ==> Enabled(s, Resume(id, true, works)))
              case Registering(call) => Enabled(s, Register(id, yes, works))
              case Unregistering(call) => Enabled(s, Unregister(id))
              case SwitchingBack(call) => Enabled(s, SwitchBack(id, yes))
              case Repairing => Enabled(s, Switch(id, yes))
    ensures match s.pass
            case None => s.queued > 0 ==> Enabled(s, BeginPass)
            case Some(Inspecting(desired)) => Enabled(s, Inspect(yes))
            case Some(Turning(on)) => Enabled(s, Turn(yes))
            case Some(Closing) => Enabled(s, EndPass)
    ensures match s.opening
            case None => true
            case Some(Looking(existed)) => Enabled(s, Look(yes, works))
            case Some(OpeningSwitch(on)) => Enabled(s, Open(yes))
  {
  }

  /** A pass asks for the funnel to be switched on exactly if the settings it read have hosting on,
      the status showed it off, and both ports are those the host started with; to be switched off
      exactly if the settings it read have hosting off and the status showed it on. */
  lemma InspectExactly(s: State, seen: bool)
    requires Enabled(s, Inspect(seen))
    ensures var desired, t := s.pass.value.desired, Next(s, Inspect(seen));
            && (t.pass == Some(Turning(true)) <==>
                  && desired.enabled && !seen
                  && desired.gatewayPort == s.initial.gatewayPort && desired.publicPort == s.initial.publicPort)
            && (t.pass == Some(Turning(false)) <==> !desired.enabled && seen)
            && t.pass.Some? && !t.pass.value.Inspecting? && t == s.(pass := t.pass)
  {
  }

  /** A repair publishes exactly if hosting is saved as on with the ports the host started with. */
  lemma RepairExactly(s: State, id: CallId)
    requires Enabled(s, Repair(id))
    ensures var t := Next(s, Repair(id));
            && (t != s <==>
                  && s.saved.enabled
                  && s.saved.gatewayPort == s.initial.gatewayPort && s.saved.publicPort == s.initial.publicPort)
            && (t != s ==> t == s.(calls := s.calls[id := Repairing]))
  {
  }

  /** A starting host adopts a funnel found without a settings file, and otherwise asks for the
      funnel to be switched exactly if it is not as the settings say. */
  lemma LookExactly(s: State, seen: bool, works: bool)
    requires Enabled(s, Look(seen, works))
    ensures var t, existed := Next(s, Look(seen, works)), s.opening.value.existed;
            && (t.saved != s.saved <==> seen && !s.saved.enabled && !existed && works)
            && (t.saved != s.saved ==> t.saved == s.saved.(enabled := true))
            && (t.opening == None || t.opening == Some(OpeningSwitch(s.saved.enabled)))
            && (t.opening.Some? <==> (seen && !s.saved.enabled && existed) || (!seen && s.saved.enabled))
            && t == s.(saved := t.saved, opening := t.opening)
  {
  }

  // ----- when the gateway is published although hosting is saved as off -----

  predicate Exposed(s: State) {
    s.funnel && !s.saved.enabled
  }

  /** The step switches on while off is saved, or saves off while the gateway is published. */
  predicate Exposes(s: State, step: Step)
    requires Enabled(s, step)
  {
    || (Turned(s, step) == Some(true) && !s.saved.enabled)
    || (s.funnel && s.saved.enabled && !Next(s, step).saved.enabled)
  }

  /** The step switches off, or saves on. */
  predicate Covers(s: State, step: Step)
    requires Enabled(s, step)
  {
    Turned(s, step) == Some(false) || Next(s, step).saved.enabled
  }

  predicate NoneCovers(s: State, steps: seq<Step>)
    requires IsRun(s, steps)
    decreases |steps|
  {
    steps != [] ==> !Covers(s, steps[0]) && NoneCovers(Next(s, steps[0]), steps[1..])
  }

  /** Some step exposes, and nothing after it covers. */
  predicate ExposureStands(s: State, steps: seq<Step>)
    requires IsRun(s, steps)
    decreases |steps|
  {
    steps != [] &&
      (|| (Exposes(s, steps[0]) && NoneCovers(Next(s, steps[0]), steps[1..]))
       || ExposureStands(Next(s, steps[0]), steps[1..]))
  }

  lemma ExposedStep(s: State, step: Step)
    requires Enabled(s, step)
    ensures Exposed(Next(s, step)) <==> Exposes(s, step) || (Exposed(s) && !Covers(s, step))
  {
    hide FunnelApplies;
    hide PortsChanged;
    hide Merged;
  }

  /** Over every interleaving and however calls turn out: at the end the gateway is published with
      hosting saved as off exactly when some step switched on while off was saved, or saved off
      while published, and no step since has switched off or saved on. */
  lemma {:induction false} ExposedExactly(s: State, steps: seq<Step>)
    requires IsRun(s, steps)
    ensures Exposed(After(s, steps)) <==> ExposureStands(s, steps) || (Exposed(s) && NoneCovers(s, steps))
    decreases |steps|
  {
    hide Next;
    hide Enabled;
    hide Exposes;
    hide Covers;
    hide Exposed;
    if steps != [] {
      ExposedStep(s, steps[0]);
      ExposedExactly(Next(s, steps[0]), steps[1..]);
    }
  }

  // ----- one operation at a time -----

  /** Nothing is under way. */
  predicate Rest(s: State) {
    s.calls == map[] && s.pass.None? && s.queued == 0 && s.opening.None?
  }

  predicate Starts(step: Step) {
    step.Begin? || step.Repair? || step.Edit? || step.Restart?
  }

  /** Operations start only at rest, so that none overlaps another. */
  predicate Orderly(s: State, steps: seq<Step>)
    requires IsRun(s, steps)
    decreases |steps|
  {
    steps != [] ==> (Starts(steps[0]) ==> Rest(s)) && Orderly(Next(s, steps[0]), steps[1..])
  }

  /** What leaves the gateway published with hosting off: the settings turn off under it, an
      enabling that took effect is reported as failed, or undoing an enabling is missed. */
  predicate Cause(s: State, step: Step)
    requires Enabled(s, step)
  {
    match step
    case Edit(next) => s.funnel && !next.enabled
    case Restart(existed, next) => s.funnel && !next.enabled
    case Resume(id, reported, works) => s.calls[id].took && !reported && s.calls[id].call.next.enabled
    case SwitchBack(id, took) => !took && !s.calls[id].call.current.enabled
    case _ => false
  }

  /** What ends it: the funnel is switched off, on is saved, or an update switches the funnel on,
      whose own outcome then decides. */
  predicate Settles(s: State, step: Step)
    requires Enabled(s, step)
  {
    Covers(s, step) || (step.Switch? && Turned(s, step) == Some(true))
  }

  predicate NoneSettles(s: State, steps: seq<Step>)
    requires IsRun(s, steps)
    decreases |steps|
  {
    steps != [] ==> !Settles(s, steps[0]) && NoneSettles(Next(s, steps[0]), steps[1..])
  }

  /** Some step is a cause, and nothing after it settles it. */
  predicate CauseStands(s: State, steps: seq<Step>)
    requires IsRun(s, steps)
    decreases |steps|
  {
    steps != [] &&
      (|| (Cause(s, steps[0]) && NoneSettles(Next(s, steps[0]), steps[1..]))
       || CauseStands(Next(s, steps[0]), steps[1..]))
  }

  /** A call alone: the settings are as it read them, and the funnel is where it switched it. */
  predicate StageOk(s: State, stage: Stage) {
    match stage
    case Repairing => s.saved.enabled
    case Switching(call) => Read(s, call) && Applies(call)
    case Switched(call, took) => Read(s, call) && Applies(call) && (took ==> s.funnel == call.next.enabled)
    case Registering(call) => Read(s, call) && (Applies(call) ==> s.funnel == call.next.enabled)
    case Unregistering(call) => Read(s, call) && (Applies(call) ==> s.funnel == call.next.enabled)
    case SwitchingBack(call) => Read(s, call) && Applies(call) && s.funnel == call.next.enabled
  }

  predicate Read(s: State, call: Call) {
    call.current == s.saved && call.next == Merged(s.saved, call.patch)
  }

  predicate PassOk(s: State, pass: Pass) {
    match pass
    case Inspecting(desired) => desired == s.saved
    case Turning(on) => on == s.saved.enabled
    case Closing => true
  }

  /** At most one operation is under way, and it knows the settings. */
  predicate Alone(s: State) {
    && (forall c, d :: c in s.calls && d in s.calls ==> c == d)
    && (forall c :: c in s.calls ==> s.pass.None? && s.queued == 0 && s.opening.None? && StageOk(s, s.calls[c]))
    && (s.pass.Some? ==> s.queued == 0 && s.opening.None? && PassOk(s, s.pass.value))
    && (s.opening.Some? ==> s.queued == 0)
    && (s.opening.Some? && s.opening.value.OpeningSwitch? ==> s.opening.value.on == s.saved.enabled)
    && s.queued <= 1
  }

  /** An update has switched the funnel on and has still to save that or to take it back. */
  predicate Enabling(stage: Stage) {
    && !stage.Repairing? && !stage.Switching? && (stage.Switched? ==> stage.took)
    && Applies(stage.call) && stage.call.next.enabled
  }

  predicate Early(s: State) {
    exists c :: c in s.calls && Enabling(s.calls[c])
  }

  predicate Tainted(s: State) {
    Exposed(s) && !Early(s)
  }

  lemma AppliesBothWays(call: Call)
    ensures Applies(call) ==> call.next.enabled != call.current.enabled
    ensures !Applies(call) && call.next.enabled != call.current.enabled ==> call.next.enabled
  {
  }

  /** The one call under way decides whether an enabling is still to be saved. */
  lemma EarlyAlone(s: State, id: CallId)
    requires Alone(s) && id in s.calls
    ensures Early(s) <==> Enabling(s.calls[id])
    ensures !Early(Over(s, id)) && forall stage :: Early(At(s, id, stage)) <==> Enabling(stage)
  {
    hide Enabling;
    forall stage
      ensures Early(At(s, id, stage)) <==> Enabling(stage)
    {
      assert At(s, id, stage).calls[id] == stage;
    }
  }

  lemma ResumeAlone(s: State, id: CallId, reported: bool, works: bool)
    requires Alone(s) && Enabled(s, Resume(id, reported, works))
    ensures Alone(Next(s, Resume(id, reported, works)))
    ensures var step := Resume(id, reported, works);
            Tainted(Next(s, step)) <==> Cause(s, step) || (Tainted(s) && !Settles(s, step))
  {
    hide FunnelApplies;
    hide PortsChanged;
    hide Merged;
    hide Early;
    var call := s.calls[id].call;
    AppliesBothWays(call);
    EarlyAlone(s, id);
    assert StageOk(s, s.calls[id]);
    assert Resumed(s, id, call, reported, works).funnel == s.funnel;
    if reported && !StartupChanges(call) && works {
      SavedIsOver(s, id, call.patch);
    }
  }

  lemma RegisterAlone(s: State, id: CallId, done: bool, works: bool)
    requires Alone(s) && Enabled(s, Register(id, done, works))
    ensures Alone(Next(s, Register(id, done, works)))
    ensures var step := Register(id, done, works);
            Tainted(Next(s, step)) <==> Cause(s, step) || (Tainted(s) && !Settles(s, step))
  {
    hide FunnelApplies;
    hide PortsChanged;
    hide Merged;
    hide Early;
    var call := s.calls[id].call;
    AppliesBothWays(call);
    EarlyAlone(s, id);
    assert StageOk(s, s.calls[id]);
    assert Registered(s, id, call, done, works).funnel == s.funnel;
    if done && works {
      SavedIsOver(s, id, call.patch);
    }
  }

  lemma UndoAlone(s: State, id: CallId, step: Step)
    requires Alone(s) && Enabled(s, step) && (step == Unregister(id) || (step.SwitchBack? && step.id == id))
    ensures Alone(Next(s, step))
    ensures Tainted(Next(s, step)) <==> Cause(s, step) || (Tainted(s) && !Settles(s, step))
  {
    hide FunnelApplies;
    hide PortsChanged;
    hide Merged;
    hide Early;
    AppliesBothWays(s.calls[id].call);
    EarlyAlone(s, id);
    assert StageOk(s, s.calls[id]);
    if step.SwitchBack? {
      var t := s.(funnel := Either(Turned(s, step), s.funnel));
      assert Early(Over(t, id)) == Early(Over(s, id)) by { SameCallsSameEarly(Over(t, id), Over(s, id)); }
    }
  }

  lemma SameCallsSameEarly(s: State, t: State)
    requires s.calls == t.calls
    ensures Early(s) == Early(t)
  {
  }

  lemma SwitchAlone(s: State, id: CallId, took: bool)
    requires Alone(s) && Enabled(s, Switch(id, took))
    ensures Alone(Next(s, Switch(id, took)))
    ensures var step := Switch(id, took);
            Tainted(Next(s, step)) <==> Cause(s, step) || (Tainted(s) && !Settles(s, step))
  {
    hide FunnelApplies;
    hide PortsChanged;
    hide Merged;
    hide Early;
    EarlyAlone(s, id);
    assert StageOk(s, s.calls[id]);
    var step := Switch(id, took);
    var t := s.(funnel := Either(Turned(s, step), s.funnel));
    if s.calls[id].Repairing? {
      SameCallsSameEarly(Over(t, id), Over(s, id));
    } else {
      var call := s.calls[id].call;
      AppliesBothWays(call);
      SameCallsSameEarly(At(t, id, Switched(call, took)), At(s, id, Switched(call, took)));
    }
  }

  lemma SavedIsOver(s: State, id: CallId, patch: Patch)
    ensures Early(Saved(s, id, patch)) == Early(Over(s, id))
  {
  }

  /** One step of an operation running alone. */
  lemma AloneStep(s: State, step: Step)
    requires Alone(s) && Enabled(s, step) && (Starts(step) ==> Rest(s))
    ensures Alone(Next(s, step))
    ensures Tainted(Next(s, step)) <==> Cause(s, step) || (Tainted(s) && !Settles(s, step))
  {
    hide FunnelApplies;
    hide PortsChanged;
    hide Merged;
    match step
    case Begin(id, patch, valid, works) => AppliesBothWays(Call(patch, s.saved, Merged(s.saved, patch)));
    case Switch(id, took) => SwitchAlone(s, id, took);
    case Resume(id, reported, works) => ResumeAlone(s, id, reported, works);
    case Register(id, done, works) => RegisterAlone(s, id, done, works);
    case Unregister(id) => UndoAlone(s, id, step);
    case SwitchBack(id, took) => UndoAlone(s, id, step);
    case Repair(id) =>
    case Edit(next) =>
    case BeginPass =>
    case Inspect(seen) =>
    case Turn(took) =>
    case EndPass =>
    case Restart(existed, next) =>
    case Look(seen, works) =>
    case Open(took) =>
  }

  lemma {:induction false} TaintedExactly(s: State, steps: seq<Step>)
    requires Alone(s) && IsRun(s, steps) && Orderly(s, steps)
    ensures Alone(After(s, steps))
    ensures Tainted(After(s, steps)) <==> CauseStands(s, steps) || (Tainted(s) && NoneSettles(s, steps))
    decreases |steps|
  {
    hide Next;
    hide Enabled;
    hide Cause;
    hide Settles;
    hide Tainted;
    hide Alone;
    hide Rest;
    if steps != [] {
      AloneStep(s, steps[0]);
      TaintedExactly(Next(s, steps[0]), steps[1..]);
    }
  }

  /** One operation at a time, from rest to rest and however calls turn out: the gateway is
      published with hosting saved as off exactly when the settings were turned off under it, an
      enabling took effect but was reported as failed, or the undoing of one was missed, and since
      then no step has switched off, saved on or begun another enabling. */
  lemma AtRestExactly(s: State, steps: seq<Step>)
    requires IsRun(s, steps) && Orderly(s, steps) && Rest(s) && Rest(After(s, steps))
    ensures Exposed(After(s, steps)) <==> CauseStands(s, steps) || (Exposed(s) && NoneSettles(s, steps))
  {
    TaintedExactly(s, steps);
    assert Tainted(s) <==> Exposed(s);
    assert Tainted(After(s, steps)) <==> Exposed(After(s, steps));
  }

  // ----- when every command works -----

  /** Commands take effect and report it, the status is true, and an adopted funnel is saved.
      Patches may be invalid; saving and registering may fail. */
  predicate Truthful(s: State, step: Step) {
    match step
    case Switch(id, took) => took
    case Resume(id, reported, works) => reported
    case SwitchBack(id, took) => took
    case Inspect(seen) => seen == s.funnel
    case Turn(took) => took
    case Look(seen, works) => seen == s.funnel && works
    case Open(took) => took
    case _ => true
  }

  predicate AllTruthful(s: State, steps: seq<Step>)
    requires IsRun(s, steps)
    decreases |steps|
  {
    steps != [] ==> Truthful(s, steps[0]) && AllTruthful(Next(s, steps[0]), steps[1..])
  }

  /** Something under way will switch the funnel off. */
  predicate BeingSettled(s: State) {
    || s.queued > 0
    || (s.pass.Some? && s.pass.value.Inspecting?)
    || (s.pass.Some? && s.pass.value == Turning(false))
    || s.opening.Some?
  }

  predicate Attended(s: State) {
    Tainted(s) ==> BeingSettled(s)
  }

  lemma AttendedStep(s: State, step: Step)
    requires Alone(s) && Enabled(s, step) && (Starts(step) ==> Rest(s))
    requires Attended(s) && Truthful(s, step)
    ensures Attended(Next(s, step))
  {
    AloneStep(s, step);
    hide FunnelApplies;
    hide PortsChanged;
    hide Merged;
    hide Early;
    hide StageOk;
  }

  lemma {:induction false} AttendedAlways(s: State, steps: seq<Step>)
    requires Alone(s) && IsRun(s, steps) && Orderly(s, steps) && Attended(s) && AllTruthful(s, steps)
    ensures Alone(After(s, steps)) && Attended(After(s, steps))
    decreases |steps|
  {
    hide Next;
    hide Enabled;
    hide Attended;
    hide Truthful;
    hide Alone;
    hide Rest;
    if steps != [] {
      AloneStep(s, steps[0]);
      AttendedStep(s, steps[0]);
      AttendedAlways(Next(s, steps[0]), steps[1..]);
    }
  }

  /** With one operation at a time and commands that work, the gateway is never published at rest
      with hosting saved as off, whatever is edited, refused or not saved. */
  lemma NeverPublishedAtRest(s: State, steps: seq<Step>)
    requires IsRun(s, steps) && Orderly(s, steps) && AllTruthful(s, steps)
    requires Rest(s) && !Exposed(s) && Rest(After(s, steps))
    ensures !Exposed(After(s, steps))
  {
    AttendedAlways(s, steps);
  }

  // ----- overlapping operations -----

  const ON := Settings(true, false, 443, 8790, true)
  const TURN_OFF := Patch(Some(false), None, None, None, None)

  /** A pass read that hosting is on and is about to publish while an update turns hosting off. */
  const OVERLAP := [
    Edit(ON), BeginPass, Inspect(false),
    Begin(0, TURN_OFF, true, true), Switch(0, true), Resume(0, true, true),
    Turn(true), EndPass]

  lemma RunsOn(s: State, steps: seq<Step>, k: nat, t: State)
    requires k < |steps| && Enabled(s, steps[k]) && t == Next(s, steps[k]) && IsRun(t, steps[k + 1..])
    requires Truthful(s, steps[k]) && AllTruthful(t, steps[k + 1..])
    ensures IsRun(s, steps[k..]) && AllTruthful(s, steps[k..]) && After(s, steps[k..]) == After(t, steps[k + 1..])
  {
    assert steps[k..][0] == steps[k] && steps[k..][1..] == steps[k + 1..];
  }

  /** Working commands alone are not enough: an update overlapping a watcher pass can leave the
      gateway published at rest with hosting saved as off, though every command worked. */
  lemma OverlapPublishes()
    ensures exists s: State, steps :: IsRun(s, steps) && AllTruthful(s, steps) && Rest(s) && !Exposed(s)
                                      && Rest(After(s, steps)) && Exposed(After(s, steps))
  {
    hide IsRun;
    hide After;
    hide AllTruthful;
    var s := State(ON, ON, false, 0, map[], None, None);
    var waiting := PassReadsOn(s);
    var off := TurnedOff(waiting);
    var end := off.(funnel := true, pass := None);
    var turned := Next(off, OVERLAP[6]);
    Ends(end, OVERLAP[8..]);
    RunsOn(turned, OVERLAP, 7, end);
    RunsOn(off, OVERLAP, 6, turned);
    assert OVERLAP[0..] == OVERLAP;
  }

  lemma PassReadsOn(s: State) returns (t: State)
    requires s == State(ON, ON, false, 0, map[], None, None)
    ensures t == s.(pass := Some(Turning(true)))
    ensures IsRun(t, OVERLAP[3..]) && AllTruthful(t, OVERLAP[3..]) ==>
              IsRun(s, OVERLAP[0..]) && AllTruthful(s, OVERLAP[0..]) && After(s, OVERLAP[0..]) == After(t, OVERLAP[3..])
  {
    hide IsRun;
    hide After;
    hide AllTruthful;
    var s1 := Next(s, OVERLAP[0]);
    var s2 := Next(s1, OVERLAP[1]);
    t := Next(s2, OVERLAP[2]);
    if IsRun(t, OVERLAP[3..]) && AllTruthful(t, OVERLAP[3..]) {
      RunsOn(s2, OVERLAP, 2, t);
      RunsOn(s1, OVERLAP, 1, s2);
      RunsOn(s, OVERLAP, 0, s1);
    }
  }

  lemma TurnedOff(s: State) returns (t: State)
    requires s == State(ON, ON, false, 0, map[], Some(Turning(true)), None)
    ensures t == s.(saved := ON.(enabled := false))
    ensures IsRun(t, OVERLAP[6..]) && AllTruthful(t, OVERLAP[6..]) ==>
              IsRun(s, OVERLAP[3..]) && AllTruthful(s, OVERLAP[3..]) && After(s, OVERLAP[3..]) == After(t, OVERLAP[6..])
  {
    hide IsRun;
    hide After;
    hide AllTruthful;
    var s1 := Next(s, OVERLAP[3]);
    var s2 := Next(s1, OVERLAP[4]);
    t := Next(s2, OVERLAP[5]);
    if IsRun(t, OVERLAP[6..]) && AllTruthful(t, OVERLAP[6..]) {
      RunsOn(s2, OVERLAP, 5, t);
      RunsOn(s1, OVERLAP, 4, s2);
      RunsOn(s, OVERLAP, 3, s1);
    }
  }

  lemma Ends(s: State, steps: seq<Step>)
    requires steps == []
    ensures IsRun(s, steps) && AllTruthful(s, steps) && After(s, steps) == s
  {
  }

  // ----- an update that nothing overlaps -----

  lemma First(s: State, step: Step, t: State, rest: seq<Step>)
    requires Enabled(s, step) && t == Next(s, step) && IsRun(t, rest)
    ensures IsRun(s, [step] + rest) && After(s, [step] + rest) == After(t, rest)
  {
    assert ([step] + rest)[0] == step && ([step] + rest)[1..] == rest;
  }

  lemma AtTwice(s: State, id: CallId, a: Stage, b: Stage)
    requires id !in s.calls
    ensures At(At(s, id, a), id, b) == At(s, id, b) && Over(At(s, id, a), id) == s
  {
    assert s.calls[id := a][id := b] == s.calls[id := b];
    assert s.calls[id := a] - {id} == s.calls;
  }

  /** Switching back, where the funnel was switched, ends a failed call. */
  lemma FailsTo(s: State, id: CallId, call: Call, stage: Stage, undone: bool) returns (steps: seq<Step>)
    requires id !in s.calls
    ensures var t := Failing(At(s, id, stage), id, call);
            IsRun(t, steps) && After(t, steps) == s.(funnel := if Applies(call) && undone then call.current.enabled else s.funnel)
  {
    hide FunnelApplies;
    AtTwice(s, id, stage, SwitchingBack(call));
    AtTwice(s, id, SwitchingBack(call), SwitchingBack(call));
    var t := Failing(At(s, id, stage), id, call);
    if Applies(call) {
      var end := Next(t, SwitchBack(id, undone));
      AtTwice(end, id, SwitchingBack(call), SwitchingBack(call));
      assert end == s.(funnel := if undone then call.current.enabled else s.funnel);
      Ends(end, []);
      First(t, SwitchBack(id, undone), end, []);
      steps := [SwitchBack(id, undone)] + [];
    } else {
      Ends(t, []);
      steps := [];
    }
  }

  lemma RegistersTo(s: State, id: CallId, call: Call, done: bool, works: bool, undone: bool) returns (steps: seq<Step>)
    requires id !in s.calls && call.next == Merged(s.saved, call.patch)
    ensures var t := At(s, id, Registering(call));
            IsRun(t, steps) &&
            After(t, steps) ==
            if done && works then s.(saved := call.next)
            else s.(funnel := if Applies(call) && undone then call.current.enabled else s.funnel)
  {
    hide FunnelApplies;
    hide IsRun;
    hide After;
    hide Failing;
    var t := At(s, id, Registering(call));
    var step := Register(id, done, works);
    AtTwice(s, id, Registering(call), Unregistering(call));
    var u := Next(t, step);
    if done && works {
      assert u == s.(saved := call.next);
      Ends(u, []);
      First(t, step, u, []);
      steps := [step] + [];
    } else if done {
      var rest := FailsTo(s, id, call, Unregistering(call), undone);
      var v := Next(u, Unregister(id));
      First(u, Unregister(id), v, rest);
      First(t, step, u, [Unregister(id)] + rest);
      steps := [step] + ([Unregister(id)] + rest);
    } else {
      var rest := FailsTo(s, id, call, Registering(call), undone);
      First(t, step, u, rest);
      steps := [step] + rest;
    }
  }

  /** The funnel has been switched and says so, or need not be switched. */
  lemma ResumesTo(s: State, id: CallId, call: Call, done: bool, works: bool, undone: bool) returns (steps: seq<Step>)
    requires id !in s.calls && call.next == Merged(s.saved, call.patch)
    ensures var t := At(s, id, Switched(call, true));
            IsRun(t, steps) &&
            After(t, steps) ==
            if (StartupChanges(call) ==> done) && works then s.(saved := call.next)
            else s.(funnel := if Applies(call) && undone then call.current.enabled else s.funnel)
  {
    hide FunnelApplies;
    hide IsRun;
    hide After;
    hide Failing;
    var t := At(s, id, Switched(call, true));
    var step := Resume(id, true, works);
    AtTwice(s, id, Switched(call, true), Registering(call));
    var u := Next(t, step);
    var rest: seq<Step> := [];
    if StartupChanges(call) {
      rest := RegistersTo(s, id, call, done, works, undone);
    } else if works {
      assert u == s.(saved := call.next);
      Ends(u, []);
    } else {
      rest := FailsTo(s, id, call, Switched(call, true), undone);
    }
    First(t, step, u, rest);
    steps := [step] + rest;
  }

  lemma SwitchesTo(s: State, id: CallId, call: Call, registrable: bool, works: Works) returns (steps: seq<Step>)
    requires id !in s.calls && call.next == Merged(s.saved, call.patch) && call.current == s.saved && Applies(call)
    ensures var t := At(s, id, Switching(call));
            IsRun(t, steps) &&
            After(t, steps) ==
            if works.funnel.Done? && (StartupChanges(call) ==> registrable) && works.save
            then s.(saved := call.next, funnel := call.next.enabled)
            else s.(funnel := if works.funnel.Refused? then s.funnel
                              else if works.funnel.Lost? then call.next.enabled
                              else if works.undoFunnel then s.saved.enabled else call.next.enabled)
  {
    hide FunnelApplies;
    hide IsRun;
    hide After;
    hide Failing;
    var t := At(s, id, Switching(call));
    var took := !works.funnel.Refused?;
    var step := Switch(id, took);
    var base := if took then s.(funnel := call.next.enabled) else s;
    var u := Next(t, step);
    AtTwice(base, id, Switching(call), Switched(call, took));
    assert u == At(base, id, Switched(call, took));
    var rest: seq<Step>;
    if works.funnel.Done? {
      rest := ResumesTo(base, id, call, registrable, works.save, works.undoFunnel);
    } else {
      AtTwice(base, id, Switched(call, took), Switched(call, took));
      var over := Next(u, Resume(id, false, works.save));
      assert over == base;
      Ends(over, []);
      First(u, Resume(id, false, works.save), over, []);
      rest := [Resume(id, false, works.save)] + [];
    }
    First(t, step, u, rest);
    steps := [step] + rest;
  }

  /** The funnel and the settings an update leaves, apart from the registration. */
  lemma UpdatedInShort(m: Machine, available: bool, next: Settings, works: Works)
    requires next.supported
    ensures var r := Updated(m, available, Some(next), works).1;
            var done := next.startAtLogin != m.saved.startAtLogin ==>
                          ReconcileOk(next.startAtLogin, m.registered, available, works.startup);
            var applies := FunnelApplies(m.saved, next);
            && r.saved == (if (applies ==> works.funnel.Done?) && done && works.save then next else m.saved)
            && r.funnel ==
               (if !applies || works.funnel.Refused? then m.funnel
                else if works.funnel.Done? && !(done && works.save) && works.undoFunnel then m.saved.enabled
                else next.enabled)
  {
    hide FunnelApplies;
    hide Reconciled;
    hide ReconcileOk;
  }

  /** An update that nothing overlaps comes, in its own steps, to the outcome of the update taken
      as a whole. */
  lemma AloneIsUpdated(s: State, id: CallId, patch: Patch, valid: bool, registered: bool, available: bool, works: Works)
    returns (steps: seq<Step>)
    requires id !in s.calls
    ensures var next := if valid then Some(Merged(s.saved, patch)) else None;
            var m := Updated(Machine(s.saved, s.funnel, registered), available, next, works).1;
            IsRun(s, steps) && After(s, steps) == s.(saved := m.saved, funnel := m.funnel)
  {
    hide FunnelApplies;
    hide Reconciled;
    hide ReconcileOk;
    hide IsRun;
    hide After;
    hide Merged;
    hide Updated;
    var m := Machine(s.saved, s.funnel, registered);
    var next := Merged(s.saved, patch);
    var call := Call(patch, s.saved, next);
    var step := Begin(id, patch, valid, works.save);
    var u := Next(s, step);
    var registrable := ReconcileOk(next.startAtLogin, registered, available, works.startup);
    var rest: seq<Step> := [];
    if !valid || !next.supported {
      RefusedUpdate(m, available, if valid then Some(next) else None, works);
      Ends(u, []);
    } else {
      UpdatedInShort(m, available, next, works);
      if Applies(call) {
        rest := SwitchesTo(s, id, call, registrable, works);
      } else if StartupChanges(call) {
        rest := RegistersTo(s, id, call, registrable, works.save, works.undoFunnel);
      } else {
        Ends(u, []);
      }
    }
    First(s, step, u, rest);
    steps := [step] + rest;
  }
}
