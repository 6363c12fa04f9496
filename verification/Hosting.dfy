/** Applying a change of the hosting configuration, with compensation when a step fails. */
module Hosting {
  import opened Basics

  datatype Settings = Settings(enabled: bool, startAtLogin: bool, publicPort: nat, gatewayPort: nat, supported: bool)

  /** The saved settings and the machine: whether the funnel publishes the gateway and whether the
      launcher is registered to start at login. */
  datatype Machine = Machine(saved: Settings, funnel: bool, registered: bool)

  /** How a command to the funnel ends: done, done but reported as failed because the check that
      follows it fails, or refused without effect. */
  datatype Answer = Done | Lost | Refused

  /** How the external calls end, forward and while undoing, where what is reported is ignored.
      Registering, saving and the rest have no effect when they fail. */
  datatype Works = Works(funnel: Answer, startup: bool, save: bool, undoFunnel: bool, undoStartup: bool)

  /** Startup agrees with a wish if it is met wherever it can be. */
  predicate StartupAgrees(wanted: bool, registered: bool, available: bool) {
    if wanted then available ==> registered else !registered
  }

  predicate Agrees(m: Machine, available: bool) {
    m.funnel == m.saved.enabled && StartupAgrees(m.saved.startAtLogin, m.registered, available)
  }

  /** Registering is needed and possible. */
  predicate MustInstall(wanted: bool, registered: bool, available: bool) {
    wanted && available && !registered
  }

  predicate MustRemove(wanted: bool, registered: bool) {
    !wanted && registered
  }

  /** Installing throws when it fails; a failing removal goes unnoticed. */
  function Reconciled(wanted: bool, registered: bool, available: bool, works: bool): (registered': bool)
    ensures works ==> StartupAgrees(wanted, registered', available)
  {
    if MustInstall(wanted, registered, available) then works
    else if MustRemove(wanted, registered) then !works
    else registered
  }

  predicate ReconcileOk(wanted: bool, registered: bool, available: bool, works: bool) {
    MustInstall(wanted, registered, available) ==> works
  }

  predicate PortsChanged(current: Settings, next: Settings) {
    next.gatewayPort != current.gatewayPort || next.publicPort != current.publicPort
  }

  /** Enabling waits for a restart when the ports change with it. */
  predicate Deferred(current: Settings, next: Settings) {
    next.enabled && !current.enabled && PortsChanged(current, next)
  }

  predicate FunnelApplies(current: Settings, next: Settings) {
    next.enabled != current.enabled && !Deferred(current, next)
  }

  lemma AppliesMeans(current: Settings, next: Settings)
    ensures FunnelApplies(current, next) <==>
            next.enabled != current.enabled && (!PortsChanged(current, next) || !next.enabled)
  {
  }

  predicate Accepted(next: Option<Settings>) {
    next.Some? && next.value.supported
  }

  // ----- the service -----

  class HostingService {
    /** Whether the packaged launcher can be registered on this machine. */
    const available: bool
    /** The settings in force when the host started. */
    var initial: Settings
    var saved: Settings
    var funnel: bool
    var registered: bool

    constructor (saved: Settings, funnel: bool, registered: bool, available: bool)
      ensures State() == Machine(saved, funnel, registered) && this.available == available && initial == saved
    {
      this.initial := saved;
      this.saved, this.funnel, this.registered, this.available := saved, funnel, registered, available;
    }

    function State(): Machine
      reads this
    {
      Machine(saved, funnel, registered)
    }

    method SetFunnel(on: bool, answer: Answer) returns (ok: bool)
      modifies this`funnel
      ensures ok == answer.Done? && funnel == if answer.Refused? then old(funnel) else on
    {
      if !answer.Refused? {
        funnel := on;
      }
      ok := answer.Done?;
    }

    method ReconcileStartup(wanted: bool, works: bool) returns (ok: bool)
      modifies this`registered
      ensures ok == ReconcileOk(wanted, old(registered), available, works)
      ensures !ok ==> registered == old(registered)
      ensures registered == Reconciled(wanted, old(registered), available, works)
    {
      ok := true;
      if wanted && available && !registered {
        if works {
          registered := true;
        } else {
          ok := false;
        }
      } else if !wanted && registered && works {
        registered := false;
      }
    }

    method Save(next: Settings, works: bool) returns (ok: bool)
      modifies this`saved
      ensures ok == works && saved == if works then next else old(saved)
    {
      if works {
        saved := next;
      }
      ok := works;
    }

    /** Undoes what was applied, last step first. */
    method Undo(current: Settings, startupApplied: bool, funnelApplied: bool, works: Works)
      modifies this`registered, this`funnel
      ensures registered == if startupApplied then Reconciled(current.startAtLogin, old(registered), available, works.undoStartup)
                            else old(registered)
      ensures funnel == if funnelApplied && works.undoFunnel then current.enabled else old(funnel)
    {
      if startupApplied {
        var _ := ReconcileStartup(current.startAtLogin, works.undoStartup);
      }
      if funnelApplied {
        var _ := SetFunnel(current.enabled, if works.undoFunnel then Done else Refused);
      }
    }

    /** Switches the funnel and the registration as the new settings need it, until a call fails. */
    method Apply(next: Settings, works: Works) returns (ok: bool, funnelApplied: bool, startupApplied: bool)
      modifies this`funnel, this`registered
      ensures Applied(ok, funnelApplied, startupApplied, State()) == Forward(old(State()), available, next, works)
    {
      AppliesMeans(saved, next);
      hide FunnelApplies;
      hide Reconciled;
      hide ReconcileOk;
      var hostingChanged := next.enabled != saved.enabled;
      var startupChanged := next.startAtLogin != saved.startAtLogin;
      funnelApplied, startupApplied := false, false;
      ok := true;
      if hostingChanged && (!PortsChanged(saved, next) || !next.enabled) {
        ok := SetFunnel(next.enabled, works.funnel);
        funnelApplied := ok;
      }
      if ok && startupChanged {
        ok := ReconcileStartup(next.startAtLogin, works.startup);
        startupApplied := ok;
      }
    }

    /** Applies new settings; next is None when the patch does not make a valid document. */
    method Update(next: Option<Settings>, works: Works) returns (ok: bool)
      modifies this`saved, this`funnel, this`registered
      ensures (ok, State()) == Updated(old(State()), available, next, works)
    {
      hide FunnelApplies;
      hide Reconciled;
      hide Forward;
      hide Updated;
      if !Accepted(next) {
        RefusedUpdate(State(), available, next, works);
        return false;
      }
      var current := saved;
      StepByStep(State(), available, next.value, works);
      var funnelApplied, startupApplied;
      ok, funnelApplied, startupApplied := Apply(next.value, works);
      if ok {
        ok := Save(next.value, works.save);
      }
      if !ok {
        Undo(current, startupApplied, funnelApplied, works);
      }
    }

    /** The watcher's pass over the machine after the settings file changed. */
    method Watch(works: Works)
      modifies this`funnel, this`registered
      ensures State() == Watched(old(State()), initial, available, works)
    {
      var ok := true;
      if saved.enabled && !funnel && !PortsChanged(initial, saved) {
        ok := SetFunnel(true, works.funnel);
      }
      if ok && !saved.enabled && funnel {
        ok := SetFunnel(false, works.funnel);
      }
      if ok {
        var _ := ReconcileStartup(saved.startAtLogin, works.startup);
      }
    }

    /** Starting the host: the settings file, if there was one, is authoritative. */
    method Initialize(existed: bool, works: Works)
      modifies this
      ensures State() == Started(old(State()), existed, available, works) && initial == old(saved)
    {
      initial := saved;
      var ok := true;
      if funnel && !saved.enabled {
        if existed {
          ok := SetFunnel(false, works.funnel);
        } else {
          ok := Save(saved.(enabled := true), works.save);
        }
      } else if saved.enabled && !funnel {
        ok := SetFunnel(true, works.funnel);
      }
      if ok {
        var _ := ReconcileStartup(saved.startAtLogin, works.startup);
      }
    }
  }

  /** How far an update got before saving: whether every call worked and which took effect. */
  datatype Applied = Applied(ok: bool, funnelApplied: bool, startupApplied: bool, machine: Machine)

  function Forward(m: Machine, available: bool, next: Settings, works: Works): Applied {
    var applies, startup := FunnelApplies(m.saved, next), next.startAtLogin != m.saved.startAtLogin;
    var funnel := if applies && !works.funnel.Refused? then next.enabled else m.funnel;
    if applies && !works.funnel.Done? then Applied(false, false, false, m.(funnel := funnel))
    else if !startup then Applied(true, applies, false, m.(funnel := funnel))
    else
      var ok := ReconcileOk(next.startAtLogin, m.registered, available, works.startup);
      Applied(ok, applies, ok,
              m.(funnel := funnel, registered := Reconciled(next.startAtLogin, m.registered, available, works.startup)))
  }

  function TakenBack(a: Applied, available: bool, current: Settings, works: Works): Machine {
    a.machine.(
      funnel := if a.funnelApplied && works.undoFunnel then current.enabled else a.machine.funnel,
      registered := if a.startupApplied then Reconciled(current.startAtLogin, a.machine.registered, available, works.undoStartup)
                    else a.machine.registered)
  }

  /** Going forward and, on a failure, taking back what was applied comes to the closed form. */
  lemma StepByStep(m: Machine, available: bool, next: Settings, works: Works)
    requires next.supported
    ensures var a := Forward(m, available, next, works);
            Updated(m, available, Some(next), works) ==
            if a.ok && works.save then (true, a.machine.(saved := next)) else (false, TakenBack(a, available, m.saved, works))
  {
  }

  lemma RefusedUpdate(m: Machine, available: bool, next: Option<Settings>, works: Works)
    requires !Accepted(next)
    ensures Updated(m, available, next, works) == (false, m)
  {
  }

  /** What an update comes to: whether it succeeds, and the machine afterwards. */
  function Updated(m: Machine, available: bool, next: Option<Settings>, works: Works): (bool, Machine) {
    if !Accepted(next) then (false, m)
    else
      var applies := FunnelApplies(m.saved, next.value);
      var startup := next.value.startAtLogin != m.saved.startAtLogin;
      if applies && !works.funnel.Done? then (false, m.(funnel := if works.funnel.Refused? then m.funnel else next.value.enabled))
      else
        var funnel := if applies then next.value.enabled else m.funnel;
        var undone := if applies && works.undoFunnel then m.saved.enabled else funnel;
        if startup && !ReconcileOk(next.value.startAtLogin, m.registered, available, works.startup) then
          (false, m.(funnel := undone))
        else
          var registered := if startup then Reconciled(next.value.startAtLogin, m.registered, available, works.startup) else m.registered;
          if works.save then (true, Machine(next.value, funnel, registered))
          else (false, Machine(m.saved, undone,
                               if startup then Reconciled(m.saved.startAtLogin, registered, available, works.undoStartup) else registered))
  }

  /** What the configuration watcher comes to; a call that throws ends it. */
  function Watched(m: Machine, initial: Settings, available: bool, works: Works): Machine {
    var enable := m.saved.enabled && !m.funnel && !PortsChanged(initial, m.saved);
    var disable := !m.saved.enabled && m.funnel;
    if (enable || disable) && !works.funnel.Done? then m.(funnel := if works.funnel.Refused? then m.funnel else enable)
    else
      m.(funnel := if enable then true else if disable then false else m.funnel,
         registered := Reconciled(m.saved.startAtLogin, m.registered, available, works.startup))
  }

  /** What starting the host comes to; without a settings file an existing funnel is adopted. */
  function Started(m: Machine, existed: bool, available: bool, works: Works): Machine {
    var adopt := m.funnel && !m.saved.enabled && !existed;
    var switch := m.funnel != m.saved.enabled && !adopt;
    if adopt && !works.save then m
    else if switch && !works.funnel.Done? then m.(funnel := if works.funnel.Refused? then m.funnel else m.saved.enabled)
    else
      var saved := if adopt then m.saved.(enabled := true) else m.saved;
      Machine(saved, saved.enabled, Reconciled(saved.startAtLogin, m.registered, available, works.startup))
  }

  // ----- what the compensation achieves -----

  /** The update has to switch the funnel: hosting goes off, or on with both ports as they were. */
  predicate Switches(current: Settings, next: Settings) {
    || (current.enabled && !next.enabled)
    || (!current.enabled && next.enabled && next.gatewayPort == current.gatewayPort && next.publicPort == current.publicPort)
  }

  /** Hosting goes on together with another port, which waits for a restart. */
  predicate Waits(current: Settings, next: Settings) {
    !current.enabled && next.enabled && (next.gatewayPort != current.gatewayPort || next.publicPort != current.publicPort)
  }

  predicate Installs(m: Machine, available: bool, next: Settings) {
    next.startAtLogin && !m.saved.startAtLogin && available && !m.registered
  }

  predicate Removes(m: Machine, next: Settings) {
    !next.startAtLogin && m.saved.startAtLogin && m.registered
  }

  /** Every call the update makes works; a removal that fails is taken for done. */
  predicate Succeeds(m: Machine, available: bool, next: Settings, works: Works) {
    && next.supported && works.save
    && (Switches(m.saved, next) ==> works.funnel.Done?)
    && (Installs(m, available, next) ==> works.startup)
  }

  /** On any machine, a supported update saves exactly when every call it makes works. The funnel
      moves only if it has to be switched, and is switched back only where it is known to have moved. */
  lemma UpdateExactly(m: Machine, available: bool, next: Settings, works: Works)
    requires next.supported
    ensures var (ok, after) := Updated(m, available, Some(next), works);
            && (ok <==> Succeeds(m, available, next, works))
            && after.saved == (if ok then next else m.saved)
            && after.funnel == (if !Switches(m.saved, next) || works.funnel.Refused? then m.funnel
                                else if works.funnel.Done? && !ok && works.undoFunnel then m.saved.enabled
                                else next.enabled)
            && (ok ==> after.registered == if Installs(m, available, next) then true
                                           else if Removes(m, next) then !works.startup
                                           else m.registered)
  {
  }

  /** If machine and settings agreed before and undoing works, they agree after an update except
      exactly when it saved with an enable that waits for a restart or with a removal that silently
      failed, or failed with a funnel switched although that was reported as failed. */
  lemma AgreementKeptExactly(m: Machine, available: bool, next: Option<Settings>, works: Works)
    requires Agrees(m, available) && works.undoFunnel && works.undoStartup
    ensures var (ok, after) := Updated(m, available, next, works);
            && (ok <==> next.Some? && Succeeds(m, available, next.value, works))
            && after.saved == (if ok then next.value else m.saved)
            && (Agrees(after, available) <==>
                  !(next.Some? && next.value.supported
                    && if Succeeds(m, available, next.value, works)
                       then Waits(m.saved, next.value) || (Removes(m, next.value) && !works.startup)
                       else Switches(m.saved, next.value) && works.funnel.Lost?))
  {
  }

  /** A failed update restores the machine, unless it switched the funnel and was told that this
      failed, or removed a registration that could not be installed again because the launcher
      is gone. */
  lemma FailureRestoresExactly(m: Machine, available: bool, next: Option<Settings>, works: Works)
    requires Agrees(m, available) && works.undoFunnel && works.undoStartup
    requires !Updated(m, available, next, works).0
    ensures var after := Updated(m, available, next, works).1;
            after == m <==>
            !(next.Some? && next.value.supported &&
                if Switches(m.saved, next.value) && !works.funnel.Done? then works.funnel.Lost?
                else Removes(m, next.value) && !available && works.startup)
  {
  }

  /** When undoing fails too, the drift is confined to what had been applied, and the error is
      still reported with the old settings in force. */
  lemma DriftExactly(m: Machine, available: bool, next: Option<Settings>, works: Works)
    requires Agrees(m, available) && !Updated(m, available, next, works).0
    ensures var after := Updated(m, available, next, works).1;
            && after.saved == m.saved
            && (after.funnel != m.saved.enabled <==>
                  && next.Some? && next.value.supported && Switches(m.saved, next.value)
                  && (works.funnel.Lost? || (works.funnel.Done? && !works.undoFunnel)))
            && (!StartupAgrees(m.saved.startAtLogin, after.registered, available) <==>
                  && next.Some? && next.value.supported && next.value.startAtLogin != m.saved.startAtLogin
                  && (Switches(m.saved, next.value) ==> works.funnel.Done?)
                  && available && works.startup && !works.undoStartup)
  {
  }

  /** The registration is not as wished, and can be brought there. */
  predicate Unmet(wanted: bool, registered: bool, available: bool) {
    (wanted && !registered && available) || (!wanted && registered)
  }

  /** The watcher has to switch the funnel: on only while both ports are those the host started with. */
  predicate Turns(m: Machine, initial: Settings) {
    || (!m.saved.enabled && m.funnel)
    || (m.saved.enabled && !m.funnel && m.saved.gatewayPort == initial.gatewayPort && m.saved.publicPort == initial.publicPort)
  }

  /** However its calls turn out, a pass of the watcher switches the funnel if it has to and, unless
      that is reported as failed, then puts the registration right. */
  lemma WatchExactly(m: Machine, initial: Settings, available: bool, works: Works)
    ensures var after := Watched(m, initial, available, works);
            && after.saved == m.saved
            && (after.funnel != m.funnel <==> Turns(m, initial) && !works.funnel.Refused?)
            && (after.registered != m.registered <==>
                  && (Turns(m, initial) ==> works.funnel.Done?)
                  && Unmet(m.saved.startAtLogin, m.registered, available) && works.startup)
  {
  }

  /** The watcher brings any machine into agreement, except exactly for an enable that waits for a
      restart with other ports. */
  lemma WatchSettlesExactly(m: Machine, initial: Settings, available: bool, works: Works)
    requires works.funnel.Done? && works.startup
    ensures Agrees(Watched(m, initial, available, works), available) <==>
            !(m.saved.enabled && !m.funnel
              && (m.saved.gatewayPort != initial.gatewayPort || m.saved.publicPort != initial.publicPort))
  {
  }

  /** However its calls turn out, a start adopts a funnel found without a settings file, switches
      one that is not as the settings say, and unless that failed puts the registration right. */
  lemma StartExactly(m: Machine, existed: bool, available: bool, works: Works)
    ensures var after := Started(m, existed, available, works);
            var adopts := m.funnel && !m.saved.enabled && !existed;
            && after.saved == (if adopts && works.save then m.saved.(enabled := true) else m.saved)
            && (after.funnel != m.funnel <==> m.funnel != m.saved.enabled && !adopts && !works.funnel.Refused?)
            && (after.registered != m.registered <==>
                  && (adopts ==> works.save) && (m.funnel != m.saved.enabled && !adopts ==> works.funnel.Done?)
                  && Unmet(m.saved.startAtLogin, m.registered, available) && works.startup)
  {
  }

  /** Whatever state the machine is in, a start whose calls work brings it into agreement, keeping
      the settings unless it adopts a funnel found without a settings file. */
  lemma StartSettles(m: Machine, existed: bool, available: bool, works: Works)
    requires works.funnel.Done? && works.startup && works.save
    ensures var after := Started(m, existed, available, works);
            Agrees(after, available)
            && after.saved == (if m.funnel && !existed then m.saved.(enabled := true) else m.saved)
  {
  }

  /** A missed undo can leave the gateway published although hosting is off. */
  lemma MissedUndoPublishes()
    ensures var off := Settings(false, false, 443, 8790, true);
            var failing := Works(Done, true, false, false, true);
            var (ok, after) := Updated(Machine(off, false, false), true, Some(off.(enabled := true)), failing);
            !ok && after.funnel && !after.saved.enabled
  {
  }
}
