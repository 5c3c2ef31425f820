/** Starting and stopping a tunnel: backend choice, the kernel start with its fallback, and the way back. */
module Engine {
  import opened Common
  import opened Config
  import opened KernelLink
  import opened Platform

  datatype Preference = Auto | Kernel | Userspace
  datatype Decision = UserspaceGotaTun | LinuxKernel

  datatype StartRequest =
    StartRequest(tun: string, preference: Preference, daita: bool, quantum: bool, killSwitch: bool)

  datatype EngineError =
    | AlreadyRunning
    | NotRunning
    | UnsupportedBackend
    | ConfigError
    | EphemeralError
    | DeviceError
    | NetworkError
    | KernelWireGuard(kernel: KernelError)

  datatype KernelStartError = KernelFailed(error: KernelError) | EngineFailed(cause: EngineError)

  datatype Backend = UserspaceDevice(slot: DeviceSlot) | KernelDevice(tun: string)

  /** The backend for a request, on Linux. */
  function ResolveBackend(preference: Preference, daita: bool): Option<Decision> {
    if daita then (if preference.Kernel? then None else Some(UserspaceGotaTun))
    else Some(if preference.Userspace? then UserspaceGotaTun else LinuxKernel)
  }

  function IntoEngineError(e: KernelStartError): EngineError {
    match e
    case KernelFailed(error) => KernelWireGuard(error)
    case EngineFailed(cause) => cause
  }

  /** Errors of a kernel start after its link was created. */
  predicate Late(e: KernelStartError) {
    match e
    case KernelFailed(error) => error == Operation
    case EngineFailed(cause) => cause in [NetworkError, UnsupportedBackend, EphemeralError]
  }

  // ---------------------------------------------------------------- the outcome of a kernel start

  /** Error and upgrade, by what was answered along the way. */
  function UpgradeOutcome(request: StartRequest, a: Answers): (Option<EngineError>, Option<Upgrade>) {
    if request.daita then (Some(UnsupportedBackend), None)
    else if !HasPeer(a.settings) || a.negotiated.None? || a.negotiated.value.None? || a.updated != Some(true) then
      (Some(EphemeralError), None)
    else (None, a.negotiated.value)
  }

  function QuantumOutcome(request: StartRequest, a: Answers): (Option<KernelStartError>, Option<Upgrade>) {
    var (failed, upgrade) := UpgradeOutcome(request, a);
    if failed.Some? then
      var cleaned := a.guardCleaned == a.networkCleaned == Some(true);
      (Some(EngineFailed(if cleaned then failed.value else NetworkError)), None)
    else if a.guardCleaned != Some(true) then (Some(EngineFailed(NetworkError)), upgrade)
    else (None, upgrade)
  }

  function FinishOutcome(request: StartRequest, a: Answers): (Option<KernelStartError>, Option<Upgrade>) {
    if a.marked != Some(true) then
      (Some(if a.networkCleaned == Some(true) then KernelFailed(Operation) else EngineFailed(NetworkError)), None)
    else if !request.quantum then (None, None)
    else QuantumOutcome(request, a)
  }

  function TunnelOutcome(request: StartRequest, a: Answers): (Option<KernelStartError>, Option<Upgrade>) {
    if (request.quantum && a.guard != Some(true)) || a.network != Some(true) then
      (Some(EngineFailed(NetworkError)), None)
    else FinishOutcome(request, a)
  }

  /** Why a start on the userspace implementation fails, if it does. */
  function UserspaceOutcome(request: StartRequest, a: Answers): Option<EngineError> {
    if a.device != Some(true) then Some(DeviceError)
    else if a.network != Some(true) then Some(NetworkError)
    else if UpgradeAsked(request) && !(HasPeer(a.settings) && a.updated == Some(true)) then
      Some(if a.networkCleaned == Some(true) then EphemeralError else NetworkError)
    else None
  }

  /** The guard could not be cleaned up after an upgrade that had taken effect. */
  predicate GuardStuckAfterUpgrade(request: StartRequest, a: Answers) {
    && request.quantum && !request.daita
    && HasPeer(a.settings) && a.link == Some(LinkMade) && a.guard == a.network == a.marked == a.updated == Some(true)
    && a.negotiated.Some? && a.negotiated.value.Some? && a.guardCleaned != Some(true)
  }

  /** A start fails with an upgrade in effect in exactly one way. */
  lemma FailsUpgradedIff(request: StartRequest, a: Answers)
    requires a.link == Some(LinkMade)
    ensures var (r, upgrade) := TunnelOutcome(request, a);
      && (r.Some? && upgrade.Some? <==> GuardStuckAfterUpgrade(request, a))
      && (r.Some? && upgrade.Some? ==> r == Some(EngineFailed(NetworkError)) && request.quantum && !request.daita)
  {
  }

  /** The answers explain the outcome; and the upgrade outlives a failed start in exactly one way. */
  predicate Explained(request: StartRequest, r: Option<KernelStartError>, upgrade: Option<Upgrade>, a: Answers) {
    && (a.link == Some(LinkMade) ==> (r, upgrade) == TunnelOutcome(request, a))
    && (r.Some? ==> (upgrade.Some? <==> GuardStuckAfterUpgrade(request, a)))
    && (r.Some? && upgrade.Some? ==> r == Some(EngineFailed(NetworkError)) && request.quantum && !request.daita)
  }

  lemma TunnelIsExplained(request: StartRequest, a: Answers)
    requires a.link == Some(LinkMade)
    ensures Explained(request, TunnelOutcome(request, a).0, TunnelOutcome(request, a).1, a)
  {
    FailsUpgradedIff(request, a);
  }

  lemma NoLinkNoUpgrade(request: StartRequest, a: Answers)
    requires a.link != Some(LinkMade)
    ensures !GuardStuckAfterUpgrade(request, a)
    ensures forall r: Option<KernelStartError> :: r.Some? ==> Explained(request, r, None, a)
  {
  }

  /** A start that fails although its upgrade took effect. */
  const STUCK_GUARD :=
    Answers(Some(true), None, Some(SOME_SETTINGS), Some(LinkMade), None, Some(true), Some(true), Some(true),
            Some(Some(SOME_UPGRADE)), Some(true), Some(false), Some(true))

  const SOME_PEER := DevicePeer(Key([1]), None, [], None, None)
  const SOME_SETTINGS := DeviceSettings(Key([2]), None, None, [SOME_PEER])
  const SOME_UPGRADE := Upgrade(true, false, Key([3]), SOME_PEER)

  lemma StuckGuardLeavesUpgrade(tun: string)
    ensures TunnelOutcome(StartRequest(tun, Preference.Auto, false, true, true), STUCK_GUARD) ==
      (Some(EngineFailed(NetworkError)), Some(SOME_UPGRADE))
  {
  }

  /** Which requests can end that way is known beforehand. */
  lemma UpgradeCanOutliveStartIff(request: StartRequest)
    ensures
      && ResolveBackend(request.preference, request.daita) == Some(LinuxKernel)
      && (exists a :: TunnelOutcome(request, a).0.Some? && TunnelOutcome(request, a).1.Some?)
      <==> request.quantum && !request.daita && !request.preference.Userspace?
  {
    if request.quantum && !request.daita {
      assert TunnelOutcome(request, STUCK_GUARD).0.Some? && TunnelOutcome(request, STUCK_GUARD).1.Some?;
    }
  }

  lemma LateIsNotUnavailable(r: Option<KernelStartError>)
    ensures r.Some? && Late(r.value) ==> r != Some(KernelFailed(Unavailable))
  {
  }

  /** The settings of a device after a negotiation, if there was one. */
  function Keyed(settings: DeviceSettings, upgrade: Option<Upgrade>): DeviceSettings {
    if upgrade.Some? then Upgraded(settings, upgrade.value.key, upgrade.value.peer) else settings
  }

  function AnswerOf(error: Option<KernelError>): LinkAnswer {
    if error.None? then LinkMade else if error == Some(Unavailable) then LinkUnavailable else LinkRefused
  }

  predicate UpgradeAsked(request: StartRequest) {
    request.quantum || request.daita
  }

  /** A negotiation on the kernel needs a peer, and no DAITA. */
  predicate KernelCanUpgrade(request: StartRequest, settings: DeviceSettings) {
    request.quantum ==> !request.daita && |settings.peers| > 0
  }

  /** A request that can be met: a backend for it, a peer to negotiate with, and a name for the link. */
  ghost predicate CanBeMet(request: StartRequest, settings: Option<DeviceSettings>, s: Snapshot) {
    var decision := ResolveBackend(request.preference, request.daita);
    && decision.Some? && (UpgradeAsked(request) ==> HasPeer(settings))
    && (decision == Some(LinuxKernel) ==> CanCreate(s, request.tun))
  }

  /** The active link has been replaced by one that is never deleted. */
  predicate StuckLink(active: Option<Backend>, s: Snapshot) {
    active.Some? && active.value.KernelDevice? && IsProtected(s, active.value.tun)
  }

  ghost predicate SameNamesFree(s: Snapshot, s': Snapshot) {
    forall n :: CanCreate(s', n) <==> CanCreate(s, n)
  }

  /** Deleting a link and its journal frees no name that it did not hold, and takes none. */
  lemma NamesStayFree(s: Snapshot, s': Snapshot, tun: string)
    requires NamedBy(s.journal, tun) && OnlyRemoves(s, s', tun)
    requires s' == s || (s'.journal == Absent && tun !in s'.links && !IsProtected(s, tun))
    ensures SameNamesFree(s, s')
  {
    forall n ensures CanCreate(s', n) <==> CanCreate(s, n) {
      if n != tun {
        assert n in s.links - {tun} <==> n in s'.links - {tun};
      }
    }
  }

  lemma NamesFree(s: Snapshot, s': Snapshot, tun: string)
    ensures SameNamesFree(s, s') ==> (CanCreate(s', tun) <==> CanCreate(s, tun))
  {
  }

  lemma NotKeyed(settings: DeviceSettings)
    ensures Keyed(settings, None) == settings
  {
  }

  lemma NothingFreed(s: Snapshot)
    ensures SameNamesFree(s, s)
  {
  }

  class EngineState {
    const world: World
    const platform: Services
    var cachedUserspaceDevice: Option<DeviceSlot>
    var activeBackend: Option<Backend>
    var netState: Option<NetworkState>
    var routeApplyReport: Option<Report>
    var running: bool
    var quantumActive: bool
    var daitaActive: bool
    var ephemeralKeyActive: bool
    var lastQuantumFailure: Option<FailureKind>
    var lastDaitaFailure: Option<FailureKind>

    constructor (world: World, platform: Services)
      requires world.Valid() && platform.Valid() && platform.guards == platform.networks == platform.devices == {}
      ensures Valid() && this.world == world && this.platform == platform && !running
    {
      this.world, this.platform := world, platform;
      cachedUserspaceDevice, activeBackend, netState, routeApplyReport := None, None, None, None;
      running, quantumActive, daitaActive, ephemeralKeyActive := false, false, false, false;
      lastQuantumFailure, lastDaitaFailure := None, None;
    }

    /** How many calls have failed. */
    ghost function Refused(): nat
      reads platform`refused, world`refused
    {
      platform.refused + world.refused
    }

    /** The kernel link of this name is configured as given. */
    ghost predicate LinkIs(tun: string, settings: DeviceSettings)
      reads world`configured
    {
      tun in world.configured && world.configured[tun] == settings
    }

    ghost predicate DeviceIs(slot: DeviceSlot, settings: DeviceSettings)
      reads platform`configured
    {
      slot.id in platform.configured && platform.configured[slot.id] == settings
    }

    // -------------------------------------------------------------- what the engine owns

    ghost function CachedIds(): set<nat>
      reads `cachedUserspaceDevice
    {
      if cachedUserspaceDevice.Some? then {cachedUserspaceDevice.value.id} else {}
    }

    ghost function ActiveIds(): set<nat>
      reads `activeBackend
    {
      if activeBackend.Some? && activeBackend.value.UserspaceDevice? then {activeBackend.value.slot.id} else {}
    }

    ghost function NetworkIds(): set<nat>
      reads `netState
    {
      if netState.Some? then {netState.value.id} else {}
    }

    /** Everything taken from the platform is in exactly one place of the engine. */
    ghost predicate Accounted()
      reads this, platform
    {
      && platform.Valid()
      && platform.guards == {}
      && platform.networks == NetworkIds()
      && platform.devices == CachedIds() + ActiveIds()
    }

    ghost predicate Valid()
      reads this, platform, world
    {
      && world.Valid() && Accounted()
      && (netState.Some? ==> running)
      && (activeBackend.Some? ==> cachedUserspaceDevice.None?)
      && (activeBackend.Some? && activeBackend.value.KernelDevice? ==>
        NamedBy(world.journal, activeBackend.value.tun))
    }

    predicate FlagsAre(upgrade: Option<Upgrade>)
      reads `quantumActive, `daitaActive, `ephemeralKeyActive
    {
      match upgrade
      case None => !quantumActive && !daitaActive && !ephemeralKeyActive
      case Some(u) =>
        quantumActive == u.quantum && daitaActive == u.daita && ephemeralKeyActive == (u.quantum || u.daita)
    }

    // -------------------------------------------------------------- releasing

    method CleanupActiveNetworkState() returns (r: Option<EngineError>)
      requires platform.Valid() && platform.networks == NetworkIds()
      modifies `netState, platform`networks, platform`answers, platform`refused
      ensures platform.Valid() && netState == None && platform.networks == {}
      ensures platform.answers ==
        if old(netState).Some? then old(platform.answers).(networkCleaned := Some(r.None?)) else old(platform.answers)
      ensures r.Some? ==> r.value == NetworkError
      ensures platform.refused == old(platform.refused) + if r.Some? then 1 else 0
    {
      var state := netState;
      netState := None;
      if state.None? {
        return None;
      }
      var ok := platform.CleanupNetworkConfig(state.value);
      r := if ok then None else Some(NetworkError);
    }

    method ShutdownCachedUserspaceDevice()
      requires platform.Valid() && CachedIds() <= platform.devices
      modifies `cachedUserspaceDevice, platform`devices, platform`configured
      ensures platform.Valid() && cachedUserspaceDevice == None
      ensures platform.devices == old(platform.devices) - old(CachedIds())
    {
      var slot := cachedUserspaceDevice;
      cachedUserspaceDevice := None;
      if slot.Some? {
        platform.StopDevice(slot.value);
      }
    }

    /**
     * Let go of whatever is active.  The network state is dropped without being cleaned up; `Valid` is why there
     * is none to drop when the engine is not running.
     */
    method ShutdownActiveBackend()
      requires Valid() && !running
      modifies this`activeBackend, this`netState, this`running, this`routeApplyReport, this`quantumActive,
        this`daitaActive, this`ephemeralKeyActive, this`lastQuantumFailure, this`lastDaitaFailure
      modifies platform`devices, platform`configured
      modifies world`links, world`ours, world`journal, world`trace, world`configured, world`refused
      ensures Valid() && !running && activeBackend == None && netState == None && FlagsAre(None)
      ensures old(Refused()) <= Refused()
      ensures Refused() == old(Refused()) ==> SameNamesFree(old(world.Here()), world.Here())
      ensures world.journal in [old(world.journal), Absent]
      ensures Bounded(old(world.trace), world.trace, world.Here(), Uncovered(old(world.Here())))
    {
      hide Bounded, Uncovered, SameNamesFree, World.Valid, Services.Valid, FlagsAre;
      NothingFreed(world.Here());
      BoundedStill(world.trace, world.Here());
      var active := activeBackend;
      activeBackend := None;
      if active.Some? {
        Release(active.value);
        assert platform.devices == {};
      }
      netState := None;
      ForgetRun();
    }

    /** Stop a device, or delete a link with its journal. */
    method Release(active: Backend)
      requires platform.Valid() && world.Valid()
      requires match active
               case UserspaceDevice(slot) => slot.id in platform.devices
               case KernelDevice(tun) => NamedBy(world.journal, tun)
      modifies platform`devices, platform`configured
      modifies world`links, world`ours, world`journal, world`trace, world`configured, world`refused
      ensures platform.Valid() && world.Valid()
      ensures platform.devices ==
        old(platform.devices) - if active.UserspaceDevice? then {active.slot.id} else {}
      ensures old(Refused()) <= Refused()
      ensures Refused() == old(Refused()) ==> SameNamesFree(old(world.Here()), world.Here())
      ensures world.journal in [old(world.journal), Absent]
      ensures Bounded(old(world.trace), world.trace, world.Here(), Uncovered(old(world.Here())))
    {
      hide Bounded, Uncovered, OnlyRemoves, OthersConfigured, SameNamesFree, World.Valid, Services.Valid;
      NothingFreed(world.Here());
      BoundedStill(world.trace, world.Here());
      match active
      case UserspaceDevice(slot) => platform.StopDevice(slot);
      case KernelDevice(tun) =>
        ghost var before, refused := world.Here(), world.refused;
        DeleteAndClear(world, tun);
        if world.refused == refused {
          NamesStayFree(before, world.Here(), tun);
        }
    }

    // -------------------------------------------------------------- kernel start

    /** Replace the keys of a running kernel link by negotiated ones. */
    method UpgradeKernelEphemeral(request: StartRequest, settings: DeviceSettings)
      returns (r: Option<EngineError>, upgrade: Option<Upgrade>)
      requires FlagsAre(None) && platform.answers.settings == Some(settings) && LinkIs(request.tun, settings)
      modifies `quantumActive, `daitaActive, `ephemeralKeyActive, `lastQuantumFailure, `lastDaitaFailure
      modifies platform`answers, platform`refused, world`trace, world`configured, world`refused
      ensures (r, upgrade) == UpgradeOutcome(request, platform.answers)
      ensures platform.answers == old(platform.answers).(negotiated := platform.answers.negotiated,
                                                         updated := platform.answers.updated)
      ensures r.None? <==> upgrade.Some?
      ensures FlagsAre(upgrade)
      ensures r.Some? ==> r.value in [UnsupportedBackend, EphemeralError]
      ensures request.daita ==> r == Some(UnsupportedBackend) && lastQuantumFailure == old(lastQuantumFailure)
      ensures r == Some(EphemeralError) ==> lastQuantumFailure.Some?
      ensures r.None? ==>
        && lastQuantumFailure == None && lastDaitaFailure == None
        && upgrade.value.quantum == request.quantum && !upgrade.value.daita
        && LinkIs(request.tun, Keyed(settings, upgrade))
      ensures old(Refused()) <= Refused()
      ensures r.None? <==> Refused() == old(Refused()) && !request.daita && |settings.peers| > 0
      ensures Bounded(old(world.trace), world.trace, world.Here(), Uncovered(old(world.Here())))
    {
      if request.daita {
        return Some(UnsupportedBackend), None;
      }
      if |settings.peers| == 0 {
        lastQuantumFailure := Some(UnsupportedConfig);
        return Some(EphemeralError), None;
      }
      var update, failure := platform.Negotiate(request.quantum, request.daita);
      if update.None? {
        lastQuantumFailure := Some(failure);
        return Some(EphemeralError), None;
      }
      var applied := world.ApplyUpdate(request.tun, update.value.key, update.value.peer);
      platform.NoteUpdate(applied.Ok?);
      if applied.Err? {
        lastQuantumFailure := Some(Reconfigure);
        return Some(EphemeralError), None;
      }
      quantumActive := update.value.quantum;
      daitaActive := update.value.daita;
      ephemeralKeyActive := update.value.quantum || update.value.daita;
      lastQuantumFailure, lastDaitaFailure := None, None;
      return None, update;
    }

    ghost function GuardIds(guard: Option<Guard>): set<nat> {
      if guard.Some? then {guard.value.id} else {}
    }

    /** Undo a kernel start as far as it has come: guard, network configuration, link and journal. */
    method GiveBack(guard: Option<Guard>, tun: string) returns (guardCleaned: bool, cleanup: Option<EngineError>)
      requires platform.Valid() && platform.guards == GuardIds(guard) && platform.networks == NetworkIds()
      requires world.Valid() && NamedBy(world.journal, tun)
      modifies `netState, platform`guards, platform`networks, platform`answers, platform`refused
      modifies world`links, world`ours, world`journal, world`trace, world`configured, world`refused
      ensures platform.Valid() && platform.guards == platform.networks == {} && netState == None
      ensures platform.answers == old(platform.answers).(
        guardCleaned := if guard.Some? then Some(guardCleaned) else old(platform.answers).guardCleaned,
        networkCleaned := if old(netState).Some? then Some(cleanup.None?) else old(platform.answers).networkCleaned)
      ensures world.Valid() && OnlyRemoves(old(world.Here()), world.Here(), tun)
      ensures Bounded(old(world.trace), world.trace, world.Here(), Uncovered(old(world.Here())))
      ensures cleanup.Some? ==> cleanup.value == NetworkError
      ensures old(Refused()) <= Refused()
    {
      hide Bounded, Uncovered, OnlyRemoves, OthersConfigured;
      guardCleaned := true;
      if guard.Some? {
        guardCleaned := platform.CleanupGuard(guard.value);
      }
      cleanup := CleanupActiveNetworkState();
      DeleteAndClear(world, tun);
    }

    /** What is asked before a backend is tried. */
    static predicate SamePreparation(before: Answers, after: Answers) {
      after.parsed == before.parsed && after.validated == before.validated && after.settings == before.settings
    }

    /** What the second half of a start does not ask again. */
    static predicate AskedBefore(before: Answers, after: Answers) {
      SamePreparation(before, after) && after.link == before.link && after.guard == before.guard &&
      after.network == before.network
    }

    /** The second half of a kernel start: the network is configured, and the link is not yet marked as running. */
    method FinishKernelStart(request: StartRequest, settings: DeviceSettings, guard: Option<Guard>)
      returns (r: Option<KernelStartError>, upgrade: Option<Upgrade>)
      requires platform.Valid() && platform.guards == GuardIds(guard) && platform.networks == NetworkIds()
      requires world.Valid() && NamedBy(world.journal, request.tun) && request.tun in world.ours
      requires LinkIs(request.tun, settings)
      requires FlagsAre(None) && netState.Some? && (guard.Some? <==> request.quantum)
      requires platform.answers.settings == Some(settings)
      modifies `netState, `quantumActive, `daitaActive, `ephemeralKeyActive, `lastQuantumFailure, `lastDaitaFailure
      modifies platform`guards, platform`networks, platform`answers, platform`refused
      ensures (r, upgrade) == FinishOutcome(request, platform.answers)
      ensures AskedBefore(old(platform.answers), platform.answers)
      modifies world`links, world`ours, world`journal, world`trace, world`configured, world`refused
      ensures platform.Valid() && platform.guards == {} && platform.networks == NetworkIds()
      ensures world.Valid() && FlagsAre(upgrade)
      ensures r.None? ==>
        && netState == old(netState) && (upgrade.Some? <==> request.quantum)
        && world.journal == Names(request.tun, Running) && request.tun in world.ours
        && LinkIs(request.tun, Keyed(settings, upgrade))
        && (upgrade.Some? ==> upgrade.value.quantum == request.quantum && !upgrade.value.daita)
      ensures old(Refused()) <= Refused()
      ensures r.None? <==> Refused() == old(Refused()) && KernelCanUpgrade(request, settings)
      ensures r.Some? ==> netState == None && Late(r.value)
      ensures Bounded(old(world.trace), world.trace, world.Here(), Uncovered(old(world.Here())))
    {
      hide Bounded, Uncovered, OnlyRemoves, OthersConfigured, World.Valid, Services.Valid, LinkIs, Keyed, FlagsAre;
      NotKeyed(settings);
      upgrade := None;
      ghost var from, allowed := world.trace, Uncovered(world.Here());
      var marked := MarkKernelDeviceRunning(world, request.tun);
      platform.NoteMark(marked.Ok?);
      ghost var trace, here := world.trace, world.Here();
      if marked.Err? {
        var _, cleanup := GiveBack(guard, request.tun);
        BoundedOn(from, trace, here, world.trace, world.Here(), allowed);
        return Some(if cleanup.None? then KernelFailed(marked.error) else EngineFailed(cleanup.value)), None;
      }
      if !request.quantum {
        return None, None;
      }
      r, upgrade := FinishUpgrade(request, settings, guard.value);
      BoundedOn(from, trace, here, world.trace, world.Here(), allowed);
    }

    /** The upgrade of a marked link, and the release of the guard that was installed for it. */
    method FinishUpgrade(request: StartRequest, settings: DeviceSettings, guard: Guard)
      returns (r: Option<KernelStartError>, upgrade: Option<Upgrade>)
      requires request.quantum
      requires platform.Valid() && platform.guards == {guard.id} && platform.networks == NetworkIds()
      requires world.Valid() && world.journal == Names(request.tun, Running) && request.tun in world.ours
      requires LinkIs(request.tun, settings) && FlagsAre(None) && netState.Some?
      requires platform.answers.settings == Some(settings)
      modifies `netState, `quantumActive, `daitaActive, `ephemeralKeyActive, `lastQuantumFailure, `lastDaitaFailure
      modifies platform`guards, platform`networks, platform`answers, platform`refused
      modifies world`links, world`ours, world`journal, world`trace, world`configured, world`refused
      ensures (r, upgrade) == QuantumOutcome(request, platform.answers)
      ensures AskedBefore(old(platform.answers), platform.answers)
      ensures platform.answers.marked == old(platform.answers.marked)
      ensures platform.Valid() && platform.guards == {} && platform.networks == NetworkIds()
      ensures world.Valid() && FlagsAre(upgrade)
      ensures r.None? ==>
        && netState == old(netState) && upgrade.Some? && LinkIs(request.tun, Keyed(settings, upgrade))
        && world.journal == Names(request.tun, Running) && request.tun in world.ours
        && upgrade.value.quantum == request.quantum && !upgrade.value.daita
      ensures old(Refused()) <= Refused()
      ensures r.None? <==> Refused() == old(Refused()) && KernelCanUpgrade(request, settings)
      ensures r.Some? ==> netState == None && Late(r.value)
      ensures Bounded(old(world.trace), world.trace, world.Here(), Uncovered(old(world.Here())))
    {
      hide Bounded, Uncovered, OnlyRemoves, OthersConfigured, World.Valid, Services.Valid, LinkIs, Keyed, FlagsAre;
      ghost var from, allowed := world.trace, Uncovered(world.Here());
      var failed;
      failed, upgrade := UpgradeKernelEphemeral(request, settings);
      ghost var trace, here := world.trace, world.Here();
      if failed.Some? {
        var guardCleaned, cleanup := GiveBack(Some(guard), request.tun);
        BoundedOn(from, trace, here, world.trace, world.Here(), allowed);
        return Some(EngineFailed(if !guardCleaned then NetworkError
                                 else if cleanup.Some? then cleanup.value
                                 else failed.value)), None;
      }
      var guardCleaned := platform.CleanupGuard(guard);
      if !guardCleaned {
        var _, cleanup := GiveBack(None, request.tun);
        BoundedOn(from, trace, here, world.trace, world.Here(), allowed);
        return Some(EngineFailed(if cleanup.Some? then cleanup.value else NetworkError)), upgrade;
      }
      return None, upgrade;
    }

    /** The network configuration is the one asked for. */
    ghost predicate NetworkIs(request: StartRequest)
      reads `netState
    {
      netState.Some? && netState.value.tun == request.tun && netState.value.killSwitch == request.killSwitch
    }

    /** Guard, network configuration and upgrade around a kernel link that has just been created. */
    method ConfigureKernelTunnel(request: StartRequest, settings: DeviceSettings)
      returns (r: Option<KernelStartError>, upgrade: Option<Upgrade>)
      requires platform.Valid() && platform.guards == platform.networks == {} && netState == None
      requires world.Valid() && NamedBy(world.journal, request.tun) && request.tun in world.ours
      requires LinkIs(request.tun, settings)
      requires FlagsAre(None) && platform.answers.settings == Some(settings)
      modifies `netState, `routeApplyReport
      modifies `quantumActive, `daitaActive, `ephemeralKeyActive, `lastQuantumFailure, `lastDaitaFailure
      modifies platform`guards, platform`networks, platform`guardAttempts, platform`networkAttempts, platform`next,
        platform`answers, platform`refused
      ensures (r, upgrade) == TunnelOutcome(request, platform.answers)
      ensures platform.answers.link == old(platform.answers).link
      ensures SamePreparation(old(platform.answers), platform.answers)
      modifies world`links, world`ours, world`journal, world`trace, world`configured, world`refused
      ensures platform.Valid() && platform.guards == {} && platform.networks == NetworkIds()
      ensures world.Valid() && FlagsAre(upgrade)
      ensures r.None? ==>
        && netState.Some? && routeApplyReport == Some(Complete) && (upgrade.Some? <==> request.quantum)
        && world.journal == Names(request.tun, Running) && request.tun in world.ours
        && LinkIs(request.tun, Keyed(settings, upgrade)) && NetworkIs(request)
        && (upgrade.Some? ==> upgrade.value.quantum == request.quantum && !upgrade.value.daita)
      ensures old(Refused()) <= Refused()
      ensures r.None? <==> Refused() == old(Refused()) && KernelCanUpgrade(request, settings)
      ensures r.Some? ==> netState == None && Late(r.value)
      ensures platform.networkAttempts <= old(platform.networkAttempts) + 1
      ensures platform.guardAttempts <= old(platform.guardAttempts) + if request.quantum then 1 else 0
      ensures Bounded(old(world.trace), world.trace, world.Here(), Uncovered(old(world.Here())))
    {
      hide Bounded, Uncovered, OnlyRemoves, OthersConfigured, World.Valid, Services.Valid, LinkIs, Keyed, FlagsAre;
      var guard: Option<Guard> := None;
      if request.quantum {
        guard := platform.InstallGuard(request.tun);
        if guard.None? {
          var _, _ := GiveBack(None, request.tun);
          return Some(EngineFailed(NetworkError)), None;
        }
      }
      netState := platform.ApplyNetworkConfig(request.tun, request.killSwitch);
      if netState.None? {
        routeApplyReport := Some(Partial);
        var _, _ := GiveBack(guard, request.tun);
        return Some(EngineFailed(NetworkError)), None;
      }
      routeApplyReport := Some(Complete);
      r, upgrade := FinishKernelStart(request, settings, guard);
    }

    /** Make room for the kernel's implementation, and create its link. */
    method MakeKernelLink(tun: string, settings: DeviceSettings) returns (error: Option<KernelError>, ghost lost: bool)
      requires Valid() && activeBackend == None
      modifies `cachedUserspaceDevice, platform`devices, platform`answers, platform`configured
      modifies world`links, world`ours, world`journal, world`trace, world`configured, world`refused
      ensures world.Valid() && platform.Valid() && cachedUserspaceDevice == None && platform.devices == {}
      ensures platform.answers == old(platform.answers).(link := Some(AnswerOf(error)))
      ensures error.None? ==> !lost && NamedBy(world.journal, tun) && tun in world.ours && LinkIs(tun, settings)
      ensures old(Refused()) <= Refused()
      ensures error == Some(Unavailable) ==> Refused() > old(Refused())
      ensures error.None? <==> Refused() == old(Refused()) && CanCreate(old(world.Here()), tun)
      ensures Bounded(old(world.trace), world.trace, world.Here(), Allowed(old(world.Here()), tun, lost))
    {
      hide Bounded, Uncovered, Overwritten, Allowed;
      ShutdownCachedUserspaceDevice();
      var device;
      device, lost := StartKernelDevice(world, tun, settings);
      error := if device.Ok? then None else Some(device.error);
      platform.NoteLink(AnswerOf(error));
    }

    /**
     * Start on the kernel's implementation.  Whatever happens, the traffic guard has been handed to its cleanup
     * exactly once, the network state is with the engine or with its cleanup, and the link is gone, or in use,
     * or named by the journal.
     */
    method StartLinuxKernel(request: StartRequest, settings: DeviceSettings)
      returns (r: Option<KernelStartError>, upgrade: Option<Upgrade>, ghost lost: bool)
      requires Valid() && !running && activeBackend == None && FlagsAre(None)
      requires platform.answers.settings == Some(settings)
      modifies this`cachedUserspaceDevice, this`activeBackend, this`netState, this`running, this`routeApplyReport,
        this`quantumActive, this`daitaActive, this`ephemeralKeyActive, this`lastQuantumFailure, this`lastDaitaFailure
      modifies platform
      modifies world`links, world`ours, world`journal, world`trace, world`configured, world`refused
      ensures Valid() && FlagsAre(upgrade) && cachedUserspaceDevice == None
      ensures SamePreparation(old(platform.answers), platform.answers)
      ensures Explained(request, r, upgrade, platform.answers)
      ensures r.None? ==>
        && running && activeBackend == Some(KernelDevice(request.tun)) && netState.Some?
        && routeApplyReport == Some(Complete) && (upgrade.Some? <==> request.quantum)
        && world.journal == Names(request.tun, Running) && request.tun in world.ours && !lost
        && LinkIs(request.tun, Keyed(settings, upgrade)) && NetworkIs(request)
        && (upgrade.Some? ==> upgrade.value.quantum == request.quantum && !upgrade.value.daita)
      ensures old(Refused()) <= Refused()
      ensures r.None? <==> Refused() == old(Refused()) && KernelCanUpgrade(request, settings)
                           && CanCreate(old(world.Here()), request.tun)
      ensures r == Some(KernelFailed(Unavailable)) ==> Refused() > old(Refused())
      ensures r.Some? ==>
        !running && activeBackend == None && netState == None && (r.value.KernelFailed? || Late(r.value))
      // Falling back is safe: an unavailable kernel was found out before anything outside the link was touched.
      ensures r == Some(KernelFailed(Unavailable)) ==>
        && platform.guardAttempts == old(platform.guardAttempts)
        && platform.networkAttempts == old(platform.networkAttempts)
        && upgrade.None? && platform.answers.link == Some(LinkUnavailable)
      ensures r != Some(KernelFailed(Unavailable)) ==> platform.answers.link in [Some(LinkMade), Some(LinkRefused)]
      ensures platform.networkAttempts <= old(platform.networkAttempts) + 1
      ensures platform.guardAttempts <= old(platform.guardAttempts) + if request.quantum then 1 else 0
      ensures Bounded(old(world.trace), world.trace, world.Here(), Allowed(old(world.Here()), request.tun, lost))
    {
      hide TunnelOutcome, Explained, Late, FlagsAre, Bounded, Uncovered, Overwritten, Allowed;
      hide World.Valid, Services.Valid, LinkIs, NetworkIs, Keyed, KernelCanUpgrade, CanCreate;
      ghost var from, allowed := world.trace, Allowed(world.Here(), request.tun, false);
      var error;
      error, lost := MakeKernelLink(request.tun, settings);
      if error.Some? {
        NoLinkNoUpgrade(request, platform.answers);
        return Some(KernelFailed(error.value)), None, lost;
      }
      ghost var trace, here := world.trace, world.Here();
      var failed: Option<KernelStartError>;
      failed, upgrade := ConfigureKernelTunnel(request, settings);
      TunnelIsExplained(request, platform.answers);
      BoundedOn(from, trace, here, world.trace, world.Here(), allowed);
      LateIsNotUnavailable(failed);
      if failed.Some? {
        return failed, upgrade, false;
      }
      activeBackend := Some(KernelDevice(request.tun));
      running := true;
      return None, upgrade, false;
    }

    // -------------------------------------------------------------- userspace start

    method UpgradeUserspaceEphemeral(request: StartRequest, settings: DeviceSettings, slot: DeviceSlot)
      returns (r: Option<EngineError>, upgrade: Option<Upgrade>)
      requires FlagsAre(None) && DeviceIs(slot, settings)
      modifies `quantumActive, `daitaActive, `ephemeralKeyActive, `lastQuantumFailure, `lastDaitaFailure
      modifies platform`answers, platform`refused, platform`configured
      ensures platform.answers == old(platform.answers).(negotiated := platform.answers.negotiated,
                                                         updated := platform.answers.updated)
      ensures |settings.peers| > 0 ==> platform.answers.updated == Some(r.None?)
      ensures (r.None? <==> upgrade.Some?) && FlagsAre(upgrade)
      ensures r.Some? ==> r.value == EphemeralError
      ensures r.Some? ==> (request.quantum ==> lastQuantumFailure.Some?) && (request.daita ==> lastDaitaFailure.Some?)
      ensures r.None? ==>
        && lastQuantumFailure == None && lastDaitaFailure == None
        && upgrade.value.quantum == request.quantum && upgrade.value.daita == request.daita
        && DeviceIs(slot, Keyed(settings, upgrade))
      ensures old(platform.refused) <= platform.refused
      ensures r.None? <==> platform.refused == old(platform.refused) && |settings.peers| > 0
    {
      var update: Option<Upgrade>, failure := None, UnsupportedConfig;
      if |settings.peers| > 0 {
        update, failure := platform.UpgradeDevice(slot, request.quantum, request.daita);
      }
      if update.None? {
        if request.quantum {
          lastQuantumFailure := Some(failure);
        }
        if request.daita {
          lastDaitaFailure := Some(failure);
        }
        return Some(EphemeralError), None;
      }
      quantumActive := update.value.quantum;
      daitaActive := update.value.daita;
      ephemeralKeyActive := update.value.quantum || update.value.daita;
      lastQuantumFailure, lastDaitaFailure := None, None;
      return None, update;
    }

    /** A device that could not be started: a new one is stopped, an old one goes back to the cache. */
    method RecoverUserspaceSlot(slot: DeviceSlot, createdNew: bool)
      requires platform.Valid() && slot.id in platform.devices && cachedUserspaceDevice == None
      modifies `cachedUserspaceDevice, platform`devices, platform`configured, platform`refused
      ensures old(platform.refused) <= platform.refused
      ensures cachedUserspaceDevice ==
        if !createdNew && platform.refused == old(platform.refused) then Some(slot) else None
      ensures platform.Valid() && (cachedUserspaceDevice.Some? ==> cachedUserspaceDevice == Some(slot) && !createdNew)
      ensures platform.devices == old(platform.devices) - {slot.id} + CachedIds()
    {
      if createdNew {
        platform.StopDevice(slot);
        return;
      }
      var cleared := platform.ClearPeers(slot);
      if !cleared {
        platform.StopDevice(slot);
        return;
      }
      cachedUserspaceDevice := Some(slot);
    }

    /** The cached device when it carries the right name, else a new one. */
    method TakeUserspaceSlot(tun: string) returns (slot: Option<DeviceSlot>, createdNew: bool)
      requires platform.Valid() && platform.devices == CachedIds()
      modifies `cachedUserspaceDevice, platform`devices, platform`next, platform`configured, platform`refused,
        platform`answers
      ensures platform.answers == old(platform.answers).(device := platform.answers.device)
      ensures slot.None? ==> platform.answers.device == Some(false)
      ensures platform.refused == old(platform.refused) + if slot.None? then 1 else 0
      ensures platform.Valid() && cachedUserspaceDevice == None
      ensures slot.Some? ==> slot.value.tun == tun && platform.devices == {slot.value.id}
      ensures slot.None? ==> platform.devices == {}
      ensures createdNew <==> !(old(cachedUserspaceDevice).Some? && old(cachedUserspaceDevice).value.tun == tun)
      ensures !createdNew ==> slot == old(cachedUserspaceDevice) && slot.Some?
    {
      if cachedUserspaceDevice.Some? && cachedUserspaceDevice.value.tun != tun {
        ShutdownCachedUserspaceDevice();
      }
      if cachedUserspaceDevice.Some? {
        slot := cachedUserspaceDevice;
        cachedUserspaceDevice := None;
        return slot, false;
      }
      slot := platform.BuildDevice(tun);
      createdNew := true;
    }

    /** Start on the userspace implementation; on failure the device is stopped or cached and nothing is left over. */
    method StartUserspace(request: StartRequest, settings: DeviceSettings)
      returns (r: Option<EngineError>, upgrade: Option<Upgrade>)
      requires Valid() && !running && activeBackend == None && FlagsAre(None)
      requires platform.answers.settings == Some(settings)
      modifies this`cachedUserspaceDevice, this`activeBackend, this`netState, this`running, this`routeApplyReport,
        this`quantumActive, this`daitaActive, this`ephemeralKeyActive, this`lastQuantumFailure, this`lastDaitaFailure
      modifies platform
      ensures Valid() && FlagsAre(upgrade)
      ensures r.None? ==>
        && running && activeBackend.Some? && activeBackend.value.UserspaceDevice?
        && activeBackend.value.slot.tun == request.tun && netState.Some? && cachedUserspaceDevice == None
        && routeApplyReport == Some(Complete) && (upgrade.Some? <==> UpgradeAsked(request))
        && DeviceIs(activeBackend.value.slot, Keyed(settings, upgrade)) && NetworkIs(request)
        && (upgrade.Some? ==> upgrade.value.quantum == request.quantum && upgrade.value.daita == request.daita)
      ensures old(platform.refused) <= platform.refused
      ensures r.None? <==> platform.refused == old(platform.refused) && (UpgradeAsked(request) ==> |settings.peers| > 0)
      ensures r.Some? ==> !running && activeBackend == None && netState == None && upgrade == None
      ensures r.Some? ==> r.value in [DeviceError, NetworkError, EphemeralError]
      ensures r.Some? && cachedUserspaceDevice.Some? ==> cachedUserspaceDevice == old(cachedUserspaceDevice)
      ensures platform.networkAttempts <= old(platform.networkAttempts) + 1
      ensures platform.guardAttempts == old(platform.guardAttempts)
      ensures platform.answers.link == old(platform.answers.link)
      ensures r == UserspaceOutcome(request, platform.answers)
      ensures SamePreparation(old(platform.answers), platform.answers)
    {
      var slot, createdNew := TakeUserspaceSlot(request.tun);
      if slot.None? {
        return Some(DeviceError), None;
      }
      var configured := platform.ConfigureDevice(slot.value, settings);
      if !configured {
        RecoverUserspaceSlot(slot.value, createdNew);
        return Some(DeviceError), None;
      }
      r, upgrade := ConfigureUserspaceTunnel(request, settings, slot.value, createdNew);
    }

    /** The only thing in use is a device that is neither cached nor active. */
    ghost predicate Holds(slot: DeviceSlot)
      reads this, platform
    {
      && platform.Valid() && platform.guards == platform.networks == {} && platform.devices == {slot.id}
      && cachedUserspaceDevice == None
    }

    /** Network configuration and upgrade around a configured userspace device. */
    method ConfigureUserspaceTunnel(request: StartRequest, settings: DeviceSettings, slot: DeviceSlot, createdNew: bool)
      returns (r: Option<EngineError>, upgrade: Option<Upgrade>)
      requires DeviceIs(slot, settings)
      requires Holds(slot) && !running && activeBackend == None && netState == None && FlagsAre(None)
      requires platform.answers.settings == Some(settings) && platform.answers.device == Some(true)
      modifies this`cachedUserspaceDevice, this`activeBackend, this`netState, this`running, this`routeApplyReport,
        this`quantumActive, this`daitaActive, this`ephemeralKeyActive, this`lastQuantumFailure, this`lastDaitaFailure
      modifies platform
      ensures Accounted() && FlagsAre(upgrade)
      ensures r.None? ==>
        && running && activeBackend == Some(UserspaceDevice(slot)) && netState.Some? && cachedUserspaceDevice == None
        && routeApplyReport == Some(Complete) && (upgrade.Some? <==> UpgradeAsked(request))
        && DeviceIs(slot, Keyed(settings, upgrade)) && NetworkIs(request)
        && (upgrade.Some? ==> upgrade.value.quantum == request.quantum && upgrade.value.daita == request.daita)
      ensures old(platform.refused) <= platform.refused
      ensures r.None? <==> platform.refused == old(platform.refused) && (UpgradeAsked(request) ==> |settings.peers| > 0)
      ensures r.Some? ==> !running && activeBackend == None && netState == None && upgrade == None
      ensures r.Some? ==> r.value in [NetworkError, EphemeralError]
      ensures r.Some? && cachedUserspaceDevice.Some? ==> cachedUserspaceDevice == Some(slot) && !createdNew
      ensures platform.networkAttempts == old(platform.networkAttempts) + 1
      ensures platform.guardAttempts == old(platform.guardAttempts)
      ensures platform.answers.link == old(platform.answers.link)
      ensures r == UserspaceOutcome(request, platform.answers)
      ensures SamePreparation(old(platform.answers), platform.answers)
    {
      hide FlagsAre, DeviceIs, Keyed, Services.Valid;
      NotKeyed(settings);
      var network := platform.ApplyNetworkConfig(request.tun, request.killSwitch);
      if network.None? {
        routeApplyReport := Some(Partial);
        RecoverUserspaceSlot(slot, createdNew);
        return Some(NetworkError), None;
      }
      netState := network;
      routeApplyReport := Some(Complete);
      upgrade := None;
      if request.quantum || request.daita {
        var failed;
        failed, upgrade := UpgradeUserspaceEphemeral(request, settings, slot);
        if failed.Some? {
          var cleanup := CleanupActiveNetworkState();
          RecoverUserspaceSlot(slot, createdNew);
          return if cleanup.None? then failed else cleanup, None;
        }
      }
      activeBackend := Some(UserspaceDevice(slot));
      running := true;
      return None, upgrade;
    }

    // -------------------------------------------------------------- start and stop

    /**
     * Start a tunnel.  A failed start leaves nothing behind: no guard, no network configuration, no device but
     * a cached one, and no kernel link that the journal does not name (`lost` and `Overwritten` apart).  The
     * network configuration is applied at most once, so a fallback never follows a first application.
     */
    method Start(request: StartRequest)
      returns (r: Option<EngineError>, upgrade: Option<Upgrade>, ghost lost: bool, ghost fellBack: bool)
      requires Valid()
      modifies this, platform
      modifies world`links, world`ours, world`journal, world`trace, world`configured, world`refused
      ensures Valid()
      ensures r == Some(AlreadyRunning) <==> old(running)
      ensures old(running) ==> running && activeBackend == old(activeBackend) && netState == old(netState)
      ensures !old(running) ==> FlagsAre(upgrade)
      ensures r.None? ==>
        && running && activeBackend.Some? && netState.Some? && routeApplyReport == Some(Complete)
        && (activeBackend.value.KernelDevice? <==>
          ResolveBackend(request.preference, request.daita) == Some(LinuxKernel) && !fellBack)
        && (upgrade.Some? <==> UpgradeAsked(request))
        && (upgrade.Some? ==> upgrade.value.quantum == request.quantum && upgrade.value.daita == request.daita)
        && NetworkIs(request) && platform.answers.settings.Some?
        && platform.answers.parsed == Some(true) && (request.daita ==> platform.answers.validated == Some(true))
      // What runs is configured with the settings of the configuration, or with what was negotiated for them.
      ensures r.None? ==>
        var settings := Keyed(platform.answers.settings.value, upgrade);
        match activeBackend.value
        case KernelDevice(tun) => LinkIs(tun, settings)
        case UserspaceDevice(slot) => DeviceIs(slot, settings)
      ensures r.None? && activeBackend.value.KernelDevice? ==>
        && activeBackend.value.tun == request.tun
        && world.journal == Names(request.tun, Running) && request.tun in world.ours
      ensures r.None? && activeBackend.value.UserspaceDevice? ==> activeBackend.value.slot.tun == request.tun
      ensures r.Some? && r != Some(AlreadyRunning) ==> !running && activeBackend == None && netState == None
      // Nothing but a failed call, or a request that cannot be met, keeps a tunnel from being started.
      ensures old(Refused()) <= Refused() && (fellBack ==> Refused() > old(Refused()))
      ensures !old(running) && Refused() == old(Refused()) ==>
        (r.None? <==> CanBeMet(request, platform.answers.settings, old(world.Here())))
      // After a failed start the flags are off, but for a guard that is stuck after an upgrade.
      ensures !old(running) && r.Some? ==> (upgrade.Some? <==> GuardStuckAfterUpgrade(request, platform.answers))
      ensures r.Some? && upgrade.Some? ==>
        request.quantum && !request.daita && !request.preference.Userspace? && r == Some(NetworkError)
      // DAITA never runs on the kernel, and the user's choice is kept.
      ensures !old(running) && request.daita && request.preference.Kernel? ==> r == Some(UnsupportedBackend)
      ensures r.None? && activeBackend.value.KernelDevice? ==> !request.daita && !request.preference.Userspace?
      ensures r.None? && request.preference.Kernel? ==> activeBackend.value.KernelDevice?
      // The fallback is for a kernel that cannot do it, and for users who leave the choice open.
      ensures fellBack <==>
        && ResolveBackend(request.preference, request.daita) == Some(LinuxKernel) && request.preference.Auto?
        && platform.answers.link == Some(LinkUnavailable)
      ensures fellBack ==> platform.guardAttempts == old(platform.guardAttempts)
      ensures platform.networkAttempts <= old(platform.networkAttempts) + 1
      ensures Bounded(old(world.trace), world.trace, world.Here(), Allowed(old(world.Here()), request.tun, lost))
    {
      hide TunnelOutcome, GuardStuckAfterUpgrade, FlagsAre, World.Valid, Services.Valid, LinkIs, DeviceIs, NetworkIs;
      hide Keyed, CanCreate;
      hide Bounded, Uncovered, Overwritten, Allowed;
      lost, fellBack, upgrade := false, false, None;
      platform.ForgetAnswers();
      if running {
        BoundedHere(world.trace, world.Here(), request.tun);
        return Some(AlreadyRunning), None, false, false;
      }
      ForgetLastRun();
      NamesFree(old(world.Here()), world.Here(), request.tun);
      var prepared;
      r, prepared := PrepareStart(request);
      ghost var trace, here := world.trace, world.Here();
      BoundedFrom(old(world.trace), trace, old(world.Here()), here, request.tun);
      NoLinkNoUpgrade(request, platform.answers);
      if r.Some? {
        return r, None, false, false;
      }
      r, upgrade, lost, fellBack := StartBackend(request, prepared.value);
      BoundedAllowed(old(world.trace), trace, old(world.Here()), here, world.trace, world.Here(), request.tun, lost);
    }

    /** The kernel's implementation if it is to be, with the fallback that the request allows, or the other one. */
    method StartBackend(request: StartRequest, settings: DeviceSettings)
      returns (r: Option<EngineError>, upgrade: Option<Upgrade>, ghost lost: bool, ghost fellBack: bool)
      requires Valid() && !running && activeBackend == None && FlagsAre(None)
      requires ResolveBackend(request.preference, request.daita).Some?
      requires platform.answers ==
        NOT_ASKED.(parsed := platform.answers.parsed, validated := platform.answers.validated,
                   settings := Some(settings))
      modifies this, platform
      modifies world`links, world`ours, world`journal, world`trace, world`configured, world`refused
      ensures Valid() && FlagsAre(upgrade) && SamePreparation(old(platform.answers), platform.answers)
      ensures r.None? ==>
        && running && activeBackend.Some? && netState.Some? && routeApplyReport == Some(Complete)
        && (activeBackend.value.KernelDevice? <==>
          ResolveBackend(request.preference, request.daita) == Some(LinuxKernel) && !fellBack)
        && (upgrade.Some? <==> UpgradeAsked(request))
        && (upgrade.Some? ==> upgrade.value.quantum == request.quantum && upgrade.value.daita == request.daita)
        && NetworkIs(request)
        && (match activeBackend.value
            case KernelDevice(tun) =>
              && tun == request.tun && LinkIs(tun, Keyed(settings, upgrade))
              && world.journal == Names(request.tun, Running) && request.tun in world.ours
            case UserspaceDevice(slot) => slot.tun == request.tun && DeviceIs(slot, Keyed(settings, upgrade)))
      ensures r.Some? ==> !running && activeBackend == None && netState == None && r.value != AlreadyRunning
      ensures old(Refused()) <= Refused() && (fellBack ==> Refused() > old(Refused()))
      ensures Refused() == old(Refused()) ==>
        (r.None? <==> CanBeMet(request, Some(settings), old(world.Here())))
      ensures r.Some? ==> (upgrade.Some? <==> GuardStuckAfterUpgrade(request, platform.answers))
      ensures r.Some? && upgrade.Some? ==>
        request.quantum && !request.daita && !request.preference.Userspace? && r == Some(NetworkError)
      ensures fellBack || ResolveBackend(request.preference, request.daita) != Some(LinuxKernel) ==>
        r == UserspaceOutcome(request, platform.answers)
      // The fallback is for a kernel that cannot do it, and for users who leave the choice open.
      ensures fellBack <==>
        && ResolveBackend(request.preference, request.daita) == Some(LinuxKernel) && request.preference.Auto?
        && platform.answers.link == Some(LinkUnavailable)
      ensures fellBack ==> platform.guardAttempts == old(platform.guardAttempts)
      ensures platform.networkAttempts <= old(platform.networkAttempts) + 1
      ensures Bounded(old(world.trace), world.trace, world.Here(), Allowed(old(world.Here()), request.tun, lost))
    {
      hide TunnelOutcome, GuardStuckAfterUpgrade, FlagsAre, World.Valid, Services.Valid, LinkIs, DeviceIs, NetworkIs;
      hide Keyed, CanCreate, Bounded, Uncovered, Overwritten, Allowed, UserspaceOutcome;
      lost, fellBack := false, false;
      BoundedHere(world.trace, world.Here(), request.tun);
      var decision := ResolveBackend(request.preference, request.daita);
      if decision == Some(LinuxKernel) {
        var failed;
        failed, upgrade, lost := StartLinuxKernel(request, settings);
        if failed.None? {
          return None, upgrade, lost, false;
        }
        if !(failed == Some(KernelFailed(Unavailable)) && request.preference.Auto?) {
          return Some(IntoEngineError(failed.value)), upgrade, lost, false;
        }
        fellBack := true;
      }
      r, upgrade := StartUserspace(request, settings);
      NoLinkNoUpgrade(request, platform.answers);
    }

    /** Forget the last run, and let go of a backend that a failed stop has left. */
    method ForgetLastRun()
      requires Valid() && !running
      modifies this`activeBackend, this`netState, this`running, this`routeApplyReport, this`quantumActive,
        this`daitaActive, this`ephemeralKeyActive, this`lastQuantumFailure, this`lastDaitaFailure
      modifies platform`devices, platform`configured
      modifies world`links, world`ours, world`journal, world`trace, world`configured, world`refused
      ensures Valid() && !running && activeBackend == None && netState == None && FlagsAre(None)
      ensures old(Refused()) <= Refused()
      ensures Refused() == old(Refused()) ==> SameNamesFree(old(world.Here()), world.Here())
      ensures world.journal in [old(world.journal), Absent]
      ensures Bounded(old(world.trace), world.trace, world.Here(), Uncovered(old(world.Here())))
    {
      hide Bounded, Uncovered, SameNamesFree, World.Valid, Services.Valid;
      NothingFreed(world.Here());
      BoundedStill(world.trace, world.Here());
      routeApplyReport := None;
      if activeBackend.Some? {
        ShutdownActiveBackend();
      }
      quantumActive, daitaActive, ephemeralKeyActive := false, false, false;
      lastQuantumFailure, lastDaitaFailure := None, None;
    }

    /** What comes before a backend is started: choose it, parse the configuration and validate it. */
    method PrepareStart(request: StartRequest) returns (r: Option<EngineError>, settings: Option<DeviceSettings>)
      modifies `lastDaitaFailure, platform`answers, platform`refused
      ensures platform.answers == old(platform.answers).(parsed := platform.answers.parsed,
                                                         validated := platform.answers.validated,
                                                         settings := platform.answers.settings)
      ensures r.None? ==> platform.answers.parsed == Some(true)
      ensures r.None? && request.daita ==> platform.answers.validated == Some(true)
      ensures r.None? <==> settings.Some?
      ensures r.None? ==> platform.answers.settings == settings
      ensures old(platform.refused) <= platform.refused
      ensures r.None? <==> platform.refused == old(platform.refused)
                           && ResolveBackend(request.preference, request.daita).Some?
      ensures r.Some? ==> r.value in [UnsupportedBackend, ConfigError, EphemeralError]
      ensures r == Some(UnsupportedBackend) <==> ResolveBackend(request.preference, request.daita).None?
      ensures r == Some(EphemeralError) ==> request.daita && lastDaitaFailure.Some?
      ensures r != Some(EphemeralError) ==> lastDaitaFailure == old(lastDaitaFailure)
    {
      if ResolveBackend(request.preference, request.daita).None? {
        return Some(UnsupportedBackend), None;
      }
      var parsed := platform.ParseConfig();
      if !parsed {
        return Some(ConfigError), None;
      }
      if request.daita {
        var failure := platform.ValidateDaita();
        if failure.Some? {
          lastDaitaFailure := failure;
          return Some(EphemeralError), None;
        }
      }
      settings := platform.ToDeviceSettings();
      if settings.None? {
        return Some(ConfigError), None;
      }
      return None, settings;
    }

    /**
     * Stop the tunnel.  The network configuration goes to its cleanup first; a kernel link that could not be
     * deleted stays with the engine and in the journal.
     */
    method Stop() returns (r: Option<EngineError>)
      requires Valid()
      modifies this, platform
      modifies world`links, world`ours, world`journal, world`trace, world`configured, world`refused
      ensures Valid() && netState == None
      ensures r == Some(NotRunning) <==> !old(running)
      ensures r.None? ==> !running && activeBackend == None && FlagsAre(None)
      ensures r.None? && old(activeBackend).Some? && old(activeBackend).value.KernelDevice? ==>
        old(activeBackend).value.tun !in world.ours && world.journal == Absent
      ensures r.None? && old(activeBackend).Some? && old(activeBackend).value.UserspaceDevice? ==>
        cachedUserspaceDevice == if old(ephemeralKeyActive) then None else Some(old(activeBackend).value.slot)
      ensures old(Refused()) <= Refused()
      // A stop is good exactly when no call failed, the cleanup of the network configuration included.
      ensures r.None? <==>
        old(running) && Refused() == old(Refused()) && !StuckLink(old(activeBackend), old(world.Here()))
      ensures Bounded(old(world.trace), world.trace, world.Here(), Uncovered(old(world.Here())))
    {
      if !running {
        return Some(NotRunning);
      }
      var cleanup := CleanupActiveNetworkState();
      var failed := StopActiveBackend();
      if failed.Some? {
        if cleanup.None? {
          ForgetRun();
        }
        return failed;
      }
      ForgetRun();
      return cleanup;
    }

    method ForgetRun()
      modifies this`routeApplyReport, this`running, this`quantumActive, this`daitaActive, this`ephemeralKeyActive,
        this`lastQuantumFailure, this`lastDaitaFailure
      ensures !running && FlagsAre(None)
      ensures routeApplyReport == None && lastQuantumFailure == None && lastDaitaFailure == None
    {
      routeApplyReport := None;
      running, quantumActive, daitaActive, ephemeralKeyActive := false, false, false, false;
      lastQuantumFailure, lastDaitaFailure := None, None;
    }

    method StopActiveBackend() returns (r: Option<EngineError>)
      requires Valid() && netState == None
      modifies `activeBackend, `cachedUserspaceDevice, platform`devices, platform`configured, platform`refused
      modifies world`links, world`ours, world`journal, world`trace, world`configured, world`refused
      ensures Valid()
      ensures r.None? ==> activeBackend == None
      ensures r.None? && old(activeBackend).Some? && old(activeBackend).value.KernelDevice? ==>
        old(activeBackend).value.tun !in world.ours && world.journal == Absent
      // A device whose keys were not negotiated is kept for the next start; any other is stopped.
      ensures r.None? && old(activeBackend).Some? && old(activeBackend).value.UserspaceDevice? ==>
        cachedUserspaceDevice == if ephemeralKeyActive then None else Some(old(activeBackend).value.slot)
      ensures activeBackend.Some? ==> activeBackend == old(activeBackend) && activeBackend.value.KernelDevice?
      ensures r.Some? ==> r.value.DeviceError? || r.value.KernelWireGuard?
      ensures old(Refused()) <= Refused()
      ensures r.None? <==> Refused() == old(Refused()) && !StuckLink(old(activeBackend), old(world.Here()))
      ensures Bounded(old(world.trace), world.trace, world.Here(), Uncovered(old(world.Here())))
    {
      if activeBackend.None? {
        return None;
      }
      var active := activeBackend.value;
      activeBackend := None;
      match active
      case UserspaceDevice(slot) =>
        if ephemeralKeyActive {
          platform.StopDevice(slot);
          return None;
        }
        var cleared := platform.ClearPeers(slot);
        if !cleared {
          platform.StopDevice(slot);
          return Some(DeviceError);
        }
        cachedUserspaceDevice := Some(slot);
        return None;
      case KernelDevice(tun) =>
        var deleted := DeleteKernelDevice(world, tun);
        if deleted.Err? {
          activeBackend := Some(active);
          return Some(KernelWireGuard(deleted.error));
        }
        var cleared := world.ClearJournal();
        if cleared.Err? {
          return Some(KernelWireGuard(cleared.error));
        }
        return None;
    }
  }

  lemma BoundedStill(trace: seq<Snapshot>, here: Snapshot)
    ensures Bounded(trace, trace, here, Uncovered(here))
  {
  }

  lemma BoundedHere(trace: seq<Snapshot>, here: Snapshot, tun: string)
    ensures Bounded(trace, trace, here, Allowed(here, tun, false))
  {
  }

  /** Nothing a start lets go of first widens what it may leave unnamed. */
  lemma BoundedFrom(earlier: seq<Snapshot>, trace: seq<Snapshot>, before: Snapshot, here: Snapshot, tun: string)
    requires Bounded(earlier, trace, here, Uncovered(before)) && here.journal in [before.journal, Absent]
    ensures Bounded(earlier, trace, here, Allowed(before, tun, false))
    ensures forall lost :: Allowed(here, tun, lost) <= Allowed(before, tun, lost)
  {
  }

  lemma BoundedAllowed(earlier: seq<Snapshot>, middle: seq<Snapshot>, before: Snapshot, between: Snapshot,
                       trace: seq<Snapshot>, here: Snapshot, tun: string, lost: bool)
    requires Bounded(earlier, middle, between, Allowed(before, tun, false))
    requires Bounded(middle, trace, here, Allowed(between, tun, lost))
    requires Allowed(between, tun, lost) <= Allowed(before, tun, lost)
    ensures Bounded(earlier, trace, here, Allowed(before, tun, lost))
  {
    BoundedThen(earlier, middle, between, trace, here, Allowed(before, tun, false), Allowed(between, tun, lost),
                Allowed(before, tun, lost));
  }
}
