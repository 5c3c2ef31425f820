/**
 * What the engine asks of the rest of the program: traffic guards, network configuration and userspace devices.
 * Each is a resource with an identity; giving one back twice, or giving back one never taken, breaks a
 * precondition here.
 */
module Platform {
  import opened Common
  import opened Config

  datatype Guard = Guard(id: nat, tun: string)
  datatype NetworkState = NetworkState(id: nat, tun: string, killSwitch: bool)
  datatype DeviceSlot = DeviceSlot(id: nat, tun: string)
  datatype Report = Complete | Partial
  datatype FailureKind = UnsupportedConfig | Reconfigure | OtherFailure
  /** What a negotiation has led to: the key and the peer to go on with. */
  datatype Upgrade = Upgrade(quantum: bool, daita: bool, key: Key, peer: DevicePeer)

  /** What came of creating the kernel link. */
  datatype LinkAnswer = LinkMade | LinkUnavailable | LinkRefused

  /** What was answered in the current start; `None` is what was not asked. */
  datatype Answers = Answers(
    parsed: Option<bool>,
    validated: Option<bool>,
    settings: Option<DeviceSettings>,
    link: Option<LinkAnswer>,
    device: Option<bool>,
    guard: Option<bool>,
    network: Option<bool>,
    marked: Option<bool>,
    negotiated: Option<Option<Upgrade>>,
    updated: Option<bool>,
    guardCleaned: Option<bool>,
    networkCleaned: Option<bool>)

  predicate HasPeer(settings: Option<DeviceSettings>) {
    settings.Some? && |settings.value.peers| > 0
  }

  const NOT_ASKED := Answers(None, None, None, None, None, None, None, None, None, None, None, None)

  class Services {
    /** What has been taken and not given back. */
    ghost var guards: set<nat>
    ghost var networks: set<nat>
    ghost var devices: set<nat>
    ghost var guardAttempts: nat
    ghost var networkAttempts: nat
    ghost var answers: Answers
    /** How many requests have been refused. */
    ghost var refused: nat
    /** What each device is configured with. */
    ghost var configured: map<nat, DeviceSettings>
    var next: nat

    ghost predicate Valid()
      reads `guards, `networks, `devices, `next
    {
      forall i :: i in guards || i in networks || i in devices ==> i < next
    }

    constructor ()
      ensures Valid() && guards == networks == devices == {}
    {
      guards, networks, devices, guardAttempts, networkAttempts, next := {}, {}, {}, 0, 0, 0;
      answers, refused, configured := NOT_ASKED, 0, map[];
    }

    ghost method ForgetAnswers()
      modifies `answers
      ensures answers == NOT_ASKED
    {
      answers := NOT_ASKED;
    }

    ghost method NoteLink(answer: LinkAnswer)
      modifies `answers
      ensures answers == old(answers).(link := Some(answer))
    {
      answers := answers.(link := Some(answer));
    }

    ghost method NoteMark(ok: bool)
      modifies `answers
      ensures answers == old(answers).(marked := Some(ok))
    {
      answers := answers.(marked := Some(ok));
    }

    ghost method NoteUpdate(ok: bool)
      modifies `answers
      ensures answers == old(answers).(updated := Some(ok))
    {
      answers := answers.(updated := Some(ok));
    }

    // -------------------------------------------------------------- quantum negotiation guard

    method InstallGuard(tun: string) returns (guard: Option<Guard>)
      requires Valid()
      modifies `guards, `guardAttempts, `next, `answers, `refused
      ensures Valid() && guardAttempts == old(guardAttempts) + 1
      ensures answers == old(answers).(guard := Some(guard.Some?))
      ensures refused == old(refused) + if guard.None? then 1 else 0
      ensures guard.None? ==> guards == old(guards)
      ensures guard.Some? ==>
        guard.value.tun == tun && guard.value.id !in old(guards) && guards == old(guards) + {guard.value.id}
    {
      guardAttempts := guardAttempts + 1;
      var ok: bool := *;
      answers := answers.(guard := Some(ok));
      if !ok {
        refused := refused + 1;
        return None;
      }
      guard := Some(Guard(next, tun));
      guards := guards + {next};
      next := next + 1;
    }

    method CleanupGuard(guard: Guard) returns (ok: bool)
      requires Valid() && guard.id in guards
      modifies `guards, `answers, `refused
      ensures Valid() && guards == old(guards) - {guard.id}
      ensures answers == old(answers).(guardCleaned := Some(ok))
      ensures refused == old(refused) + if ok then 0 else 1
    {
      guards := guards - {guard.id};
      ok := *;
      answers := answers.(guardCleaned := Some(ok));
      refused := refused + if ok then 0 else 1;
    }

    // -------------------------------------------------------------- network configuration

    method ApplyNetworkConfig(tun: string, killSwitch: bool) returns (state: Option<NetworkState>)
      requires Valid()
      modifies `networks, `networkAttempts, `next, `answers, `refused
      ensures Valid() && networkAttempts == old(networkAttempts) + 1
      ensures answers == old(answers).(network := Some(state.Some?))
      ensures refused == old(refused) + if state.None? then 1 else 0
      ensures state.None? ==> networks == old(networks)
      ensures state.Some? ==>
        && state.value.tun == tun && state.value.killSwitch == killSwitch
        && state.value.id !in old(networks) && networks == old(networks) + {state.value.id}
    {
      networkAttempts := networkAttempts + 1;
      var ok: bool := *;
      answers := answers.(network := Some(ok));
      if !ok {
        refused := refused + 1;
        return None;
      }
      state := Some(NetworkState(next, tun, killSwitch));
      networks := networks + {next};
      next := next + 1;
    }

    method CleanupNetworkConfig(state: NetworkState) returns (ok: bool)
      requires Valid() && state.id in networks
      modifies `networks, `answers, `refused
      ensures Valid() && networks == old(networks) - {state.id}
      ensures answers == old(answers).(networkCleaned := Some(ok))
      ensures refused == old(refused) + if ok then 0 else 1
    {
      networks := networks - {state.id};
      ok := *;
      answers := answers.(networkCleaned := Some(ok));
      refused := refused + if ok then 0 else 1;
    }

    // -------------------------------------------------------------- userspace devices

    method BuildDevice(tun: string) returns (slot: Option<DeviceSlot>)
      requires Valid()
      modifies `devices, `next, `answers, `refused
      ensures answers == old(answers).(device := Some(slot.Some?))
      ensures Valid() && refused == old(refused) + if slot.None? then 1 else 0
      ensures slot.None? ==> devices == old(devices)
      ensures slot.Some? ==>
        slot.value.tun == tun && slot.value.id !in old(devices) && devices == old(devices) + {slot.value.id}
    {
      var ok: bool := *;
      answers := answers.(device := Some(ok));
      if !ok {
        refused := refused + 1;
        return None;
      }
      slot := Some(DeviceSlot(next, tun));
      devices := devices + {next};
      next := next + 1;
    }

    /** Stop a device, or drop its handle. */
    method StopDevice(slot: DeviceSlot)
      requires Valid() && slot.id in devices
      modifies `devices, `configured
      ensures Valid() && devices == old(devices) - {slot.id} && configured == old(configured) - {slot.id}
    {
      devices := devices - {slot.id};
      configured := configured - {slot.id};
    }

    method ConfigureDevice(slot: DeviceSlot, settings: DeviceSettings) returns (ok: bool)
      requires slot.id in devices
      modifies `configured, `answers, `refused
      ensures answers == old(answers).(device := Some(ok))
      ensures configured == if ok then old(configured)[slot.id := settings] else old(configured) - {slot.id}
      ensures refused == old(refused) + if ok then 0 else 1
    {
      ok := *;
      answers := answers.(device := Some(ok));
      configured := if ok then configured[slot.id := settings] else configured - {slot.id};
      refused := refused + if ok then 0 else 1;
    }

    method ClearPeers(slot: DeviceSlot) returns (ok: bool)
      requires slot.id in devices
      modifies `configured, `refused
      ensures configured == old(configured) - {slot.id}
      ensures refused == old(refused) + if ok then 0 else 1
    {
      ok := *;
      configured := configured - {slot.id};
      refused := refused + if ok then 0 else 1;
    }

    // -------------------------------------------------------------- configuration and negotiation

    method ParseConfig() returns (ok: bool)
      modifies `answers, `refused
      ensures answers == old(answers).(parsed := Some(ok))
      ensures refused == old(refused) + if ok then 0 else 1
    {
      ok := *;
      answers := answers.(parsed := Some(ok));
      refused := refused + if ok then 0 else 1;
    }

    method ValidateDaita() returns (failure: Option<FailureKind>)
      modifies `answers, `refused
      ensures answers == old(answers).(validated := Some(failure.None?))
      ensures refused == old(refused) + if failure.Some? then 1 else 0
    {
      failure := *;
      answers := answers.(validated := Some(failure.None?));
      refused := refused + if failure.Some? then 1 else 0;
    }

    /** Resolve the endpoints. */
    method ToDeviceSettings() returns (settings: Option<DeviceSettings>)
      modifies `answers, `refused
      ensures answers == old(answers).(settings := settings)
      ensures refused == old(refused) + if settings.None? then 1 else 0
    {
      settings := *;
      answers := answers.(settings := settings);
      refused := refused + if settings.None? then 1 else 0;
    }

    /** Negotiate another key and peer; what was asked for is what is negotiated. */
    method Negotiate(quantum: bool, daita: bool) returns (update: Option<Upgrade>, failure: FailureKind)
      modifies `answers, `refused
      ensures update.Some? ==> update.value.quantum == quantum && update.value.daita == daita
      ensures answers == old(answers).(negotiated := Some(update))
      ensures refused == old(refused) + if update.None? then 1 else 0
    {
      update, failure := *, *;
      if update.Some? {
        update := Some(update.value.(quantum := quantum, daita := daita));
      }
      answers := answers.(negotiated := Some(update));
      refused := refused + if update.None? then 1 else 0;
    }

    /** Negotiate, and hand the outcome to the device. */
    method UpgradeDevice(slot: DeviceSlot, quantum: bool, daita: bool)
      returns (update: Option<Upgrade>, failure: FailureKind)
      requires slot.id in configured
      modifies `answers, `refused, `configured
      ensures update.Some? ==> update.value.quantum == quantum && update.value.daita == daita
      ensures answers == old(answers).(negotiated := answers.negotiated, updated := Some(update.Some?))
      ensures configured ==
        if update.None? then old(configured) - {slot.id}
        else old(configured)[slot.id := Upgraded(old(configured)[slot.id], update.value.key, update.value.peer)]
      ensures refused == old(refused) + if update.None? then 1 else 0
    {
      update, failure := Negotiate(quantum, daita);
      var taken: bool := *;
      if update.Some? && !taken {
        update := None;
        refused := refused + 1;
      }
      answers := answers.(updated := Some(update.Some?));
      configured := if update.None? then configured - {slot.id}
                    else configured[slot.id := Upgraded(configured[slot.id], update.value.key, update.value.peer)];
    }
  }
}
