/** The report of one apply: what happened to every planned operation, in order. */
module ApplyReport {
  import opened Common
  import opened RoutePlan

  datatype Status = Applied | Skipped | Failed
  datatype Source = Live | Persisted
  datatype AttemptState = Applying | Running | Failed
  datatype ReportPhase = Apply | Cleanup | Recovery

  datatype Kind =
    | Other | Adapter | RecoveryJournal | Address | PolicyRule | Route | Metric | BypassRoute | Dns | Nrpt | DnsGuard
    | KillSwitch

  datatype FailureKind = Precondition | Lookup | Persistence | Verification | System | CleanupFailure

  datatype Entry = Entry(
    itemId: string,
    status: Status,
    phase: ReportPhase,
    kind: Kind,
    failureKind: Option<FailureKind>)

  function InferPhase(id: string): ReportPhase {
    if id == "apply:recovery" || id == "apply:recovery_init" then Recovery
    else if "cleanup:" <= id then Cleanup
    else Apply
  }

  function InferKind(id: string): Option<Kind> {
    if id == "policy-v4" || id == "policy-v6" || "policy:" <= id then Some(PolicyRule)
    else if id == "metric-v4" || id == "metric-v6" || "metric:" <= id then Some(Metric)
    else if "bypass:" <= id || "bypass-pending:" <= id then Some(BypassRoute)
    else if "allowed:" <= id || "dns-route:" <= id || "route:" <= id then Some(Route)
    else if id == "apply:adapter_lookup" || id == "apply:linux:netlink" then Some(Adapter)
    else if "apply:address:" <= id || id == "apply:addresses" then Some(Address)
    else if id == "apply:dns" then Some(Dns)
    else if id == "apply:nrpt" then Some(Nrpt)
    else if id == "apply:dns_guard" then Some(DnsGuard)
    else if "apply:linux:kill_switch" <= id then Some(KillSwitch)
    else if id == "apply:recovery" || id == "apply:recovery_init" then Some(RecoveryJournal)
    else None
  }

  function InferFailureKind(id: string): Option<FailureKind> {
    if id == "apply:adapter_lookup" then Some(Lookup)
    else if id == "apply:recovery" || id == "apply:recovery_init" then Some(Persistence)
    else if id == "apply:stale_address_cleanup" then Some(CleanupFailure)
    else if "apply:" <= id || "allowed:" <= id || id == "policy-v4" || id == "policy-v6" || id == "metric-v4"
            || id == "metric-v6" || "bypass:" <= id || "bypass-pending:" <= id || "dns-route:" <= id then Some(System)
    else None
  }

  function KindOr(id: string, kind: Kind): Kind {
    var k := InferKind(id);
    if k.Some? then k.value else kind
  }

  function AppliedEntry(id: string, kind: Kind): Entry {
    Entry(id, Status.Applied, InferPhase(id), KindOr(id, kind), None)
  }

  function SkippedEntry(id: string, kind: Kind): Entry {
    Entry(id, Skipped, InferPhase(id), KindOr(id, kind), None)
  }

  function FailedEntry(id: string, kind: Kind, failure: Option<FailureKind>): Entry {
    Entry(id, Status.Failed, InferPhase(id), KindOr(id, kind),
          if failure.Some? then failure else InferFailureKind(id))
  }

  class RouteApplyReport {
    var platform: Option<Platform>
    var source: Source
    var attemptState: AttemptState
    var entries: seq<Entry>

    constructor (platform: Platform)
      ensures this.platform == Some(platform) && source == Live && attemptState == Applying && entries == []
    {
      this.platform := Some(platform);
      source := Live;
      attemptState := Applying;
      entries := [];
    }

    method PushApplied(id: string, kind: Kind)
      modifies `entries
      ensures entries == old(entries) + [AppliedEntry(id, kind)]
    {
      entries := entries + [Entry(id, Status.Applied, InferPhase(id), KindOr(id, kind), None)];
    }

    method PushSkipped(id: string, kind: Kind)
      modifies `entries
      ensures entries == old(entries) + [SkippedEntry(id, kind)]
    {
      entries := entries + [Entry(id, Skipped, InferPhase(id), KindOr(id, kind), None)];
    }

    method PushFailed(id: string, kind: Kind, failure: Option<FailureKind>)
      modifies `entries
      ensures entries == old(entries) + [FailedEntry(id, kind, failure)]
    {
      var inferred := if failure.Some? then failure else InferFailureKind(id);
      entries := entries + [Entry(id, Status.Failed, InferPhase(id), KindOr(id, kind), inferred)];
    }

    method MarkRunning()
      modifies `attemptState
      ensures attemptState == Running
    {
      attemptState := Running;
    }

    method MarkFailed()
      modifies `attemptState
      ensures attemptState == AttemptState.Failed
    {
      attemptState := AttemptState.Failed;
    }
  }

  // ---------------------------------------------------------------- accounting

  /** Ids of the entries of one kind, in order. */
  function IdsOf(entries: seq<Entry>, kind: Kind): seq<string> {
    if |entries| == 0 then []
    else
      var last := entries[|entries| - 1];
      IdsOf(entries[..|entries| - 1], kind) + (if last.kind == kind then [last.itemId] else [])
  }

  lemma {:induction false} IdsOfAppend(a: seq<Entry>, b: seq<Entry>, kind: Kind)
    ensures IdsOf(a + b, kind) == IdsOf(a, kind) + IdsOf(b, kind)
  {
    if |b| == 0 {
      assert a + b == a;
    } else {
      var init := b[..|b| - 1];
      assert (a + b)[..|a + b| - 1] == a + init;
      IdsOfAppend(a, init, kind);
    }
  }

  lemma IdsOfPush(a: seq<Entry>, e: Entry, kind: Kind)
    ensures IdsOf(a + [e], kind) == IdsOf(a, kind) + (if e.kind == kind then [e.itemId] else [])
  {
    assert (a + [e])[..|a + [e]| - 1] == a;
  }

  function MetricIds(ops: seq<MetricOp>): (r: seq<string>)
    ensures |r| == |ops|
  {
    Map(op => MetricItemId(op), ops)
  }

  function BypassIds(ops: seq<BypassOp>): (r: seq<string>)
    ensures |r| == |ops|
  {
    Map(op => BypassItemId(op), ops)
  }

  function RouteIds(ops: seq<RouteOp>): (r: seq<string>)
    ensures |r| == |ops|
  {
    Map(op => RouteItemId(op), ops)
  }

  /** The ids of the planned operations of one kind. */
  function PlannedIds(plan: Plan, kind: Kind): seq<string> {
    match kind
    case Metric => MetricIds(plan.metricOps)
    case BypassRoute => BypassIds(plan.bypassOps)
    case Route => RouteIds(plan.routeOps)
    case _ => []
  }

  predicate PlannedKind(kind: Kind) {
    kind.Metric? || kind.BypassRoute? || kind.Route?
  }

  predicate NoneFailed(entries: seq<Entry>) {
    forall i :: 0 <= i < |entries| ==> !entries[i].status.Failed?
  }

  predicate AllSkipped(entries: seq<Entry>) {
    forall i :: 0 <= i < |entries| ==> entries[i].status.Skipped?
  }

  /** Exactly one entry failed, and every entry after it was skipped. */
  ghost predicate FailsOnce(entries: seq<Entry>) {
    exists k :: 0 <= k < |entries| && entries[k].status.Failed? && NoneFailed(entries[..k]) &&
      AllSkipped(entries[k + 1..])
  }

  /** Every planned operation has exactly one entry, and the entries of each kind keep the plan's order. */
  ghost predicate AccountsFor(entries: seq<Entry>, plan: Plan) {
    forall kind :: PlannedKind(kind) ==> IdsOf(entries, kind) == PlannedIds(plan, kind)
  }

  /** As above, but the bypass operation at `missing` has no entry. */
  ghost predicate AccountsForAllBut(entries: seq<Entry>, plan: Plan, missing: nat) {
    && missing < |plan.bypassOps|
    && IdsOf(entries, Metric) == PlannedIds(plan, Metric)
    && IdsOf(entries, BypassRoute) ==
      PlannedIds(plan, BypassRoute)[..missing] + PlannedIds(plan, BypassRoute)[missing + 1..]
    && IdsOf(entries, Route) == PlannedIds(plan, Route)
  }

  /** The kind inferred from a planned operation's id is the kind of the operation. */
  lemma PlannedIdsCarryTheirKind(m: MetricOp, b: BypassOp, r: RouteOp)
    ensures InferKind(MetricItemId(m)) == Some(Metric)
    ensures InferKind(BypassItemId(b)) == Some(BypassRoute)
    ensures InferKind(RouteItemId(r)) == Some(Route)
  {
    assert BypassItemId(b)[0] == 'b' && "policy-v4"[0] == 'p' && "metric-v4"[0] == 'm';
    var id := RouteItemId(r);
    assert id[0] == 'a' || id[0] == 'd';
    assert "policy:"[0] == 'p' && "metric:"[0] == 'm' && "bypass:"[0] == 'b';
    assert "bypass:"[6] == ':' && "bypass-pending:"[6] == '-';
  }

  /** No id of a stage of the pipeline is taken for a planned operation. */
  lemma StageIdsAreNotPlanned(id: string, kind: Kind)
    requires "apply:" <= id && !PlannedKind(kind)
    ensures !PlannedKind(KindOr(id, kind))
  {
    assert id[0] == 'a' && id[1] == 'p' && "allowed:"[1] == 'l';
  }
}
