/** What the report of a run says: how far the run came, and where it failed. */
module WindowsOutcome {
  import opened Common
  import opened Config
  import opened WindowsModel
  import opened WindowsWorld
  import opened RoutePlan
  import R = ApplyReport
  import opened WindowsReport

  /** What may fail besides the addresses and the planned operations. */
  datatype Stage = LookupStage | InitStage | StaleStage | DnsStage | NrptStage | DnsGuardStage | JournalStage {
    function Id(): string {
      match this
      case LookupStage => "apply:adapter_lookup"
      case InitStage => "apply:recovery_init"
      case StaleStage => "apply:stale_address_cleanup"
      case DnsStage => "apply:dns"
      case NrptStage => "apply:nrpt"
      case DnsGuardStage => "apply:dns_guard"
      case JournalStage => "apply:recovery"
    }

    function Kind(): R.Kind {
      match this
      case LookupStage => R.Adapter
      case InitStage => R.RecoveryJournal
      case StaleStage => R.Address
      case DnsStage => R.Dns
      case NrptStage => R.Nrpt
      case DnsGuardStage => R.DnsGuard
      case JournalStage => R.RecoveryJournal
    }

    function Failure(): R.FailureKind {
      match this
      case LookupStage => R.Lookup
      case InitStage => R.Persistence
      case StaleStage => R.CleanupFailure
      case JournalStage => R.Persistence
      case _ => R.System
    }

    lemma IsNotPlanned()
      ensures "apply:" <= Id() && !R.PlannedKind(Kind()) && !R.PlannedKind(R.KindOr(Id(), Kind()))
    {
      hide R.InferKind;
      R.StageIdsAreNotPlanned(Id(), Kind());
    }
  }

  /** The call that ends a run which is then rolled back. */
  datatype FailurePoint =
    | AtAddress(index: nat)
    | AtMetric(index: nat)
    | MetricNotJournaled(index: nat)
    | Unresolved(index: nat)
    | AtBypass(index: nat)
    | BypassNotJournaled(index: nat)
    | AtRoute(index: nat)
    | RouteNotJournaled(index: nat)
    | AtStage(stage: Stage)
    | StageNotJournaled(stage: Stage)
    | NotMarkedRunning

  // ---------------------------------------------------------------- routes around the tunnel

  /** The routes among the answers. */
  function Found(answers: seq<RouteAnswer>): seq<RouteEntry> {
    if |answers| == 0 then []
    else
      var last := answers[|answers| - 1];
      Found(answers[..|answers| - 1]) + if last.route.Some? then [last.route.value] else []
  }

  function AskedFor(answers: seq<RouteAnswer>): seq<IpAddr> {
    Map((answer: RouteAnswer) => answer.ip, answers)
  }

  /** The addresses of the families that the tunnel takes over. */
  function Applicable(ips: seq<IpAddr>, fullV4: bool, fullV6: bool): seq<IpAddr> {
    if |ips| == 0 then []
    else
      var last := ips[|ips| - 1];
      Applicable(ips[..|ips| - 1], fullV4, fullV6) + if (if last.V4? then fullV4 else fullV6) then [last] else []
  }

  /** All answers, one list per bypass operation, in a row. */
  function Flat(answers: seq<seq<RouteAnswer>>): seq<RouteAnswer> {
    if |answers| == 0 then [] else Flat(answers[..|answers| - 1]) + answers[|answers| - 1]
  }

  lemma FoundNext(answers: seq<RouteAnswer>, answer: RouteAnswer)
    ensures Found(answers + [answer]) == Found(answers) + if answer.route.Some? then [answer.route.value] else []
    ensures AskedFor(answers + [answer]) == AskedFor(answers) + [answer.ip]
  {
    assert (answers + [answer])[..|answers|] == answers;
  }

  lemma ApplicableNext(ips: seq<IpAddr>, i: nat, fullV4: bool, fullV6: bool)
    requires i < |ips|
    ensures Applicable(ips[..i + 1], fullV4, fullV6) ==
      Applicable(ips[..i], fullV4, fullV6) + if (if ips[i].V4? then fullV4 else fullV6) then [ips[i]] else []
  {
    assert ips[..i + 1][..i] == ips[..i];
  }

  lemma FlatNext(answers: seq<seq<RouteAnswer>>, more: seq<RouteAnswer>)
    ensures Flat(answers + [more]) == Flat(answers) + more
  {
    assert (answers + [more])[..|answers|] == answers;
  }

  lemma {:induction false} FoundConcat(a: seq<RouteAnswer>, b: seq<RouteAnswer>)
    ensures Found(a + b) == Found(a) + Found(b)
    decreases |b|
  {
    if |b| == 0 {
      assert a + b == a;
    } else {
      var n := |b| - 1;
      assert a + b == (a + b[..n]) + [b[n]] && b == b[..n] + [b[n]];
      FoundConcat(a, b[..n]);
      FoundNext(a + b[..n], b[n]);
    }
  }

  lemma {:induction false} InFound(answers: seq<RouteAnswer>, i: nat)
    requires i < |answers| && answers[i].route.Some?
    ensures answers[i].route.value in Found(answers)
  {
    var n := |answers| - 1;
    if i < n {
      InFound(answers[..n], i);
    }
  }

  lemma {:induction false} FoundIsThere(answers: seq<RouteAnswer>, r: RouteEntry)
    requires r in Found(answers)
    ensures exists k :: 0 <= k < |answers| && answers[k].route == Some(r)
  {
    var n := |answers| - 1;
    if answers[n].route == Some(r) {
    } else {
      FoundIsThere(answers[..n], r);
      var k :| 0 <= k < n && answers[..n][k].route == Some(r);
      assert answers[k].route == Some(r);
    }
  }

  lemma {:induction false} ApplicableIs(ips: seq<IpAddr>, fullV4: bool, fullV6: bool)
    ensures forall ip ::
      ip in Applicable(ips, fullV4, fullV6) <==> ip in ips && if ip.V4? then fullV4 else fullV6
  {
    if |ips| > 0 {
      var n := |ips| - 1;
      ApplicableIs(ips[..n], fullV4, fullV6);
      assert ips == ips[..n] + [ips[n]];
    }
  }

  lemma {:induction false} InFlat(answers: seq<seq<RouteAnswer>>, i: nat)
    requires i < |answers|
    ensures forall r :: r in Found(answers[i]) ==> r in Found(Flat(answers))
    ensures forall x :: x in answers[i] ==> x in Flat(answers)
  {
    var n := |answers| - 1;
    FoundConcat(Flat(answers[..n]), answers[n]);
    if i < n {
      InFlat(answers[..n], i);
    }
  }

  /** The system was asked about `ip`, and the route it named is among those found. */
  predicate Served(answer: RouteAnswer, ip: IpAddr, asked: seq<RouteAnswer>) {
    answer.ip == ip && answer in asked && (answer.route.Some? ==> answer.route.value in Found(asked))
  }

  /**
   * Where each operation's list of answers is one to each of its addresses that the tunnel would take, the
   * system was asked about each of them, and the routes it named are among those found.
   */
  lemma EveryTargetIsServed(resolved: seq<seq<IpAddr>>, answers: seq<seq<RouteAnswer>>, fullV4: bool, fullV6: bool,
                            i: nat, ip: IpAddr)
    requires i < |resolved| == |answers| && ip in resolved[i] && if ip.V4? then fullV4 else fullV6
    requires AskedFor(answers[i]) == Applicable(resolved[i], fullV4, fullV6)
    ensures exists answer :: answer in answers[i] && Served(answer, ip, Flat(answers))
  {
    ApplicableIs(resolved[i], fullV4, fullV6);
    InFlat(answers, i);
    var asked := AskedFor(answers[i]);
    var k :| 0 <= k < |asked| && asked[k] == ip;
    if answers[i][k].route.Some? {
      InFound(answers[i], k);
    }
    assert answers[i][k] in answers[i] && Served(answers[i][k], ip, Flat(answers));
  }

  // ---------------------------------------------------------------- entries of what went well

  function AddressId(x: Cidr): string {
    "apply:address:" + RouteText(x)
  }

  function AddressEntries(xs: seq<Cidr>): seq<R.Entry> {
    Map((x: Cidr) => R.AppliedEntry(AddressId(x), R.Address), xs)
  }

  function MetricEntries(ops: seq<MetricOp>): seq<R.Entry> {
    Map((op: MetricOp) => R.AppliedEntry(MetricItemId(op), R.Metric), ops)
  }

  /** A bypass operation is applied when a route was found for it, and else skipped. */
  function BypassEntry(op: BypassOp, answers: seq<RouteAnswer>): R.Entry {
    if Found(answers) != [] then R.AppliedEntry(BypassItemId(op), R.BypassRoute)
    else R.SkippedEntry(BypassItemId(op), R.BypassRoute)
  }

  function BypassEntries(ops: seq<BypassOp>, answers: seq<seq<RouteAnswer>>): seq<R.Entry>
    requires |ops| <= |answers|
  {
    seq(|ops|, i requires 0 <= i < |ops| => BypassEntry(ops[i], answers[i]))
  }

  function RouteOpEntries(ops: seq<RouteOp>): seq<R.Entry> {
    Map((op: RouteOp) => R.AppliedEntry(RouteItemId(op), R.Route), ops)
  }

  function StageEntry(stage: Stage, skipped: bool): R.Entry {
    if skipped then R.SkippedEntry(stage.Id(), stage.Kind()) else R.AppliedEntry(stage.Id(), stage.Kind())
  }

  /** How far a run has come. */
  datatype Place = Place(addresses: nat, metrics: nat, bypasses: nat, routes: nat, stages: seq<R.Entry>)

  predicate InRange(config: InterfaceConfig, plan: Plan, answers: seq<seq<RouteAnswer>>, p: Place) {
    && p.addresses <= |config.addresses| && p.metrics <= |plan.metricOps|
    && p.bypasses <= |plan.bypassOps| && p.bypasses <= |answers| && p.routes <= |plan.routeOps|
  }

  /** The entries of a run that has come to `p` without a failure. */
  function EntriesAt(config: InterfaceConfig, plan: Plan, answers: seq<seq<RouteAnswer>>, p: Place): seq<R.Entry>
    requires InRange(config, plan, answers, p)
  {
    [StageEntry(LookupStage, false)]
    + AddressEntries(config.addresses[..p.addresses])
    + MetricEntries(plan.metricOps[..p.metrics])
    + BypassEntries(plan.bypassOps[..p.bypasses], answers)
    + RouteOpEntries(plan.routeOps[..p.routes])
    + p.stages
  }

  lemma NoEntries(config: InterfaceConfig, plan: Plan, answers: seq<seq<RouteAnswer>>)
    ensures EntriesAt(config, plan, answers, Place(0, 0, 0, 0, [])) == [StageEntry(LookupStage, false)]
  {
    hide StageEntry;
  }

  lemma MapNext<A, B>(f: A -> B, s: seq<A>, i: nat)
    requires i < |s|
    ensures Map(f, s[..i + 1]) == Map(f, s[..i]) + [f(s[i])]
  {
  }

  lemma NextAddress(config: InterfaceConfig, plan: Plan, answers: seq<seq<RouteAnswer>>, i: nat)
    requires i < |config.addresses|
    ensures EntriesAt(config, plan, answers, Place(i + 1, 0, 0, 0, [])) ==
      EntriesAt(config, plan, answers, Place(i, 0, 0, 0, []))
      + [R.AppliedEntry(AddressId(config.addresses[i]), R.Address)]
  {
    hide AddressId, StageEntry, R.AppliedEntry;
    MapNext((x: Cidr) => R.AppliedEntry(AddressId(x), R.Address), config.addresses, i);
  }

  lemma NextMetric(config: InterfaceConfig, plan: Plan, answers: seq<seq<RouteAnswer>>, a: nat, i: nat)
    requires a <= |config.addresses| && i < |plan.metricOps|
    ensures EntriesAt(config, plan, answers, Place(a, i + 1, 0, 0, [])) ==
      EntriesAt(config, plan, answers, Place(a, i, 0, 0, []))
      + [R.AppliedEntry(MetricItemId(plan.metricOps[i]), R.Metric)]
  {
    hide StageEntry, R.AppliedEntry, MetricItemId, AddressEntries;
    MapNext((op: MetricOp) => R.AppliedEntry(MetricItemId(op), R.Metric), plan.metricOps, i);
  }

  lemma NextBypass(config: InterfaceConfig, plan: Plan, answers: seq<seq<RouteAnswer>>, more: seq<RouteAnswer>, a: nat,
                   m: nat)
    requires a <= |config.addresses| && m <= |plan.metricOps| && |answers| < |plan.bypassOps|
    ensures EntriesAt(config, plan, answers + [more], Place(a, m, |answers| + 1, 0, [])) ==
      EntriesAt(config, plan, answers, Place(a, m, |answers|, 0, []))
      + [BypassEntry(plan.bypassOps[|answers|], more)]
  {
    hide StageEntry, BypassEntry, AddressEntries, MetricEntries;
    var i := |answers|;
    assert BypassEntries(plan.bypassOps[..i + 1], answers + [more]) ==
      BypassEntries(plan.bypassOps[..i], answers) + [BypassEntry(plan.bypassOps[i], more)];
  }

  lemma NextRoute(config: InterfaceConfig, plan: Plan, answers: seq<seq<RouteAnswer>>, a: nat, m: nat, b: nat, i: nat)
    requires a <= |config.addresses| && m <= |plan.metricOps| && b <= |plan.bypassOps| && b <= |answers|
    requires i < |plan.routeOps|
    ensures EntriesAt(config, plan, answers, Place(a, m, b, i + 1, [])) ==
      EntriesAt(config, plan, answers, Place(a, m, b, i, []))
      + [R.AppliedEntry(RouteItemId(plan.routeOps[i]), R.Route)]
  {
    hide StageEntry, R.AppliedEntry, RouteItemId, AddressEntries, MetricEntries, BypassEntries;
    MapNext((op: RouteOp) => R.AppliedEntry(RouteItemId(op), R.Route), plan.routeOps, i);
  }

  lemma NextStage(config: InterfaceConfig, plan: Plan, answers: seq<seq<RouteAnswer>>, p: Place, e: R.Entry)
    requires InRange(config, plan, answers, p)
    ensures EntriesAt(config, plan, answers, p.(stages := p.stages + [e])) ==
      EntriesAt(config, plan, answers, p) + [e]
  {
    hide StageEntry, AddressEntries, MetricEntries, BypassEntries, RouteOpEntries;
  }

  // ---------------------------------------------------------------- entries of a failure

  /** The failed entry, then everything from the given operations on and the named stages as skipped. */
  function Tail(plan: Plan, id: string, kind: R.Kind, failure: R.FailureKind, m: nat, b: nat, r: nat, dns: bool,
                nrpt: bool, dnsGuard: bool): seq<R.Entry>
    requires m <= |plan.metricOps| && b <= |plan.bypassOps| && r <= |plan.routeOps|
  {
    [R.FailedEntry(id, kind, Some(failure))] + RemainingOps(plan, m, b, r) + RemainingStages(false, dns, nrpt, dnsGuard)
  }

  function StageTail(plan: Plan, stage: Stage, m: nat, b: nat, r: nat, dns: bool, nrpt: bool, dnsGuard: bool)
    : seq<R.Entry>
    requires m <= |plan.metricOps| && b <= |plan.bypassOps| && r <= |plan.routeOps|
  {
    Tail(plan, stage.Id(), stage.Kind(), stage.Failure(), m, b, r, dns, nrpt, dnsGuard)
  }

  predicate IsGuardStage(stage: Stage) {
    stage.DnsStage? || stage.NrptStage? || stage.DnsGuardStage?
  }

  predicate PointInRange(config: InterfaceConfig, plan: Plan, at: FailurePoint) {
    match at
    case AtAddress(i) => i < |config.addresses|
    case AtMetric(i) => i < |plan.metricOps|
    case MetricNotJournaled(i) => i < |plan.metricOps|
    case Unresolved(i) => i < |plan.bypassOps|
    case AtBypass(i) => i < |plan.bypassOps|
    case BypassNotJournaled(i) => i < |plan.bypassOps|
    case AtRoute(i) => i < |plan.routeOps|
    case RouteNotJournaled(i) => i < |plan.routeOps|
    case AtStage(stage) => IsGuardStage(stage)
    case StageNotJournaled(stage) => IsGuardStage(stage)
    case NotMarkedRunning => true
  }

  /** What is reported from the failure on: the failure itself, and all that was not reached. */
  function TailOf(config: InterfaceConfig, plan: Plan, at: FailurePoint): seq<R.Entry>
    requires PointInRange(config, plan, at)
  {
    var (m, b, r) := (|plan.metricOps|, |plan.bypassOps|, |plan.routeOps|);
    match at
    case AtAddress(i) =>
      Tail(plan, AddressId(config.addresses[i]), R.Address, R.System, 0, 0, 0, true, true, true)
    case AtMetric(i) =>
      Tail(plan, MetricItemId(plan.metricOps[i]), R.Metric, R.System, i + 1, 0, 0, true, true, true)
    case MetricNotJournaled(i) => StageTail(plan, JournalStage, i + 1, 0, 0, true, true, true)
    case Unresolved(i) =>
      SkippedOf(R.BypassIds(plan.bypassOps)[..i], R.BypassRoute)
      + Tail(plan, BypassItemId(plan.bypassOps[i]), R.BypassRoute, R.Lookup, m, i + 1, 0, true, true, true)
    case AtBypass(i) =>
      Tail(plan, BypassItemId(plan.bypassOps[i]), R.BypassRoute, R.System, m, i + 1, 0, true, true, true)
    case BypassNotJournaled(i) => StageTail(plan, JournalStage, m, i + 1, 0, true, true, true)
    case AtRoute(i) =>
      Tail(plan, RouteItemId(plan.routeOps[i]), R.Route, R.System, m, b, i + 1, true, true, true)
    case RouteNotJournaled(i) => StageTail(plan, JournalStage, m, b, i + 1, true, true, true)
    case AtStage(stage) => StageTail(plan, stage, m, b, r, false, stage.DnsStage?, !stage.DnsGuardStage?)
    case StageNotJournaled(stage) =>
      StageTail(plan, JournalStage, m, b, r, false, stage.DnsStage?, !stage.DnsGuardStage?)
    case NotMarkedRunning => StageTail(plan, JournalStage, m, b, r, false, false, false)
  }

  /** The report of a run that ends before anything of the plan was tried. */
  function EarlyEntries(plan: Plan, stage: Stage): seq<R.Entry> {
    (if stage.LookupStage? then [] else [StageEntry(LookupStage, false)])
    + [R.FailedEntry(stage.Id(), stage.Kind(), Some(stage.Failure()))]
    + RemainingOps(plan, 0, 0, 0) + RemainingStages(true, true, true, true)
  }
}
