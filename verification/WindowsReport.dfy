/** The report side of a failed apply: one failed entry, then everything that was not reached. */
module WindowsReport {
  import opened Common
  import opened RoutePlan
  import opened ApplyReport

  function SkippedOf(ids: seq<string>, kind: Kind): (r: seq<Entry>)
    ensures |r| == |ids|
  {
    Map(id => SkippedEntry(id, kind), ids)
  }

  /** Entries of the operations from the given positions on. */
  function RemainingOps(plan: Plan, metricFrom: nat, bypassFrom: nat, routeFrom: nat): seq<Entry>
    requires metricFrom <= |plan.metricOps| && bypassFrom <= |plan.bypassOps| && routeFrom <= |plan.routeOps|
  {
    SkippedOf(MetricIds(plan.metricOps)[metricFrom..], Metric)
    + SkippedOf(BypassIds(plan.bypassOps)[bypassFrom..], BypassRoute)
    + SkippedOf(RouteIds(plan.routeOps)[routeFrom..], Route)
  }

  function RemainingStages(addresses: bool, dns: bool, nrpt: bool, dnsGuard: bool): seq<Entry> {
    (if addresses then [SkippedEntry("apply:addresses", Address)] else [])
    + (if dns then [SkippedEntry("apply:dns", Dns)] else [])
    + (if nrpt then [SkippedEntry("apply:nrpt", Nrpt)] else [])
    + (if dnsGuard then [SkippedEntry("apply:dns_guard", DnsGuard)] else [])
  }

  lemma SkippedOfAppend(ids: seq<string>, id: string, kind: Kind)
    ensures SkippedOf(ids + [id], kind) == SkippedOf(ids, kind) + [SkippedEntry(id, kind)]
  {
  }

  method SkipIds(report: RouteApplyReport, ids: seq<string>, kind: Kind)
    modifies report`entries
    ensures report.entries == old(report.entries) + SkippedOf(ids, kind)
  {
    for i := 0 to |ids|
      invariant report.entries == old(report.entries) + SkippedOf(ids[..i], kind)
    {
      assert ids[..i + 1] == ids[..i] + [ids[i]];
      SkippedOfAppend(ids[..i], ids[i], kind);
      report.PushSkipped(ids[i], kind);
    }
    assert ids[..|ids|] == ids;
  }

  method SkipRemainingRoutePlanOps(report: RouteApplyReport, plan: Plan, metricFrom: nat, bypassFrom: nat,
                                   routeFrom: nat)
    requires metricFrom <= |plan.metricOps| && bypassFrom <= |plan.bypassOps| && routeFrom <= |plan.routeOps|
    modifies report`entries
    ensures report.entries == old(report.entries) + RemainingOps(plan, metricFrom, bypassFrom, routeFrom)
  {
    hide IdsOf, InferKind, InferPhase, InferFailureKind, SkippedOf;
    ghost var before := report.entries;
    var metrics, bypasses, routes :=
      MetricIds(plan.metricOps)[metricFrom..], BypassIds(plan.bypassOps)[bypassFrom..],
          RouteIds(plan.routeOps)[routeFrom..];
    SkipIds(report, metrics, Metric);
    SkipIds(report, bypasses, BypassRoute);
    SkipIds(report, routes, Route);
    assert before + (SkippedOf(metrics, Metric) + SkippedOf(bypasses, BypassRoute) + SkippedOf(routes, Route))
        == before + SkippedOf(metrics, Metric) + SkippedOf(bypasses, BypassRoute) + SkippedOf(routes, Route);
  }

  method SkipRemainingWindowsStages(report: RouteApplyReport, addresses: bool, dns: bool, nrpt: bool, dnsGuard: bool)
    modifies report`entries
    ensures report.entries == old(report.entries) + RemainingStages(addresses, dns, nrpt, dnsGuard)
  {
    hide IdsOf, InferKind, InferPhase, InferFailureKind;
    if addresses {
      report.PushSkipped("apply:addresses", Address);
    }
    if dns {
      report.PushSkipped("apply:dns", Dns);
    }
    if nrpt {
      report.PushSkipped("apply:nrpt", Nrpt);
    }
    if dnsGuard {
      report.PushSkipped("apply:dns_guard", DnsGuard);
    }
  }

  // ---------------------------------------------------------------- accounting

  /** Nothing has failed, and the first operations of each kind have their entries, in plan order. */
  ghost predicate Progress(entries: seq<Entry>, plan: Plan, metrics: nat, bypasses: nat, routes: nat) {
    && metrics <= |plan.metricOps| && bypasses <= |plan.bypassOps| && routes <= |plan.routeOps|
    && NoneFailed(entries)
    && IdsOf(entries, Metric) == MetricIds(plan.metricOps)[..metrics]
    && IdsOf(entries, BypassRoute) == BypassIds(plan.bypassOps)[..bypasses]
    && IdsOf(entries, Route) == RouteIds(plan.routeOps)[..routes]
  }

  lemma {:induction false} IdsOfSkipped(ids: seq<string>, kind: Kind, wanted: Kind)
    requires forall id :: id in ids ==> KindOr(id, kind) == kind
    ensures IdsOf(SkippedOf(ids, kind), wanted) == if wanted == kind then ids else []
    ensures AllSkipped(SkippedOf(ids, kind))
  {
    hide InferKind, InferPhase, InferFailureKind;
    if |ids| > 0 {
      var init, last := ids[..|ids| - 1], ids[|ids| - 1];
      assert ids == init + [last];
      SkippedOfAppend(init, last, kind);
      IdsOfSkipped(init, kind, wanted);
      IdsOfPush(SkippedOf(init, kind), SkippedEntry(last, kind), wanted);
    }
  }

  lemma PlannedKinds(plan: Plan)
    ensures forall id :: id in MetricIds(plan.metricOps) ==> KindOr(id, Metric) == Metric
    ensures forall id :: id in BypassIds(plan.bypassOps) ==> KindOr(id, BypassRoute) == BypassRoute
    ensures forall id :: id in RouteIds(plan.routeOps) ==> KindOr(id, Route) == Route
  {
    var m, b, r := MetricOp(Ipv4, 0), BypassOp(Config.Host("", None), 0), RouteOp(Cidr(V4(""), 0), None, Allowed);
    forall i | 0 <= i < |plan.metricOps| ensures InferKind(MetricIds(plan.metricOps)[i]) == Some(Metric) {
      PlannedIdsCarryTheirKind(plan.metricOps[i], b, r);
    }
    forall i | 0 <= i < |plan.bypassOps| ensures InferKind(BypassIds(plan.bypassOps)[i]) == Some(BypassRoute) {
      PlannedIdsCarryTheirKind(m, plan.bypassOps[i], r);
    }
    forall i | 0 <= i < |plan.routeOps| ensures InferKind(RouteIds(plan.routeOps)[i]) == Some(Route) {
      PlannedIdsCarryTheirKind(m, b, plan.routeOps[i]);
    }
  }

  lemma RemainingOpsIds(plan: Plan, metricFrom: nat, bypassFrom: nat, routeFrom: nat)
    requires metricFrom <= |plan.metricOps| && bypassFrom <= |plan.bypassOps| && routeFrom <= |plan.routeOps|
    ensures var s := RemainingOps(plan, metricFrom, bypassFrom, routeFrom);
      && AllSkipped(s)
      && IdsOf(s, Metric) == MetricIds(plan.metricOps)[metricFrom..]
      && IdsOf(s, BypassRoute) == BypassIds(plan.bypassOps)[bypassFrom..]
      && IdsOf(s, Route) == RouteIds(plan.routeOps)[routeFrom..]
  {
    hide IdsOf, InferKind, InferPhase, InferFailureKind;
    PlannedKinds(plan);
    var ms, bs, rs := MetricIds(plan.metricOps)[metricFrom..], BypassIds(plan.bypassOps)[bypassFrom..],
                      RouteIds(plan.routeOps)[routeFrom..];
    RemainingIds(ms, bs, rs, Metric);
    RemainingIds(ms, bs, rs, BypassRoute);
    RemainingIds(ms, bs, rs, Route);
  }

  lemma RemainingIds(ms: seq<string>, bs: seq<string>, rs: seq<string>, wanted: Kind)
    requires forall id :: id in ms ==> KindOr(id, Metric) == Metric
    requires forall id :: id in bs ==> KindOr(id, BypassRoute) == BypassRoute
    requires forall id :: id in rs ==> KindOr(id, Route) == Route
    ensures var s := SkippedOf(ms, Metric) + SkippedOf(bs, BypassRoute) + SkippedOf(rs, Route);
      && AllSkipped(s)
      && IdsOf(s, wanted) == match wanted
                             case Metric => ms
                             case BypassRoute => bs
                             case Route => rs
                             case _ => []
  {
    hide IdsOf, InferKind, InferPhase, InferFailureKind;
    var m, b, r := SkippedOf(ms, Metric), SkippedOf(bs, BypassRoute), SkippedOf(rs, Route);
    IdsOfSkipped(ms, Metric, wanted);
    IdsOfSkipped(bs, BypassRoute, wanted);
    IdsOfSkipped(rs, Route, wanted);
    IdsOfAppend(m + b, r, wanted);
    IdsOfAppend(m, b, wanted);
  }

  lemma {:induction false} NoPlannedIds(entries: seq<Entry>, kind: Kind)
    requires PlannedKind(kind) && forall i :: 0 <= i < |entries| ==> !PlannedKind(entries[i].kind)
    ensures IdsOf(entries, kind) == []
  {
    if |entries| > 0 {
      NoPlannedIds(entries[..|entries| - 1], kind);
    }
  }

  lemma RemainingStagesIds(addresses: bool, dns: bool, nrpt: bool, dnsGuard: bool, kind: Kind)
    requires PlannedKind(kind)
    ensures AllSkipped(RemainingStages(addresses, dns, nrpt, dnsGuard))
    ensures IdsOf(RemainingStages(addresses, dns, nrpt, dnsGuard), kind) == []
  {
    hide IdsOf, InferKind, InferPhase, InferFailureKind;
    StageIdsAreNotPlanned("apply:addresses", Address);
    StageIdsAreNotPlanned("apply:dns", Dns);
    StageIdsAreNotPlanned("apply:nrpt", Nrpt);
    StageIdsAreNotPlanned("apply:dns_guard", DnsGuard);
    NoPlannedIds(RemainingStages(addresses, dns, nrpt, dnsGuard), kind);
  }

  /** One more entry that has not failed: the next operation of its kind, or a stage. */
  lemma ProgressPush(entries: seq<Entry>, e: Entry, plan: Plan, m: nat, b: nat, r: nat)
    requires Progress(entries, plan, m, b, r) && !e.status.Failed?
    requires InPlace(MetricIds(plan.metricOps), e.itemId, e.kind, m, Metric)
    requires InPlace(BypassIds(plan.bypassOps), e.itemId, e.kind, b, BypassRoute)
    requires InPlace(RouteIds(plan.routeOps), e.itemId, e.kind, r, Route)
    ensures Progress(entries + [e], plan, if e.kind == Metric then m + 1 else m,
                     if e.kind == BypassRoute then b + 1 else b, if e.kind == Route then r + 1 else r)
  {
    hide IdsOf, MetricIds, BypassIds, RouteIds;
    IdsOfPush(entries, e, Metric);
    IdsOfPush(entries, e, BypassRoute);
    IdsOfPush(entries, e, Route);
  }

  /** The first `n` bypass operations, skipped, are the first `n` bypass entries. */
  lemma ProgressSkip(entries: seq<Entry>, plan: Plan, m: nat, n: nat)
    requires Progress(entries, plan, m, 0, 0) && n <= |plan.bypassOps|
    ensures Progress(entries + SkippedOf(BypassIds(plan.bypassOps)[..n], BypassRoute), plan, m, n, 0)
  {
    hide IdsOf, InferKind, InferPhase, InferFailureKind, MetricIds, RouteIds;
    PlannedKinds(plan);
    var ids := BypassIds(plan.bypassOps)[..n];
    SkipAdds(entries, ids, Metric);
    SkipAdds(entries, ids, BypassRoute);
    SkipAdds(entries, ids, Route);
    var s := SkippedOf(ids, BypassRoute);
    assert NoneFailed(s);
  }

  lemma SkipAdds(entries: seq<Entry>, ids: seq<string>, k: Kind)
    requires forall id :: id in ids ==> KindOr(id, BypassRoute) == BypassRoute
    ensures IdsOf(entries + SkippedOf(ids, BypassRoute), k) == IdsOf(entries, k) + if k == BypassRoute then ids else []
    ensures AllSkipped(SkippedOf(ids, BypassRoute))
  {
    hide IdsOf, InferKind, InferPhase, InferFailureKind;
    IdsOfSkipped(ids, BypassRoute, k);
    IdsOfAppend(entries, SkippedOf(ids, BypassRoute), k);
  }

  lemma MetricOpId(plan: Plan, i: nat)
    requires i < |plan.metricOps|
    ensures var id := MetricItemId(plan.metricOps[i]);
      MetricIds(plan.metricOps)[i] == id && KindOr(id, Metric) == Metric
  {
    PlannedKinds(plan);
  }

  lemma BypassOpId(plan: Plan, i: nat)
    requires i < |plan.bypassOps|
    ensures var id := BypassItemId(plan.bypassOps[i]);
      BypassIds(plan.bypassOps)[i] == id && KindOr(id, BypassRoute) == BypassRoute
  {
    PlannedKinds(plan);
  }

  lemma RouteOpId(plan: Plan, i: nat)
    requires i < |plan.routeOps|
    ensures var id := RouteItemId(plan.routeOps[i]); RouteIds(plan.routeOps)[i] == id && KindOr(id, Route) == Route
  {
    PlannedKinds(plan);
  }

  /** An operation of the kind is the one at its place. */
  predicate InPlace(ids: seq<string>, id: string, failed: Kind, at: nat, k: Kind) {
    failed == k ==> at < |ids| && id == ids[at]
  }

  lemma FailsOnceThenSkips(before: seq<Entry>, failed: Entry, after: seq<Entry>)
    requires NoneFailed(before) && failed.status.Failed? && AllSkipped(after)
    ensures FailsOnce(before + [failed] + after)
  {
    var all := before + [failed] + after;
    assert all[..|before|] == before && all[|before|] == failed && all[|before| + 1..] == after;
  }

  /** What recording a failure adds for one kind: the failed operation, if it is of the kind, and the rest. */
  ghost predicate FailureAdds(before: seq<Entry>, after: seq<Entry>, ids: seq<string>, id: string, failed: Kind,
                              from: nat, k: Kind) {
    && from <= |ids|
    && IdsOf(after, k) == IdsOf(before, k) + (if failed == k then [id] else []) + ids[from..]
  }

  ghost predicate FailureRecorded(before: seq<Entry>, after: seq<Entry>, plan: Plan, id: string, failed: Kind,
                                  m: nat, b: nat, r: nat) {
    && FailureAdds(before, after, MetricIds(plan.metricOps), id, failed, m, Metric)
    && FailureAdds(before, after, BypassIds(plan.bypassOps), id, failed, b, BypassRoute)
    && FailureAdds(before, after, RouteIds(plan.routeOps), id, failed, r, Route)
  }

  lemma NoGap(before: seq<Entry>, after: seq<Entry>, ids: seq<string>, id: string, failed: Kind, at: nat, k: Kind)
    requires at <= |ids| && IdsOf(before, k) == ids[..at] && InPlace(ids, id, failed, at, k)
    requires FailureAdds(before, after, ids, id, failed, if failed == k then at + 1 else at, k)
    ensures IdsOf(after, k) == ids
  {
    hide IdsOf;
    if failed == k {
      assert ids[..at] + [ids[at]] + ids[at + 1..] == ids;
    } else {
      assert ids[..at] + [] + ids[at..] == ids;
    }
  }

  /** An operation that failed in its place, or a stage that failed between operations, leaves no gap. */
  lemma FailureAccounts(before: seq<Entry>, after: seq<Entry>, plan: Plan, id: string, failed: Kind,
                        m: nat, b: nat, r: nat)
    requires Progress(before, plan, m, b, r)
    requires InPlace(MetricIds(plan.metricOps), id, failed, m, Metric)
    requires InPlace(BypassIds(plan.bypassOps), id, failed, b, BypassRoute)
    requires InPlace(RouteIds(plan.routeOps), id, failed, r, Route)
    requires FailureRecorded(before, after, plan, id, failed, if failed == Metric then m + 1 else m,
                             if failed == BypassRoute then b + 1 else b, if failed == Route then r + 1 else r)
    ensures AccountsFor(after, plan)
  {
    hide IdsOf, NoneFailed, MetricIds, BypassIds, RouteIds;
    NoGap(before, after, MetricIds(plan.metricOps), id, failed, m, Metric);
    NoGap(before, after, BypassIds(plan.bypassOps), id, failed, b, BypassRoute);
    NoGap(before, after, RouteIds(plan.routeOps), id, failed, r, Route);
  }

  /** A journal failure inside a bypass operation: that operation has no entry. */
  lemma BypassFailureAccounts(before: seq<Entry>, after: seq<Entry>, plan: Plan, id: string, failed: Kind, m: nat,
                              b: nat)
    requires Progress(before, plan, m, b, 0) && m == |plan.metricOps| && b < |plan.bypassOps|
    requires !PlannedKind(failed) && FailureRecorded(before, after, plan, id, failed, m, b + 1, 0)
    ensures AccountsForAllBut(after, plan, b)
  {
    hide IdsOf, NoneFailed, MetricIds, BypassIds, RouteIds;
    NoGap(before, after, MetricIds(plan.metricOps), id, failed, m, Metric);
    NoGap(before, after, RouteIds(plan.routeOps), id, failed, 0, Route);
    var ids := BypassIds(plan.bypassOps);
    assert ids[..b] + [] + ids[b + 1..] == ids[..b] + ids[b + 1..];
  }

  lemma FailureIds(before: seq<Entry>, failed: Entry, plan: Plan, m: nat, b: nat, r: nat, stages: seq<Entry>)
    requires m <= |plan.metricOps| && b <= |plan.bypassOps| && r <= |plan.routeOps|
    requires IdsOf(stages, Metric) == [] && IdsOf(stages, BypassRoute) == [] && IdsOf(stages, Route) == []
    ensures FailureRecorded(before, before + [failed] + RemainingOps(plan, m, b, r) + stages, plan, failed.itemId,
                            failed.kind, m, b, r)
  {
    hide IdsOf, RemainingOps, MetricIds, BypassIds, RouteIds;
    RemainingOpsIds(plan, m, b, r);
    var ops := RemainingOps(plan, m, b, r);
    FailureIdsOfKind(before, failed, ops, stages, Metric);
    FailureIdsOfKind(before, failed, ops, stages, BypassRoute);
    FailureIdsOfKind(before, failed, ops, stages, Route);
  }

  lemma FailureIdsOfKind(before: seq<Entry>, failed: Entry, ops: seq<Entry>, stages: seq<Entry>, k: Kind)
    requires IdsOf(stages, k) == []
    ensures IdsOf(before + [failed] + ops + stages, k)
            == IdsOf(before, k) + (if failed.kind == k then [failed.itemId] else []) + IdsOf(ops, k)
  {
    hide IdsOf;
    IdsOfAppend(before + [failed] + ops, stages, k);
    IdsOfAppend(before + [failed], ops, k);
    IdsOfPush(before, failed, k);
  }

  /** Record the failure and skip the rest; the planned operations before the given positions had entries. */
  method FailStage(report: RouteApplyReport, plan: Plan, id: string, kind: Kind, failure: Option<FailureKind>,
                   metricFrom: nat, bypassFrom: nat, routeFrom: nat,
                   addresses: bool, dns: bool, nrpt: bool, dnsGuard: bool)
    requires metricFrom <= |plan.metricOps| && bypassFrom <= |plan.bypassOps| && routeFrom <= |plan.routeOps|
    requires NoneFailed(report.entries)
    modifies report`entries
    ensures report.entries == old(report.entries) + [FailedEntry(id, kind, failure)]
              + RemainingOps(plan, metricFrom, bypassFrom, routeFrom)
              + RemainingStages(addresses, dns, nrpt, dnsGuard)
    ensures FailsOnce(report.entries)
    ensures FailureRecorded(old(report.entries), report.entries, plan, id, KindOr(id, kind), metricFrom, bypassFrom,
        routeFrom)
  {
    hide IdsOf, InferKind, InferPhase, InferFailureKind, RemainingOps, RemainingStages, NoneFailed, AllSkipped,
        FailsOnce;
    ghost var before := report.entries;
    report.PushFailed(id, kind, failure);
    SkipRemainingRoutePlanOps(report, plan, metricFrom, bypassFrom, routeFrom);
    SkipRemainingWindowsStages(report, addresses, dns, nrpt, dnsGuard);
    ghost var failed := FailedEntry(id, kind, failure);
    ghost var ops, stages := RemainingOps(plan, metricFrom, bypassFrom, routeFrom),
                             RemainingStages(addresses, dns, nrpt, dnsGuard);
    RemainingStagesIds(addresses, dns, nrpt, dnsGuard, Metric);
    RemainingStagesIds(addresses, dns, nrpt, dnsGuard, BypassRoute);
    RemainingStagesIds(addresses, dns, nrpt, dnsGuard, Route);
    FailureIds(before, failed, plan, metricFrom, bypassFrom, routeFrom, stages);
    RemainingOpsIds(plan, metricFrom, bypassFrom, routeFrom);
    AllSkippedAppend(ops, stages);
    assert before + [failed] + ops + stages == before + [failed] + (ops + stages);
    FailsOnceThenSkips(before, failed, ops + stages);
  }

  lemma AllSkippedAppend(a: seq<Entry>, b: seq<Entry>)
    requires AllSkipped(a) && AllSkipped(b)
    ensures AllSkipped(a + b)
  {
  }

  /** A failure in its place: afterwards every planned operation has its entry. */
  method FailInPlace(report: RouteApplyReport, plan: Plan, id: string, kind: Kind, failure: Option<FailureKind>,
                     metricFrom: nat, bypassFrom: nat, routeFrom: nat,
                     addresses: bool, dns: bool, nrpt: bool, dnsGuard: bool, ghost m: nat, ghost b: nat, ghost r: nat)
    requires Progress(report.entries, plan, m, b, r)
    requires InPlace(MetricIds(plan.metricOps), id, KindOr(id, kind), m, Metric)
    requires InPlace(BypassIds(plan.bypassOps), id, KindOr(id, kind), b, BypassRoute)
    requires InPlace(RouteIds(plan.routeOps), id, KindOr(id, kind), r, Route)
    requires metricFrom == if KindOr(id, kind) == Metric then m + 1 else m
    requires bypassFrom == if KindOr(id, kind) == BypassRoute then b + 1 else b
    requires routeFrom == if KindOr(id, kind) == Route then r + 1 else r
    modifies report`entries
    ensures metricFrom <= |plan.metricOps| && bypassFrom <= |plan.bypassOps| && routeFrom <= |plan.routeOps|
    ensures report.entries == old(report.entries) + [FailedEntry(id, kind, failure)]
              + RemainingOps(plan, metricFrom, bypassFrom, routeFrom)
              + RemainingStages(addresses, dns, nrpt, dnsGuard)
    ensures FailsOnce(report.entries) && AccountsFor(report.entries, plan)
  {
    hide IdsOf, InferKind, FailsOnce, FailureRecorded, AccountsFor, RemainingOps, RemainingStages;
    ghost var before := report.entries;
    FailStage(report, plan, id, kind, failure, metricFrom, bypassFrom, routeFrom, addresses, dns, nrpt, dnsGuard);
    FailureAccounts(before, report.entries, plan, id, KindOr(id, kind), m, b, r);
  }
}
