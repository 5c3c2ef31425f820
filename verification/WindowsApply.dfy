/**
 * The staged apply of a network configuration.  Every stage keeps the machine, the in-memory state, the
 * journal on disk and the report in step, or ends the run in one of the ways `Exit` names.
 */
module WindowsApply {
  import opened Common
  import opened Config
  import opened UndoLog
  import opened WindowsModel
  import opened WindowsWorld
  import opened WindowsCleanup
  import opened WindowsSteps
  import opened RoutePlan
  import R = ApplyReport
  import opened WindowsReport
  import opened WindowsOutcome
  import D = WindowsDns

  /** How a run ends. */
  datatype Exit =
    | AdapterNotFound
    | JournalNotStarted
    | StaleAddressesRemain
    | AddressNotJournaled(index: nat)
    | RolledBack(at: FailurePoint)
    | Finished

  /** Link-local addresses: 169.254.0.0/16 and fe80::/10, on canonical text. */
  predicate IsLinkLocal(ip: IpAddr) {
    match ip
    case V4(t) => "169.254." <= t
    case V6(t) => |t| > 4 && t[0] == 'f' && t[1] == 'e' && t[2] in "89ab" && t[4] == ':'
  }

  /** The addresses that must go before an apply: not link-local, and not wanted. */
  predicate IsStale(a: Adapter, wanted: seq<Cidr>, row: AddressRow) {
    row.luid == a.luid && !IsLinkLocal(row.address.addr) && row.address !in wanted
  }

  function EntryOf(a: Adapter, op: RouteOp): RouteEntry {
    RouteEntry(op.route.addr, op.route.cidr, None, a.ifIndex, a.luid)
  }

  function EntriesOf(a: Adapter, ops: seq<RouteOp>): (r: seq<RouteEntry>)
    ensures |r| == |ops|
  {
    seq(|ops|, i requires 0 <= i < |ops| => EntryOf(a, ops[i]))
  }

  /** Every operation with the addresses found for it. */
  function LookupsOf(ops: seq<BypassOp>, resolved: seq<seq<IpAddr>>): (r: seq<Lookup>)
    requires |ops| == |resolved|
    ensures |r| == |ops| && forall i :: 0 <= i < |ops| ==> r[i] == Lookup(ops[i], resolved[i])
  {
    seq(|ops|, i requires 0 <= i < |ops| => Lookup(ops[i], resolved[i]))
  }

  lemma NextLookup(ops: seq<BypassOp>, i: nat, resolved: seq<seq<IpAddr>>, ips: seq<IpAddr>)
    requires i < |ops| && |resolved| == i
    ensures LookupsOf(ops[..i + 1], resolved + [ips]) == LookupsOf(ops[..i], resolved) + [Lookup(ops[i], ips)]
  {
  }

  /** Read the metric, then set it; the previous value comes back for the undo log. */
  method SetInterfaceMetric(w: World, a: Adapter, f: Family, metric: nat) returns (previous: Option<MetricUndo>)
    modifies w`os, w`trace, w`undoFailures, w`log
    ensures w.undoFailures == old(w.undoFailures) && w.log == old(w.log).Refuse(previous.None?)
    ensures w.trace == old(w.trace) || w.trace == old(w.trace) + [w.Here()]
    ensures previous.None? ==> w.os == old(w.os)
    ensures previous.Some? ==>
      var key := MetricKey(a.luid, f);
      && key in old(w.os.metrics) && previous.value == MetricUndo(f, old(w.os.metrics)[key])
      && w.os == old(w.os).(metrics := old(w.os.metrics)[key := Metric(false, metric)])
      && w.trace == old(w.trace) + [w.Here()]
  {
    var key := MetricKey(a.luid, f);
    var row := w.GetMetric(key, false);
    if row.None? {
      return None;
    }
    var ok := w.SetMetric(key, Metric(false, metric), false);
    return if ok then Some(MetricUndo(f, row.value)) else None;
  }

  lemma ProgressFacts(entries: seq<R.Entry>, plan: Plan, m: nat, b: nat, r: nat)
    requires Progress(entries, plan, m, b, r)
    ensures R.NoneFailed(entries) && m <= |plan.metricOps| && b <= |plan.bypassOps| && r <= |plan.routeOps|
  {
  }

  /** Clear rules of earlier runs of this adapter, then add the rule; no name coming back is a failure. */
  method ApplyNrptGuard(w: World, a: Adapter, servers: seq<IpAddr>) returns (ok: bool, nrpt: Option<NrptState>)
    modifies w`os, w`trace, w`undoFailures, w`log
    ensures w.os == old(w.os).(nrpt := w.os.nrpt) && NrptChange(a, old(w.os.nrpt), w.os.nrpt)
    ensures w.Extends(old(w.trace), old(w.Here())) && w.undoFailures == old(w.undoFailures)
    ensures w.log == old(w.log).Refuse(!ok)
    ensures OnlyNrptSince(a, old(w.Here()), w.trace, |old(w.trace)|)
    ensures ok ==> (nrpt.Some? <==> |servers| > 0)
    ensures nrpt.None? && ok ==> w.os == old(w.os)
    ensures ok && nrpt.Some? ==>
      RuleInPlace(nrpt, servers, w.os.nrpt) && NamesOwnRules(a, nrpt.value, w.os.nrpt)
  {
    if |servers| == 0 {
      return true, None;
    }
    var tag := NrptTag(a);
    var _ := w.RemoveRulesByTag(tag, false);
    var names := w.AddRule(tag, servers);
    if names.None? || |names.value| == 0 {
      return false, None;
    }
    nrpt := Some(NrptState(names.value, tag));
    assert RuleInPlace(nrpt, servers, w.os.nrpt) by {
      var r :| r in w.os.nrpt && r.name in names.value && r.comment == tag && r.servers == servers;
      assert NamesRule(nrpt, r);
    }
    return true, nrpt;
  }

  ghost predicate OnlyNrptSince(a: Adapter, before: Snapshot, trace: seq<Snapshot>, from: nat) {
    forall i :: from <= i < |trace| ==>
      && trace[i] == before.(os := before.os.(nrpt := trace[i].os.nrpt))
      && NrptChange(a, before.os.nrpt, trace[i].os.nrpt)
  }

  lemma NrptStretchIsSafe(a: Adapter, base: Os, l: Ledger, before: Snapshot, trace0: seq<Snapshot>,
                          trace: seq<Snapshot>)
    requires Safe(trace0, a, base) && trace0 <= trace && OnlyNrptSince(a, before, trace, |trace0|)
    requires AppliedOver(a, base, l, before.os, Idle, before.undoFailures) && l.nrpt.None?
    requires before.step.ApplyingNrpt? && before.journal.Some? && before.journal.value.adapter == a
    requires before.journal.value.ledger == l
    ensures Safe(trace, a, base)
  {
    hide AppliedOver, Covered;
    forall i | 0 <= i < |trace| ensures CrashSafe(a, base, trace[i]) {
      if i < |trace0| {
        assert trace[i] == trace0[i];
      } else {
        NrptInProgress(a, base, l, before.os, trace[i].os.nrpt, before.undoFailures);
      }
    }
  }

  lemma DnsStretchIsSafe(a: Adapter, base: Os, l: Ledger, before: Snapshot, trace0: seq<Snapshot>, trace: seq<Snapshot>)
    requires Safe(trace0, a, base) && trace0 <= trace
    requires D.OnlyDnsSince(before, trace, |trace0|, AdapterFields(a, before.os.dns))
    requires AppliedOver(a, base, l, before.os, Idle, before.undoFailures) && l.dns.None?
    requires before.step.ApplyingDns? && before.journal.Some? && before.journal.value.adapter == a
    requires before.journal.value.ledger == l
    ensures Safe(trace, a, base)
  {
    hide AppliedOver, Covered;
    forall i | 0 <= i < |trace| ensures CrashSafe(a, base, trace[i]) {
      if i < |trace0| {
        assert trace[i] == trace0[i];
      } else {
        DnsInProgress(a, base, l, before.os, trace[i].os.dns, before.undoFailures, trace[i].undoFailures);
      }
    }
  }

  /** A journaled state that its journal covers is safe to crash in. */
  lemma CoveredIsSafe(trace: seq<Snapshot>, s: Snapshot, a: Adapter, base: Os)
    requires Safe(trace, a, base) && !s.step.Preparing?
    requires s.journal.Some? && s.journal.value.adapter == a
    requires Covered(a, base, s.journal.value.ledger, s.os, s.step, s.undoFailures)
    ensures Safe(trace + [s], a, base)
  {
  }

  class ApplyContext {
    const w: World
    const tunName: string
    const config: InterfaceConfig
    const plan: Plan
    const adapter: Adapter
    const guard: RecoveryGuard
    const report: R.RouteApplyReport
    const fullV4: bool
    const fullV6: bool
    /** What has been applied. */
    var state: Ledger
    /** The machine as the first stage found it, stale addresses aside. */
    ghost var base: Os
    /** The addresses found for the first bypass operations. */
    ghost var resolved: seq<seq<IpAddr>>
    /** The routes asked for, and the same for each finished bypass operation. */
    ghost var asked: seq<RouteAnswer>
    ghost var answers: seq<seq<RouteAnswer>>
    /** The filters asked for. */
    ghost var guarded: seq<GuardAnswer>
    ghost const killSwitch: bool
    /** The saved report, and what had been asked of the system, before the run. */
    ghost const reportBefore: Option<SavedReport>
    ghost const lookupsBefore: seq<Lookup>
    ghost const answersBefore: seq<RouteAnswer>
    ghost const guardsBefore: seq<GuardAnswer>

    constructor (w: World, tunName: string, config: InterfaceConfig, plan: Plan, adapter: Adapter,
                 report: R.RouteApplyReport, guard: RecoveryGuard, ghost killSwitch: bool)
      ensures this.w == w && this.tunName == tunName && this.config == config && this.plan == plan
      ensures this.adapter == adapter && this.guard == guard && this.report == report && this.killSwitch == killSwitch
      ensures fullV4 == HasMetricFor(plan.metricOps, Ipv4) && fullV6 == HasMetricFor(plan.metricOps, Ipv6)
      ensures state == EMPTY_LEDGER && base == w.os && NothingAsked()
      ensures reportBefore == w.reportFile && lookupsBefore == w.lookups
      ensures answersBefore == w.routeAnswers && guardsBefore == w.guardAnswers
      ensures Consulted(w.lookups, w.routeAnswers, w.guardAnswers)
    {
      this.w, this.tunName, this.config, this.plan := w, tunName, config, plan;
      this.adapter, this.guard, this.report := adapter, guard, report;
      fullV4 := HasMetricFor(plan.metricOps, Ipv4);
      fullV6 := HasMetricFor(plan.metricOps, Ipv6);
      state := EMPTY_LEDGER;
      base := w.os;
      this.killSwitch := killSwitch;
      resolved, asked, answers, guarded := [], [], [], [];
      reportBefore, lookupsBefore, answersBefore, guardsBefore := w.reportFile, w.lookups, w.routeAnswers,
                                                                  w.guardAnswers;
    }

    // -------------------------------------------------------------- invariants

    ghost predicate NothingAsked()
      reads `resolved, `asked, `answers, `guarded
    {
      resolved == [] && asked == [] && answers == [] && guarded == []
    }

    /**
     * The bypass operations so far have been looked up, in order, and `resolved` is what was found; `asked` and
     * `guarded` are the routes and filters that the run has asked for.
     */
    ghost predicate Consulted(lookups: seq<Lookup>, routeAnswers: seq<RouteAnswer>, guardAnswers: seq<GuardAnswer>)
      reads `resolved, `asked, `guarded
    {
      && |resolved| <= |plan.bypassOps|
      && lookups == lookupsBefore + LookupsOf(plan.bypassOps[..|resolved|], resolved)
      && routeAnswers == answersBefore + asked
      && guardAnswers == guardsBefore + guarded
    }

    /** The saved report is this run's, or `left` where saving it failed. */
    ghost predicate ReportSavedOver(left: Option<SavedReport>)
      reads w, report
    {
      w.reportFile == Some(SavedReport(report.attemptState, report.entries)) || w.reportFile == left
    }

    /** The machine is the base with the state applied, and the journal says so. */
    ghost predicate Settled(phase: Phase)
      reads `state, `base, `resolved, `asked, `guarded, w, guard
    {
      && w.step.Idle?
      && guard.journal == Journal(phase, tunName, adapter, state)
      && w.journalFile == Some(guard.journal)
      && AppliedOver(adapter, base, state, w.os, Idle, w.undoFailures)
      && Safe(w.trace, adapter, base) && w.Recorded()
      && Consulted(w.lookups, w.routeAnswers, w.guardAnswers)
    }

    /** Nothing is applied, and the machine, with its stale addresses gone, is the base. */
    ghost predicate Ready()
      reads this, w, guard
    {
      && state == EMPTY_LEDGER && NothingAsked() && w.os == base
      && guard.journal == Journal(Applying, tunName, adapter, state) && w.journalFile == Some(guard.journal)
      && AppliedOver(adapter, base, state, w.os, Idle, w.undoFailures)
      && Safe(w.trace, adapter, base) && w.Recorded()
      && w.reportFile == reportBefore && Consulted(w.lookups, w.routeAnswers, w.guardAnswers)
    }

    lemma NothingApplied()
      requires Early(report, plan) && answers == []
      ensures Reported(InAddresses(0))
    {
      NoEntries(config, plan, answers);
      hide EntriesAt, StageEntry, Progress;
    }

    /** Between two steps. */
    ghost predicate Steady()
      reads `state, `base, `resolved, `asked, `guarded, w, guard
    {
      Settled(Applying) && w.reportFile == reportBefore
    }

    /** In the middle of a step that has failed: a rollback of the state is due. */
    ghost predicate Broken()
      reads this, w, guard
    {
      && guard.journal.ledger == state && guard.journal.adapter == adapter
      && AppliedOver(adapter, base, state, w.os, w.step, w.undoFailures)
      && JournalCovers(w, adapter, base, state) && w.Recorded()
      && w.reportFile == reportBefore
    }

    /** The report says, entry by entry, that the run has come to `p` without a failure. */
    ghost predicate Reported(p: Place)
      reads report, `answers
    {
      && Progress(report.entries, plan, p.metrics, p.bypasses, p.routes)
      && InRange(config, plan, answers, p) && report.entries == EntriesAt(config, plan, answers, p)
    }

    ghost function InAddresses(i: nat): Place {
      Place(i, 0, 0, 0, [])
    }

    ghost function InMetrics(i: nat): Place {
      Place(|config.addresses|, i, 0, 0, [])
    }

    ghost function InBypasses(i: nat): Place {
      Place(|config.addresses|, |plan.metricOps|, i, 0, [])
    }

    ghost function InRoutes(i: nat): Place {
      Place(|config.addresses|, |plan.metricOps|, |plan.bypassOps|, i, [])
    }

    ghost function AfterOps(stages: seq<R.Entry>): Place {
      Place(|config.addresses|, |plan.metricOps|, |plan.bypassOps|, |plan.routeOps|, stages)
    }

    /** The entries of the DNS stage, and of the two guards. */
    ghost function DnsEntries(): seq<R.Entry> {
      if WantsDns() then [StageEntry(DnsStage, false)] else []
    }

    ghost function GuardEntries(): seq<R.Entry> {
      if WantsGuards() then [StageEntry(NrptStage, !killSwitch), StageEntry(DnsGuardStage, !killSwitch)] else []
    }

    /** How far a run that failed at `at` had come. */
    ghost function PlaceOf(at: FailurePoint): Place {
      match at
      case AtAddress(i) => InAddresses(i)
      case AtMetric(i) => InMetrics(i)
      case MetricNotJournaled(i) => InMetrics(i + 1)
      case Unresolved(i) => InMetrics(|plan.metricOps|)
      case AtBypass(i) => InBypasses(i)
      case BypassNotJournaled(i) => InBypasses(i)
      case AtRoute(i) => InRoutes(i)
      case RouteNotJournaled(i) => InRoutes(i + 1)
      case AtStage(DnsGuardStage) => AfterOps(DnsEntries() + [StageEntry(NrptStage, false)])
      case AtStage(NrptStage) => AfterOps(DnsEntries())
      case AtStage(_) => AfterOps([])
      case StageNotJournaled(DnsGuardStage) =>
        AfterOps(DnsEntries() + [StageEntry(NrptStage, false), StageEntry(DnsGuardStage, false)])
      case StageNotJournaled(NrptStage) => AfterOps(DnsEntries() + [StageEntry(NrptStage, false)])
      case StageNotJournaled(_) => AfterOps(DnsEntries())
      case NotMarkedRunning => AfterOps(DnsEntries() + GuardEntries())
    }

    /** The whole report of such a run; a bypass that could not be journaled is the one operation without an entry. */
    ghost predicate ReportsFailure(at: FailurePoint)
      reads report, `answers
    {
      && PointInRange(config, plan, at) && InRange(config, plan, answers, PlaceOf(at))
      && report.entries == EntriesAt(config, plan, answers, PlaceOf(at)) + TailOf(config, plan, at)
      && R.FailsOnce(report.entries)
      && if at.BypassNotJournaled? then R.AccountsForAllBut(report.entries, plan, at.index)
         else R.AccountsFor(report.entries, plan)
    }

    ghost predicate ReportsUnjournaledAddress(i: nat)
      reads report, `answers
    {
      && i < |config.addresses|
      && report.entries == EntriesAt(config, plan, answers, InAddresses(i + 1))
                           + StageTail(plan, JournalStage, 0, 0, 0, true, true, true)
      && R.FailsOnce(report.entries) && R.AccountsFor(report.entries, plan)
    }

    /** The rows of the run are gone, the settings are back, and the journal is removed. */
    ghost predicate Restored()
      reads this, w
    {
      && w.journalFile == None
      && w.os.addresses == base.addresses - AddressRows(adapter, state.addresses)
      && w.os.routes == base.routes - RouteRows(state.bypassRoutes) - RouteRows(state.routes)
      && w.os.metrics == base.metrics && w.os.dns == base.dns && w.os.filters == base.filters
      && (forall r :: r in w.os.nrpt ==> r in base.nrpt || PendingRule(adapter, w.step, r))
      && KeepsForeignRules(adapter, base.nrpt, w.os.nrpt)
    }

    /** The one way out that rolls nothing back: the journal lists every address but, perhaps, the last. */
    ghost predicate LeftForRepair()
      reads this, w, guard
    {
      && w.step.AddingAddress?
      && AppliedOver(adapter, base, state, w.os, w.step, w.undoFailures)
      && state == EMPTY_LEDGER.(addresses := state.addresses) && |state.addresses| > 0
      && state.addresses[|state.addresses| - 1] == w.step.address
      && w.journalFile.Some? && w.journalFile.value.adapter == adapter
      && w.journalFile.value.ledger
         in [state, state.(addresses := state.addresses[..|state.addresses| - 1])]
    }

    /** The run has been rolled back: each item is undone whose own undo call did not fail. */
    ghost predicate Abandoned()
      reads this, w, report
    {
      && Safe(w.trace, adapter, base) && w.Recorded()
      && report.attemptState == R.AttemptState.Failed
      && UndoneOrStuck(adapter, state, w.os, w.log)
      && (w.undoFailures == 0 ==> Restored() && ReportSavedOver(None))
      && (ReportSavedOver(None) || ReportSavedOver(reportBefore))
    }

    /** What holds of a run that a stage has ended. */
    ghost predicate Ended(exit: Exit)
      reads this, w, guard, report
    {
      match exit
      case RolledBack(at) => Abandoned() && ReportsFailure(at)
      case AddressNotJournaled(i) =>
        && Safe(w.trace, adapter, base) && w.Recorded()
        && report.attemptState == R.AttemptState.Failed && ReportSavedOver(reportBefore)
        && LeftForRepair() && ReportsUnjournaledAddress(i)
      case _ => false
    }

    // -------------------------------------------------------------- one step

    /** The call that a step began with has changed nothing. */
    lemma CallFailed(trace0: seq<Snapshot>)
      requires !w.step.Preparing? && guard.journal == Journal(Applying, tunName, adapter, state)
      requires w.journalFile == Some(guard.journal) && w.reportFile == reportBefore
      requires AppliedOver(adapter, base, state, w.os, Idle, w.undoFailures)
      requires Safe(trace0, adapter, base) && (w.trace == trace0 || w.trace == trace0 + [w.Here()]) && w.Recorded()
      ensures Broken()
    {
      hide AppliedOver, Covered, ListsAllBut, Safe;
      NothingHappened(adapter, base, state, w.os, w.step, w.undoFailures);
      CoveredIsSafe(trace0, w.Here(), adapter, base);
    }

    /** The item is on the machine, and `l` remembers it; the journal does not list it yet. */
    lemma ItemApplied(trace0: seq<Snapshot>, l: Ledger)
      requires !w.step.Preparing? && guard.journal.adapter == adapter && w.journalFile == Some(guard.journal)
      requires Stepped(adapter, base, guard.journal.ledger, l, w.os, w.step, w.undoFailures)
      requires Safe(trace0, adapter, base) && w.trace == trace0 + [w.Here()]
      ensures Safe(w.trace, adapter, base)
    {
      hide AppliedOver, Covered, ListsAllBut, Safe;
      CoveredIsSafe(trace0, w.Here(), adapter, base);
    }

    /** The journal has been written with the item, or the write has failed and left it as it was. */
    lemma ItemJournaled(trace1: seq<Snapshot>, listed: Journal)
      requires !w.step.Preparing? && guard.journal == Journal(Applying, tunName, adapter, state)
      requires listed.adapter == adapter && w.journalFile in [Some(guard.journal), Some(listed)]
      requires Stepped(adapter, base, listed.ledger, state, w.os, w.step, w.undoFailures)
      requires Safe(trace1, adapter, base) && w.trace == trace1 + [w.Here()] && w.reportFile == reportBefore
      ensures Safe(w.trace, adapter, base) && Broken()
      ensures AppliedOver(adapter, base, state, w.os, Idle, w.undoFailures)
      ensures AppliedOver(adapter, base, state, w.os, w.step, w.undoFailures)
    {
      hide AppliedOver, Covered, ListsAllBut, Safe;
      CoveredIsSafe(trace1, w.Here(), adapter, base);
    }

    /** An item has been applied, and `l` is the state with it; nothing remembers it yet. */
    ghost predicate Applied(l: Ledger)
      reads `state, `base, `resolved, `asked, `guarded, w, guard
    {
      && !w.step.Preparing?
      && guard.journal == Journal(Applying, tunName, adapter, state) && w.journalFile == Some(guard.journal)
      && Stepped(adapter, base, state, l, w.os, w.step, w.undoFailures)
      && Safe(w.trace, adapter, base) && w.reportFile == reportBefore
      && Consulted(w.lookups, w.routeAnswers, w.guardAnswers)
    }

    // -------------------------------------------------------------- ways out

    /** Roll back, then save the failed report as well as that works. */
    method AbortWithCleanup()
      requires Broken()
      modifies w, guard, report`attemptState
      ensures w.step == old(w.step) && Abandoned()
      ensures old(w.trace) <= w.trace && old(w.log).Grows(w.log)
    {
      hide AppliedOver, JournalCovers, Safe, Rollback, AddressRows, RouteRows, PendingRule, KeepsForeignRules;
      hide UndoneOrStuck;
      ghost var os0, step := w.os, w.step;
      var _ := CleanupNetworkConfig(w, adapter, state, guard, base);
      if w.undoFailures == 0 {
        RollbackRestoresBase(adapter, base, state, os0, step);
      }
      AbortWithReport(w, report);
    }

    /** An operation or its journal entry failed before the DNS stage: report it in its place, and roll back. */
    method AbortAt(id: string, kind: R.Kind, failure: R.FailureKind, metricFrom: nat, bypassFrom: nat, routeFrom: nat,
                   ghost m: nat, ghost b: nat, ghost r: nat)
      requires Broken() && Progress(report.entries, plan, m, b, r)
      requires InPlace(R.MetricIds(plan.metricOps), id, R.KindOr(id, kind), m, R.Metric)
      requires InPlace(R.BypassIds(plan.bypassOps), id, R.KindOr(id, kind), b, R.BypassRoute)
      requires InPlace(R.RouteIds(plan.routeOps), id, R.KindOr(id, kind), r, R.Route)
      requires metricFrom == if R.KindOr(id, kind) == R.Metric then m + 1 else m
      requires bypassFrom == if R.KindOr(id, kind) == R.BypassRoute then b + 1 else b
      requires routeFrom == if R.KindOr(id, kind) == R.Route then r + 1 else r
      modifies w, guard, report
      ensures metricFrom <= |plan.metricOps| && bypassFrom <= |plan.bypassOps| && routeFrom <= |plan.routeOps|
      ensures Abandoned() && R.FailsOnce(report.entries) && R.AccountsFor(report.entries, plan)
      ensures report.entries == old(report.entries)
                + Tail(plan, id, kind, failure, metricFrom, bypassFrom, routeFrom, true, true, true)
      ensures old(w.trace) <= w.trace && old(w.log).Grows(w.log)
    {
      hide Broken, R.FailsOnce, R.AccountsFor, Progress, InPlace, Abandoned, RemainingOps, RemainingStages;
      hide R.FailedEntry;
      FailInPlace(report, plan, id, kind, Some(failure), metricFrom, bypassFrom, routeFrom, false, true, true, true,
          m, b, r);
      TailInOrder(old(report.entries), id, kind, failure, metricFrom, bypassFrom, routeFrom, true, true, true);
      AbortWithCleanup();
    }

    lemma TailInOrder(before: seq<R.Entry>, id: string, kind: R.Kind, failure: R.FailureKind, m: nat, b: nat, r: nat,
                      dns: bool, nrpt: bool, dnsGuard: bool)
      requires m <= |plan.metricOps| && b <= |plan.bypassOps| && r <= |plan.routeOps|
      ensures before + [R.FailedEntry(id, kind, Some(failure))] + RemainingOps(plan, m, b, r)
              + RemainingStages(false, dns, nrpt, dnsGuard) ==
        before + Tail(plan, id, kind, failure, m, b, r, dns, nrpt, dnsGuard)
    {
      hide RemainingOps, RemainingStages, R.FailedEntry;
    }

    /** The journal could not be written between two operations: roll back. */
    method AbortUnjournaled(m: nat, b: nat, r: nat, ghost at: FailurePoint)
      requires Broken() && PointInRange(config, plan, at) && Reported(PlaceOf(at))
      requires PlaceOf(at).metrics == m && PlaceOf(at).bypasses == b && PlaceOf(at).routes == r
      requires TailOf(config, plan, at) == StageTail(plan, JournalStage, m, b, r, true, true, true)
      requires !at.BypassNotJournaled?
      modifies w, guard, report
      ensures Ended(RolledBack(at)) && old(w.trace) <= w.trace && old(w.log).Grows(w.log)
    {
      hide Broken, Progress, Abandoned, Stage.Id, Stage.Kind, R.KindOr, EntriesAt, TailOf, Tail, PlaceOf;
      var stage := JournalStage;
      stage.IsNotPlanned();
      AbortAt(stage.Id(), stage.Kind(), stage.Failure(), m, b, r, m, b, r);
    }

    method AbortUnjournaledMetric(index: nat)
      requires Broken() && index < |plan.metricOps| && Reported(InMetrics(index + 1))
      modifies w, guard, report
      ensures Ended(RolledBack(MetricNotJournaled(index))) && old(w.trace) <= w.trace && old(w.log).Grows(w.log)
    {
      hide Broken, Reported, Ended, Tail, Stage.Id;
      AbortUnjournaled(index + 1, 0, 0, MetricNotJournaled(index));
    }

    method AbortUnjournaledRoute(index: nat)
      requires Broken() && index < |plan.routeOps| && Reported(InRoutes(index + 1))
      modifies w, guard, report
      ensures Ended(RolledBack(RouteNotJournaled(index))) && old(w.trace) <= w.trace && old(w.log).Grows(w.log)
    {
      hide Broken, Reported, Ended, Tail, Stage.Id;
      AbortUnjournaled(|plan.metricOps|, |plan.bypassOps|, index + 1, RouteNotJournaled(index));
    }

    method AbortAtMetric(index: nat)
      requires Broken() && index < |plan.metricOps| && Reported(InMetrics(index))
      modifies w, guard, report
      ensures Ended(RolledBack(AtMetric(index))) && old(w.trace) <= w.trace && old(w.log).Grows(w.log)
    {
      hide Broken, Progress, Abandoned, R.KindOr, R.MetricIds, EntriesAt, Tail;
      MetricOpId(plan, index);
      AbortAt(MetricItemId(plan.metricOps[index]), R.Metric, R.System, index + 1, 0, 0, index, 0, 0);
    }

    method PushMetric(index: nat)
      requires index < |plan.metricOps| && Reported(InMetrics(index))
      modifies report`entries
      ensures Reported(InMetrics(index + 1))
    {
      hide Progress, R.KindOr, R.MetricIds, R.InferPhase, EntriesAt;
      ghost var before := report.entries;
      var id := MetricItemId(plan.metricOps[index]);
      MetricOpId(plan, index);
      report.PushApplied(id, R.Metric);
      ProgressPush(before, R.AppliedEntry(id, R.Metric), plan, index, 0, 0);
      NextMetric(config, plan, answers, |config.addresses|, index);
    }

    method AbortAtBypass(index: nat)
      requires Broken() && index < |plan.bypassOps| && Reported(InBypasses(index))
      modifies w, guard, report
      ensures Ended(RolledBack(AtBypass(index))) && old(w.trace) <= w.trace && old(w.log).Grows(w.log)
    {
      hide Broken, Progress, Abandoned, R.KindOr, R.BypassIds, EntriesAt, Tail;
      var metricCount := |plan.metricOps|;
      BypassOpId(plan, index);
      AbortAt(BypassItemId(plan.bypassOps[index]), R.BypassRoute, R.System, metricCount, index + 1, 0, metricCount,
              index, 0);
    }

    /** The entry of a bypass operation for which `more` was answered. */
    method PushBypass(index: nat, skipped: bool, ghost more: seq<RouteAnswer>)
      requires index == |answers| < |plan.bypassOps| && Reported(InBypasses(index))
      requires skipped <==> Found(more) == []
      modifies report`entries, `answers
      ensures answers == old(answers) + [more] && Reported(InBypasses(index + 1))
    {
      hide Progress, R.KindOr, R.BypassIds, R.InferPhase, EntriesAt;
      ghost var before := report.entries;
      var id := BypassItemId(plan.bypassOps[index]);
      BypassOpId(plan, index);
      if skipped {
        report.PushSkipped(id, R.BypassRoute);
      } else {
        report.PushApplied(id, R.BypassRoute);
      }
      ProgressPush(before, report.entries[|before|], plan, |plan.metricOps|, index, 0);
      NextBypass(config, plan, answers, more, |config.addresses|, |plan.metricOps|);
      answers := answers + [more];
    }

    method AbortAtRoute(index: nat)
      requires Broken() && index < |plan.routeOps| && Reported(InRoutes(index))
      modifies w, guard, report
      ensures Ended(RolledBack(AtRoute(index))) && old(w.trace) <= w.trace && old(w.log).Grows(w.log)
    {
      hide Broken, Progress, Abandoned, R.KindOr, R.RouteIds, EntriesAt, Tail;
      var metricCount, bypassCount := |plan.metricOps|, |plan.bypassOps|;
      RouteOpId(plan, index);
      AbortAt(RouteItemId(plan.routeOps[index]), R.Route, R.System, metricCount, bypassCount, index + 1, metricCount,
              bypassCount, index);
    }

    method PushRoute(index: nat)
      requires index < |plan.routeOps| && Reported(InRoutes(index))
      modifies report`entries
      ensures Reported(InRoutes(index + 1))
    {
      hide Progress, R.KindOr, R.RouteIds, R.InferPhase, EntriesAt;
      ghost var before := report.entries;
      var id := RouteItemId(plan.routeOps[index]);
      RouteOpId(plan, index);
      report.PushApplied(id, R.Route);
      ProgressPush(before, R.AppliedEntry(id, R.Route), plan, |plan.metricOps|, |plan.bypassOps|, index);
      NextRoute(config, plan, answers, |config.addresses|, |plan.metricOps|, |plan.bypassOps|, index);
    }

    // -------------------------------------------------------------- addresses

    /** The one way out that only reports: the address is applied, and the journal may not list it. */
    method AbortUnjournaledAddress(index: nat)
      requires index < |config.addresses| && Reported(InAddresses(index + 1))
      requires Safe(w.trace, adapter, base) && w.Recorded() && LeftForRepair() && w.reportFile == reportBefore
      modifies w`reportFile, report
      ensures Ended(AddressNotJournaled(index))
    {
      hide AppliedOver, Safe, R.KindOr, R.FailsOnce, R.AccountsFor, Progress, EntriesAt, Stage.Id, RemainingOps;
      hide RemainingStages, R.FailedEntry;
      var stage := JournalStage;
      ghost var before := report.entries;
      stage.IsNotPlanned();
      FailInPlace(report, plan, stage.Id(), stage.Kind(), Some(stage.Failure()), 0, 0, 0,
                  false, true, true, true, 0, 0, 0);
      TailInOrder(before, stage.Id(), stage.Kind(), stage.Failure(), 0, 0, 0, true, true, true);
      AbortWithReport(w, report);
    }

    method AbortAtAddress(index: nat)
      requires Broken() && index < |config.addresses| && Reported(InAddresses(index))
      modifies w, guard, report
      ensures Ended(RolledBack(AtAddress(index))) && old(w.trace) <= w.trace && old(w.log).Grows(w.log)
    {
      hide Broken, Progress, Abandoned, R.KindOr, RouteText, EntriesAt, Tail;
      var id := "apply:address:" + RouteText(config.addresses[index]);
      R.StageIdsAreNotPlanned(id, R.Address);
      AbortAt(id, R.Address, R.System, 0, 0, 0, 0, 0, 0);
    }

    method PushAddress(index: nat)
      requires index < |config.addresses| && Reported(InAddresses(index))
      modifies report`entries
      ensures Reported(InAddresses(index + 1))
    {
      hide Progress, R.KindOr, R.InferPhase, RouteText, EntriesAt;
      ghost var before := report.entries;
      var id := "apply:address:" + RouteText(config.addresses[index]);
      R.StageIdsAreNotPlanned(id, R.Address);
      report.PushApplied(id, R.Address);
      ProgressPush(before, R.AppliedEntry(id, R.Address), plan, 0, 0, 0);
      NextAddress(config, plan, answers, index);
    }

    method ApplyAddress(index: nat) returns (exit: Option<Exit>)
      requires Steady() && index < |config.addresses| && Reported(InAddresses(index))
      requires state == EMPTY_LEDGER.(addresses := state.addresses)
      modifies this`state, w, guard, report
      ensures exit.None? ==>
        var address := config.addresses[index];
        && Steady() && Reported(InAddresses(index + 1)) && w.log == old(w.log)
        && state == EMPTY_LEDGER.(addresses := old(state.addresses) + [address])
        && w.os == old(w.os).(addresses := old(w.os.addresses) + {ToAddressRow(adapter, address)})
      ensures exit.Some? ==> Ended(exit.value) && w.log.refused > old(w.log).refused
      ensures old(w.trace) <= w.trace
    {
      hide AppliedOver, Safe, Stepped, Reported, Broken, Ended, Restored, Consulted;
      hide Covered, ListsAllBut;
      ghost var os0, trace0 := w.os, w.trace;
      var address := config.addresses[index];
      w.step := AddingAddress(address);
      var ok := w.AddAddress(ToAddressRow(adapter, address));
      if !ok {
        CallFailed(trace0);
        AbortAtAddress(index);
        return Some(RolledBack(AtAddress(index)));
      }
      AddressStep(adapter, base, state, os0, address, w.undoFailures);
      ItemApplied(trace0, state.(addresses := state.addresses + [address]));
      exit := RememberAddress(index, address);
    }

    method RememberAddress(index: nat, address: Cidr) returns (exit: Option<Exit>)
      requires Applied(state.(addresses := state.addresses + [address])) && w.step == AddingAddress(address)
      requires index < |config.addresses| && Reported(InAddresses(index))
      requires state == EMPTY_LEDGER.(addresses := state.addresses)
      modifies `state, w, guard, report
      ensures exit.None? ==>
        && Steady() && Reported(InAddresses(index + 1)) && w.os == old(w.os) && w.log == old(w.log)
        && state == old(state).(addresses := old(state.addresses) + [address])
      ensures exit.Some? ==> Ended(exit.value) && w.log.refused > old(w.log).refused
      ensures old(w.trace) <= w.trace
    {
      hide AppliedOver, Safe, Stepped, Reported, Broken, Ended, Restored, Consulted, Covered, ListsAllBut;
      ghost var trace1, listed := w.trace, guard.journal;
      state := state.(addresses := state.addresses + [address]);
      PushAddress(index);
      var ok := guard.RecordAddress(w, address);
      ItemJournaled(trace1, listed);
      if !ok {
        assert state.addresses[..|state.addresses| - 1] == listed.ledger.addresses;
        AbortUnjournaledAddress(index);
        return Some(AddressNotJournaled(index));
      }
      w.step := Idle;
      return None;
    }

    method ApplyAddresses() returns (exit: Option<Exit>)
      requires Steady() && Reported(InAddresses(0)) && state == EMPTY_LEDGER
      modifies this`state, w, guard, report
      ensures exit.None? ==>
        && Steady() && Reported(InMetrics(0)) && state == EMPTY_LEDGER.(addresses := config.addresses)
        && w.os == old(w.os).(addresses := w.os.addresses) && w.log == old(w.log)
      ensures exit.Some? ==> Ended(exit.value) && w.log.refused > old(w.log).refused
      ensures old(w.trace) <= w.trace
    {
      hide Settled, Reported, Ended;
      for i := 0 to |config.addresses|
        invariant Steady() && Reported(InAddresses(i)) && w.log == old(w.log)
        invariant old(w.trace) <= w.trace
        invariant state == EMPTY_LEDGER.(addresses := config.addresses[..i])
        invariant w.os == old(w.os).(addresses := w.os.addresses)
      {
        exit := ApplyAddress(i);
        if exit.Some? {
          return;
        }
      }
      return None;
    }

    // -------------------------------------------------------------- interface metrics

    method ApplyInterfaceMetric(index: nat) returns (exit: Option<Exit>)
      requires Steady() && index < |plan.metricOps| && Reported(InMetrics(index))
      modifies this`state, w, guard, report
      ensures exit.None? ==>
        var op, key := plan.metricOps[index], MetricKey(adapter.luid, plan.metricOps[index].family);
        && Steady() && Reported(InMetrics(index + 1)) && w.log == old(w.log)
        && key in old(w.os.metrics)
        && w.os == old(w.os).(metrics := old(w.os.metrics)[key := Metric(false, op.metric)])
        && state == old(state).(metrics := old(state.metrics) + [MetricUndo(op.family, old(w.os.metrics)[key])])
      ensures exit.Some? ==> Ended(exit.value) && w.log.refused > old(w.log).refused
      ensures old(w.trace) <= w.trace
    {
      hide AppliedOver, Safe, Stepped, Reported, Broken, Ended, Restored, LeftForRepair, Consulted;
      ghost var os0, trace0 := w.os, w.trace;
      var op := plan.metricOps[index];
      w.step := SettingMetric(op.family);
      var previous := SetInterfaceMetric(w, adapter, op.family, op.metric);
      if previous.None? {
        CallFailed(trace0);
        AbortAtMetric(index);
        return Some(RolledBack(AtMetric(index)));
      }
      MetricStep(adapter, base, state, os0, op.family, Metric(false, op.metric), w.undoFailures);
      ItemApplied(trace0, state.(metrics := state.metrics + [previous.value]));
      PushMetric(index);
      exit := RememberMetric(index, previous.value);
    }

    method RememberMetric(index: nat, previous: MetricUndo) returns (exit: Option<Exit>)
      requires Applied(state.(metrics := state.metrics + [previous]))
      requires index < |plan.metricOps| && Reported(InMetrics(index + 1))
      modifies `state, w, guard, report
      ensures exit.None? ==>
        && Steady() && Reported(InMetrics(index + 1)) && w.os == old(w.os) && w.log == old(w.log)
        && state == old(state).(metrics := old(state.metrics) + [previous])
      ensures exit.Some? ==> Ended(exit.value) && w.log.refused > old(w.log).refused
      ensures old(w.trace) <= w.trace
    {
      hide AppliedOver, Safe, Stepped, Reported, Broken, Ended, Restored, LeftForRepair, Consulted;
      ghost var trace1, listed := w.trace, guard.journal;
      state := state.(metrics := state.metrics + [previous]);
      var ok := guard.RecordMetric(w, previous);
      ItemJournaled(trace1, listed);
      if !ok {
        AbortUnjournaledMetric(index);
        return Some(RolledBack(MetricNotJournaled(index)));
      }
      w.step := Idle;
      return None;
    }

    predicate LastOfItsFamily(i: nat, n: nat)
      requires i < n <= |plan.metricOps|
    {
      forall j :: i < j < n ==> plan.metricOps[j].family != plan.metricOps[i].family
    }

    predicate MetricIs(metrics: map<MetricKey, Metric>, op: MetricOp) {
      var key := MetricKey(adapter.luid, op.family);
      key in metrics && metrics[key] == Metric(false, op.metric)
    }

    /** Each family's metric is that of its last operation among the first `n`. */
    ghost predicate MetricsSet(metrics: map<MetricKey, Metric>, n: nat)
      requires n <= |plan.metricOps|
    {
      forall i :: 0 <= i < n && LastOfItsFamily(i, n) ==> MetricIs(metrics, plan.metricOps[i])
    }

    lemma NoMetricsSet(metrics: map<MetricKey, Metric>)
      ensures MetricsSet(metrics, 0)
    {
    }

    lemma MetricsSetNext(metrics: map<MetricKey, Metric>, n: nat)
      requires n < |plan.metricOps| && MetricsSet(metrics, n)
      ensures var op := plan.metricOps[n];
        MetricsSet(metrics[MetricKey(adapter.luid, op.family) := Metric(false, op.metric)], n + 1)
    {
      var op := plan.metricOps[n];
      var after := metrics[MetricKey(adapter.luid, op.family) := Metric(false, op.metric)];
      forall k | 0 <= k < n + 1 && LastOfItsFamily(k, n + 1)
        ensures MetricIs(after, plan.metricOps[k])
      {
        if k < n {
          assert LastOfItsFamily(k, n);
          assert MetricIs(metrics, plan.metricOps[k]);
          assert plan.metricOps[n].family != plan.metricOps[k].family;
        }
      }
    }

    method ApplyInterfaceMetrics() returns (exit: Option<Exit>)
      requires Steady() && Reported(InMetrics(0)) && state.metrics == []
      modifies this`state, w, guard, report
      ensures exit.None? ==>
        && Steady() && Reported(InMetrics(|plan.metricOps|)) && w.log == old(w.log)
        && state == old(state).(metrics := state.metrics) && |state.metrics| == |plan.metricOps|
        && (forall i :: 0 <= i < |state.metrics| ==> state.metrics[i].family == plan.metricOps[i].family)
        && MetricsSet(w.os.metrics, |plan.metricOps|) && w.os == old(w.os).(metrics := w.os.metrics)
      ensures exit.Some? ==> Ended(exit.value) && w.log.refused > old(w.log).refused
      ensures old(w.trace) <= w.trace
    {
      hide Settled, Reported, Ended, MetricsSet;
      NoMetricsSet(w.os.metrics);
      for i := 0 to |plan.metricOps|
        invariant Steady() && Reported(InMetrics(i)) && w.log == old(w.log)
        invariant old(w.trace) <= w.trace
        invariant state == old(state).(metrics := state.metrics) && |state.metrics| == i
        invariant forall k :: 0 <= k < i ==> state.metrics[k].family == plan.metricOps[k].family
        invariant MetricsSet(w.os.metrics, i) && w.os == old(w.os).(metrics := w.os.metrics)
      {
        ghost var metrics0 := w.os.metrics;
        exit := ApplyInterfaceMetric(i);
        if exit.Some? {
          return;
        }
        MetricsSetNext(metrics0, i);
      }
      return None;
    }

    // -------------------------------------------------------------- bypass routes

    /** The endpoint of operation `index` did not resolve: nothing has been added for any of them yet. */
    method AbortUnresolved(index: nat)
      requires Steady() && Reported(InMetrics(|plan.metricOps|)) && index < |plan.bypassOps|
      modifies w, guard, report
      ensures Ended(RolledBack(Unresolved(index))) && old(w.trace) <= w.trace && old(w.log).Grows(w.log)
    {
      hide AppliedOver, Safe, Progress, Broken, Abandoned, Restored, Consulted, R.BypassIds, R.KindOr, EntriesAt, Tail;
      hide SkippedOf, R.FailsOnce, R.AccountsFor;
      ghost var before := report.entries;
      var metricCount := |plan.metricOps|;
      CallFailed(w.trace);
      SkipIds(report, R.BypassIds(plan.bypassOps)[..index], R.BypassRoute);
      ProgressSkip(before, plan, metricCount, index);
      BypassOpId(plan, index);
      AbortAt(BypassItemId(plan.bypassOps[index]), R.BypassRoute, R.Lookup, metricCount, index + 1, 0, metricCount,
              index, 0);
      AppendTwice(before, SkippedOf(R.BypassIds(plan.bypassOps)[..index], R.BypassRoute),
                  Tail(plan, BypassItemId(plan.bypassOps[index]), R.BypassRoute, R.Lookup, metricCount, index + 1, 0,
                       true, true, true));
    }

    lemma AppendTwice(a: seq<R.Entry>, b: seq<R.Entry>, c: seq<R.Entry>)
      ensures a + b + c == a + (b + c)
    {
    }

    /** Look up the next endpoint. */
    method ResolveNextTarget(index: nat) returns (ips: Option<seq<IpAddr>>)
      requires Steady() && |resolved| == index < |plan.bypassOps|
      modifies `resolved, w`lookups, w`log
      ensures Steady() && w.log == old(w.log).Refuse(ips.None?)
      ensures resolved == old(resolved) + if ips.Some? then [ips.value] else []
      ensures ips.Some? && IsBlank(plan.bypassOps[index].host.text) ==> ips.value == []
    {
      hide AppliedOver, Safe, LookupsOf;
      ips := w.ResolveBypass(plan.bypassOps[index]);
      if ips.Some? {
        NextLookup(plan.bypassOps, index, resolved, ips.value);
        resolved := resolved + [ips.value];
      }
    }

    method ResolveBypassTargets() returns (exit: Option<Exit>, targets: seq<seq<IpAddr>>)
      requires Steady() && Reported(InMetrics(|plan.metricOps|)) && resolved == []
      modifies `resolved, w, guard, report
      ensures exit.None? ==>
        && Steady() && Reported(InMetrics(|plan.metricOps|)) && w.os == old(w.os) && w.log == old(w.log)
        && targets == resolved && |resolved| == |plan.bypassOps|
        && (forall i :: 0 <= i < |resolved| && IsBlank(plan.bypassOps[i].host.text) ==> resolved[i] == [])
      ensures exit.Some? ==> Ended(exit.value) && w.log.refused > old(w.log).refused
      ensures old(w.trace) <= w.trace
    {
      hide Settled, Reported, Ended;
      targets := [];
      for index := 0 to |plan.bypassOps|
        invariant Steady() && Reported(InMetrics(|plan.metricOps|)) && w.os == old(w.os) && w.log == old(w.log)
        invariant old(w.trace) <= w.trace && targets == resolved && |resolved| == index
        invariant forall i :: 0 <= i < index && IsBlank(plan.bypassOps[i].host.text) ==> resolved[i] == []
      {
        var ips := ResolveNextTarget(index);
        if ips.None? {
          AbortUnresolved(index);
          return Some(RolledBack(Unresolved(index))), targets;
        }
        targets := targets + [ips.value];
      }
      return None, targets;
    }

    /** A bypass route could not be journaled: its operation gets no entry. */
    method AbortUnjournaledBypass(index: nat)
      requires Broken() && index < |plan.bypassOps| && Reported(InBypasses(index))
      modifies w, guard, report
      ensures Ended(RolledBack(BypassNotJournaled(index))) && old(w.trace) <= w.trace && old(w.log).Grows(w.log)
    {
      hide Broken, Abandoned, R.KindOr, Stage.Id, EntriesAt, R.FailsOnce, RemainingOps, RemainingStages, R.FailedEntry;
      hide Progress, R.AccountsForAllBut, FailureRecorded;
      ghost var before := report.entries;
      var stage, metricCount := JournalStage, |plan.metricOps|;
      stage.IsNotPlanned();
      ProgressFacts(before, plan, metricCount, index, 0);
      FailStage(report, plan, stage.Id(), stage.Kind(), Some(stage.Failure()), metricCount, index + 1, 0,
                false, true, true, true);
      BypassFailureAccounts(before, report.entries, plan, stage.Id(), R.KindOr(stage.Id(), stage.Kind()), metricCount,
                            index);
      TailInOrder(before, stage.Id(), stage.Kind(), stage.Failure(), metricCount, index + 1, 0, true, true, true);
      AbortWithCleanup();
    }

    /** One route around the tunnel, found by the system for one endpoint address of operation `index`. */
    method ApplyBypassRoute(index: nat, route: RouteEntry) returns (exit: Option<Exit>)
      requires Steady() && index < |plan.bypassOps| && Reported(InBypasses(index))
      modifies this`state, w, guard, report
      ensures exit.None? ==>
        && Steady() && Reported(InBypasses(index)) && w.log == old(w.log)
        && w.os == old(w.os).(routes := old(w.os.routes) + {ToRouteRow(route)})
        && state == old(state).(bypassRoutes := old(state.bypassRoutes) + [route])
      ensures exit.Some? ==> Ended(exit.value) && w.log.refused > old(w.log).refused
      ensures old(w.trace) <= w.trace
    {
      hide AppliedOver, Safe, Stepped, Reported, Broken, Ended, Restored, LeftForRepair, Consulted;
      ghost var os0, trace0, listed := w.os, w.trace, guard.journal;
      w.step := AddingRoute(route);
      var ok := w.AddRoute(route);
      if !ok {
        CallFailed(trace0);
        AbortAtBypass(index);
        return Some(RolledBack(AtBypass(index)));
      }
      BypassStep(adapter, base, state, os0, route, w.undoFailures);
      state := state.(bypassRoutes := state.bypassRoutes + [route]);
      ItemApplied(trace0, state);
      ghost var trace1 := w.trace;
      ok := guard.RecordBypassRoute(w, route);
      ItemJournaled(trace1, listed);
      if !ok {
        AbortUnjournaledBypass(index);
        return Some(RolledBack(BypassNotJournaled(index)));
      }
      w.step := Idle;
      return None;
    }

    /** Ask the system for a route around the tunnel. */
    method AskForRoute(ip: IpAddr) returns (route: Option<RouteEntry>)
      requires Steady()
      modifies `asked, w`routeAnswers
      ensures Steady() && asked == old(asked) + [RouteAnswer(ip, route)]
    {
      hide AppliedOver, Safe, LookupsOf;
      route := w.BestRouteTo(ip);
      asked := asked + [RouteAnswer(ip, route)];
      assert answersBefore + asked == answersBefore + old(asked) + [RouteAnswer(ip, route)];
    }

    /**
     * Routes around the tunnel for one endpoint: the system is asked about each address of a full-tunnel
     * family, in order, and every route it names is added.  One entry says whether there was any.
     */
    method ApplyBypassOp(index: nat, ips: seq<IpAddr>) returns (exit: Option<Exit>)
      requires Steady() && index == |answers| < |plan.bypassOps| && Reported(InBypasses(index))
      modifies this`state, `asked, `answers, w, guard, report
      ensures exit.None? ==>
        && Steady() && Reported(InBypasses(index + 1)) && w.log == old(w.log)
        && w.os == old(w.os).(routes := w.os.routes)
        && |answers| == index + 1 && answers[..index] == old(answers)
        && asked == old(asked) + answers[index]
        && AskedFor(answers[index]) == Applicable(ips, fullV4, fullV6)
        && state == old(state).(bypassRoutes := old(state.bypassRoutes) + Found(answers[index]))
      ensures exit.Some? ==> Ended(exit.value) && w.log.refused > old(w.log).refused
      ensures old(w.trace) <= w.trace
    {
      hide Settled, Reported, Ended;
      var applicable, routable, applied := 0, 0, 0;
      ghost var more: seq<RouteAnswer> := [];
      for i := 0 to |ips|
        invariant Steady() && Reported(InBypasses(index)) && w.log == old(w.log)
        invariant old(w.trace) <= w.trace && answers == old(answers)
        invariant w.os == old(w.os).(routes := w.os.routes)
        invariant asked == old(asked) + more && AskedFor(more) == Applicable(ips[..i], fullV4, fullV6)
        invariant state == old(state).(bypassRoutes := old(state.bypassRoutes) + Found(more))
        invariant applied == routable == |Found(more)| && applicable == |more|
      {
        var ip := ips[i];
        ApplicableNext(ips, i, fullV4, fullV6);
        if ip.V4? {
          if !fullV4 {
            continue;
          }
        } else if !fullV6 {
          continue;
        }
        applicable := applicable + 1;
        var route := AskForRoute(ip);
        FoundNext(more, RouteAnswer(ip, route));
        more := more + [RouteAnswer(ip, route)];
        if route.None? {
          continue;
        }
        routable := routable + 1;
        exit := ApplyBypassRoute(index, route.value);
        if exit.Some? {
          return;
        }
        applied := applied + 1;
      }
      assert ips[..|ips|] == ips;
      if applied > 0 {
        PushBypass(index, false, more);
      } else if applicable == 0 {
        PushBypass(index, true, more);
      } else if routable == 0 {
        PushBypass(index, true, more);
      }
      return None;
    }

    /** For each of the first `n` endpoints the system was asked about each address that the tunnel would take. */
    ghost predicate AskedForAll(targets: seq<seq<IpAddr>>, n: nat)
      reads `answers
    {
      && n <= |targets| && n <= |answers|
      && forall i :: 0 <= i < n ==> AskedFor(answers[i]) == Applicable(targets[i], fullV4, fullV6)
    }

    method ApplyBypassRoutes(targets: seq<seq<IpAddr>>) returns (exit: Option<Exit>)
      requires Steady() && Reported(InMetrics(|plan.metricOps|)) && |targets| == |plan.bypassOps|
      requires state.bypassRoutes == [] && asked == [] && answers == []
      modifies this`state, `asked, `answers, w, guard, report
      ensures exit.None? ==>
        && Steady() && Reported(InRoutes(0)) && w.log == old(w.log)
        && w.os == old(w.os).(routes := w.os.routes)
        && |answers| == |plan.bypassOps| && AskedForAll(targets, |targets|) && asked == Flat(answers)
        && state == old(state).(bypassRoutes := Found(asked))
      ensures exit.Some? ==> Ended(exit.value) && w.log.refused > old(w.log).refused
      ensures old(w.trace) <= w.trace
    {
      hide Settled, Reported, Ended, AskedFor, Applicable;
      for i := 0 to |targets|
        invariant Steady() && Reported(InBypasses(i)) && w.log == old(w.log)
        invariant old(w.trace) <= w.trace
        invariant w.os == old(w.os).(routes := w.os.routes)
        invariant |answers| == i && AskedForAll(targets, i) && asked == Flat(answers)
        invariant state == old(state).(bypassRoutes := Found(asked))
      {
        ghost var answers0, asked0 := answers, asked;
        exit := ApplyBypassOp(i, targets[i]);
        if exit.Some? {
          return;
        }
        assert answers == answers0 + [answers[i]];
        FlatNext(answers0, answers[i]);
        FoundConcat(asked0, answers[i]);
      }
      return None;
    }

    // -------------------------------------------------------------- routes

    method ApplyRouteEntry(index: nat) returns (exit: Option<Exit>)
      requires Steady() && index < |plan.routeOps| && Reported(InRoutes(index))
      modifies this`state, w, guard, report
      ensures exit.None? ==>
        && Steady() && Reported(InRoutes(index + 1)) && w.log == old(w.log)
        && w.os == old(w.os).(routes := old(w.os.routes) + {ToRouteRow(EntryOf(adapter, plan.routeOps[index]))})
        && state == old(state).(routes := old(state.routes) + [EntryOf(adapter, plan.routeOps[index])])
      ensures exit.Some? ==> Ended(exit.value) && w.log.refused > old(w.log).refused
      ensures old(w.trace) <= w.trace
    {
      hide AppliedOver, Safe, Stepped, Reported, Broken, Ended, Restored, LeftForRepair, Consulted;
      ghost var os0, trace0 := w.os, w.trace;
      var op := plan.routeOps[index];
      var entry := RouteEntry(op.route.addr, op.route.cidr, None, adapter.ifIndex, adapter.luid);
      w.step := AddingRoute(entry);
      var ok := w.AddRoute(entry);
      if !ok {
        CallFailed(trace0);
        AbortAtRoute(index);
        return Some(RolledBack(AtRoute(index)));
      }
      RouteStep(adapter, base, state, os0, entry, w.undoFailures);
      ItemApplied(trace0, state.(routes := state.routes + [entry]));
      PushRoute(index);
      exit := RememberRoute(index, entry);
    }

    method RememberRoute(index: nat, entry: RouteEntry) returns (exit: Option<Exit>)
      requires Applied(state.(routes := state.routes + [entry]))
      requires index < |plan.routeOps| && Reported(InRoutes(index + 1))
      modifies `state, w, guard, report
      ensures exit.None? ==>
        && Steady() && Reported(InRoutes(index + 1)) && w.os == old(w.os) && w.log == old(w.log)
        && state == old(state).(routes := old(state.routes) + [entry])
      ensures exit.Some? ==> Ended(exit.value) && w.log.refused > old(w.log).refused
      ensures old(w.trace) <= w.trace
    {
      hide AppliedOver, Safe, Stepped, Reported, Broken, Ended, Restored, LeftForRepair, Consulted;
      ghost var trace1, listed := w.trace, guard.journal;
      state := state.(routes := state.routes + [entry]);
      var ok := guard.RecordRoute(w, entry);
      ItemJournaled(trace1, listed);
      if !ok {
        AbortUnjournaledRoute(index);
        return Some(RolledBack(RouteNotJournaled(index)));
      }
      w.step := Idle;
      return None;
    }

    method ApplyRouteEntries() returns (exit: Option<Exit>)
      requires Steady() && Reported(InRoutes(0)) && state.routes == []
      modifies this`state, w, guard, report
      ensures exit.None? ==>
        && Steady() && Reported(AfterOps([])) && w.log == old(w.log)
        && w.os == old(w.os).(routes := w.os.routes)
        && state == old(state).(routes := EntriesOf(adapter, plan.routeOps))
      ensures exit.Some? ==> Ended(exit.value) && w.log.refused > old(w.log).refused
      ensures old(w.trace) <= w.trace
    {
      hide Settled, Reported, Ended;
      for i := 0 to |plan.routeOps|
        invariant Steady() && Reported(InRoutes(i)) && w.log == old(w.log)
        invariant old(w.trace) <= w.trace
        invariant w.os == old(w.os).(routes := w.os.routes)
        invariant state == old(state).(routes := EntriesOf(adapter, plan.routeOps[..i]))
      {
        exit := ApplyRouteEntry(i);
        if exit.Some? {
          return;
        }
        assert EntriesOf(adapter, plan.routeOps[..i + 1])
               == EntriesOf(adapter, plan.routeOps[..i]) + [EntryOf(adapter, plan.routeOps[i])];
      }
      assert plan.routeOps[..|plan.routeOps|] == plan.routeOps;
      return None;
    }

    // -------------------------------------------------------------- DNS

    /** A stage failed after the planned operations, or the journal could not be written: roll back. */
    method FailAfterOps(stage: Stage, dns: bool, nrpt: bool, dnsGuard: bool, ghost at: FailurePoint)
      requires Broken() && PointInRange(config, plan, at) && Reported(PlaceOf(at)) && !at.BypassNotJournaled?
      requires PlaceOf(at) == AfterOps(PlaceOf(at).stages)
      requires TailOf(config, plan, at) ==
        StageTail(plan, stage, |plan.metricOps|, |plan.bypassOps|, |plan.routeOps|, dns, nrpt, dnsGuard)
      modifies w, guard, report
      ensures Ended(RolledBack(at)) && old(w.trace) <= w.trace && old(w.log).Grows(w.log)
    {
      hide Broken, Abandoned, R.FailsOnce, R.AccountsFor, Progress, R.KindOr, Stage.Id, Stage.Kind, EntriesAt, TailOf;
      hide PlaceOf, RemainingOps, RemainingStages, R.FailedEntry;
      ghost var before := report.entries;
      stage.IsNotPlanned();
      FailInPlace(report, plan, stage.Id(), stage.Kind(), Some(stage.Failure()), |plan.metricOps|, |plan.bypassOps|,
                  |plan.routeOps|, false, dns, nrpt, dnsGuard, |plan.metricOps|, |plan.bypassOps|, |plan.routeOps|);
      TailInOrder(before, stage.Id(), stage.Kind(), stage.Failure(), |plan.metricOps|, |plan.bypassOps|,
                  |plan.routeOps|, dns, nrpt, dnsGuard);
      AbortWithCleanup();
    }

    /** One of the three stages failed, with the stages before it reported. */
    method AbortAtStage(stage: Stage)
      requires IsGuardStage(stage) && Broken() && Reported(PlaceOf(AtStage(stage)))
      modifies w, guard, report
      ensures Ended(RolledBack(AtStage(stage))) && old(w.trace) <= w.trace && old(w.log).Grows(w.log)
    {
      hide Broken, Reported, Ended, Tail, Stage.Id, StageEntry, DnsEntries;
      FailAfterOps(stage, false, stage.DnsStage?, !stage.DnsGuardStage?, AtStage(stage));
    }

    /** One of them could not be journaled. */
    method AbortUnjournaledStage(stage: Stage)
      requires IsGuardStage(stage) && Broken() && Reported(PlaceOf(StageNotJournaled(stage)))
      modifies w, guard, report
      ensures Ended(RolledBack(StageNotJournaled(stage))) && old(w.trace) <= w.trace && old(w.log).Grows(w.log)
    {
      hide Broken, Reported, Ended, Tail, Stage.Id, StageEntry, DnsEntries;
      FailAfterOps(JournalStage, false, stage.DnsStage?, !stage.DnsGuardStage?, StageNotJournaled(stage));
    }

    method PushStage(stage: Stage, skipped: bool, ghost stages: seq<R.Entry>)
      requires Reported(AfterOps(stages))
      modifies report`entries
      ensures Reported(AfterOps(stages + [StageEntry(stage, skipped)]))
    {
      hide Progress, R.KindOr, R.InferPhase, Stage.Id, Stage.Kind, EntriesAt;
      ghost var before := report.entries;
      stage.IsNotPlanned();
      if skipped {
        report.PushSkipped(stage.Id(), stage.Kind());
      } else {
        report.PushApplied(stage.Id(), stage.Kind());
      }
      ProgressPush(before, report.entries[|before|], plan, |plan.metricOps|, |plan.bypassOps|, |plan.routeOps|);
      NextStage(config, plan, answers, AfterOps(stages), StageEntry(stage, skipped));
    }

    predicate WantsDns() {
      |config.dnsServers| > 0 || |config.dnsSearch| > 0
    }

    /**
     * Some interface of the adapter shows the configured settings, and so does each of them for which no call
     * has failed.
     */
    ghost predicate DnsInPlace(dns: DnsTable, dnsFaults: multiset<Guid>) {
      WantsDns() ==>
        && (exists guid :: guid in D.DnsGuids(adapter) && ShowsDns(dns, guid))
        && forall guid :: guid in D.DnsGuids(adapter) && dnsFaults[guid] == 0 ==> ShowsDns(dns, guid)
    }

    ghost predicate ShowsDns(dns: DnsTable, guid: Guid) {
      D.EffectiveOn(dns, guid, config.dnsServers, config.dnsSearch)
    }

    /** Write the settings; `Applied` is what is left to remember. */
    method ApplyDnsSettings() returns (entries: Option<seq<DnsEntry>>)
      requires Steady() && state.dns.None? && w.log == NO_FAILURES
      modifies w
      ensures w.os == old(w.os).(dns := w.os.dns) && old(w.trace) <= w.trace && w.Recorded()
      ensures old(w.log).Grows(w.log)
      ensures entries.None? ==> Broken() && w.log.refused > 0
      ensures entries.Some? ==> Applied(state.(dns := entries)) && DnsInPlace(w.os.dns, w.log.dnsFaults)
    {
      hide AppliedOver, Safe, Stepped, Broken, Consulted, D.EffectiveOn, D.OnlyDnsSince, D.Restores, AdapterFields;
      hide DnsInPlace;
      ghost var os0, trace0, failures := w.os, w.trace, w.undoFailures;
      w.step := ApplyingDns;
      ghost var before := w.Here();
      entries := D.ApplyDns(w, adapter, config.dnsServers, config.dnsSearch);
      DnsStretchIsSafe(adapter, base, state, before, trace0, w.trace);
      if entries.None? {
        DnsCallFailed(os0, failures);
      } else {
        DnsShown(w.os.dns, w.log.dnsFaults);
        DnsStep(adapter, base, state, os0, w.os.dns, entries.value, failures, w.undoFailures);
      }
    }

    method ApplyDnsStage() returns (exit: Option<Exit>)
      requires Steady() && Reported(AfterOps([])) && state.dns.None? && w.log == NO_FAILURES
      modifies this`state, w, guard, report
      ensures exit.None? ==>
        && Steady() && Reported(AfterOps(DnsEntries()))
        && w.os == old(w.os).(dns := w.os.dns) && DnsInPlace(w.os.dns, w.log.dnsFaults)
        && state == old(state).(dns := state.dns) && (state.dns.Some? <==> WantsDns())
      ensures exit.Some? ==> Ended(exit.value) && w.log.refused > old(w.log).refused
      ensures old(w.trace) <= w.trace && old(w.log).Grows(w.log)
    {
      hide Settled, Applied, Reported, Broken, Ended, StageEntry, ShowsDns;
      if |config.dnsServers| == 0 && |config.dnsSearch| == 0 {
        return None;
      }
      var entries := ApplyDnsSettings();
      if entries.None? {
        AbortAtStage(DnsStage);
        return Some(RolledBack(AtStage(DnsStage)));
      }
      PushStage(DnsStage, false, []);
      assert [] + [StageEntry(DnsStage, false)] == DnsEntries();
      exit := RememberDns(entries.value);
    }

    lemma DnsShown(dns: DnsTable, dnsFaults: multiset<Guid>)
      requires exists guid ::
        guid in D.DnsGuids(adapter) && D.EffectiveOn(dns, guid, config.dnsServers, config.dnsSearch)
      requires forall g :: g in D.DnsGuids(adapter) && dnsFaults[g] == 0 ==>
        D.EffectiveOn(dns, g, config.dnsServers, config.dnsSearch)
      ensures DnsInPlace(dns, dnsFaults)
    {
      hide D.EffectiveOn;
      var guid :| guid in D.DnsGuids(adapter) && D.EffectiveOn(dns, guid, config.dnsServers, config.dnsSearch);
      assert ShowsDns(dns, guid);
    }

    method RememberDns(entries: seq<DnsEntry>) returns (exit: Option<Exit>)
      requires Applied(state.(dns := Some(entries))) && Reported(AfterOps(DnsEntries()))
      modifies `state, w, guard, report
      ensures exit.None? ==>
        && Steady() && Reported(AfterOps(DnsEntries()))
        && w.os == old(w.os) && w.log == old(w.log) && state == old(state).(dns := Some(entries))
      ensures exit.Some? ==> Ended(exit.value) && w.log.refused > old(w.log).refused
      ensures old(w.trace) <= w.trace && old(w.log).Grows(w.log)
    {
      hide AppliedOver, Safe, Stepped, Reported, Broken, Ended, Restored, LeftForRepair, Consulted;
      ghost var trace1, listed := w.trace, guard.journal;
      state := state.(dns := Some(entries));
      var ok := guard.RecordDns(w, entries);
      ItemJournaled(trace1, listed);
      if !ok {
        AbortUnjournaledStage(DnsStage);
        return Some(RolledBack(StageNotJournaled(DnsStage)));
      }
      w.step := Idle;
      return None;
    }

    lemma DnsCallFailed(os0: Os, failures: nat)
      requires w.step.ApplyingDns? && guard.journal == Journal(Applying, tunName, adapter, state)
      requires w.journalFile == Some(guard.journal) && w.reportFile == reportBefore
      requires AppliedOver(adapter, base, state, os0, Idle, failures) && state.dns.None? && failures <= w.undoFailures
      requires w.os == os0.(dns := w.os.dns) && AgreesOutside(os0.dns, w.os.dns, AdapterFields(adapter, os0.dns))
      requires w.undoFailures == failures ==> w.os.dns == os0.dns
      requires Safe(w.trace, adapter, base) && w.Recorded()
      ensures Broken()
    {
      DnsInProgress(adapter, base, state, os0, w.os.dns, failures, w.undoFailures);
      hide AppliedOver, Covered, ListsAllBut, Safe, AdapterFields;
    }

    // -------------------------------------------------------------- NRPT rule and DNS guard

    predicate WantsGuards() {
      |config.dnsServers| > 0 && config.table != Some(RouteTable.Off) && (fullV4 || fullV6)
    }

    /** Add the rule; `Applied` is what is left to remember. */
    method AddNrptRule() returns (ok: bool, nrpt: Option<NrptState>)
      requires Steady() && state.nrpt.None?
      modifies w
      ensures w.os == old(w.os).(nrpt := w.os.nrpt) && KeepsForeignRules(adapter, old(w.os.nrpt), w.os.nrpt)
      ensures old(w.trace) <= w.trace && w.Recorded() && w.undoFailures == old(w.undoFailures)
      ensures w.log == old(w.log).Refuse(!ok)
      ensures !ok ==> Broken()
      ensures ok ==> Applied(state.(nrpt := nrpt)) && (nrpt.Some? <==> |config.dnsServers| > 0)
      ensures ok && nrpt.Some? ==> RuleInPlace(nrpt, config.dnsServers, w.os.nrpt)
      ensures ok && nrpt.None? ==> w.os == old(w.os)
    {
      hide AppliedOver, Safe, Stepped, Broken, Consulted, NrptChange, KeepsForeignRules, RuleInPlace, NamesOwnRules;
      ghost var os0, trace0 := w.os, w.trace;
      w.step := ApplyingNrpt;
      ghost var before := w.Here();
      ok, nrpt := ApplyNrptGuard(w, adapter, config.dnsServers);
      NrptStretchIsSafe(adapter, base, state, before, trace0, w.trace);
      NrptChangeKeeps(adapter, os0.nrpt, w.os.nrpt);
      if !ok {
        NrptCallFailed(os0);
      } else if nrpt.Some? {
        NrptStep(adapter, base, state, os0, w.os.nrpt, nrpt.value, w.undoFailures);
      } else {
        NothingHappened(adapter, base, state, os0, ApplyingNrpt, w.undoFailures);
        PendingIsStepped(adapter, base, state, state, os0, ApplyingNrpt, w.undoFailures);
      }
    }

    method ApplyNrptStage() returns (exit: Option<Exit>)
      requires Steady() && Reported(AfterOps(DnsEntries())) && state.nrpt.None?
      modifies this`state, w, guard, report
      ensures exit.None? ==>
        && Steady() && Reported(AfterOps(DnsEntries() + [StageEntry(NrptStage, false)])) && w.log == old(w.log)
        && w.os == old(w.os).(nrpt := w.os.nrpt) && state == old(state).(nrpt := state.nrpt)
        && (state.nrpt.Some? <==> |config.dnsServers| > 0)
        && KeepsForeignRules(adapter, old(w.os.nrpt), w.os.nrpt)
        && (state.nrpt.Some? ==> RuleInPlace(state.nrpt, config.dnsServers, w.os.nrpt))
      ensures exit.Some? ==> Ended(exit.value) && w.log.refused > old(w.log).refused
      ensures old(w.trace) <= w.trace
    {
      hide AppliedOver, Safe, Stepped, Reported, Broken, Ended, Consulted, KeepsForeignRules, RuleInPlace, StageEntry;
      hide DnsEntries;
      var ok, nrpt := AddNrptRule();
      if !ok {
        AbortAtStage(NrptStage);
        return Some(RolledBack(AtStage(NrptStage)));
      }
      PushStage(NrptStage, false, DnsEntries());
      if nrpt.Some? {
        exit := RememberNrpt(nrpt.value);
        return;
      }
      w.step := Idle;
      return None;
    }

    method RememberNrpt(nrpt: NrptState) returns (exit: Option<Exit>)
      requires Applied(state.(nrpt := Some(nrpt)))
      requires Reported(AfterOps(DnsEntries() + [StageEntry(NrptStage, false)]))
      modifies `state, w, guard, report
      ensures exit.None? ==>
        && Steady() && Reported(AfterOps(DnsEntries() + [StageEntry(NrptStage, false)]))
        && w.os == old(w.os) && w.log == old(w.log) && state == old(state).(nrpt := Some(nrpt))
      ensures exit.Some? ==> Ended(exit.value) && w.log.refused > old(w.log).refused
      ensures old(w.trace) <= w.trace
    {
      hide AppliedOver, Safe, Stepped, Reported, Broken, Ended, Restored, LeftForRepair, Consulted, StageEntry;
      hide DnsEntries;
      ghost var trace1, listed := w.trace, guard.journal;
      state := state.(nrpt := Some(nrpt));
      var ok := guard.RecordNrpt(w, nrpt);
      ItemJournaled(trace1, listed);
      if !ok {
        AbortUnjournaledStage(NrptStage);
        return Some(RolledBack(StageNotJournaled(NrptStage)));
      }
      w.step := Idle;
      return None;
    }

    lemma NrptCallFailed(os0: Os)
      requires w.step.ApplyingNrpt? && guard.journal == Journal(Applying, tunName, adapter, state)
      requires w.journalFile == Some(guard.journal) && w.reportFile == reportBefore
      requires AppliedOver(adapter, base, state, os0, Idle, w.undoFailures) && state.nrpt.None?
      requires w.os == os0.(nrpt := w.os.nrpt) && NrptChange(adapter, os0.nrpt, w.os.nrpt)
      requires Safe(w.trace, adapter, base) && w.Recorded()
      ensures Broken()
    {
      NrptInProgress(adapter, base, state, os0, w.os.nrpt, w.undoFailures);
      hide AppliedOver, Covered, ListsAllBut, Safe, NrptChange;
    }

    /** The filters have been asked for once, and those that came of it are the recorded ones. */
    ghost predicate GuardInPlace()
      reads this
    {
      && |guarded| == 1 && guarded[0].ids.Some?
      && guarded[0] == GuardAnswer(adapter, fullV4, fullV6, config.dnsServers, guarded[0].ids)
      && state.dnsGuard == if guarded[0].ids.value == [] then None else guarded[0].ids
    }

    /** The entries of the guards when both are in place. */
    ghost function BothGuards(): seq<R.Entry> {
      DnsEntries() + [StageEntry(NrptStage, false), StageEntry(DnsGuardStage, false)]
    }

    /** Ask for the filters. */
    method InstallGuard() returns (ids: Option<seq<nat>>)
      requires Steady() && state.dnsGuard.None? && guarded == []
      modifies `guarded, w
      ensures w.step.ApplyingDnsGuard? && old(w.trace) <= w.trace && w.log == old(w.log).Refuse(ids.None?)
      ensures guarded == [GuardAnswer(adapter, fullV4, fullV6, config.dnsServers, ids)]
      ensures ids.None? ==> Broken()
      ensures ids.Some? ==>
        && Applied(state.(dnsGuard := ids)) && w.Recorded() && ToSet(ids.value) !! old(w.os.filters)
        && w.os == old(w.os).(filters := old(w.os.filters) + ToSet(ids.value))
        && w.undoFailures == old(w.undoFailures)
    {
      hide AppliedOver, Safe, Stepped, Broken, LookupsOf;
      ghost var os0, trace0 := w.os, w.trace;
      w.step := ApplyingDnsGuard;
      ids := w.InstallFilters(adapter, fullV4, fullV6, config.dnsServers);
      guarded := guarded + [GuardAnswer(adapter, fullV4, fullV6, config.dnsServers, ids)];
      if ids.None? {
        CallFailed(trace0);
      } else {
        DnsGuardStep(adapter, base, state, os0, ids.value, w.undoFailures);
        ItemApplied(trace0, state.(dnsGuard := ids));
      }
    }

    method ApplyDnsGuardStage() returns (exit: Option<Exit>)
      requires Steady() && Reported(AfterOps(DnsEntries() + [StageEntry(NrptStage, false)]))
      requires state.dnsGuard.None? && guarded == []
      modifies this`state, `guarded, w, guard, report
      ensures exit.None? ==>
        && Steady() && Reported(AfterOps(BothGuards())) && w.log == old(w.log)
        && w.os == old(w.os).(filters := w.os.filters) && state == old(state).(dnsGuard := state.dnsGuard)
        && w.os.filters == old(w.os.filters) + Filters(state) && GuardInPlace()
      ensures exit.Some? ==> Ended(exit.value) && w.log.refused > old(w.log).refused
      ensures old(w.trace) <= w.trace
    {
      hide AppliedOver, Safe, Stepped, Reported, Broken, Ended, Consulted, StageEntry, DnsEntries;
      ghost var os0 := w.os;
      var ids := InstallGuard();
      if ids.None? {
        AbortAtStage(DnsGuardStage);
        return Some(RolledBack(AtStage(DnsGuardStage)));
      }
      PushStage(DnsGuardStage, false, DnsEntries() + [StageEntry(NrptStage, false)]);
      assert DnsEntries() + [StageEntry(NrptStage, false)] + [StageEntry(DnsGuardStage, false)] == BothGuards();
      if |ids.value| == 0 {
        assert os0.filters + ToSet(ids.value) == os0.filters;
        assert w.os == os0;
        w.step := Idle;
        return None;
      }
      exit := RememberDnsGuard(ids.value);
    }

    method RememberDnsGuard(ids: seq<nat>) returns (exit: Option<Exit>)
      requires Applied(state.(dnsGuard := Some(ids))) && Reported(AfterOps(BothGuards()))
      modifies `state, w, guard, report
      ensures exit.None? ==>
        && Steady() && Reported(AfterOps(BothGuards()))
        && w.os == old(w.os) && w.log == old(w.log) && state == old(state).(dnsGuard := Some(ids))
      ensures exit.Some? ==> Ended(exit.value) && w.log.refused > old(w.log).refused
      ensures old(w.trace) <= w.trace
    {
      hide AppliedOver, Safe, Stepped, Reported, Broken, Ended, Restored, LeftForRepair, Consulted, StageEntry;
      hide DnsEntries;
      ghost var trace1, listed := w.trace, guard.journal;
      state := state.(dnsGuard := Some(ids));
      var ok := guard.RecordDnsGuard(w, ids);
      ItemJournaled(trace1, listed);
      if !ok {
        AbortUnjournaledStage(DnsGuardStage);
        return Some(RolledBack(StageNotJournaled(DnsGuardStage)));
      }
      w.step := Idle;
      return None;
    }

    method ApplyGuardStages(killSwitchEnabled: bool) returns (exit: Option<Exit>)
      requires Steady() && Reported(AfterOps(DnsEntries())) && state.nrpt.None? && state.dnsGuard.None?
      requires guarded == [] && killSwitchEnabled == killSwitch
      modifies this`state, `guarded, w, guard, report
      ensures exit.None? ==>
        && Steady() && Reported(AfterOps(DnsEntries() + GuardEntries())) && w.log == old(w.log)
        && w.os == old(w.os).(nrpt := w.os.nrpt, filters := w.os.filters)
        && state == old(state).(nrpt := state.nrpt, dnsGuard := state.dnsGuard)
        && (state.nrpt.Some? <==> WantsGuards() && killSwitchEnabled)
        && (state.nrpt.Some? ==> RuleInPlace(state.nrpt, config.dnsServers, w.os.nrpt) && GuardInPlace())
        && KeepsForeignRules(adapter, old(w.os.nrpt), w.os.nrpt)
        && (!(WantsGuards() && killSwitchEnabled) ==> w.os == old(w.os) && state == old(state))
      ensures exit.Some? ==> Ended(exit.value) && w.log.refused > old(w.log).refused
      ensures old(w.trace) <= w.trace
    {
      hide Settled, Reported, Ended, StageEntry, DnsEntries, RuleInPlace;
      assert DnsEntries() + [] == DnsEntries();
      if |config.dnsServers| == 0 || config.table == Some(RouteTable.Off) || (!fullV4 && !fullV6) {
        return None;
      }
      if !killSwitchEnabled {
        PushStage(NrptStage, true, DnsEntries());
        PushStage(DnsGuardStage, true, DnsEntries() + [StageEntry(NrptStage, true)]);
        assert DnsEntries() + [StageEntry(NrptStage, true)] + [StageEntry(DnsGuardStage, true)]
            == DnsEntries() + GuardEntries();
        return None;
      }
      exit := ApplyNrptStage();
      if exit.Some? {
        return;
      }
      exit := ApplyDnsGuardStage();
      assert BothGuards() == DnsEntries() + GuardEntries();
    }

    /** The run is over: the journal stays, marked as running, until the tunnel is stopped. */
    ghost predicate Running()
      reads `state, `base, `resolved, `asked, `guarded, w, guard
    {
      Settled(Phase.Running)
    }

    method MarkRecoveryRunning() returns (exit: Option<Exit>)
      requires Steady() && Reported(AfterOps(DnsEntries() + GuardEntries()))
      modifies w, guard, report
      ensures exit.None? ==>
        && Running() && Reported(AfterOps(DnsEntries() + GuardEntries()))
        && w.os == old(w.os) && w.log == old(w.log) && w.reportFile == reportBefore
      ensures exit.Some? ==> Ended(exit.value) && w.log.refused > old(w.log).refused
      ensures old(w.trace) <= w.trace
    {
      hide AppliedOver, Covered, ListsAllBut, Safe, Reported, Ended, Restored, Consulted, DnsEntries, GuardEntries;
      ghost var trace0 := w.trace;
      NothingHappened(adapter, base, state, w.os, Idle, w.undoFailures);
      var ok := guard.MarkPhase(w, Phase.Running);
      CoveredIsSafe(trace0, w.Here(), adapter, base);
      if !ok {
        FailAfterOps(JournalStage, false, false, false, NotMarkedRunning);
        return Some(RolledBack(NotMarkedRunning));
      }
      return None;
    }

    /**
     * Every route that the system named for an endpoint address that the tunnel would take is in place, and it was
     * asked about each such address.
     */
    ghost predicate BypassesInPlace()
      reads `state, `resolved, `asked, `answers
    {
      && |resolved| == |plan.bypassOps| == |answers|
      && AskedForAll(resolved, |resolved|) && asked == Flat(answers) && state.bypassRoutes == Found(asked)
    }

    /** The planned operations are applied and remembered. */
    ghost predicate OpsApplied()
      reads this, w
    {
      && state.addresses == config.addresses
      && state.routes == EntriesOf(adapter, plan.routeOps)
      && |state.metrics| == |plan.metricOps|
      && (forall i :: 0 <= i < |state.metrics| ==> state.metrics[i].family == plan.metricOps[i].family)
      && MetricsSet(w.os.metrics, |plan.metricOps|)
      && BypassesInPlace()
    }

    /** Every part of the configuration is applied and remembered. */
    ghost predicate AllApplied(killSwitchEnabled: bool)
      reads this, w
    {
      && OpsApplied()
      && DnsInPlace(w.os.dns, w.log.dnsFaults) && (state.dns.Some? <==> WantsDns())
      && (state.nrpt.Some? <==> WantsGuards() && killSwitchEnabled)
      && (state.nrpt.Some? ==> RuleInPlace(state.nrpt, config.dnsServers, w.os.nrpt) && GuardInPlace())
      && (!(WantsGuards() && killSwitchEnabled) ==> w.os.nrpt == base.nrpt && w.os.filters == base.filters)
    }

    /** The whole configuration is in place, and the report says so, entry by entry. */
    ghost predicate InForce(killSwitchEnabled: bool)
      reads this, w, guard, report
    {
      && Running() && AllApplied(killSwitchEnabled)
      && report.attemptState == R.AttemptState.Running && ReportSavedOver(reportBefore)
      && Reported(AfterOps(DnsEntries() + GuardEntries()))
      && R.NoneFailed(report.entries) && R.AccountsFor(report.entries, plan)
    }

    /** The last step: report success. */
    method Finish(ghost killSwitchEnabled: bool)
      requires Running() && Reported(AfterOps(DnsEntries() + GuardEntries())) && AllApplied(killSwitchEnabled)
      requires w.reportFile == reportBefore
      modifies w`reportFile, report`attemptState
      ensures InForce(killSwitchEnabled)
    {
      hide AppliedOver, Safe, Consulted, MetricsSet, BypassesInPlace, DnsInPlace, WantsDns, WantsGuards, RuleInPlace;
      hide Progress, R.NoneFailed, R.AccountsFor, EntriesAt, DnsEntries, GuardEntries;
      ProgressComplete(report.entries, plan);
      FinishWithReport(w, report);
    }

    /** The addresses and the planned operations, in order. */
    method RunOps() returns (exit: Option<Exit>)
      requires Steady() && Reported(InAddresses(0)) && state == EMPTY_LEDGER && w.os == base && NothingAsked()
      modifies `state, `resolved, `asked, `answers, w, guard, report
      ensures exit.None? ==>
        && Steady() && Reported(AfterOps([])) && w.log == old(w.log) && OpsApplied() && guarded == []
        && state.dns.None? && state.nrpt.None? && state.dnsGuard.None?
        && w.os == base.(addresses := w.os.addresses, routes := w.os.routes, metrics := w.os.metrics)
      ensures exit.Some? ==> Ended(exit.value) && w.log.refused > old(w.log).refused
      ensures old(w.trace) <= w.trace
    {
      hide Steady, Reported, MetricsSet, Ended, AskedForAll, Flat, Found;
      exit := ApplyAddresses();
      if exit.Some? {
        return;
      }
      exit := ApplyInterfaceMetrics();
      if exit.Some? {
        return;
      }
      var targets;
      exit, targets := ResolveBypassTargets();
      if exit.Some? {
        return;
      }
      exit := ApplyBypassRoutes(targets);
      if exit.Some? {
        return;
      }
      exit := ApplyRouteEntries();
    }

    /** The stages after the preparation, in order. */
    method RunStages(killSwitchEnabled: bool) returns (exit: Option<Exit>)
      requires Steady() && Reported(InAddresses(0)) && state == EMPTY_LEDGER && w.os == base && NothingAsked()
      requires killSwitchEnabled == killSwitch && w.log == NO_FAILURES
      modifies `state, `resolved, `asked, `answers, `guarded, w, guard, report
      ensures exit.None? ==> InForce(killSwitchEnabled)
      ensures exit.Some? ==> Ended(exit.value) && w.log.refused > 0
      ensures old(w.trace) <= w.trace
    {
      hide Steady, Settled, Reported, MetricsSet, AskedForAll, Flat, Found, DnsInPlace, WantsDns, WantsGuards;
      hide RuleInPlace, Ended, KeepsForeignRules, InForce, DnsEntries, GuardEntries, GuardInPlace;
      exit := RunOps();
      if exit.Some? {
        return;
      }
      exit := ApplyDnsStage();
      if exit.Some? {
        return;
      }
      exit := ApplyGuardStages(killSwitchEnabled);
      if exit.Some? {
        return;
      }
      exit := MarkRecoveryRunning();
      if exit.Some? {
        return;
      }
      Finish(killSwitchEnabled);
      return None;
    }

    /**
     * While the configuration is in force: for every address found for an endpoint that the tunnel would take, the
     * system was asked for a route; every route it named is recorded and on the machine; and each operation is
     * reported as applied exactly when a route was named for any of its addresses.
     */
    lemma EndpointsStayReachable(killSwitchEnabled: bool, i: nat, ip: IpAddr)
      requires InForce(killSwitchEnabled) && i < |resolved| && ip in resolved[i]
      requires if ip.V4? then fullV4 else fullV6
      ensures exists answer :: answer in answers[i] && Served(answer, ip, asked)
      ensures forall k :: 0 <= k < |asked| && asked[k].route.Some? ==>
        asked[k].route.value in state.bypassRoutes && ToRouteRow(asked[k].route.value) in w.os.routes
      ensures w.routeAnswers == answersBefore + asked
      ensures BypassEntry(plan.bypassOps[i], answers[i]) in report.entries
    {
      EveryTargetIsServed(resolved, answers, fullV4, fullV6, i, ip);
      forall k | 0 <= k < |asked| && asked[k].route.Some?
        ensures asked[k].route.value in state.bypassRoutes && ToRouteRow(asked[k].route.value) in w.os.routes
      {
        InFound(asked, k);
        assert ToRouteRow(asked[k].route.value) in RouteRows(state.bypassRoutes);
      }
      BypassIsReported(i);
    }

    lemma BypassIsReported(i: nat)
      requires i < |plan.bypassOps| == |answers| && Reported(AfterOps(DnsEntries() + GuardEntries()))
      ensures BypassEntry(plan.bypassOps[i], answers[i]) in report.entries
    {
      hide BypassEntry, AddressEntries, MetricEntries, RouteOpEntries, StageEntry, DnsEntries, GuardEntries, Progress;
      var p := AfterOps(DnsEntries() + GuardEntries());
      var front := [StageEntry(LookupStage, false)] + AddressEntries(config.addresses[..p.addresses])
                   + MetricEntries(plan.metricOps[..p.metrics]);
      var entries := BypassEntries(plan.bypassOps[..p.bypasses], answers);
      assert entries[i] == BypassEntry(plan.bypassOps[i], answers[i]);
      assert report.entries == front + entries + RouteOpEntries(plan.routeOps[..p.routes]) + p.stages;
      assert report.entries[|front| + i] == entries[i];
    }

    lemma RunIsOver(failed: Option<Exit>, killSwitchEnabled: bool)
      requires if failed.Some? then Ended(failed.value) else InForce(killSwitchEnabled)
      ensures w.Recorded() && (failed.Some? ==> failed.value.RolledBack? || failed.value.AddressNotJournaled?)
    {
    }
  }

  method AbortWithReport(w: World, report: R.RouteApplyReport)
    modifies report`attemptState, w`reportFile
    ensures report.attemptState == R.AttemptState.Failed
    ensures w.reportFile == Some(SavedReport(report.attemptState, report.entries)) || w.reportFile == old(w.reportFile)
  {
    report.MarkFailed();
    var _ := w.WriteReport(SavedReport(report.attemptState, report.entries));
  }

  method FinishWithReport(w: World, report: R.RouteApplyReport)
    modifies report`attemptState, w`reportFile
    ensures report.attemptState == R.AttemptState.Running
    ensures w.reportFile == Some(SavedReport(report.attemptState, report.entries)) || w.reportFile == old(w.reportFile)
  {
    report.MarkRunning();
    var _ := w.WriteReport(SavedReport(report.attemptState, report.entries));
  }

  lemma ProgressComplete(entries: seq<R.Entry>, plan: Plan)
    requires Progress(entries, plan, |plan.metricOps|, |plan.bypassOps|, |plan.routeOps|)
    ensures R.NoneFailed(entries) && R.AccountsFor(entries, plan)
  {
    hide R.IdsOf, R.NoneFailed;
    NoSuffix(R.MetricIds(plan.metricOps));
    NoSuffix(R.BypassIds(plan.bypassOps));
    NoSuffix(R.RouteIds(plan.routeOps));
  }

  lemma NoSuffix(s: seq<string>)
    ensures s[..|s|] == s
  {
  }

  // ---------------------------------------------------------------- preparation

  /** The attempt failed, once, in the given stage, and everything planned is reported as skipped. */
  ghost predicate ReportedFailure(report: R.RouteApplyReport, plan: Plan, stage: Stage)
    reads report
  {
    && report.attemptState == R.AttemptState.Failed && report.entries == EarlyEntries(plan, stage)
    && R.FailsOnce(report.entries) && R.AccountsFor(report.entries, plan)
  }

  /** The stage that such a run ends in. */
  function EarlyStage(exit: Exit): Stage {
    match exit
    case AdapterNotFound => LookupStage
    case JournalNotStarted => InitStage
    case _ => StaleStage
  }

  /** Since `from` only stale addresses have gone, and those that are gone by now were there all along. */
  ghost predicate OnlyAddressesGoSince(before: Snapshot, trace: seq<Snapshot>, from: nat, now: set<AddressRow>) {
    forall i :: from <= i < |trace| ==>
      && trace[i] == before.(os := before.os.(addresses := trace[i].os.addresses))
      && now <= trace[i].os.addresses <= before.os.addresses
  }

  /** Remove the adapter's stale addresses; the first failure ends the stage. */
  method CleanupStaleUnicastAddresses(w: World, a: Adapter, wanted: seq<Cidr>) returns (ok: bool)
    modifies w`os, w`trace, w`undoFailures, w`log
    ensures w.os == old(w.os).(addresses := w.os.addresses) && w.os.addresses <= old(w.os.addresses)
    ensures forall row :: row in old(w.os.addresses) && row !in w.os.addresses ==> IsStale(a, wanted, row)
    ensures ok ==> forall row :: row in w.os.addresses ==> !IsStale(a, wanted, row)
    ensures w.log == old(w.log).Refuse(!ok)
    ensures w.Extends(old(w.trace), old(w.Here())) && w.undoFailures == old(w.undoFailures)
    ensures OnlyAddressesGoSince(old(w.Here()), w.trace, |old(w.trace)|, w.os.addresses)
  {
    var rows := w.ListAddresses(a.luid);
    if rows.None? {
      return false;
    }
    var left := rows.value;
    while left != {}
      invariant w.os == old(w.os).(addresses := w.os.addresses) && w.os.addresses <= old(w.os.addresses)
      invariant forall row :: row in old(w.os.addresses) && row !in w.os.addresses ==> IsStale(a, wanted, row)
      invariant forall row :: row in w.os.addresses && row !in left ==> !IsStale(a, wanted, row)
      invariant w.log == old(w.log)
      invariant w.Extends(old(w.trace), old(w.Here())) && w.undoFailures == old(w.undoFailures)
      invariant OnlyAddressesGoSince(old(w.Here()), w.trace, |old(w.trace)|, w.os.addresses)
      decreases left
    {
      var row :| row in left;
      left := left - {row};
      if IsLinkLocal(row.address.addr) || row.address in wanted {
        continue;
      }
      if row.luid == a.luid {
        var deleted := w.DeleteAddress(row, false);
        if !deleted {
          return false;
        }
      }
    }
    return true;
  }

  /** The states so far are those of a preparation that ends in `base`. */
  ghost predicate PreparedFor(trace: seq<Snapshot>, base: Os) {
    forall i :: 0 <= i < |trace| ==>
      && trace[i].step.Preparing?
      && trace[i].os == base.(addresses := trace[i].os.addresses) && base.addresses <= trace[i].os.addresses
  }

  lemma NothingDoneYet(s: Snapshot)
    requires s.step.Preparing?
    ensures PreparedFor([s], s.os)
  {
  }

  lemma PreparedNext(trace: seq<Snapshot>, s: Snapshot)
    requires PreparedFor(trace, s.os) && s.step.Preparing?
    ensures PreparedFor(trace + [s], s.os)
  {
  }

  lemma PreparedByCleanup(before: Snapshot, trace0: seq<Snapshot>, trace: seq<Snapshot>, base: Os)
    requires PreparedFor(trace0, before.os) && trace0 <= trace && before.step.Preparing?
    requires base == before.os.(addresses := base.addresses) && base.addresses <= before.os.addresses
    requires OnlyAddressesGoSince(before, trace, |trace0|, base.addresses)
    ensures PreparedFor(trace, base)
  {
    forall i | 0 <= i < |trace|
      ensures trace[i].step.Preparing? && trace[i].os == base.(addresses := trace[i].os.addresses)
      ensures base.addresses <= trace[i].os.addresses
    {
      if i < |trace0| {
        assert trace[i] == trace0[i];
      }
    }
  }

  lemma PreparedIsSafe(trace: seq<Snapshot>, a: Adapter, base: Os)
    requires PreparedFor(trace, base)
    ensures Safe(trace, a, base)
  {
  }

  lemma NothingAppliedYet(a: Adapter, os: Os)
    ensures AppliedOver(a, os, EMPTY_LEDGER, os, Idle, 0)
  {
    assert os.metrics + map[] == os.metrics && os.dns + map[] == os.dns;
    assert WithoutRules(None, os.nrpt) == os.nrpt;
  }

  /** The run begins with the state at entry, and ends with the present one. */
  ghost predicate TracedFrom(w: World, os: Os, journal: Option<Journal>)
    reads w
  {
    w.trace != [] && w.trace[0] == Snapshot(os, journal, Preparing, 0, EMPTY_LEDGER) && w.Recorded()
  }

  /** Find the adapter and start its journal. */
  method OpenJournal(w: World, tunName: string, plan: Plan)
    returns (failed: Option<Exit>, report: R.RouteApplyReport, guard: RecoveryGuard?)
    modifies w
    ensures fresh(report) && TracedFrom(w, old(w.os), old(w.journalFile)) && PreparedFor(w.trace, w.os)
    ensures w.os == old(w.os) && w.undoFailures == 0 && w.step.Preparing?
    ensures w.lookups == old(w.lookups) && w.routeAnswers == old(w.routeAnswers)
            && w.guardAnswers == old(w.guardAnswers)
    ensures failed.None? || failed.value.AdapterNotFound? || failed.value.JournalNotStarted?
    ensures failed.Some? ==>
      && (w.reportFile == Some(SavedReport(report.attemptState, report.entries)) || w.reportFile == old(w.reportFile))
      && ReportedFailure(report, plan, EarlyStage(failed.value)) && w.log.refused > 0
    ensures failed.None? ==>
      && guard != null && fresh(guard) && w.journalFile == Some(guard.journal)
      && guard.journal == Journal(Applying, tunName, guard.journal.adapter, EMPTY_LEDGER)
      && tunName in w.adapters && guard.journal.adapter == w.adapters[tunName]
      && w.reportFile == old(w.reportFile) && w.log == NO_FAILURES && Early(report, plan)
  {
    hide Progress, ReportedFailure, UndoesNothing, PreparedFor, StageEntry;
    guard := null;
    w.StartRun();
    report := new R.RouteApplyReport(plan.platform);
    NothingReportedYet(plan);
    NothingDoneYet(w.Here());
    var a := w.FindAdapter(tunName);
    if a.None? {
      FailEarly(w, report, plan, LookupStage);
      return Some(AdapterNotFound), report, null;
    }
    PushEarly(report, plan);
    ghost var trace0 := w.trace;
    var ok;
    guard, ok := RecoveryGuard.Begin(w, tunName, a.value);
    PreparedNext(trace0, w.Here());
    if !ok {
      FailEarly(w, report, plan, InitStage);
      return Some(JournalNotStarted), report, null;
    }
    failed := None;
  }

  /** The adapter, the journal, and the stale addresses. */
  method Prepare(w: World, tunName: string, config: InterfaceConfig, plan: Plan, ghost killSwitch: bool)
    returns (failed: Option<Exit>, report: R.RouteApplyReport, ctx: ApplyContext?, ghost base: Os)
    modifies w
    ensures fresh(report) && TracedFrom(w, old(w.os), old(w.journalFile)) && PreparedFor(w.trace, base)
    ensures w.os == base == old(w.os).(addresses := base.addresses) && base.addresses <= old(w.os.addresses)
    ensures failed.None? || failed.value.AdapterNotFound? || failed.value.JournalNotStarted?
            || failed.value.StaleAddressesRemain?
    ensures failed.Some? ==>
      && (w.reportFile == Some(SavedReport(report.attemptState, report.entries)) || w.reportFile == old(w.reportFile))
      && ReportedFailure(report, plan, EarlyStage(failed.value)) && w.log.refused > 0
    ensures failed.Some? && !failed.value.StaleAddressesRemain? ==> w.os == old(w.os)
    ensures failed.None? || failed.value.StaleAddressesRemain? ==>
      && ctx != null && fresh(ctx) && fresh(ctx.guard)
      && ctx.w == w && ctx.tunName == tunName && ctx.config == config && ctx.plan == plan && ctx.report == report
      && tunName in w.adapters && ctx.adapter == w.adapters[tunName]
      && ctx.base == base && ctx.killSwitch == killSwitch && ctx.reportBefore == old(w.reportFile)
      && ctx.lookupsBefore == old(w.lookups) && ctx.answersBefore == old(w.routeAnswers)
      && ctx.guardsBefore == old(w.guardAnswers)
      && w.journalFile == Some(Journal(Applying, tunName, ctx.adapter, EMPTY_LEDGER))
      && (forall row :: row in old(w.os.addresses) && row !in base.addresses ==>
            IsStale(ctx.adapter, config.addresses, row))
    ensures failed.None? ==>
      && w.step.Preparing? && ctx.Ready() && ctx.Reported(ctx.InAddresses(0)) && w.log == NO_FAILURES
      && forall row :: row in base.addresses ==> !IsStale(ctx.adapter, config.addresses, row)
  {
    hide Early, AppliedOver, Safe, IsStale, ReportedFailure, UndoesNothing, OnlyAddressesGoSince, PreparedFor;
    hide ApplyContext.Consulted, ApplyContext.Reported;
    var guard;
    failed, report, guard := OpenJournal(w, tunName, plan);
    if failed.Some? {
      return failed, report, null, w.os;
    }
    ctx := new ApplyContext(w, tunName, config, plan, guard.journal.adapter, report, guard, killSwitch);
    ghost var begun, started := w.Here(), w.trace;
    var ok := CleanupStaleUnicastAddresses(w, ctx.adapter, config.addresses);
    base := w.os;
    ctx.base := base;
    PreparedByCleanup(begun, started, w.trace, base);
    if !ok {
      FailEarly(w, report, plan, StaleStage);
      return Some(StaleAddressesRemain), report, ctx, base;
    }
    failed := None;
    ctx.NothingApplied();
    NothingAppliedYet(ctx.adapter, base);
    PreparedIsSafe(w.trace, ctx.adapter, base);
  }

  /**
   * Apply a network configuration.  `base` is the machine at entry without the stale addresses that
   * went; the run ends with everything in force, with everything rolled back, or as `Exit` says.
   */
  method ApplyNetworkConfig(w: World, tunName: string, config: InterfaceConfig, plan: Plan, killSwitchEnabled: bool)
    returns (exit: Exit, report: R.RouteApplyReport, ctx: ApplyContext?, ghost base: Os)
    modifies w
    ensures fresh(report) && TracedFrom(w, old(w.os), old(w.journalFile))
    ensures base == old(w.os).(addresses := base.addresses) && base.addresses <= old(w.os.addresses)
    ensures exit.AdapterNotFound? || exit.JournalNotStarted? ==>
      w.os == old(w.os) && base == w.os && PreparedFor(w.trace, base)
    ensures exit.AdapterNotFound? || exit.JournalNotStarted? || exit.StaleAddressesRemain? ==>
      && (w.reportFile == Some(SavedReport(report.attemptState, report.entries)) || w.reportFile == old(w.reportFile))
      && ReportedFailure(report, plan, EarlyStage(exit))
    ensures !exit.AdapterNotFound? && !exit.JournalNotStarted? ==>
      && ctx != null && fresh(ctx) && fresh(ctx.guard)
      && ctx.w == w && ctx.tunName == tunName && ctx.config == config && ctx.plan == plan && ctx.report == report
      && tunName in w.adapters && ctx.adapter == w.adapters[tunName]
      && ctx.base == base && ctx.killSwitch == killSwitchEnabled && ctx.reportBefore == old(w.reportFile)
      && ctx.lookupsBefore == old(w.lookups) && ctx.answersBefore == old(w.routeAnswers)
      && ctx.guardsBefore == old(w.guardAnswers)
      && (forall row :: row in old(w.os.addresses) && row !in base.addresses ==>
            IsStale(ctx.adapter, config.addresses, row))
    ensures exit.StaleAddressesRemain? ==>
      w.os == base && PreparedFor(w.trace, base)
      && w.journalFile == Some(Journal(Applying, tunName, ctx.adapter, EMPTY_LEDGER))
    ensures exit.Finished? || exit.RolledBack? || exit.AddressNotJournaled? ==>
      forall row :: row in base.addresses ==> !IsStale(ctx.adapter, config.addresses, row)
    // Nothing but a failed call ends a run early.
    ensures w.log.refused == 0 ==> exit.Finished?
    ensures exit.Finished? ==> ctx.InForce(killSwitchEnabled)
    ensures exit.RolledBack? || exit.AddressNotJournaled? ==> ctx.Ended(exit)
  {
    hide PreparedFor, AppliedOver, Safe, IsStale, ReportedFailure, ApplyContext.Ended, ApplyContext.InForce;
    hide ApplyContext.Consulted, ApplyContext.Reported;
    var failed;
    failed, report, ctx, base := Prepare(w, tunName, config, plan, killSwitchEnabled);
    if failed.Some? {
      return failed.value, report, ctx, base;
    }
    w.step := Idle;
    failed := ctx.RunStages(killSwitchEnabled);
    ctx.RunIsOver(failed, killSwitchEnabled);
    exit := if failed.Some? then failed.value else Finished;
  }

  /** A failure before anything of the plan was tried: report it, and everything else as skipped. */
  method FailEarly(w: World, report: R.RouteApplyReport, plan: Plan, stage: Stage)
    requires if stage.LookupStage? then report.entries == [] else Early(report, plan)
    modifies report, w`reportFile
    ensures ReportedFailure(report, plan, stage)
    ensures w.reportFile == Some(SavedReport(report.attemptState, report.entries)) || w.reportFile == old(w.reportFile)
  {
    hide Progress, R.KindOr, R.FailsOnce, R.AccountsFor, Stage.Id, RemainingOps, RemainingStages, R.FailedEntry;
    NothingReportedYet(plan);
    stage.IsNotPlanned();
    FailInPlace(report, plan, stage.Id(), stage.Kind(), Some(stage.Failure()), 0, 0, 0, true, true, true, true,
                0, 0, 0);
    AbortWithReport(w, report);
  }

  /** The adapter has been found, and nothing else is reported. */
  ghost predicate Early(report: R.RouteApplyReport, plan: Plan)
    reads report
  {
    report.entries == [StageEntry(LookupStage, false)] && Progress(report.entries, plan, 0, 0, 0)
  }

  method PushEarly(report: R.RouteApplyReport, plan: Plan)
    requires report.entries == []
    modifies report`entries
    ensures Early(report, plan)
  {
    hide Progress, R.KindOr, R.InferPhase, Stage.Id, Stage.Kind;
    NothingReportedYet(plan);
    var stage := LookupStage;
    stage.IsNotPlanned();
    report.PushApplied(stage.Id(), stage.Kind());
    ProgressPush([], R.AppliedEntry(stage.Id(), stage.Kind()), plan, 0, 0, 0);
    assert [] + [R.AppliedEntry(stage.Id(), stage.Kind())] == report.entries;
  }

  lemma NothingReportedYet(plan: Plan)
    ensures Progress([], plan, 0, 0, 0)
  {
  }

  /**
   * Apply, and when that succeeds stop again.  Unless an undo call fails, the settings are those from before, the
   * rows of the run are gone, foreign rules and filters are untouched, and no journal is left; and whatever the
   * failures, every crash point on the way is repairable.
   */
  method ApplyThenStop(w: World, tunName: string, config: InterfaceConfig, plan: Plan, killSwitchEnabled: bool)
    returns (exit: Exit, ctx: ApplyContext?, ghost base: Os)
    modifies w
    ensures TracedFrom(w, old(w.os), old(w.journalFile))
    ensures base == old(w.os).(addresses := base.addresses) && base.addresses <= old(w.os.addresses)
    ensures exit.Finished? ==> ctx != null && Safe(w.trace, ctx.adapter, base)
    ensures w.log.refused == 0 ==> exit.Finished?
    ensures exit.Finished? ==> UndoneOrStuck(ctx.adapter, ctx.state, w.os, w.log)
    ensures exit.Finished? && w.undoFailures == 0 ==>
      && w.journalFile == None
      && w.os.metrics == old(w.os.metrics) && w.os.dns == old(w.os.dns) && w.os.filters == old(w.os.filters)
      && w.os.addresses == base.addresses - AddressRows(ctx.adapter, config.addresses)
      && w.os.routes == old(w.os.routes) - RouteRows(ctx.state.bypassRoutes) -
        RouteRows(EntriesOf(ctx.adapter, plan.routeOps))
      && w.os.nrpt <= old(w.os.nrpt) && KeepsForeignRules(ctx.adapter, old(w.os.nrpt), w.os.nrpt)
  {
    hide ApplyContext.InForce, ApplyContext.Ended, ApplyContext.Running, AppliedOver, JournalCovers, Rollback;
    hide UndoneOrStuck, AddressRows, RouteRows, KeepsForeignRules, PreparedFor, IsStale, ReportedFailure, Safe;
    var report;
    exit, report, ctx, base := ApplyNetworkConfig(w, tunName, config, plan, killSwitchEnabled);
    if exit.Finished? {
      ghost var os0 := w.os;
      InForceIsRunning(ctx, killSwitchEnabled);
      RunningIsCovered(ctx);
      var _ := CleanupNetworkConfig(w, ctx.adapter, ctx.state, ctx.guard, base);
      if w.undoFailures == 0 {
        RollbackRestoresBase(ctx.adapter, base, ctx.state, os0, Idle);
        RulesWereThere(ctx.adapter, base.nrpt, w.os.nrpt);
      }
    }
  }

  lemma InForceIsRunning(ctx: ApplyContext, killSwitchEnabled: bool)
    requires ctx.InForce(killSwitchEnabled)
    ensures ctx.Running() && ctx.state.addresses == ctx.config.addresses
    ensures ctx.state.routes == EntriesOf(ctx.adapter, ctx.plan.routeOps)
  {
  }

  lemma RulesWereThere(a: Adapter, before: set<NrptRule>, after: set<NrptRule>)
    requires forall r :: r in after ==> r in before || PendingRule(a, Idle, r)
    ensures after <= before
  {
  }

  lemma RunningIsCovered(ctx: ApplyContext)
    requires ctx.Running()
    ensures JournalCovers(ctx.w, ctx.adapter, ctx.base, ctx.state)
    ensures AppliedOver(ctx.adapter, ctx.base, ctx.state, ctx.w.os, Idle, ctx.w.undoFailures)
    ensures ctx.w.step.Idle? && ctx.guard.journal.ledger == ctx.state && ctx.guard.journal.adapter == ctx.adapter
  {
    AppliedIsCovered(ctx.adapter, ctx.base, ctx.state, ctx.w.os, Idle, ctx.w.undoFailures);
    hide AppliedOver, Covered, ListsAllBut, Safe;
  }
}
