/**
 * The part of a Windows machine that a network apply changes, what the pipeline remembers about its
 * changes, and the pure meaning of undoing them.
 */
module WindowsModel {
  import opened Common
  import opened UndoLog

  type Guid = string

  datatype Adapter = Adapter(ifIndex: nat, luid: nat, guid: Guid, dnsGuidFallback: Option<Guid>)

  /** One unicast address of one adapter. */
  datatype AddressRow = AddressRow(luid: nat, address: Cidr)

  /** A route as the pipeline describes it. */
  datatype RouteEntry = RouteEntry(dest: IpAddr, prefix: nat, nextHop: Option<IpAddr>, ifIndex: nat, luid: nat)

  /** A route as the system tables it: an absent next hop and the unspecified one are the same row. */
  datatype RouteRow = RouteRow(dest: IpAddr, prefix: nat, nextHop: IpAddr, ifIndex: nat, luid: nat)

  datatype MetricKey = MetricKey(luid: nat, family: Family)
  datatype Metric = Metric(auto: bool, value: nat)
  datatype MetricUndo = MetricUndo(family: Family, original: Metric)

  /** DNS settings of an interface; the "disable unconstrained queries" flag has no family. */
  datatype DnsField =
    | NameServer(guid: Guid, family: Family)
    | SearchList(guid: Guid, family: Family)
    | DisableUnconstrained(guid: Guid)

  datatype DnsValue = Text(text: Option<string>) | Number(number: nat)

  type DnsTable = map<DnsField, DnsValue>

  datatype DnsEntry = DnsEntry(
    guid: Guid,
    family: Family,
    touchedNameServer: bool,
    touchedSearch: bool,
    touchedDisableUnconstrained: bool,
    originalNameServer: Option<string>,
    originalSearchList: Option<string>,
    originalDisableUnconstrained: nat)

  datatype NrptRule = NrptRule(name: string, comment: string, servers: seq<IpAddr>)
  datatype NrptState = NrptState(ruleNames: seq<string>, tag: string)

  /** The observable system state. */
  datatype Os = Os(
    addresses: set<AddressRow>,
    routes: set<RouteRow>,
    metrics: map<MetricKey, Metric>,
    dns: DnsTable,
    nrpt: set<NrptRule>,
    filters: set<nat>)

  /** What has been applied: the body of the in-memory state and of the journal alike. */
  datatype Ledger = Ledger(
    addresses: seq<Cidr>,
    routes: seq<RouteEntry>,
    bypassRoutes: seq<RouteEntry>,
    metrics: seq<MetricUndo>,
    dns: Option<seq<DnsEntry>>,
    nrpt: Option<NrptState>,
    dnsGuard: Option<seq<nat>>)

  const EMPTY_LEDGER := Ledger([], [], [], [], None, None, None)

  datatype Phase = Applying | Running | Stopping

  datatype Journal = Journal(phase: Phase, tunName: string, adapter: Adapter, ledger: Ledger)

  /** The item whose step is in progress: changed on the machine, perhaps not yet in the journal. */
  datatype Step =
    | Preparing
    | Idle
    | AddingAddress(address: Cidr)
    | SettingMetric(family: Family)
    | AddingRoute(route: RouteEntry)
    | ApplyingDns
    | ApplyingNrpt
    | ApplyingDnsGuard

  /**
   * What a crash at one point of a run leaves behind, how many undo calls had failed by then, and what the
   * journal listed when the run removed it.
   */
  datatype Snapshot = Snapshot(os: Os, journal: Option<Journal>, step: Step, undoFailures: nat, dropped: Ledger)

  // ---------------------------------------------------------------- rows and logs

  function ToAddressRow(a: Adapter, address: Cidr): AddressRow {
    AddressRow(a.luid, address)
  }

  function ToRouteRow(e: RouteEntry): RouteRow {
    RouteRow(e.dest, e.prefix, if e.nextHop.Some? then e.nextHop.value else UnspecifiedLike(e.dest), e.ifIndex, e.luid)
  }

  function AddressRows(a: Adapter, s: seq<Cidr>): set<AddressRow> {
    set address | address in s :: ToAddressRow(a, address)
  }

  function RouteRows(s: seq<RouteEntry>): set<RouteRow> {
    set e | e in s :: ToRouteRow(e)
  }

  function MetricOriginals(a: Adapter, u: MetricUndo): map<MetricKey, Metric> {
    map[MetricKey(a.luid, u.family) := u.original]
  }

  function MetricLog(a: Adapter, s: seq<MetricUndo>): (r: seq<map<MetricKey, Metric>>)
    ensures |r| == |s|
  {
    seq(|s|, i requires 0 <= i < |s| => MetricOriginals(a, s[i]))
  }

  /** The settings one entry puts back, keyed by the fields it touched. */
  function DnsOriginals(e: DnsEntry): DnsTable {
    (if e.touchedNameServer then map[NameServer(e.guid, e.family) := Text(e.originalNameServer)] else map[])
    + (if e.touchedSearch then map[SearchList(e.guid, e.family) := Text(e.originalSearchList)] else map[])
    + (if e.touchedDisableUnconstrained
       then map[DisableUnconstrained(e.guid) := Number(e.originalDisableUnconstrained)] else map[])
  }

  function DnsLog(s: seq<DnsEntry>): (r: seq<DnsTable>)
    ensures |r| == |s|
  {
    seq(|s|, i requires 0 <= i < |s| => DnsOriginals(s[i]))
  }

  function MetricUndoTable(a: Adapter, l: Ledger): map<MetricKey, Metric> {
    Merge(MetricLog(a, l.metrics))
  }

  function DnsUndoTable(l: Ledger): DnsTable {
    if l.dns.None? then map[] else Merge(DnsLog(l.dns.value))
  }

  /** The rules a recorded NRPT state names, by rule name or by tag. */
  predicate NamesRule(n: Option<NrptState>, r: NrptRule) {
    n.Some? && (r.name in n.value.ruleNames || r.comment == n.value.tag)
  }

  function WithoutRules(n: Option<NrptState>, rules: set<NrptRule>): set<NrptRule> {
    set r | r in rules && !NamesRule(n, r)
  }

  function Filters(l: Ledger): set<nat> {
    if l.dnsGuard.None? then {} else ToSet(l.dnsGuard.value)
  }

  // ---------------------------------------------------------------- undoing

  /** The state that undoing every item of a ledger leaves, when every undo call succeeds. */
  function Rollback(a: Adapter, l: Ledger, os: Os): Os {
    Os(os.addresses - AddressRows(a, l.addresses),
       os.routes - RouteRows(l.bypassRoutes) - RouteRows(l.routes),
       os.metrics + MetricUndoTable(a, l),
       os.dns + DnsUndoTable(l),
       WithoutRules(l.nrpt, os.nrpt),
       os.filters - Filters(l))
  }

  /** `after` is what undo work on the items of `l`, complete or not and failing or not, may make of `before`. */
  ghost predicate PartlyUndone(a: Adapter, l: Ledger, before: Os, after: Os) {
    && before.addresses - AddressRows(a, l.addresses) <= after.addresses <= before.addresses
    && before.routes - RouteRows(l.bypassRoutes) - RouteRows(l.routes) <= after.routes <= before.routes
    && AgreesOutside(before.metrics, after.metrics, MetricUndoTable(a, l).Keys)
    && AgreesOutside(before.dns, after.dns, DnsUndoTable(l).Keys)
    && WithoutRules(l.nrpt, before.nrpt) <= after.nrpt <= before.nrpt
    && before.filters - Filters(l) <= after.filters <= before.filters
  }

  /** A full undo after an interrupted or partly failed one ends where a full undo alone would. */
  lemma RollbackAbsorbsPartialUndo(a: Adapter, l: Ledger, before: Os, after: Os)
    requires PartlyUndone(a, l, before, after)
    ensures Rollback(a, l, after) == Rollback(a, l, before)
  {
    UndoAbsorbs(MetricLog(a, l.metrics), before.metrics, after.metrics);
    assert after.dns + DnsUndoTable(l) == before.dns + DnsUndoTable(l);
    assert WithoutRules(l.nrpt, after.nrpt) == WithoutRules(l.nrpt, before.nrpt);
    assert Rollback(a, l, after).addresses == Rollback(a, l, before).addresses;
    assert Rollback(a, l, after).routes == Rollback(a, l, before).routes;
    assert Rollback(a, l, after).filters == Rollback(a, l, before).filters;
  }

  /** Undoing twice is undoing once. */
  lemma RollbackIsIdempotent(a: Adapter, l: Ledger, os: Os)
    requires MetricUndoTable(a, l).Keys <= os.metrics.Keys && DnsUndoTable(l).Keys <= os.dns.Keys
    ensures PartlyUndone(a, l, os, Rollback(a, l, os))
    ensures Rollback(a, l, Rollback(a, l, os)) == Rollback(a, l, os)
  {
    RollbackAbsorbsPartialUndo(a, l, os, Rollback(a, l, os));
  }

  // ---------------------------------------------------------------- repairing

  /** What the tag of every NRPT rule of a run begins with, whatever adapter the rule is for. */
  const NRPT_TAG_PREFIX := "r-wg-nrpt-"

  /** The machine without the NRPT rules of any run. */
  function WithoutStaleRules(os: Os): Os {
    os.(nrpt := set r | r in os.nrpt && !(NRPT_TAG_PREFIX <= r.comment))
  }

  /**
   * `after` is what a startup repair from `l`, complete or not and failing or not, may make of `before`: it first
   * removes the rules of all runs, and then undoes the items of `l`.
   */
  ghost predicate PartlyRepaired(a: Adapter, l: Ledger, before: Os, after: Os) {
    && PartlyUndone(a, l, before.(nrpt := after.nrpt), after)
    && WithoutRules(l.nrpt, WithoutStaleRules(before).nrpt) <= after.nrpt <= before.nrpt
  }

  /** A full repair after an interrupted or partly failed one ends where a full repair alone would. */
  lemma RepairAbsorbsPartialRepair(a: Adapter, l: Ledger, before: Os, after: Os)
    requires PartlyRepaired(a, l, before, after)
    ensures Rollback(a, l, WithoutStaleRules(after)) == Rollback(a, l, WithoutStaleRules(before))
  {
    RollbackAbsorbsPartialUndo(a, l, before.(nrpt := after.nrpt), after);
    assert WithoutRules(l.nrpt, WithoutStaleRules(after).nrpt) == WithoutRules(l.nrpt, WithoutStaleRules(before).nrpt);
    var r, r0 := Rollback(a, l, after), Rollback(a, l, before.(nrpt := after.nrpt));
    var s, s0 := Rollback(a, l, WithoutStaleRules(after)), Rollback(a, l, WithoutStaleRules(before));
    assert s == r.(nrpt := s.nrpt) && s0 == r0.(nrpt := s0.nrpt);
  }

  /** Any number of interrupted repairs followed by a full one gives what one full repair gives. */
  lemma {:induction false} RepairIsRestartable(a: Adapter, l: Ledger, states: seq<Os>)
    requires |states| > 0
    requires forall i :: 0 <= i < |states| - 1 ==> PartlyRepaired(a, l, states[i], states[i + 1])
    ensures PartlyRepaired(a, l, states[0], states[|states| - 1])
    ensures Rollback(a, l, WithoutStaleRules(states[|states| - 1])) == Rollback(a, l, WithoutStaleRules(states[0]))
    decreases |states|
  {
    if |states| > 1 {
      RepairIsRestartable(a, l, states[..|states| - 1]);
      RepairsAreOne(a, l, states[0], states[|states| - 2], states[|states| - 1]);
      RepairAbsorbsPartialRepair(a, l, states[|states| - 2], states[|states| - 1]);
    }
  }

  /** Two partial repairs, one after the other, are one. */
  lemma RepairsAreOne(a: Adapter, l: Ledger, before: Os, mid: Os, after: Os)
    requires PartlyRepaired(a, l, before, mid) && PartlyRepaired(a, l, mid, after)
    ensures PartlyRepaired(a, l, before, after)
  {
    hide Merge, MetricLog, DnsLog, AddressRows, RouteRows, Filters;
    forall r | r in WithoutRules(l.nrpt, WithoutStaleRules(before).nrpt) ensures r in after.nrpt {
      assert r in mid.nrpt;
      assert r in WithoutStaleRules(mid).nrpt;
    }
  }

  // ---------------------------------------------------------------- a run in progress

  /** Tag of the NRPT rules of one adapter. */

  function NrptTag(a: Adapter): string {
    "r-wg-nrpt-if" + Decimal(a.ifIndex)
  }

  function GuidOf(f: DnsField): Guid {
    match f
    case NameServer(g, _) => g
    case SearchList(g, _) => g
    case DisableUnconstrained(g) => g
  }

  /** The DNS settings of one adapter's interfaces. */
  function AdapterFields(a: Adapter, t: DnsTable): set<DnsField> {
    set f | f in t && (GuidOf(f) == a.guid || Some(GuidOf(f)) == a.dnsGuidFallback)
  }

  /** What belongs to the one item in progress. */
  function PendingAddresses(a: Adapter, s: Step): set<AddressRow> {
    if s.AddingAddress? then {ToAddressRow(a, s.address)} else {}
  }

  function PendingRoutes(s: Step): set<RouteRow> {
    if s.AddingRoute? then {ToRouteRow(s.route)} else {}
  }

  function PendingMetrics(a: Adapter, s: Step): set<MetricKey> {
    if s.SettingMetric? then {MetricKey(a.luid, s.family)} else {}
  }

  /** DNS settings may also be left over where a revert has failed. */
  function PendingDns(a: Adapter, t: DnsTable, s: Step, undoFailures: nat): set<DnsField> {
    if s.ApplyingDns? || undoFailures > 0 then AdapterFields(a, t) else {}
  }

  predicate PendingRule(a: Adapter, s: Step, r: NrptRule) {
    s.ApplyingNrpt? && r.comment == NrptTag(a)
  }

  /** Rules that this adapter's runs have no business with. */
  predicate ForeignRule(a: Adapter, r: NrptRule) {
    r.comment != NrptTag(a)
  }

  ghost predicate KeepsForeignRules(a: Adapter, before: set<NrptRule>, after: set<NrptRule>) {
    forall r :: r in before && ForeignRule(a, r) ==> r in after
  }

  /** What the ledger would have undone is not what was there before: no foreign rule, no foreign filter. */
  ghost predicate OwnItems(a: Adapter, base: Os, l: Ledger) {
    && (forall r :: r in base.nrpt && ForeignRule(a, r) ==> !NamesRule(l.nrpt, r))
    && Filters(l) !! base.filters
  }

  /**
   * `os` is `base` with exactly the items of the ledger applied: rows added, settings that the undo
   * tables lead back to their base values, and no NRPT rule beyond the recorded and the pending ones.
   */
  ghost predicate AppliedOver(a: Adapter, base: Os, l: Ledger, os: Os, step: Step, undoFailures: nat) {
    && os.addresses == base.addresses + AddressRows(a, l.addresses)
    && os.routes == base.routes + RouteRows(l.bypassRoutes) + RouteRows(l.routes)
    && AgreesOutside(base.metrics, os.metrics + MetricUndoTable(a, l), {})
    && AgreesOutside(base.dns, os.dns + DnsUndoTable(l), if undoFailures > 0 then AdapterFields(a, base.dns) else {})
    && (forall r :: r in WithoutRules(l.nrpt, os.nrpt) ==> r in base.nrpt || PendingRule(a, step, r))
    && KeepsForeignRules(a, base.nrpt, os.nrpt)
    && os.filters == base.filters + Filters(l)
    && OwnItems(a, base, l)
  }

  /** Rolling a run back restores its settings and removes its rows; a row that was there before goes too. */
  lemma RollbackRestoresBase(a: Adapter, base: Os, l: Ledger, os: Os, step: Step)
    requires AppliedOver(a, base, l, os, step, 0)
    ensures var r := Rollback(a, l, os);
      && r.addresses == base.addresses - AddressRows(a, l.addresses)
      && r.routes == base.routes - RouteRows(l.bypassRoutes) - RouteRows(l.routes)
      && r.metrics == base.metrics && r.dns == base.dns && r.filters == base.filters
      && (forall rule :: rule in r.nrpt ==> rule in base.nrpt || PendingRule(a, step, rule))
      && KeepsForeignRules(a, base.nrpt, r.nrpt)
  {
    var r := Rollback(a, l, os);
    assert r.filters == base.filters;
    assert r.addresses == base.addresses - AddressRows(a, l.addresses);
    assert r.routes == base.routes - RouteRows(l.bypassRoutes) - RouteRows(l.routes);
  }

  /** Addresses and routes come back exactly where none of the applied rows was there before the run. */
  lemma RollbackExactIffRowsWereNew(a: Adapter, base: Os, l: Ledger, os: Os, step: Step)
    requires AppliedOver(a, base, l, os, step, 0)
    ensures var r := Rollback(a, l, os);
      r.addresses == base.addresses && r.routes == base.routes
      <==> base.addresses !! AddressRows(a, l.addresses)
           && base.routes !! RouteRows(l.bypassRoutes) + RouteRows(l.routes)
  {
    RollbackRestoresBase(a, base, l, os, step);
    var r := Rollback(a, l, os);
    if r.addresses == base.addresses && r.routes == base.routes {
      forall x | x in base.addresses ensures x !in AddressRows(a, l.addresses) {
        assert x in r.addresses;
      }
      forall x | x in base.routes ensures x !in RouteRows(l.bypassRoutes) + RouteRows(l.routes) {
        assert x in r.routes;
      }
    }
  }

  /** A wanted address that the adapter had before the run is taken away by the rollback. */
  lemma RollbackTakesAnExistingAddress(a: Adapter, x: Cidr)
    ensures var base := Os({ToAddressRow(a, x)}, {}, map[], map[], {}, {});
      var l := EMPTY_LEDGER.(addresses := [x]);
      AppliedOver(a, base, l, base, Idle, 0) && Rollback(a, l, base).addresses == {}
  {
    var base := Os({ToAddressRow(a, x)}, {}, map[], map[], {}, {});
    var l := EMPTY_LEDGER.(addresses := [x]);
    assert AddressRows(a, [x]) == {ToAddressRow(a, x)};
    assert MetricUndoTable(a, l) == map[] && DnsUndoTable(l) == map[];
  }

  // ---------------------------------------------------------------- crash safety

  /** Everything the run changed is listed in the ledger, except at most the item in progress. */
  ghost predicate Accounted(a: Adapter, base: Os, l: Ledger, os: Os, step: Step, undoFailures: nat) {
    && os.addresses <= base.addresses + AddressRows(a, l.addresses) + PendingAddresses(a, step)
    && os.routes <= base.routes + RouteRows(l.bypassRoutes) + RouteRows(l.routes) + PendingRoutes(step)
    && AgreesOutside(base.metrics, os.metrics + MetricUndoTable(a, l), PendingMetrics(a, step))
    && AgreesOutside(base.dns, os.dns + DnsUndoTable(l), PendingDns(a, base.dns, step, undoFailures))
    && (forall r :: r in WithoutRules(l.nrpt, os.nrpt) ==> r in base.nrpt || PendingRule(a, step, r))
    && (!step.ApplyingDnsGuard? ==> os.filters <= base.filters + Filters(l))
  }

  /** Nothing else is gone: what was there before and is no item of the run, listed or in progress, still is. */
  ghost predicate Keeps(a: Adapter, base: Os, l: Ledger, os: Os, step: Step) {
    && base.addresses - AddressRows(a, l.addresses) - PendingAddresses(a, step) <= os.addresses
    && base.routes - RouteRows(l.bypassRoutes) - RouteRows(l.routes) - PendingRoutes(step) <= os.routes
    && KeepsForeignRules(a, base.nrpt, os.nrpt)
    && base.filters <= os.filters
  }

  ghost predicate Covered(a: Adapter, base: Os, l: Ledger, os: Os, step: Step, undoFailures: nat) {
    && Accounted(a, base, l, os, step, undoFailures)
    && Keeps(a, base, l, os, step)
    && OwnItems(a, base, l)
  }

  function JournaledLedger(j: Option<Journal>): Ledger {
    if j.Some? then j.value.ledger else EMPTY_LEDGER
  }

  /**
   * A crash here is repairable up to the item in progress.  While the run is being prepared nothing of
   * it is on the machine, though stale addresses may still be; from then on the journal names this
   * adapter and covers the machine.  Without a journal nothing is left over, unless an undo call failed, and
   * nothing is missing but what the journal listed.
   */
  ghost predicate CrashSafe(a: Adapter, base: Os, s: Snapshot) {
    if s.step.Preparing? then
      s.os == base.(addresses := s.os.addresses) && base.addresses <= s.os.addresses
    else
      match s.journal
      case Some(j) => j.adapter == a && Covered(a, base, j.ledger, s.os, s.step, s.undoFailures)
      case None =>
        && (s.undoFailures == 0 ==> Accounted(a, base, EMPTY_LEDGER, s.os, s.step, 0))
        && Keeps(a, base, s.dropped, s.os, s.step)
  }

  /**
   * What repairing from a ledger leaves: nothing of the run but, at most, the item in progress, and everything
   * else that was there before.
   */
  lemma RepairLeavesAtMostThePendingItem(a: Adapter, base: Os, l: Ledger, os: Os, step: Step, undoFailures: nat)
    requires Covered(a, base, l, os, step, undoFailures)
    ensures var r := Rollback(a, l, os);
      && r.addresses <= base.addresses + PendingAddresses(a, step)
      && r.routes <= base.routes + PendingRoutes(step)
      && AgreesOutside(base.metrics, r.metrics, PendingMetrics(a, step))
      && AgreesOutside(base.dns, r.dns, PendingDns(a, base.dns, step, undoFailures))
      && (forall rule :: rule in r.nrpt ==> rule in base.nrpt || PendingRule(a, step, rule))
      && (!step.ApplyingDnsGuard? ==> r.filters <= base.filters)
      && Keeps(a, base, l, r, step)
  {
  }

  /** The listed ledger holds every setting that `l` holds, except those of the pending item. */
  ghost predicate ListsAllBut(a: Adapter, listed: Ledger, l: Ledger, step: Step) {
    && AddressRows(a, l.addresses) <= AddressRows(a, listed.addresses) + PendingAddresses(a, step)
    && RouteRows(l.bypassRoutes) + RouteRows(l.routes)
      <= RouteRows(listed.bypassRoutes) + RouteRows(listed.routes) + PendingRoutes(step)
    && MetricUndoTable(a, l).Keys <= MetricUndoTable(a, listed).Keys + PendingMetrics(a, step)
    && (DnsUndoTable(l).Keys <= DnsUndoTable(listed).Keys
        || (step.ApplyingDns? && forall f :: f in DnsUndoTable(l) ==>
              GuidOf(f) == a.guid || Some(GuidOf(f)) == a.dnsGuidFallback))
  }

  lemma UndoKeepsAccounted(a: Adapter, base: Os, listed: Ledger, l: Ledger, before: Os, after: Os, step: Step,
                           failuresBefore: nat, failuresAfter: nat)
    requires Accounted(a, base, listed, before, step, failuresBefore)
    requires failuresBefore <= failuresAfter
    requires ListsAllBut(a, listed, l, step) && PartlyUndone(a, l, before, after)
    ensures Accounted(a, base, listed, after, step, failuresAfter)
  {
    hide AddressRows, RouteRows, MetricUndoTable, DnsUndoTable;
  }

  lemma UndoKeepsOthers(a: Adapter, base: Os, listed: Ledger, l: Ledger, before: Os, after: Os, step: Step)
    requires Keeps(a, base, listed, before, step)
    requires ListsAllBut(a, listed, l, step) && PartlyUndone(a, l, before, after) && OwnItems(a, base, l)
    ensures Keeps(a, base, listed, after, step)
  {
    hide AddressRows, RouteRows, MetricUndoTable, DnsUndoTable;
  }

  lemma UndoKeepsCovered(a: Adapter, base: Os, listed: Ledger, l: Ledger, before: Os, after: Os, step: Step,
                         failuresBefore: nat, failuresAfter: nat)
    requires Covered(a, base, listed, before, step, failuresBefore)
    requires failuresBefore <= failuresAfter
    requires ListsAllBut(a, listed, l, step)
    requires PartlyUndone(a, l, before, after) && OwnItems(a, base, l)
    ensures Covered(a, base, listed, after, step, failuresAfter)
  {
    hide Accounted, Keeps, ListsAllBut, PartlyUndone, OwnItems;
    UndoKeepsAccounted(a, base, listed, l, before, after, step, failuresBefore, failuresAfter);
    UndoKeepsOthers(a, base, listed, l, before, after, step);
  }

  lemma AppliedIsCovered(a: Adapter, base: Os, l: Ledger, os: Os, step: Step, undoFailures: nat)
    requires AppliedOver(a, base, l, os, step, undoFailures)
    ensures Covered(a, base, l, os, step, undoFailures) && ListsAllBut(a, l, l, step) && OwnItems(a, base, l)
  {
  }

  /** After a full undo nothing needs listing. */
  lemma UndoneIsAccounted(a: Adapter, base: Os, l: Ledger, os: Os, step: Step)
    requires AppliedOver(a, base, l, os, step, 0)
    ensures Accounted(a, base, EMPTY_LEDGER, Rollback(a, l, os), step, 0)
  {
    RollbackRestoresBase(a, base, l, os, step);
    EmptyLedger(a, Rollback(a, l, os));
    hide AppliedOver, Rollback, PendingRule, PendingDns, WithoutRules, Merge, MetricUndoTable, DnsUndoTable;
  }

  lemma EmptyLedger(a: Adapter, os: Os)
    ensures os.metrics + MetricUndoTable(a, EMPTY_LEDGER) == os.metrics && os.dns + DnsUndoTable(EMPTY_LEDGER) == os.dns
    ensures WithoutRules(EMPTY_LEDGER.nrpt, os.nrpt) == os.nrpt
  {
    assert MetricUndoTable(a, EMPTY_LEDGER) == map[] && DnsUndoTable(EMPTY_LEDGER) == map[];
  }
}
