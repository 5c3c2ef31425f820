/** What one step of an apply does to the bookkeeping: apply an item, remember it, journal it. */
module WindowsSteps {
  import opened Common
  import opened UndoLog
  import opened WindowsModel
  import opened WindowsDns

  /**
   * The item has been applied and remembered, and `listed` is what the journal holds: with the item or
   * still without it.  Either way the machine is covered, and rolling `l` back would restore the base.
   */
  ghost predicate Stepped(a: Adapter, base: Os, listed: Ledger, l: Ledger, os: Os, step: Step, undoFailures: nat) {
    && ListsAllBut(a, listed, l, step) && ListsAllBut(a, l, l, step)
    && Covered(a, base, listed, os, step, undoFailures)
    && Covered(a, base, l, os, step, undoFailures)
    && AppliedOver(a, base, l, os, step, undoFailures)
    && AppliedOver(a, base, l, os, Idle, undoFailures)
  }

  /** A call that changed nothing leaves everything as it was. */
  lemma NothingHappened(a: Adapter, base: Os, l: Ledger, os: Os, step: Step, undoFailures: nat)
    requires AppliedOver(a, base, l, os, Idle, undoFailures)
    ensures Covered(a, base, l, os, step, undoFailures) && AppliedOver(a, base, l, os, step, undoFailures)
    ensures ListsAllBut(a, l, l, step)
  {
  }

  /** The item is on the machine, and the journal may or may not list it yet. */
  ghost predicate Pending(a: Adapter, base: Os, listed: Ledger, l: Ledger, os: Os, step: Step, undoFailures: nat) {
    ListsAllBut(a, listed, l, step) && Covered(a, base, listed, os, step, undoFailures)
  }

  lemma PendingIsStepped(a: Adapter, base: Os, listed: Ledger, l: Ledger, os: Os, step: Step, undoFailures: nat)
    requires AppliedOver(a, base, l, os, Idle, undoFailures) && Pending(a, base, listed, l, os, step, undoFailures)
    ensures Stepped(a, base, listed, l, os, step, undoFailures)
  {
    NothingHappened(a, base, l, os, step, undoFailures);
    hide AppliedOver, Covered, ListsAllBut;
  }

  function WithAddress(a: Adapter, os: Os, x: Cidr): Os {
    os.(addresses := os.addresses + {ToAddressRow(a, x)})
  }

  lemma AddressApplied(a: Adapter, base: Os, l: Ledger, os: Os, x: Cidr, undoFailures: nat)
    requires AppliedOver(a, base, l, os, Idle, undoFailures)
    ensures var (l', os') := (l.(addresses := l.addresses + [x]), WithAddress(a, os, x));
      AppliedOver(a, base, l', os', Idle, undoFailures) && Pending(a, base, l, l', os', AddingAddress(x), undoFailures)
  {
    assert AddressRows(a, l.addresses + [x]) == AddressRows(a, l.addresses) + {ToAddressRow(a, x)};
    hide AddressRows, RouteRows, Merge, NamesRule;
  }

  lemma AddressStep(a: Adapter, base: Os, l: Ledger, os: Os, x: Cidr, undoFailures: nat)
    requires AppliedOver(a, base, l, os, Idle, undoFailures)
    ensures Stepped(a, base, l, l.(addresses := l.addresses + [x]), WithAddress(a, os, x), AddingAddress(x),
                    undoFailures)
  {
    hide AppliedOver, Pending, Stepped;
    AddressApplied(a, base, l, os, x, undoFailures);
    PendingIsStepped(a, base, l, l.(addresses := l.addresses + [x]), WithAddress(a, os, x), AddingAddress(x),
                     undoFailures);
  }

  lemma RouteRowsAppend(s: seq<RouteEntry>, e: RouteEntry)
    ensures RouteRows(s + [e]) == RouteRows(s) + {ToRouteRow(e)}
  {
  }

  /** A route of either kind joins its list. */
  lemma RouteApplied(a: Adapter, base: Os, l: Ledger, l': Ledger, os: Os, e: RouteEntry, undoFailures: nat)
    requires AppliedOver(a, base, l, os, Idle, undoFailures)
    requires l' == l.(routes := l.routes + [e]) || l' == l.(bypassRoutes := l.bypassRoutes + [e])
    ensures var os' := os.(routes := os.routes + {ToRouteRow(e)});
      AppliedOver(a, base, l', os', Idle, undoFailures) && Pending(a, base, l, l', os', AddingRoute(e), undoFailures)
  {
    RouteRowsAppend(l.routes, e);
    RouteRowsAppend(l.bypassRoutes, e);
    hide AddressRows, RouteRows, Merge, NamesRule;
    assert RouteRows(l'.bypassRoutes) + RouteRows(l'.routes) ==
      RouteRows(l.bypassRoutes) + RouteRows(l.routes) + {ToRouteRow(e)};
  }

  lemma RouteStep(a: Adapter, base: Os, l: Ledger, os: Os, e: RouteEntry, undoFailures: nat)
    requires AppliedOver(a, base, l, os, Idle, undoFailures)
    ensures Stepped(a, base, l, l.(routes := l.routes + [e]), os.(routes := os.routes + {ToRouteRow(e)}),
                    AddingRoute(e), undoFailures)
  {
    hide AppliedOver, Pending, Stepped;
    var l' := l.(routes := l.routes + [e]);
    RouteApplied(a, base, l, l', os, e, undoFailures);
    PendingIsStepped(a, base, l, l', os.(routes := os.routes + {ToRouteRow(e)}), AddingRoute(e), undoFailures);
  }

  lemma BypassStep(a: Adapter, base: Os, l: Ledger, os: Os, e: RouteEntry, undoFailures: nat)
    requires AppliedOver(a, base, l, os, Idle, undoFailures)
    ensures Stepped(a, base, l, l.(bypassRoutes := l.bypassRoutes + [e]), os.(routes := os.routes + {ToRouteRow(e)}),
                    AddingRoute(e), undoFailures)
  {
    hide AppliedOver, Pending, Stepped;
    var l' := l.(bypassRoutes := l.bypassRoutes + [e]);
    RouteApplied(a, base, l, l', os, e, undoFailures);
    PendingIsStepped(a, base, l, l', os.(routes := os.routes + {ToRouteRow(e)}), AddingRoute(e), undoFailures);
  }

  /** The metric tables alone: before the write, after it, and with the write recorded. */
  lemma MetricTables(a: Adapter, base: map<MetricKey, Metric>, metrics: seq<MetricUndo>, t: map<MetricKey, Metric>,
                     f: Family, m: Metric)
    requires AgreesOutside(base, t + Merge(MetricLog(a, metrics)), {})
    requires MetricKey(a.luid, f) in t
    ensures var key := MetricKey(a.luid, f);
      var log := MetricLog(a, metrics + [MetricUndo(f, t[key])]);
      && AgreesOutside(base, t[key := m] + Merge(MetricLog(a, metrics)), {key})
      && AgreesOutside(base, t[key := m] + Merge(log), {})
      && Merge(log).Keys == Merge(MetricLog(a, metrics)).Keys + {key}
  {
    var key := MetricKey(a.luid, f);
    var u := MetricUndo(f, t[key]);
    var before := MetricLog(a, metrics);
    assert MetricLog(a, metrics + [u]) == before + [MetricOriginals(a, u)];
    RecordThenUndo(before, t, t[key := m], MetricOriginals(a, u));
    UnrecordedWrite(before, t, t[key := m], {key});
    MergeAppend(before, MetricOriginals(a, u));
  }

  lemma MetricApplied(a: Adapter, base: Os, l: Ledger, os: Os, f: Family, m: Metric, undoFailures: nat)
    requires AppliedOver(a, base, l, os, Idle, undoFailures)
    requires MetricKey(a.luid, f) in os.metrics
    ensures var key := MetricKey(a.luid, f);
      var (l', os') := (l.(metrics := l.metrics + [MetricUndo(f, os.metrics[key])]),
          os.(metrics := os.metrics[key := m]));
      AppliedOver(a, base, l', os', Idle, undoFailures) && Pending(a, base, l, l', os', SettingMetric(f), undoFailures)
  {
    hide Merge, MetricLog, AddressRows, RouteRows, NamesRule;
    MetricTables(a, base.metrics, l.metrics, os.metrics, f, m);
  }

  lemma MetricStep(a: Adapter, base: Os, l: Ledger, os: Os, f: Family, m: Metric, undoFailures: nat)
    requires AppliedOver(a, base, l, os, Idle, undoFailures)
    requires MetricKey(a.luid, f) in os.metrics
    ensures var key := MetricKey(a.luid, f);
      Stepped(a, base, l, l.(metrics := l.metrics + [MetricUndo(f, os.metrics[key])]),
              os.(metrics := os.metrics[key := m]), SettingMetric(f), undoFailures)
  {
    hide AppliedOver, Pending, Stepped;
    var key := MetricKey(a.luid, f);
    MetricApplied(a, base, l, os, f, m, undoFailures);
    PendingIsStepped(a, base, l, l.(metrics := l.metrics + [MetricUndo(f, os.metrics[key])]),
                     os.(metrics := os.metrics[key := m]), SettingMetric(f), undoFailures);
  }

  /** While DNS settings are being applied, only the adapter's own settings may be off. */
  lemma DnsInProgress(a: Adapter, base: Os, l: Ledger, os: Os, dns: DnsTable, undoFailures: nat, now: nat)
    requires AppliedOver(a, base, l, os, Idle, undoFailures) && l.dns.None? && undoFailures <= now
    requires AgreesOutside(os.dns, dns, AdapterFields(a, os.dns))
    ensures Covered(a, base, l, os.(dns := dns), ApplyingDns, now)
    ensures now > 0 || dns == os.dns ==> AppliedOver(a, base, l, os.(dns := dns), ApplyingDns, now)
    ensures ListsAllBut(a, l, l, ApplyingDns)
  {
    assert dns + map[] == dns && os.dns + map[] == os.dns;
  }

  /** The DNS tables alone: with the entries recorded, undoing leads back to the base. */
  lemma DnsTables(a: Adapter, base: DnsTable, t: DnsTable, dns: DnsTable, entries: seq<DnsEntry>, undoFailures: nat,
                  now: nat)
    requires AgreesOutside(base, t + map[], if undoFailures > 0 then AdapterFields(a, base) else {})
    requires undoFailures <= now && AgreesOutside(t, dns, AdapterFields(a, t))
    requires now == undoFailures ==> Restores(t, entries, dns, DnsGuids(a))
    requires Merge(DnsLog(entries)).Keys <= AdapterFields(a, t)
    ensures AgreesOutside(base, dns + Merge(DnsLog(entries)), if now > 0 then AdapterFields(a, base) else {})
  {
    assert t + map[] == t;
  }

  lemma DnsStep(a: Adapter, base: Os, l: Ledger, os: Os, dns: DnsTable, entries: seq<DnsEntry>, undoFailures: nat,
                now: nat)
    requires AppliedOver(a, base, l, os, Idle, undoFailures) && l.dns.None? && undoFailures <= now
    requires AgreesOutside(os.dns, dns, AdapterFields(a, os.dns))
    requires now == undoFailures ==> Restores(os.dns, entries, dns, DnsGuids(a))
    requires Merge(DnsLog(entries)).Keys <= AdapterFields(a, os.dns)
    ensures Stepped(a, base, l, l.(dns := Some(entries)), os.(dns := dns), ApplyingDns, now)
  {
    hide Merge, DnsLog, AddressRows, RouteRows, NamesRule, Restores;
    DnsInProgress(a, base, l, os, dns, undoFailures, now);
    DnsTables(a, base.dns, os.dns, dns, entries, undoFailures, now);
  }

  /** While the NRPT rule is being applied, rules with our tag may come and go, and no others. */
  ghost predicate NrptChange(a: Adapter, before: set<NrptRule>, after: set<NrptRule>) {
    && (forall r :: r in after ==> r in before || r.comment == NrptTag(a))
    && KeepsForeignRules(a, before, after)
  }

  lemma NrptChangeKeeps(a: Adapter, before: set<NrptRule>, after: set<NrptRule>)
    requires NrptChange(a, before, after)
    ensures KeepsForeignRules(a, before, after)
  {
  }

  lemma NrptInProgress(a: Adapter, base: Os, l: Ledger, os: Os, nrpt: set<NrptRule>, undoFailures: nat)
    requires AppliedOver(a, base, l, os, Idle, undoFailures) && l.nrpt.None? && NrptChange(a, os.nrpt, nrpt)
    ensures Covered(a, base, l, os.(nrpt := nrpt), ApplyingNrpt, undoFailures)
    ensures AppliedOver(a, base, l, os.(nrpt := nrpt), ApplyingNrpt, undoFailures)
    ensures ListsAllBut(a, l, l, ApplyingNrpt)
  {
  }

  predicate RuleInPlace(n: Option<NrptState>, servers: seq<IpAddr>, rules: set<NrptRule>) {
    exists r :: r in rules && NamesRule(n, r) && r.servers == servers
  }

  /** What is recorded for this adapter names rules of this adapter only. */
  ghost predicate NamesOwnRules(a: Adapter, n: NrptState, rules: set<NrptRule>) {
    n.tag == NrptTag(a) && forall r :: r in rules && NamesRule(Some(n), r) ==> !ForeignRule(a, r)
  }

  lemma NrptStep(a: Adapter, base: Os, l: Ledger, os: Os, nrpt: set<NrptRule>, n: NrptState, undoFailures: nat)
    requires AppliedOver(a, base, l, os, Idle, undoFailures) && l.nrpt.None? && NrptChange(a, os.nrpt, nrpt)
    requires NamesOwnRules(a, n, nrpt)
    ensures Stepped(a, base, l, l.(nrpt := Some(n)), os.(nrpt := nrpt), ApplyingNrpt, undoFailures)
  {
    NrptInProgress(a, base, l, os, nrpt, undoFailures);
  }

  lemma DnsGuardStep(a: Adapter, base: Os, l: Ledger, os: Os, ids: seq<nat>, undoFailures: nat)
    requires AppliedOver(a, base, l, os, Idle, undoFailures) && l.dnsGuard.None? && ToSet(ids) !! os.filters
    ensures Stepped(a, base, l, l.(dnsGuard := Some(ids)), os.(filters := os.filters + ToSet(ids)), ApplyingDnsGuard,
                    undoFailures)
  {
  }
}
