/** The recovery journal, the rollback of a run, and the repair of an interrupted one. */
module WindowsCleanup {
  import opened Common
  import opened UndoLog
  import opened WindowsModel
  import opened WindowsWorld
  import opened WindowsDns

  ghost predicate UndoesNothing(a: Adapter, l: Ledger) {
    forall os :: Rollback(a, l, os) == os
  }

  /** The in-memory copy of the journal; every change of it is written out at once. */
  class RecoveryGuard {
    var journal: Journal

    constructor (tunName: string, a: Adapter)
      ensures journal == Journal(Applying, tunName, a, EMPTY_LEDGER)
    {
      journal := Journal(Applying, tunName, a, EMPTY_LEDGER);
    }

    static method Begin(w: World, tunName: string, a: Adapter) returns (guard: RecoveryGuard, ok: bool)
      modifies w`journalFile, w`trace, w`log
      ensures fresh(guard) && guard.journal == Journal(Applying, tunName, a, EMPTY_LEDGER)
      ensures w.journalFile == Some(guard.journal) || (!ok && w.journalFile == old(w.journalFile))
      // Whatever an earlier journal listed is listed no more: repairing from the new one leaves it as it is.
      ensures ok ==> UndoesNothing(a, JournaledLedger(w.journalFile))
      ensures w.log == old(w.log).Refuse(!ok)
      ensures w.trace == old(w.trace) + [w.Here()]
    {
      guard := new RecoveryGuard(tunName, a);
      ok := w.WriteJournal(guard.journal);
      forall os ensures Rollback(a, EMPTY_LEDGER, os) == os {
        EmptyRollback(a, os);
      }
    }

    method RecordAddress(w: World, address: Cidr) returns (ok: bool)
      modifies `journal, w`journalFile, w`trace, w`log
      ensures journal == old(journal).(ledger := old(journal.ledger).(
        addresses := old(journal.ledger.addresses) + [address]))
      ensures w.journalFile == Some(journal) || (!ok && w.journalFile == old(w.journalFile))
      ensures w.log == old(w.log).Refuse(!ok)
      ensures w.trace == old(w.trace) + [w.Here()]
    {
      journal := journal.(ledger := journal.ledger.(addresses := journal.ledger.addresses + [address]));
      ok := w.WriteJournal(journal);
    }

    method RecordRoute(w: World, route: RouteEntry) returns (ok: bool)
      modifies `journal, w`journalFile, w`trace, w`log
      ensures journal == old(journal).(ledger := old(journal).ledger.(routes := old(journal).ledger.routes + [route]))
      ensures w.journalFile == Some(journal) || (!ok && w.journalFile == old(w.journalFile))
      ensures w.log == old(w.log).Refuse(!ok)
      ensures w.trace == old(w.trace) + [w.Here()]
    {
      journal := journal.(ledger := journal.ledger.(routes := journal.ledger.routes + [route]));
      ok := w.WriteJournal(journal);
    }

    method RecordBypassRoute(w: World, route: RouteEntry) returns (ok: bool)
      modifies `journal, w`journalFile, w`trace, w`log
      ensures journal == old(journal).(ledger := old(journal.ledger).(
        bypassRoutes := old(journal.ledger.bypassRoutes) + [route]))
      ensures w.journalFile == Some(journal) || (!ok && w.journalFile == old(w.journalFile))
      ensures w.log == old(w.log).Refuse(!ok)
      ensures w.trace == old(w.trace) + [w.Here()]
    {
      journal := journal.(ledger := journal.ledger.(bypassRoutes := journal.ledger.bypassRoutes + [route]));
      ok := w.WriteJournal(journal);
    }

    method RecordMetric(w: World, metric: MetricUndo) returns (ok: bool)
      modifies `journal, w`journalFile, w`trace, w`log
      ensures journal == old(journal).(ledger := old(journal.ledger).(
        metrics := old(journal.ledger.metrics) + [metric]))
      ensures w.journalFile == Some(journal) || (!ok && w.journalFile == old(w.journalFile))
      ensures w.log == old(w.log).Refuse(!ok)
      ensures w.trace == old(w.trace) + [w.Here()]
    {
      journal := journal.(ledger := journal.ledger.(metrics := journal.ledger.metrics + [metric]));
      ok := w.WriteJournal(journal);
    }

    method RecordDns(w: World, dns: seq<DnsEntry>) returns (ok: bool)
      modifies `journal, w`journalFile, w`trace, w`log
      ensures journal == old(journal).(ledger := old(journal).ledger.(dns := Some(dns)))
      ensures w.journalFile == Some(journal) || (!ok && w.journalFile == old(w.journalFile))
      ensures w.log == old(w.log).Refuse(!ok)
      ensures w.trace == old(w.trace) + [w.Here()]
    {
      journal := journal.(ledger := journal.ledger.(dns := Some(dns)));
      ok := w.WriteJournal(journal);
    }

    method RecordNrpt(w: World, nrpt: NrptState) returns (ok: bool)
      modifies `journal, w`journalFile, w`trace, w`log
      ensures journal == old(journal).(ledger := old(journal).ledger.(nrpt := Some(nrpt)))
      ensures w.journalFile == Some(journal) || (!ok && w.journalFile == old(w.journalFile))
      ensures w.log == old(w.log).Refuse(!ok)
      ensures w.trace == old(w.trace) + [w.Here()]
    {
      journal := journal.(ledger := journal.ledger.(nrpt := Some(nrpt)));
      ok := w.WriteJournal(journal);
    }

    method RecordDnsGuard(w: World, filterIds: seq<nat>) returns (ok: bool)
      modifies `journal, w`journalFile, w`trace, w`log
      ensures journal == old(journal).(ledger := old(journal).ledger.(dnsGuard := Some(filterIds)))
      ensures w.journalFile == Some(journal) || (!ok && w.journalFile == old(w.journalFile))
      ensures w.log == old(w.log).Refuse(!ok)
      ensures w.trace == old(w.trace) + [w.Here()]
    {
      journal := journal.(ledger := journal.ledger.(dnsGuard := Some(filterIds)));
      ok := w.WriteJournal(journal);
    }

    method MarkPhase(w: World, phase: Phase) returns (ok: bool)
      modifies `journal, w`journalFile, w`trace, w`log
      ensures journal == old(journal).(phase := phase)
      ensures w.journalFile == Some(journal) || (!ok && w.journalFile == old(w.journalFile))
      ensures w.log == old(w.log).Refuse(!ok)
      ensures w.trace == old(w.trace) + [w.Here()]
    {
      journal := journal.(phase := phase);
      ok := w.WriteJournal(journal);
    }

    /** The saved report goes first: where removing it fails, the journal stays. */
    method Clear(w: World) returns (ok: bool)
      modifies w`reportFile, w`journalFile, w`trace, w`undoFailures, w`dropped, w`log
      ensures w.journalFile == if ok then None else old(w.journalFile)
      ensures w.dropped == if ok then JournaledLedger(old(w.journalFile)) else old(w.dropped)
      ensures w.reportFile == None || (!ok && w.reportFile == old(w.reportFile))
      ensures w.undoFailures == old(w.undoFailures) + if ok then 0 else 1
      ensures w.log == old(w.log).Refuse(!ok)
      ensures |w.trace| > |old(w.trace)| && old(w.trace) <= w.trace && w.Recorded()
      ensures forall i :: |old(w.trace)| <= i < |w.trace| ==> w.trace[i] in [old(w.Here()), w.Here()]
    {
      ok := w.RemoveReport();
      if ok {
        ok := w.RemoveJournal();
      }
    }
  }

  // ---------------------------------------------------------------- undo loops

  /** Since `from`, the run has only undone items of `l`, perhaps with failures. */
  ghost predicate UndoSince(a: Adapter, l: Ledger, before: Snapshot, trace: seq<Snapshot>, from: nat) {
    forall i :: from <= i < |trace| ==>
      && trace[i].journal == before.journal && trace[i].step == before.step
      && before.undoFailures <= trace[i].undoFailures
      && PartlyUndone(a, l, before.os, trace[i].os)
  }

  ghost predicate Undoing(w: World, a: Adapter, l: Ledger, before: Snapshot, from: nat)
    reads w
  {
    && w.journalFile == before.journal && w.step == before.step && before.undoFailures <= w.undoFailures
    && PartlyUndone(a, l, before.os, w.os)
    && UndoSince(a, l, before, w.trace, from)
    && if |w.trace| > from then w.Recorded() else |w.trace| == from && w.Here() == before
  }

  // What has been undone, item by item: a failed call for one item keeps no other from being undone.

  ghost predicate RoutesUndone(entries: seq<RouteEntry>, os: Os, log: CallLog) {
    forall e :: e in entries && ToRouteRow(e) in os.routes ==> UndoRoute(ToRouteRow(e)) in log.stuck
  }

  ghost predicate AddressesUndone(a: Adapter, addresses: seq<Cidr>, os: Os, log: CallLog) {
    forall x :: x in addresses && ToAddressRow(a, x) in os.addresses ==> UndoAddress(ToAddressRow(a, x)) in log.stuck
  }

  ghost predicate MetricsUndone(undo: map<MetricKey, Metric>, metrics: map<MetricKey, Metric>, log: CallLog) {
    forall k :: k in undo && UndoMetric(k) !in log.stuck ==> k in metrics && metrics[k] == undo[k]
  }

  ghost predicate RulesUndone(n: NrptState, os: Os, log: CallLog) {
    && (forall r :: r in os.nrpt && r.name in n.ruleNames ==> UndoRule(r.name) in log.stuck)
    && (forall r :: r in os.nrpt && r.comment == n.tag ==> UndoTag(n.tag) in log.stuck)
  }

  ghost predicate FiltersUndone(filterIds: seq<nat>, os: Os, log: CallLog) {
    forall id :: id in filterIds && id in os.filters ==> UndoFilter(id) in log.stuck || UndoFilters in log.stuck
  }

  ghost predicate RowsAndMetricsUndone(a: Adapter, l: Ledger, os: Os, log: CallLog) {
    && RoutesUndone(l.bypassRoutes, os, log) && RoutesUndone(l.routes, os, log)
    && AddressesUndone(a, l.addresses, os, log)
    && MetricsUndone(MetricUndoTable(a, l), os.metrics, log)
  }

  /** Every item of the ledger is undone, but for those whose own undo call failed. */
  ghost predicate UndoneOrStuck(a: Adapter, l: Ledger, os: Os, log: CallLog) {
    && RowsAndMetricsUndone(a, l, os, log)
    && (l.dns.Some? ==> RestoredOrStuck(DnsUndoTable(l), os.dns, log))
    && (l.nrpt.Some? ==> RulesUndone(l.nrpt.value, os, log))
    && (l.dnsGuard.Some? ==> FiltersUndone(l.dnsGuard.value, os, log))
  }

  /** The rows and metrics, then DNS, rules and filters: what each step has undone stays undone. */
  lemma UndoneInStages(a: Adapter, l: Ledger, os1: Os, log1: CallLog, os2: Os, log2: CallLog, os3: Os, log3: CallLog,
                       os: Os, log: CallLog)
    requires RowsAndMetricsUndone(a, l, os1, log1)
    requires os.addresses == os1.addresses && os.routes == os1.routes && os.metrics == os1.metrics
    requires l.dns.Some? ==> RestoredOrStuck(DnsUndoTable(l), os2.dns, log2)
    requires os.dns == os2.dns
    requires l.nrpt.Some? ==> RulesUndone(l.nrpt.value, os3, log3)
    requires os.nrpt == os3.nrpt
    requires l.dnsGuard.Some? ==> FiltersUndone(l.dnsGuard.value, os, log)
    requires log1.Grows(log2) && log2.Grows(log3) && log3.Grows(log)
    ensures UndoneOrStuck(a, l, os, log)
  {
  }

  lemma UndoneStays(a: Adapter, l: Ledger, os: Os, log1: CallLog, log: CallLog)
    requires UndoneOrStuck(a, l, os, log1) && log1.Grows(log)
    ensures UndoneOrStuck(a, l, os, log)
  {
  }

  lemma RowsStayUndone(a: Adapter, l: Ledger, os1: Os, log1: CallLog, os: Os, log: CallLog)
    requires RowsAndMetricsUndone(a, l, os1, log1) && log1.Grows(log)
    requires os.addresses == os1.addresses && os.routes == os1.routes && os.metrics == os1.metrics
    ensures RowsAndMetricsUndone(a, l, os, log)
  {
  }

  lemma DnsStaysUndone(undo: DnsTable, dns: DnsTable, log1: CallLog, log: CallLog)
    requires RestoredOrStuck(undo, dns, log1) && log1.Grows(log)
    ensures RestoredOrStuck(undo, dns, log)
  {
  }

  lemma StartUndoing(w: World, a: Adapter, l: Ledger)
    ensures Undoing(w, a, l, w.Here(), |w.trace|)
  {
  }

  /** Undoing a DNS, NRPT or filter state that is not there changes nothing. */
  lemma WithoutStateIsUndone(l: Ledger, os: Os)
    ensures l.dns.None? ==> os.dns + DnsUndoTable(l) == os.dns
    ensures l.nrpt.None? ==> WithoutRules(l.nrpt, os.nrpt) == os.nrpt
    ensures l.dnsGuard.None? ==> os.filters - Filters(l) == os.filters
  {
  }

  method DeleteRoutes(w: World, entries: seq<RouteEntry>, ghost a: Adapter, ghost l: Ledger, ghost before: Snapshot,
                      ghost from: nat)
    requires Undoing(w, a, l, before, from)
    requires RouteRows(entries) <= RouteRows(l.bypassRoutes) + RouteRows(l.routes)
    modifies w`os, w`trace, w`undoFailures, w`log
    ensures Undoing(w, a, l, before, from) && old(w.trace) <= w.trace
    ensures w.os == old(w.os).(routes := w.os.routes) && old(w.undoFailures) <= w.undoFailures
    ensures w.undoFailures == old(w.undoFailures) ==> w.os.routes == old(w.os.routes) - RouteRows(entries)
    ensures old(w.log).Grows(w.log) && w.log.refused == old(w.log).refused
    ensures RoutesUndone(entries, w.os, w.log)
    ensures w.os.routes <= old(w.os.routes)
  {
    var i := |entries|;
    while i > 0
      invariant 0 <= i <= |entries|
      invariant old(w.log).Grows(w.log) && w.log.refused == old(w.log).refused
      invariant w.os.routes <= old(w.os.routes)
      invariant RoutesUndone(entries[i..], w.os, w.log)
      invariant Undoing(w, a, l, before, from) && old(w.trace) <= w.trace
      invariant w.os == old(w.os).(routes := w.os.routes) && old(w.undoFailures) <= w.undoFailures
      invariant w.undoFailures == old(w.undoFailures) ==> w.os.routes == old(w.os.routes) - RouteRows(entries[i..])
    {
      i := i - 1;
      assert RouteRows(entries[i..]) == RouteRows(entries[i + 1..]) + {ToRouteRow(entries[i])} by {
        assert entries[i..] == [entries[i]] + entries[i + 1..];
      }
      assert ToRouteRow(entries[i]) in RouteRows(entries);
      var _ := w.DeleteRoute(entries[i]);
    }
    assert entries[0..] == entries;
  }

  method DeleteAddresses(w: World, addresses: seq<Cidr>, a: Adapter, ghost l: Ledger, ghost before: Snapshot,
                         ghost from: nat)
    requires Undoing(w, a, l, before, from)
    requires AddressRows(a, addresses) <= AddressRows(a, l.addresses)
    modifies w`os, w`trace, w`undoFailures, w`log
    ensures Undoing(w, a, l, before, from) && old(w.trace) <= w.trace
    ensures w.os == old(w.os).(addresses := w.os.addresses) && old(w.undoFailures) <= w.undoFailures
    ensures w.undoFailures == old(w.undoFailures) ==> w.os.addresses == old(w.os.addresses) - AddressRows(a, addresses)
    ensures old(w.log).Grows(w.log) && w.log.refused == old(w.log).refused
    ensures AddressesUndone(a, addresses, w.os, w.log)
  {
    for i := 0 to |addresses|
      invariant old(w.log).Grows(w.log) && w.log.refused == old(w.log).refused
      invariant AddressesUndone(a, addresses[..i], w.os, w.log)
      invariant Undoing(w, a, l, before, from) && old(w.trace) <= w.trace
      invariant w.os == old(w.os).(addresses := w.os.addresses) && old(w.undoFailures) <= w.undoFailures
      invariant w.undoFailures == old(w.undoFailures) ==>
                  w.os.addresses == old(w.os.addresses) - AddressRows(a, addresses[..i])
    {
      assert AddressRows(a, addresses[..i + 1]) == AddressRows(a, addresses[..i]) + {ToAddressRow(a, addresses[i])} by {
        assert addresses[..i + 1] == addresses[..i] + [addresses[i]];
      }
      assert ToAddressRow(a, addresses[i]) in AddressRows(a, addresses);
      var _ := w.DeleteAddress(ToAddressRow(a, addresses[i]), true);
    }
    assert addresses[..|addresses|] == addresses;
  }

  /** Put one metric back: read the row, then write it with the recorded values. */
  method RestoreMetric(w: World, a: Adapter, u: MetricUndo)
    modifies w`os, w`trace, w`undoFailures, w`log
    ensures w.os == old(w.os).(metrics := w.os.metrics)
    ensures AgreesOutside(old(w.os.metrics), w.os.metrics, MetricOriginals(a, u).Keys)
    ensures old(w.undoFailures) <= w.undoFailures
    ensures w.undoFailures == old(w.undoFailures) ==> w.os.metrics == old(w.os.metrics) + MetricOriginals(a, u)
    ensures old(w.trace) < w.trace && w.Recorded()
    ensures forall i :: |old(w.trace)| <= i < |w.trace| ==>
      && w.trace[i].journal == w.journalFile && w.trace[i].step == w.step
          && old(w.undoFailures) <= w.trace[i].undoFailures
      && w.trace[i].os == old(w.os).(metrics := w.trace[i].os.metrics)
      && AgreesOutside(old(w.os.metrics), w.trace[i].os.metrics, MetricOriginals(a, u).Keys)
    ensures old(w.log).Grows(w.log) && w.log.refused == old(w.log).refused
    ensures MetricsUndone(MetricOriginals(a, u), w.os.metrics, w.log)
  {
    var key := MetricKey(a.luid, u.family);
    var row := w.GetMetric(key, true);
    if row.Some? {
      var _ := w.SetMetric(key, u.original, true);
    }
  }

  method RestoreMetrics(w: World, metrics: seq<MetricUndo>, a: Adapter, ghost l: Ledger, ghost before: Snapshot,
                        ghost from: nat)
    requires Undoing(w, a, l, before, from) && metrics == l.metrics
    modifies w`os, w`trace, w`undoFailures, w`log
    ensures Undoing(w, a, l, before, from) && old(w.trace) <= w.trace
    ensures w.os == old(w.os).(metrics := w.os.metrics) && old(w.undoFailures) <= w.undoFailures
    ensures w.undoFailures == old(w.undoFailures) ==> w.os.metrics == old(w.os.metrics) + MetricUndoTable(a, l)
    ensures old(w.log).Grows(w.log) && w.log.refused == old(w.log).refused
    ensures MetricsUndone(MetricUndoTable(a, l), w.os.metrics, w.log)
  {
    var i := |metrics|;
    ghost var log, t0 := MetricLog(a, metrics), w.os.metrics;
    while i > 0
      invariant 0 <= i <= |metrics|
      invariant old(w.log).Grows(w.log) && w.log.refused == old(w.log).refused
      invariant MetricsUndone(Merge(log[i..]), w.os.metrics, w.log)
      invariant Undoing(w, a, l, before, from) && old(w.trace) <= w.trace
      invariant w.os == old(w.os).(metrics := w.os.metrics) && old(w.undoFailures) <= w.undoFailures
      invariant w.undoFailures == old(w.undoFailures) ==> w.os.metrics == t0 + Merge(log[i..])
    {
      i := i - 1;
      assert log[i..][1..] == log[i + 1..] && log[i..][0] == MetricOriginals(a, metrics[i]);
      assert Merge(log[i..]) == Merge(log[i + 1..]) + MetricOriginals(a, metrics[i]);
      MergeIsAssociative(t0, Merge(log[i + 1..]), MetricOriginals(a, metrics[i]));
      MergeHasKeys(log, i);
      ghost var metrics1, log1 := w.os.metrics, w.log;
      RestoreMetric(w, a, metrics[i]);
      MetricsUndoneFurther(Merge(log[i + 1..]), MetricOriginals(a, metrics[i]), metrics1, log1, w.os.metrics, w.log);
    }
    assert log[0..] == log;
  }

  lemma MetricsUndoneFurther(later: map<MetricKey, Metric>, originals: map<MetricKey, Metric>,
                             metrics1: map<MetricKey, Metric>, log1: CallLog, metrics: map<MetricKey, Metric>,
                             log: CallLog)
    requires MetricsUndone(later, metrics1, log1) && log1.Grows(log)
    requires AgreesOutside(metrics1, metrics, originals.Keys) && MetricsUndone(originals, metrics, log)
    ensures MetricsUndone(later + originals, metrics, log)
  {
  }

  lemma {:induction false} MergeHasKeys<K(!new), V>(log: seq<map<K, V>>, i: nat)
    requires i < |log|
    ensures log[i].Keys <= Merge(log).Keys
  {
    if i > 0 {
      MergeHasKeys(log[1..], i - 1);
    }
  }

  /** Remove the recorded rules by name, then whatever else carries the tag. */
  method CleanupNrptGuard(w: World, n: NrptState, ghost a: Adapter, ghost l: Ledger, ghost before: Snapshot,
                          ghost from: nat) returns (ok: bool)
    requires Undoing(w, a, l, before, from) && l.nrpt == Some(n)
    modifies w`os, w`trace, w`undoFailures, w`log
    ensures Undoing(w, a, l, before, from) && old(w.trace) <= w.trace
    ensures w.os == old(w.os).(nrpt := w.os.nrpt) && old(w.undoFailures) <= w.undoFailures
    ensures w.undoFailures == old(w.undoFailures) ==> ok && w.os.nrpt == WithoutRules(Some(n), old(w.os.nrpt))
    ensures old(w.log).Grows(w.log) && (ok <==> w.log.refused == old(w.log).refused)
    ensures RulesUndone(n, w.os, w.log)
  {
    ok := true;
    for i := 0 to |n.ruleNames|
      invariant old(w.log).Grows(w.log) && (ok <==> w.log.refused == old(w.log).refused)
      invariant forall r :: r in w.os.nrpt && r.name in n.ruleNames[..i] ==> UndoRule(r.name) in w.log.stuck
      invariant Undoing(w, a, l, before, from) && old(w.trace) <= w.trace
      invariant w.os == old(w.os).(nrpt := w.os.nrpt) && old(w.undoFailures) <= w.undoFailures
      invariant w.undoFailures == old(w.undoFailures) ==>
                  ok && w.os.nrpt == set r | r in old(w.os.nrpt) && r.name !in n.ruleNames[..i]
    {
      var removed := w.RemoveRule(n.ruleNames[i]);
      if !removed {
        ok := false;
      }
    }
    assert n.ruleNames[..|n.ruleNames|] == n.ruleNames;
    var removed := w.RemoveRulesByTag(n.tag, true);
    if !removed {
      ok := false;
    }
  }

  /** Delete the filters, last first; the first error is reported but does not stop the others. */
  method DeleteFilters(w: World, filterIds: seq<nat>, ghost a: Adapter, ghost l: Ledger, ghost before: Snapshot,
                       ghost from: nat) returns (ok: bool)
    requires Undoing(w, a, l, before, from) && l.dnsGuard == Some(filterIds)
    modifies w`os, w`trace, w`undoFailures, w`log
    ensures Undoing(w, a, l, before, from) && old(w.trace) <= w.trace
    ensures w.os == old(w.os).(filters := w.os.filters) && old(w.undoFailures) <= w.undoFailures
    ensures w.undoFailures == old(w.undoFailures) ==> ok && w.os.filters == old(w.os.filters) - ToSet(filterIds)
    ensures old(w.log).Grows(w.log) && (ok <==> w.log.refused == old(w.log).refused)
    ensures FiltersUndone(filterIds, w.os, w.log)
  {
    hide AddressRows, RouteRows, Merge, MetricUndoTable, DnsUndoTable, WithoutRules, FiltersUndone;
    ok := true;
    var i := |filterIds|;
    NoFiltersLeft(w.os, w.log);
    assert filterIds[i..] == [];
    while i > 0
      invariant 0 <= i <= |filterIds|
      invariant old(w.log).Grows(w.log) && (ok <==> w.log.refused == old(w.log).refused)
      invariant FiltersUndone(filterIds[i..], w.os, w.log)
      invariant Undoing(w, a, l, before, from) && old(w.trace) <= w.trace
      invariant w.os == old(w.os).(filters := w.os.filters) && old(w.undoFailures) <= w.undoFailures
      invariant w.undoFailures == old(w.undoFailures) ==>
                  ok && w.os.filters == old(w.os.filters) - ToSet(filterIds[i..])
    {
      i := i - 1;
      NextFilter(filterIds, i);
      ghost var os1, log1 := w.os, w.log;
      var removed := w.DeleteFilter(filterIds[i]);
      FiltersUndoneFurther(filterIds, i, os1, log1, w.os, w.log);
      if !removed {
        ok := false;
      }
    }
    assert filterIds[0..] == filterIds;
  }

  lemma NextFilter(filterIds: seq<nat>, i: nat)
    requires i < |filterIds|
    ensures ToSet(filterIds[i..]) == ToSet(filterIds[i + 1..]) + {filterIds[i]} && filterIds[i] in ToSet(filterIds)
  {
    assert filterIds[i..] == [filterIds[i]] + filterIds[i + 1..];
  }

  lemma NoFiltersLeft(os: Os, log: CallLog)
    ensures FiltersUndone([], os, log)
  {
  }

  lemma FiltersUndoneFurther(filterIds: seq<nat>, i: nat, os1: Os, log1: CallLog, os: Os, log: CallLog)
    requires i < |filterIds| && FiltersUndone(filterIds[i + 1..], os1, log1) && log1.Grows(log)
    requires os.filters <= os1.filters && (filterIds[i] in os.filters ==> UndoFilter(filterIds[i]) in log.stuck)
    ensures FiltersUndone(filterIds[i..], os, log)
  {
    assert filterIds[i..] == [filterIds[i]] + filterIds[i + 1..];
  }

  lemma FiltersStayUndone(filterIds: seq<nat>, os: Os, log1: CallLog, log: CallLog)
    requires FiltersUndone(filterIds, os, log1) && log1.Grows(log)
    ensures FiltersUndone(filterIds, os, log)
  {
  }

  method CleanupDnsGuard(w: World, filterIds: seq<nat>, ghost a: Adapter, ghost l: Ledger, ghost before: Snapshot,
                         ghost from: nat) returns (ok: bool)
    requires Undoing(w, a, l, before, from) && l.dnsGuard == Some(filterIds)
    modifies w`os, w`trace, w`undoFailures, w`log
    ensures Undoing(w, a, l, before, from) && old(w.trace) <= w.trace
    ensures w.os == old(w.os).(filters := w.os.filters) && old(w.undoFailures) <= w.undoFailures
    ensures w.undoFailures == old(w.undoFailures) ==> ok && w.os.filters == old(w.os.filters) - ToSet(filterIds)
    ensures old(w.log).Grows(w.log) && (ok <==> w.log.refused == old(w.log).refused)
    ensures FiltersUndone(filterIds, w.os, w.log)
  {
    hide PartlyUndone;
    if |filterIds| == 0 {
      return true;
    }
    ok := w.OpenFilterSession();
    if !ok {
      return;
    }
    hide FiltersUndone;
    ok := DeleteFilters(w, filterIds, a, l, before, from);
    ghost var log1 := w.log;
    var closed := w.CloseFilterSession();
    FiltersStayUndone(filterIds, w.os, log1, w.log);
    if !closed {
      ok := false;
    }
  }

  /** `CleanupDns` on a ledger's entries is undo work on that ledger. */
  lemma DnsUndoIsUndo(a: Adapter, l: Ledger, before: Snapshot, mid: Snapshot, trace1: seq<Snapshot>,
                      trace2: seq<Snapshot>, from: nat)
    requires from <= |trace1| && trace1 <= trace2
    requires UndoSince(a, l, before, trace1, from)
    requires mid.journal == before.journal && mid.step == before.step && before.undoFailures <= mid.undoFailures
    requires PartlyUndone(a, l, before.os, mid.os)
    requires OnlyDnsSince(mid, trace2, |trace1|, DnsUndoTable(l).Keys)
    ensures UndoSince(a, l, before, trace2, from)
  {
    forall i | from <= i < |trace2|
      ensures PartlyUndone(a, l, before.os, trace2[i].os)
    {
      if i < |trace1| {
        assert trace2[i] == trace1[i];
      }
    }
  }

  method CleanupDnsState(w: World, entries: seq<DnsEntry>, ghost a: Adapter, ghost l: Ledger, ghost before: Snapshot,
                         ghost from: nat) returns (ok: bool)
    requires Undoing(w, a, l, before, from) && l.dns == Some(entries)
    modifies w`os, w`trace, w`undoFailures, w`log
    ensures Undoing(w, a, l, before, from) && old(w.trace) <= w.trace
    ensures w.os == old(w.os).(dns := w.os.dns) && old(w.undoFailures) <= w.undoFailures
    ensures w.undoFailures == old(w.undoFailures) ==> ok && w.os.dns == old(w.os.dns) + DnsUndoTable(l)
    ensures old(w.log).Grows(w.log) && (ok <==> w.log.refused == old(w.log).refused)
    ensures RestoredOrStuck(DnsUndoTable(l), w.os.dns, w.log)
  {
    ghost var mid, trace1 := w.Here(), w.trace;
    ok := CleanupDns(w, entries);
    DnsUndoIsUndo(a, l, before, mid, trace1, w.trace, from);
  }

  /** Routes, addresses and metrics: failures are logged and passed over. */
  method UndoRowsAndMetrics(w: World, a: Adapter, l: Ledger, ghost before: Snapshot, ghost from: nat)
    requires Undoing(w, a, l, before, from) && w.os == before.os
    modifies w`os, w`trace, w`undoFailures, w`log
    ensures Undoing(w, a, l, before, from) && old(w.trace) <= w.trace && old(w.undoFailures) <= w.undoFailures
    ensures w.os.dns == before.os.dns && w.os.nrpt == before.os.nrpt && w.os.filters == before.os.filters
    ensures w.undoFailures == old(w.undoFailures) ==>
      && w.os.addresses == before.os.addresses - AddressRows(a, l.addresses)
      && w.os.routes == before.os.routes - RouteRows(l.bypassRoutes) - RouteRows(l.routes)
      && w.os.metrics == before.os.metrics + MetricUndoTable(a, l)
    ensures old(w.log).Grows(w.log) && w.log.refused == old(w.log).refused
    ensures RowsAndMetricsUndone(a, l, w.os, w.log)
  {
    DeleteRoutes(w, l.bypassRoutes, a, l, before, from);
    DeleteRoutes(w, l.routes, a, l, before, from);
    DeleteAddresses(w, l.addresses, a, l, before, from);
    RestoreMetrics(w, l.metrics, a, l, before, from);
  }

  // ---------------------------------------------------------------- rollback and repair

  /** Every crash point of the run so far is repairable. */
  ghost predicate Safe(trace: seq<Snapshot>, a: Adapter, base: Os) {
    forall i :: 0 <= i < |trace| ==> CrashSafe(a, base, trace[i])
  }

  /** Undo every item of the run; a failure is passed over. */
  method UndoAll(w: World, a: Adapter, l: Ledger, ghost before: Snapshot, ghost from: nat)
    requires Undoing(w, a, l, before, from) && w.os == before.os
    modifies w`os, w`trace, w`undoFailures, w`log
    ensures Undoing(w, a, l, before, from) && old(w.trace) <= w.trace && old(w.undoFailures) <= w.undoFailures
    ensures w.undoFailures == old(w.undoFailures) ==> w.os == Rollback(a, l, before.os)
    ensures old(w.log).Grows(w.log) && UndoneOrStuck(a, l, w.os, w.log)
  {
    hide Undoing, PartlyUndone, WithoutRules, Merge, MetricUndoTable;
    hide RowsAndMetricsUndone, RestoredOrStuck, RulesUndone, FiltersUndone, UndoneOrStuck;
    UndoRowsAndMetrics(w, a, l, before, from);
    WithoutStateIsUndone(l, before.os);
    ghost var os1, log1 := w.os, w.log;
    if l.dns.Some? {
      var _ := CleanupDnsState(w, l.dns.value, a, l, before, from);
    }
    ghost var os2, log2 := w.os, w.log;
    if l.nrpt.Some? {
      var _ := CleanupNrptGuard(w, l.nrpt.value, a, l, before, from);
    }
    ghost var os3, log3 := w.os, w.log;
    if l.dnsGuard.Some? {
      var _ := CleanupDnsGuard(w, l.dnsGuard.value, a, l, before, from);
    }
    UndoneInStages(a, l, os1, log1, os2, log2, os3, log3, w.os, w.log);
  }

  /** The run's journal lists every item of `state` but the pending one, and covers the machine. */
  ghost predicate JournalCovers(w: World, a: Adapter, base: Os, state: Ledger)
    reads w
  {
    && w.journalFile.Some? && w.journalFile.value.adapter == a
    && ListsAllBut(a, w.journalFile.value.ledger, state, w.step)
    && Covered(a, base, w.journalFile.value.ledger, w.os, w.step, w.undoFailures)
    && !w.step.Preparing? && Safe(w.trace, a, base)
  }

  /** Mark the journal as stopping and undo every item. */
  method StopAndUndo(w: World, a: Adapter, state: Ledger, guard: RecoveryGuard, ghost base: Os)
    requires guard.journal.ledger == state && guard.journal.adapter == a
    requires AppliedOver(a, base, state, w.os, w.step, w.undoFailures)
    requires JournalCovers(w, a, base, state)
    modifies w, guard
    ensures w.step == old(w.step) && old(w.trace) <= w.trace && old(w.undoFailures) <= w.undoFailures && w.Recorded()
    ensures JournalCovers(w, a, base, state)
    ensures w.undoFailures == 0 ==> w.os == Rollback(a, state, old(w.os))
    ensures w.reportFile == old(w.reportFile)
    ensures old(w.log).Grows(w.log) && UndoneOrStuck(a, state, w.os, w.log)
    ensures guard.journal == old(guard.journal).(phase := Stopping)
    ensures w.journalFile == Some(guard.journal)
            || (w.log.refused > old(w.log).refused && w.journalFile == old(w.journalFile))
  {
    AppliedIsCovered(a, base, state, w.os, w.step, w.undoFailures);
    hide AppliedOver, Covered, ListsAllBut, OwnItems, PartlyUndone, Rollback, UndoSince;
    var _ := guard.MarkPhase(w, Stopping);
    ghost var before, from := w.Here(), |w.trace|;
    StartUndoing(w, a, state);
    UndoAll(w, a, state, before, from);
    UndoKeepsJournalCovers(w, a, base, state, before, from);
  }

  lemma UndoKeepsJournalCovers(w: World, a: Adapter, base: Os, state: Ledger, before: Snapshot, from: nat)
    requires Undoing(w, a, state, before, from) && OwnItems(a, base, state)
    requires before.journal.Some? && before.journal.value.adapter == a && !before.step.Preparing?
    requires ListsAllBut(a, before.journal.value.ledger, state, before.step)
    requires Covered(a, base, before.journal.value.ledger, before.os, before.step, before.undoFailures)
    requires from <= |w.trace| && Safe(w.trace[..from], a, base)
    ensures JournalCovers(w, a, base, state)
  {
    hide Covered, ListsAllBut, OwnItems, PartlyUndone;
    var listed := before.journal.value.ledger;
    UndoStretchIsSafe(a, base, listed, state, before, w.trace, from);
    UndoKeepsCovered(a, base, listed, state, before.os, w.os, before.step, before.undoFailures, w.undoFailures);
  }

  lemma SafeExtends(trace: seq<Snapshot>, longer: seq<Snapshot>, s: Snapshot, s': Snapshot, a: Adapter, base: Os)
    requires Safe(trace, a, base) && CrashSafe(a, base, s) && CrashSafe(a, base, s') && trace <= longer
    requires forall i :: |trace| <= i < |longer| ==> longer[i] in [s, s']
    ensures Safe(longer, a, base)
  {
    hide CrashSafe;
    forall i | 0 <= i < |longer| ensures CrashSafe(a, base, longer[i]) {
      if i < |trace| {
        assert longer[i] == trace[i];
      }
    }
  }

  /** A further failure does not make a state less repairable. */
  lemma MoreFailuresAreSafe(a: Adapter, base: Os, s: Snapshot, undoFailures: nat)
    requires CrashSafe(a, base, s) && s.undoFailures <= undoFailures
    ensures CrashSafe(a, base, s.(undoFailures := undoFailures))
  {
  }

  /** Removing the journal of a fully undone run is safe. */
  lemma JournalGoneIsSafe(a: Adapter, base: Os, l: Ledger, os0: Os, s: Snapshot)
    requires !s.step.Preparing? && s.journal.Some? && CrashSafe(a, base, s)
    requires s.undoFailures == 0 ==> AppliedOver(a, base, l, os0, s.step, 0) && s.os == Rollback(a, l, os0)
    ensures CrashSafe(a, base, s.(journal := None, dropped := JournaledLedger(s.journal)))
  {
    if s.undoFailures == 0 {
      UndoneIsAccounted(a, base, l, os0, s.step);
    }
    hide AppliedOver, Accounted, Keeps, Rollback, OwnItems;
  }

  /** Roll a run back and clear its journal, as a failed apply and a stop do. */
  method CleanupNetworkConfig(w: World, a: Adapter, state: Ledger, guard: RecoveryGuard,
      ghost base: Os) returns (ok: bool)
    requires guard.journal.ledger == state && guard.journal.adapter == a
    requires AppliedOver(a, base, state, w.os, w.step, w.undoFailures)
    requires JournalCovers(w, a, base, state)
    modifies w, guard
    ensures w.step == old(w.step) && old(w.trace) <= w.trace && w.Recorded() && Safe(w.trace, a, base)
    ensures old(w.undoFailures) <= w.undoFailures
    ensures w.undoFailures == 0 ==>
      w.os == Rollback(a, state, old(w.os)) && w.journalFile == None && w.reportFile == None
    ensures w.reportFile == None || w.reportFile == old(w.reportFile)
    ensures old(w.log).Grows(w.log) && UndoneOrStuck(a, state, w.os, w.log)
    ensures ok ==> w.journalFile == None && w.reportFile == None
    ensures w.log.refused == old(w.log).refused ==> ok
    ensures guard.journal == old(guard.journal).(phase := Stopping)
    ensures w.journalFile in [None, old(w.journalFile), Some(guard.journal)]
  {
    hide AppliedOver, Covered, ListsAllBut, OwnItems, Rollback, UndoneOrStuck, Safe;
    StopAndUndo(w, a, state, guard, base);
    ghost var undone, trace1, log1 := w.Here(), w.trace, w.log;
    ok := guard.Clear(w);
    UndoneStays(a, state, w.os, log1, w.log);
    JournalGoneIsSafe(a, base, state, old(w.os), undone);
    MoreFailuresAreSafe(a, base, undone, undone.undoFailures + 1);
    assert w.Here() == if ok then undone.(journal := None, dropped := JournaledLedger(undone.journal))
                       else undone.(undoFailures := undone.undoFailures + 1);
    SafeExtends(trace1, w.trace, undone, w.Here(), a, base);
    if !ok {
      return;
    }
    ghost var cleared, trace2, log2 := w.Here(), w.trace, w.log;
    ok := w.RemoveReport();
    UndoneStays(a, state, w.os, log2, w.log);
    MoreFailuresAreSafe(a, base, cleared, w.undoFailures);
    SafeExtends(trace2, w.trace, cleared, w.Here(), a, base);
  }

  /** Undo work on a run keeps each of its crash points repairable. */
  lemma UndoStretchIsSafe(a: Adapter, base: Os, listed: Ledger, l: Ledger, before: Snapshot, trace: seq<Snapshot>,
                          from: nat)
    requires from <= |trace| && Safe(trace[..from], a, base)
    requires UndoSince(a, l, before, trace, from)
    requires before.journal.Some? && before.journal.value.adapter == a && before.journal.value.ledger == listed
    requires !before.step.Preparing? && Covered(a, base, listed, before.os, before.step, before.undoFailures)
    requires ListsAllBut(a, listed, l, before.step) && OwnItems(a, base, l)
    ensures Safe(trace, a, base)
  {
    hide Covered, ListsAllBut, OwnItems, PartlyUndone;
    forall i | 0 <= i < |trace| ensures CrashSafe(a, base, trace[i]) {
      if i < from {
        assert trace[i] == trace[..from][i];
      } else {
        UndoKeepsCovered(a, base, listed, l, before.os, trace[i].os, before.step, before.undoFailures,
                         trace[i].undoFailures);
      }
    }
  }

  /** Undo what a journal lists; a failure among DNS, NRPT and filters stops the repair. */
  method RepairJournal(w: World, journal: Journal) returns (ok: bool)
    modifies w`os, w`trace, w`undoFailures, w`log
    ensures w.Extends(old(w.trace), old(w.Here()))
    ensures UndoSince(journal.adapter, journal.ledger, old(w.Here()), w.trace, |old(w.trace)|)
    ensures PartlyUndone(journal.adapter, journal.ledger, old(w.os), w.os)
    ensures old(w.undoFailures) <= w.undoFailures
    ensures w.undoFailures == old(w.undoFailures) ==>
              ok && w.os == Rollback(journal.adapter, journal.ledger, old(w.os))
    ensures old(w.log).Grows(w.log) && (ok <==> w.log.refused == old(w.log).refused)
    ensures RowsAndMetricsUndone(journal.adapter, journal.ledger, w.os, w.log)
    ensures journal.ledger.dns.Some? ==> RestoredOrStuck(DnsUndoTable(journal.ledger), w.os.dns, w.log)
    ensures ok ==> UndoneOrStuck(journal.adapter, journal.ledger, w.os, w.log)
  {
    hide PartlyUndone, WithoutRules, Merge, MetricUndoTable, DnsUndoTable, AddressRows, RouteRows;
    hide RowsAndMetricsUndone, RestoredOrStuck, RulesUndone, FiltersUndone, UndoneOrStuck;
    var a, l := journal.adapter, journal.ledger;
    ghost var before, from := w.Here(), |w.trace|;
    StartUndoing(w, a, l);
    UndoRowsAndMetrics(w, a, l, before, from);
    WithoutStateIsUndone(l, before.os);
    ghost var os1, log1 := w.os, w.log;
    ok := true;
    if l.dns.Some? {
      ok := CleanupDnsState(w, l.dns.value, a, l, before, from);
      RowsStayUndone(a, l, os1, log1, w.os, w.log);
      if !ok {
        return;
      }
    }
    ghost var os2, log2 := w.os, w.log;
    ok := UndoGuards(w, a, l, before, from);
    RowsStayUndone(a, l, os1, log1, w.os, w.log);
    if l.dns.Some? {
      DnsStaysUndone(DnsUndoTable(l), w.os.dns, log2, w.log);
    }
    if ok {
      UndoneInStages(a, l, os1, log1, os2, log2, w.os, w.log, w.os, w.log);
    }
  }

  /** The rule and the filters; a failure with the rule leaves the filters. */
  method UndoGuards(w: World, a: Adapter, l: Ledger, ghost before: Snapshot, ghost from: nat) returns (ok: bool)
    requires Undoing(w, a, l, before, from)
    modifies w`os, w`trace, w`undoFailures, w`log
    ensures Undoing(w, a, l, before, from) && old(w.trace) <= w.trace && old(w.undoFailures) <= w.undoFailures
    ensures w.os == old(w.os).(nrpt := w.os.nrpt, filters := w.os.filters)
    ensures w.undoFailures == old(w.undoFailures) ==>
      && ok && w.os.nrpt == WithoutRules(l.nrpt, old(w.os.nrpt)) && w.os.filters == old(w.os.filters) - Filters(l)
    ensures old(w.log).Grows(w.log) && (ok <==> w.log.refused == old(w.log).refused)
    ensures ok && l.nrpt.Some? ==> RulesUndone(l.nrpt.value, w.os, w.log)
    ensures ok && l.dnsGuard.Some? ==> FiltersUndone(l.dnsGuard.value, w.os, w.log)
  {
    hide PartlyUndone, WithoutRules, Merge, MetricUndoTable, DnsUndoTable, Undoing;
    WithoutStateIsUndone(l, w.os);
    ok := true;
    if l.nrpt.Some? {
      ok := CleanupNrptGuard(w, l.nrpt.value, a, l, before, from);
      if !ok {
        return;
      }
    }
    if l.dnsGuard.Some? {
      ok := CleanupDnsGuard(w, l.dnsGuard.value, a, l, before, from);
    }
  }

  /** Repairing from `before`, complete or not and failing or not, may have led to `os`. */
  ghost predicate RepairedSoFar(before: Snapshot, os: Os) {
    match before.journal
    case None =>
      os == before.os.(nrpt := os.nrpt) && WithoutStaleRules(before.os).nrpt <= os.nrpt <= before.os.nrpt
    case Some(j) => PartlyRepaired(j.adapter, j.ledger, before.os, os)
  }

  /** What a full repair makes of it. */
  function Repaired(before: Snapshot): Os {
    match before.journal
    case None => WithoutStaleRules(before.os)
    case Some(j) => Rollback(j.adapter, j.ledger, WithoutStaleRules(before.os))
  }

  /** A crash during a repair finds the journal still there, or else every item undone that could be. */
  ghost predicate RepairStep(before: Snapshot, s: Snapshot) {
    && RepairedSoFar(before, s.os) && before.undoFailures <= s.undoFailures
    && (s.journal == before.journal || s.journal == None)
    && (s.journal != before.journal && s.undoFailures == before.undoFailures ==> s.os == Repaired(before))
  }

  ghost predicate RepairSince(before: Snapshot, trace: seq<Snapshot>, from: nat) {
    forall i :: from <= i < |trace| ==> RepairStep(before, trace[i])
  }

  /** A repair that has begun leads where it would have led from the start. */
  lemma RepairContinues(before: Snapshot, s: Snapshot)
    requires RepairedSoFar(before, s.os) && s.journal == before.journal
    ensures Repaired(s) == Repaired(before)
    ensures forall os :: RepairedSoFar(s, os) ==> RepairedSoFar(before, os)
  {
    match before.journal {
      case None =>
        assert WithoutStaleRules(s.os) == WithoutStaleRules(before.os);
      case Some(j) =>
        RepairAbsorbsPartialRepair(j.adapter, j.ledger, before.os, s.os);
        forall os | RepairedSoFar(s, os) ensures RepairedSoFar(before, os) {
          RepairsAreOne(j.adapter, j.ledger, before.os, s.os, os);
        }
    }
  }

  lemma RulesGone(before: Snapshot, os: Os)
    requires os == before.os.(nrpt := os.nrpt)
    requires WithoutStaleRules(before.os).nrpt <= os.nrpt <= before.os.nrpt
    ensures RepairedSoFar(before, os)
  {
  }

  /** Undo work after the rules have gone is repair work. */
  lemma UndoIsRepair(before: Snapshot, mid: Snapshot, os: Os)
    requires before.journal.Some? && mid.journal == before.journal && mid.os == before.os.(nrpt := mid.os.nrpt)
    requires WithoutStaleRules(before.os).nrpt <= mid.os.nrpt <= before.os.nrpt
    requires PartlyUndone(before.journal.value.adapter, before.journal.value.ledger, mid.os, os)
    ensures RepairedSoFar(before, os)
  {
  }

  /** Repair at service start. */
  method AttemptStartupRepair(w: World) returns (ok: bool)
    modifies w`os, w`journalFile, w`trace, w`undoFailures, w`dropped, w`log
    ensures old(w.trace) <= w.trace && w.Recorded()
    ensures RepairSince(old(w.Here()), w.trace, |old(w.trace)|) && RepairStep(old(w.Here()), w.Here())
    ensures w.undoFailures == old(w.undoFailures) ==>
      ok && w.journalFile == None && w.os == Repaired(old(w.Here()))
    // Failures to undo rows, metrics and stale rules are passed over; every other failure, and no other, is reported.
    ensures ok <==> w.log.refused == 0
    ensures w.journalFile == if ok then None else old(w.journalFile)
    ensures ok && old(w.journalFile).Some? ==>
      UndoneOrStuck(old(w.journalFile).value.adapter, old(w.journalFile).value.ledger, w.os, w.log)
  {
    hide RepairedSoFar, PartlyUndone, Rollback;
    ghost var before, from := w.Here(), |w.trace|;
    w.StartRepair();
    var _ := w.RemoveStaleRules();
    ghost var mid, trace1 := w.Here(), w.trace;
    RulesGone(before, w.os);
    var journal;
    ok, journal := w.LoadJournal();
    if !ok || journal.None? {
      return;
    }
    ok := RepairJournal(w, journal.value);
    forall i | |trace1| <= i < |w.trace| ensures RepairStep(before, w.trace[i]) {
      UndoIsRepair(before, mid, w.trace[i].os);
    }
    UndoIsRepair(before, mid, w.os);
    if !ok {
      return;
    }
    ok := w.RemoveJournal();
  }

  /**
   * Starting again after a crash, whatever earlier attempts at the repair have done: the repair leaves at most
   * the item that was in progress, and no NRPT rule of a run; whatever was there before the run and is no item
   * of it is still there.
   */
  method RepairAfterCrash(w: World, a: Adapter, ghost base: Os, ghost s: Snapshot) returns (ok: bool)
    requires RepairedSoFar(s, w.os) && w.journalFile == s.journal
    requires CrashSafe(a, base, s) && !s.step.Preparing?
    modifies w`os, w`journalFile, w`trace, w`undoFailures, w`dropped, w`log
    ensures RepairedSoFar(s, w.os) && (w.journalFile == s.journal || w.journalFile == None)
    ensures w.undoFailures == old(w.undoFailures) ==> ok && w.journalFile == None && w.os == Repaired(s)
    ensures ok <==> w.log.refused == 0
    ensures ok && s.journal.Some? ==> UndoneOrStuck(s.journal.value.adapter, s.journal.value.ledger, w.os, w.log)
    ensures w.undoFailures == old(w.undoFailures) && (s.journal.Some? || s.undoFailures == 0) ==>
      && w.os.addresses <= base.addresses + PendingAddresses(a, s.step)
      && w.os.routes <= base.routes + PendingRoutes(s.step)
      && AgreesOutside(base.metrics, w.os.metrics, PendingMetrics(a, s.step))
      && AgreesOutside(base.dns, w.os.dns, PendingDns(a, base.dns, s.step, s.undoFailures))
      && w.os.nrpt <= base.nrpt
      && (!s.step.ApplyingDnsGuard? ==> w.os.filters <= base.filters)
    ensures w.undoFailures == old(w.undoFailures) ==>
      var l := if s.journal.Some? then s.journal.value.ledger else s.dropped;
      && base.addresses - AddressRows(a, l.addresses) - PendingAddresses(a, s.step) <= w.os.addresses
      && base.routes - RouteRows(l.bypassRoutes) - RouteRows(l.routes) - PendingRoutes(s.step) <= w.os.routes
      && (forall r :: r in base.nrpt && !(NRPT_TAG_PREFIX <= r.comment) ==> r in w.os.nrpt)
      && base.filters <= w.os.filters
  {
    RepairContinues(s, w.Here());
    ok := AttemptStartupRepair(w);
    assert NRPT_TAG_PREFIX <= NrptTag(a);
    if s.journal.Some? {
      RepairKeepsUntagged(a, base, s.journal.value.ledger, s.os, s.step, s.undoFailures);
    } else if s.undoFailures == 0 {
      AccountedWithoutLedger(a, base, s.os, s.step);
    }
  }

  /** Clearing the rules of all runs first, then what the journal lists. */
  lemma RepairKeepsUntagged(a: Adapter, base: Os, l: Ledger, os: Os, step: Step, undoFailures: nat)
    requires Covered(a, base, l, os, step, undoFailures)
    ensures var r := Rollback(a, l, WithoutStaleRules(os));
      && r.addresses <= base.addresses + PendingAddresses(a, step)
      && r.routes <= base.routes + PendingRoutes(step)
      && AgreesOutside(base.metrics, r.metrics, PendingMetrics(a, step))
      && AgreesOutside(base.dns, r.dns, PendingDns(a, base.dns, step, undoFailures))
      && r.nrpt <= base.nrpt
      && (!step.ApplyingDnsGuard? ==> r.filters <= base.filters)
      && base.addresses - AddressRows(a, l.addresses) - PendingAddresses(a, step) <= r.addresses
      && base.routes - RouteRows(l.bypassRoutes) - RouteRows(l.routes) - PendingRoutes(step) <= r.routes
      && (forall x :: x in base.nrpt && !(NRPT_TAG_PREFIX <= x.comment) ==> x in r.nrpt)
      && base.filters <= r.filters
  {
    RepairLeavesAtMostThePendingItem(a, base, l, os, step, undoFailures);
    assert NRPT_TAG_PREFIX <= NrptTag(a);
    var r, r0 := Rollback(a, l, WithoutStaleRules(os)), Rollback(a, l, os);
    assert r == r0.(nrpt := r.nrpt);
    forall x | x in base.nrpt && !(NRPT_TAG_PREFIX <= x.comment) ensures x in r.nrpt {
      assert ForeignRule(a, x);
    }
  }

  lemma AccountedWithoutLedger(a: Adapter, base: Os, before: Os, step: Step)
    requires Accounted(a, base, EMPTY_LEDGER, before, step, 0)
    ensures var os := WithoutStaleRules(before);
      && os.addresses <= base.addresses + PendingAddresses(a, step) && os.routes <= base.routes + PendingRoutes(step)
      && AgreesOutside(base.metrics, os.metrics, PendingMetrics(a, step))
      && AgreesOutside(base.dns, os.dns, PendingDns(a, base.dns, step, 0))
      && os.nrpt <= base.nrpt && (!step.ApplyingDnsGuard? ==> os.filters <= base.filters)
  {
    EmptyLedger(a, before);
    assert NRPT_TAG_PREFIX <= NrptTag(a);
  }

  lemma EmptyRollback(a: Adapter, os: Os)
    ensures Rollback(a, EMPTY_LEDGER, os) == os
  {
    var r := Rollback(a, EMPTY_LEDGER, os);
    assert os.metrics + map[] == os.metrics && os.dns + map[] == os.dns;
    assert r.addresses == os.addresses && r.routes == os.routes && r.nrpt == os.nrpt && r.filters == os.filters;
  }
}
