/**
 * The machine the pipeline runs on.  Every call may fail, and every call that can change something adds the
 * state it leaves to `trace`: the states in which a crash can leave the machine are the elements of the trace.
 * A call made to undo something counts its own failure in `undoFailures`; calls that serve applying as
 * well are told by `undo` which of the two they are for.  `log` says more about the calls that failed.
 */
module WindowsWorld {
  import opened Common
  import opened UndoLog
  import opened WindowsModel
  import AtomicFile
  import Report = ApplyReport
  import RoutePlan

  /** The report as it is written to disk. */
  datatype SavedReport = SavedReport(attemptState: Report.AttemptState, entries: seq<Report.Entry>)

  datatype Lookup = Lookup(op: RoutePlan.BypassOp, ips: seq<IpAddr>)

  /** What was answered when the system was asked for a route to `ip`. */
  datatype RouteAnswer = RouteAnswer(ip: IpAddr, route: Option<RouteEntry>)

  /** What the DNS guard was asked for, and the filters that came of it. */
  datatype GuardAnswer =
    GuardAnswer(adapter: Adapter, fullV4: bool, fullV6: bool, servers: seq<IpAddr>, ids: Option<seq<nat>>)

  /** The target of an undo call. */
  datatype UndoItem =
    | UndoAddress(row: AddressRow)
    | UndoRoute(route: RouteRow)
    | UndoMetric(key: MetricKey)
    | UndoSetting(field: DnsField)
    | UndoRule(name: string)
    | UndoTag(tag: string)
    | UndoFilter(id: nat)
    | UndoFilters

  /**
   * Calls that failed.  `refused` counts those which reported a failure that the caller must not pass over,
   * `dnsFaults` the reads and writes of DNS settings per interface that failed or stored something else, and
   * `stuck` holds the targets of undo calls that failed or did not take effect.
   */
  datatype CallLog = CallLog(refused: nat, dnsFaults: multiset<Guid>, stuck: set<UndoItem>) {
    ghost function Refuse(failed: bool): CallLog {
      if failed then this.(refused := refused + 1) else this
    }

    ghost function Fault(guid: Guid, failed: bool): CallLog {
      if failed then this.(refused := refused + 1, dnsFaults := dnsFaults + multiset{guid}) else this
    }

    ghost function Stick(items: set<UndoItem>, failed: bool): CallLog {
      if failed then this.(stuck := stuck + items) else this
    }

    /** What is logged stays logged. */
    ghost predicate Grows(later: CallLog) {
      refused <= later.refused && dnsFaults <= later.dnsFaults && stuck <= later.stuck
    }
  }

  const NO_FAILURES := CallLog(0, multiset{}, {})

  class World {
    /** The adapters of the machine, by the name of their tunnel. */
    const adapters: map<string, Adapter>
    var os: Os
    var journalFile: Option<Journal>
    var reportFile: Option<SavedReport>
    /** The states after each call of the current run. */
    ghost var trace: seq<Snapshot>
    /** The item in progress. */
    ghost var step: Step
    /** Undo calls of the current run that failed or did not take effect. */
    ghost var undoFailures: nat
    /** What the journal listed when the current run removed it. */
    ghost var dropped: Ledger
    /** The names looked up, with the addresses they gave. */
    ghost var lookups: seq<Lookup>
    /** The routes asked for, and the filters, with what was answered. */
    ghost var routeAnswers: seq<RouteAnswer>
    ghost var guardAnswers: seq<GuardAnswer>
    /** The failed calls of the current run or repair. */
    ghost var log: CallLog

    ghost function Here(): Snapshot
      reads this
    {
      Snapshot(os, journalFile, step, undoFailures, dropped)
    }

    constructor (adapters: map<string, Adapter>, os: Os, journalFile: Option<Journal>, reportFile: Option<SavedReport>)
      ensures this.adapters == adapters
      ensures this.os == os && this.journalFile == journalFile && this.reportFile == reportFile
      ensures trace == [] && step.Preparing? && undoFailures == 0 && dropped == EMPTY_LEDGER
    {
      this.adapters := adapters;
      this.os := os;
      this.journalFile := journalFile;
      this.reportFile := reportFile;
      trace := [];
      step := Preparing;
      undoFailures := 0;
      dropped := EMPTY_LEDGER;
      lookups, routeAnswers, guardAnswers, log := [], [], [], NO_FAILURES;
    }

    /** The last crash point is the present one, the item in progress aside. */
    ghost predicate Recorded()
      reads this
    {
      |trace| > 0 && trace[|trace| - 1].(step := step) == Here()
    }

    /** The trace has grown from `trace0`, and ends with the present state unless nothing has happened since. */
    ghost predicate Extends(trace0: seq<Snapshot>, here0: Snapshot)
      reads this
    {
      trace0 <= trace && if |trace| == |trace0| then Here() == here0 else Recorded()
    }

    ghost method StartRun()
      modifies `trace, `step, `undoFailures, `dropped, `log
      ensures trace == [Here()] && step.Preparing? && undoFailures == 0 && dropped == EMPTY_LEDGER
      ensures log == NO_FAILURES
    {
      log := NO_FAILURES;
      dropped := EMPTY_LEDGER;
      step := Preparing;
      undoFailures := 0;
      trace := [Here()];
    }

    /** A repair keeps its own log. */
    ghost method StartRepair()
      modifies `log
      ensures log == NO_FAILURES
    {
      log := NO_FAILURES;
    }

    // -------------------------------------------------------------- lookups

    method FindAdapter(tunName: string) returns (a: Option<Adapter>)
      modifies `log
      ensures a.Some? ==> tunName in adapters && a.value == adapters[tunName]
      ensures log == old(log).Refuse(a.None?)
    {
      var found: bool := *;
      a := if found && tunName in adapters then Some(adapters[tunName]) else None;
      log := log.Refuse(a.None?);
    }

    /** Addresses of a host, as the resolver gives them; a blank host has none. */
    method ResolveBypass(op: RoutePlan.BypassOp) returns (ips: Option<seq<IpAddr>>)
      modifies `lookups, `log
      ensures IsBlank(op.host.text) ==> ips == Some([])
      ensures lookups == old(lookups) + if ips.Some? then [Lookup(op, ips.value)] else []
      ensures log == old(log).Refuse(ips.None?)
    {
      if IsBlank(op.host.text) {
        ips := Some([]);
      } else {
        ips := *;
      }
      lookups := lookups + if ips.Some? then [Lookup(op, ips.value)] else [];
      log := log.Refuse(ips.None?);
    }

    /** The host route to `ip` that goes around the tunnel, when the system knows one. */
    method BestRouteTo(ip: IpAddr) returns (route: Option<RouteEntry>)
      modifies `routeAnswers
      ensures route.Some? ==> route.value.dest == ip && route.value.prefix == if ip.V4? then 32 else 128
      ensures routeAnswers == old(routeAnswers) + [RouteAnswer(ip, route)]
    {
      var found: bool, nextHop: Option<IpAddr>, ifIndex: nat, luid: nat := *, *, *, *;
      route := if found then Some(RouteEntry(ip, if ip.V4? then 32 else 128, nextHop, ifIndex, luid)) else None;
      routeAnswers := routeAnswers + [RouteAnswer(ip, route)];
    }

    // -------------------------------------------------------------- addresses and routes

    /** An address that exists already counts as added. */
    method AddAddress(row: AddressRow) returns (ok: bool)
      modifies `os, `trace, `log
      ensures os == if ok then old(os).(addresses := old(os.addresses) + {row}) else old(os)
      ensures log == old(log).Refuse(!ok)
      ensures trace == old(trace) + [Here()]
    {
      ok := *;
      if ok {
        os := os.(addresses := os.addresses + {row});
      }
      log := log.Refuse(!ok);
      trace := trace + [Here()];
    }

    /** An address that does not exist counts as deleted. */
    method DeleteAddress(row: AddressRow, ghost undo: bool) returns (ok: bool)
      modifies `os, `trace, `undoFailures, `log
      ensures os == if ok then old(os).(addresses := old(os.addresses) - {row}) else old(os)
      ensures undoFailures == old(undoFailures) + if undo && !ok then 1 else 0
      ensures log == if undo then old(log).Stick({UndoAddress(row)}, !ok) else old(log).Refuse(!ok)
      ensures trace == old(trace) + [Here()]
    {
      ok := *;
      if ok {
        os := os.(addresses := os.addresses - {row});
      }
      undoFailures := undoFailures + if undo && !ok then 1 else 0;
      log := if undo then log.Stick({UndoAddress(row)}, !ok) else log.Refuse(!ok);
      trace := trace + [Here()];
    }

    method ListAddresses(luid: nat) returns (rows: Option<set<AddressRow>>)
      modifies `log
      ensures rows.Some? ==> rows.value == set row | row in os.addresses && row.luid == luid
      ensures log == old(log).Refuse(rows.None?)
    {
      var ok: bool := *;
      rows := if ok then Some(set row | row in os.addresses && row.luid == luid) else None;
      log := log.Refuse(rows.None?);
    }

    method AddRoute(e: RouteEntry) returns (ok: bool)
      modifies `os, `trace, `log
      ensures os == if ok then old(os).(routes := old(os.routes) + {ToRouteRow(e)}) else old(os)
      ensures log == old(log).Refuse(!ok)
      ensures trace == old(trace) + [Here()]
    {
      ok := *;
      if ok {
        os := os.(routes := os.routes + {ToRouteRow(e)});
      }
      log := log.Refuse(!ok);
      trace := trace + [Here()];
    }

    method DeleteRoute(e: RouteEntry) returns (ok: bool)
      modifies `os, `trace, `undoFailures, `log
      ensures os == if ok then old(os).(routes := old(os.routes) - {ToRouteRow(e)}) else old(os)
      ensures undoFailures == old(undoFailures) + if ok then 0 else 1
      ensures log == old(log).Stick({UndoRoute(ToRouteRow(e))}, !ok)
      ensures trace == old(trace) + [Here()]
    {
      ok := *;
      if ok {
        os := os.(routes := os.routes - {ToRouteRow(e)});
      }
      undoFailures := undoFailures + if ok then 0 else 1;
      log := log.Stick({UndoRoute(ToRouteRow(e))}, !ok);
      trace := trace + [Here()];
    }

    // -------------------------------------------------------------- interface metrics

    method GetMetric(key: MetricKey, ghost undo: bool) returns (m: Option<Metric>)
      modifies `trace, `undoFailures, `log
      ensures m.Some? ==> key in os.metrics && m.value == os.metrics[key]
      ensures undoFailures == old(undoFailures) + if undo && m.None? then 1 else 0
      ensures log == if undo then old(log).Stick({UndoMetric(key)}, m.None?) else old(log).Refuse(m.None?)
      ensures trace == old(trace) + if undo && m.None? then [Here()] else []
    {
      var ok: bool := *;
      m := if ok && key in os.metrics then Some(os.metrics[key]) else None;
      if undo && m.None? {
        undoFailures := undoFailures + 1;
        trace := trace + [Here()];
      }
      log := if undo then log.Stick({UndoMetric(key)}, m.None?) else log.Refuse(m.None?);
    }

    method SetMetric(key: MetricKey, m: Metric, ghost undo: bool) returns (ok: bool)
      modifies `os, `trace, `undoFailures, `log
      ensures ok ==> key in old(os.metrics)
      ensures os == if ok then old(os).(metrics := old(os.metrics)[key := m]) else old(os)
      ensures undoFailures == old(undoFailures) + if undo && !ok then 1 else 0
      ensures log == if undo then old(log).Stick({UndoMetric(key)}, !ok) else old(log).Refuse(!ok)
      ensures trace == old(trace) + [Here()]
    {
      ok := *;
      ok := ok && key in os.metrics;
      if ok {
        os := os.(metrics := os.metrics[key := m]);
      }
      undoFailures := undoFailures + if undo && !ok then 1 else 0;
      log := if undo then log.Stick({UndoMetric(key)}, !ok) else log.Refuse(!ok);
      trace := trace + [Here()];
    }

    // -------------------------------------------------------------- DNS settings

    /** Reading fails, or gives the settings; an interface without a record reads as unset. */
    method ReadDns(guid: Guid, family: Family) returns (r: Option<(Option<string>, Option<string>, nat)>)
      modifies `log
      ensures r.Some? && NameServer(guid, family) in os.dns ==> os.dns[NameServer(guid, family)] == Text(r.value.0)
      ensures r.Some? && SearchList(guid, family) in os.dns ==> os.dns[SearchList(guid, family)] == Text(r.value.1)
      ensures r.Some? && DisableUnconstrained(guid) in os.dns
          ==> os.dns[DisableUnconstrained(guid)] == Number(r.value.2)
      ensures log == old(log).Fault(guid, r.None?)
    {
      var ok: bool := *;
      var ns, sl, du := NameServer(guid, family), SearchList(guid, family), DisableUnconstrained(guid);
      if !ok || (ns in os.dns && !os.dns[ns].Text?) || (sl in os.dns && !os.dns[sl].Text?)
         || (du in os.dns && !os.dns[du].Number?) {
        log := log.Fault(guid, true);
        return None;
      }
      r := Some((if ns in os.dns then os.dns[ns].text else None,
                 if sl in os.dns then os.dns[sl].text else None,
                 if du in os.dns then os.dns[du].number else 0));
    }

    /**
     * One write of several settings.  Even a write that reports success may store something else; an undo has
     * then failed all the same.
     */
    method SetDns(settings: DnsTable, ghost guid: Guid, ghost undo: bool) returns (ok: bool)
      modifies `os, `trace, `undoFailures, `log
      ensures ok ==> settings.Keys <= old(os.dns).Keys
      ensures !ok ==> os == old(os)
      ensures os == old(os).(dns := os.dns) && AgreesOutside(old(os.dns), os.dns, settings.Keys)
      ensures undoFailures == old(undoFailures) + if undo && (!ok || os.dns != old(os.dns) + settings) then 1 else 0
      ensures var bad := !ok || os.dns != old(os.dns) + settings;
        log == if undo then old(log).Refuse(!ok).Stick(SettingsOf(settings), bad) else old(log).Fault(guid, bad)
      ensures trace == old(trace) + [Here()]
    {
      ghost var before := os.dns;
      ok := *;
      ok := ok && settings.Keys <= os.dns.Keys;
      if ok {
        var stored: DnsTable := *;
        os := os.(dns := os.dns + if stored.Keys == settings.Keys then stored else settings);
      }
      ghost var bad := !ok || os.dns != before + settings;
      undoFailures := undoFailures + if undo && bad then 1 else 0;
      log := if undo then log.Refuse(!ok).Stick(SettingsOf(settings), bad) else log.Fault(guid, bad);
      trace := trace + [Here()];
    }

    // -------------------------------------------------------------- NRPT rules and DNS guard filters

    method RemoveRule(name: string) returns (ok: bool)
      modifies `os, `trace, `undoFailures, `log
      ensures os == if ok then old(os).(nrpt := set r | r in old(os.nrpt) && r.name != name) else old(os)
      ensures undoFailures == old(undoFailures) + if ok then 0 else 1
      ensures log == old(log).Refuse(!ok).Stick({UndoRule(name)}, !ok)
      ensures trace == old(trace) + [Here()]
    {
      ok := *;
      if ok {
        os := os.(nrpt := set r | r in os.nrpt && r.name != name);
      }
      undoFailures := undoFailures + if ok then 0 else 1;
      log := log.Refuse(!ok).Stick({UndoRule(name)}, !ok);
      trace := trace + [Here()];
    }

    method RemoveRulesByTag(tag: string, ghost undo: bool) returns (ok: bool)
      modifies `os, `trace, `undoFailures, `log
      ensures os == if ok then old(os).(nrpt := set r | r in old(os.nrpt) && r.comment != tag) else old(os)
      ensures undoFailures == old(undoFailures) + if undo && !ok then 1 else 0
      ensures log == if undo then old(log).Refuse(!ok).Stick({UndoTag(tag)}, !ok) else old(log)
      ensures trace == old(trace) + [Here()]
    {
      ok := *;
      if ok {
        os := os.(nrpt := set r | r in os.nrpt && r.comment != tag);
      }
      undoFailures := undoFailures + if undo && !ok then 1 else 0;
      log := if undo then log.Refuse(!ok).Stick({UndoTag(tag)}, !ok) else log;
      trace := trace + [Here()];
    }

    /** Remove the rules of every earlier run, whatever adapter they were for. */
    method RemoveStaleRules() returns (ok: bool)
      modifies `os, `trace, `undoFailures
      ensures os == if ok then old(os).(nrpt := set r | r in old(os.nrpt)
          && !(NRPT_TAG_PREFIX <= r.comment)) else old(os)
      ensures undoFailures == old(undoFailures) + if ok then 0 else 1
      ensures trace == old(trace) + [Here()]
    {
      ok := *;
      if ok {
        os := os.(nrpt := set r | r in os.nrpt && !(NRPT_TAG_PREFIX <= r.comment));
      }
      undoFailures := undoFailures + if ok then 0 else 1;
      trace := trace + [Here()];
    }

    /** The system names its rules itself, and no two alike. */
    method FreshRuleName(rules: set<NrptRule>) returns (name: string)
      ensures forall r :: r in rules ==> r.name != name
    {
      name := *;
      var left := rules;
      while left != {}
        invariant left <= rules && forall r :: r in rules && r !in left ==> |r.name| < |name|
        decreases left
      {
        var r :| r in left;
        left := left - {r};
        if |r.name| >= |name| {
          name := r.name + "+";
        }
      }
    }

    /**
     * Add a rule and read its name back.  The command may fail, or lose its output, after the rule is in:
     * `names` is `None` for a failed command and empty when no name came back.
     */
    method AddRule(tag: string, servers: seq<IpAddr>) returns (names: Option<seq<string>>)
      modifies `os, `trace, `log
      ensures os == old(os).(nrpt := os.nrpt) && old(os.nrpt) <= os.nrpt
      ensures forall r :: r in os.nrpt && r !in old(os.nrpt) ==> r.comment == tag && r.servers == servers
      ensures names.Some? && |names.value| > 0 ==>
        exists r :: r in os.nrpt && r.name in names.value && r.comment == tag && r.servers == servers
      ensures names.Some? ==> forall r :: r in os.nrpt && r.name in names.value ==> r.comment == tag
      ensures log == old(log).Refuse(names.None? || |names.value| == 0)
      ensures trace == old(trace) + [Here()]
    {
      var added, reported: bool := *, *;
      names := if added then Some([]) else None;
      if added {
        var name := FreshRuleName(os.nrpt);
        var rule := NrptRule(name, tag, servers);
        os := os.(nrpt := os.nrpt + {rule});
        if reported {
          names := Some([name]);
          assert rule in os.nrpt;
        } else {
          var failed: bool := *;
          names := if failed then None else Some([]);
        }
      }
      log := log.Refuse(names.None? || |names.value| == 0);
      trace := trace + [Here()];
    }

    /** Install the block filters in one transaction; `Some([])` when there is nothing to block. */
    method InstallFilters(a: Adapter, fullV4: bool, fullV6: bool, servers: seq<IpAddr>) returns (ids: Option<seq<nat>>)
      modifies `os, `trace, `guardAnswers, `log
      ensures os == if ids.Some? then old(os).(filters := old(os.filters) + ToSet(ids.value)) else old(os)
      ensures ids.Some? ==> ToSet(ids.value) !! old(os.filters)
      ensures guardAnswers == old(guardAnswers) + [GuardAnswer(a, fullV4, fullV6, servers, ids)]
      ensures log == old(log).Refuse(ids.None?)
      ensures trace == old(trace) + [Here()]
    {
      ids := *;
      if ids.Some? && ToSet(ids.value) !! os.filters {
        os := os.(filters := os.filters + ToSet(ids.value));
      } else {
        ids := None;
      }
      guardAnswers := guardAnswers + [GuardAnswer(a, fullV4, fullV6, servers, ids)];
      log := log.Refuse(ids.None?);
      trace := trace + [Here()];
    }

    /** A filter that does not exist counts as deleted. */
    method DeleteFilter(id: nat) returns (ok: bool)
      modifies `os, `trace, `undoFailures, `log
      ensures os == if ok then old(os).(filters := old(os.filters) - {id}) else old(os)
      ensures undoFailures == old(undoFailures) + if ok then 0 else 1
      ensures log == old(log).Refuse(!ok).Stick({UndoFilter(id)}, !ok)
      ensures trace == old(trace) + [Here()]
    {
      ok := *;
      if ok {
        os := os.(filters := os.filters - {id});
      }
      undoFailures := undoFailures + if ok then 0 else 1;
      log := log.Refuse(!ok).Stick({UndoFilter(id)}, !ok);
      trace := trace + [Here()];
    }

    /** Open the session that filters are deleted in. */
    method OpenFilterSession() returns (ok: bool)
      modifies `trace, `undoFailures, `log
      ensures undoFailures == old(undoFailures) + if ok then 0 else 1
      ensures log == old(log).Refuse(!ok).Stick({UndoFilters}, !ok)
      ensures trace == old(trace) + [Here()]
    {
      ok := *;
      undoFailures := undoFailures + if ok then 0 else 1;
      log := log.Refuse(!ok).Stick({UndoFilters}, !ok);
      trace := trace + [Here()];
    }

    method CloseFilterSession() returns (ok: bool)
      modifies `trace, `undoFailures, `log
      ensures undoFailures == old(undoFailures) + if ok then 0 else 1
      ensures log == old(log).Refuse(!ok)
      ensures trace == old(trace) + [Here()]
    {
      ok := *;
      undoFailures := undoFailures + if ok then 0 else 1;
      log := log.Refuse(!ok);
      trace := trace + [Here()];
    }

    // -------------------------------------------------------------- files

    /** Write the journal atomically; a failed write may have replaced the file all the same. */
    method WriteJournal(j: Journal) returns (ok: bool)
      modifies `journalFile, `trace, `log
      ensures journalFile == Some(j) || (!ok && journalFile == old(journalFile))
      ensures log == old(log).Refuse(!ok)
      ensures trace == old(trace) + [Here()]
    {
      var fault: AtomicFile.Fault := *;
      ok := AtomicFile.Succeeds(journalFile, true, fault);
      AtomicFile.SuccessMeansWritten(journalFile, j, true, fault);
      journalFile := AtomicFile.Final(journalFile, j, true, fault);
      log := log.Refuse(!ok);
      trace := trace + [Here()];
    }

    method LoadJournal() returns (ok: bool, j: Option<Journal>)
      modifies `trace, `undoFailures, `log
      ensures ok ==> j == journalFile
      ensures undoFailures == old(undoFailures) + if ok then 0 else 1
      ensures log == old(log).Refuse(!ok)
      ensures trace == old(trace) + if ok then [] else [Here()]
    {
      ok := *;
      j := if ok then journalFile else None;
      log := log.Refuse(!ok);
      if !ok {
        undoFailures := undoFailures + 1;
        trace := trace + [Here()];
      }
    }

    method RemoveJournal() returns (ok: bool)
      modifies `journalFile, `trace, `undoFailures, `dropped, `log
      ensures journalFile == if ok then None else old(journalFile)
      ensures dropped == if ok then JournaledLedger(old(journalFile)) else old(dropped)
      ensures undoFailures == old(undoFailures) + if ok then 0 else 1
      ensures log == old(log).Refuse(!ok)
      ensures trace == old(trace) + [Here()]
    {
      ok := *;
      if ok {
        dropped := JournaledLedger(journalFile);
        journalFile := None;
      }
      undoFailures := undoFailures + if ok then 0 else 1;
      log := log.Refuse(!ok);
      trace := trace + [Here()];
    }

    method WriteReport(r: SavedReport) returns (ok: bool)
      modifies `reportFile
      ensures reportFile == Some(r) || (!ok && reportFile == old(reportFile))
    {
      var fault: AtomicFile.Fault := *;
      ok := AtomicFile.Succeeds(reportFile, true, fault);
      AtomicFile.SuccessMeansWritten(reportFile, r, true, fault);
      reportFile := AtomicFile.Final(reportFile, r, true, fault);
    }

    method RemoveReport() returns (ok: bool)
      modifies `reportFile, `trace, `undoFailures, `log
      ensures reportFile == if ok then None else old(reportFile)
      ensures undoFailures == old(undoFailures) + if ok then 0 else 1
      ensures log == old(log).Refuse(!ok)
      ensures trace == old(trace) + [Here()]
    {
      ok := *;
      reportFile := if ok then None else reportFile;
      undoFailures := undoFailures + if ok then 0 else 1;
      log := log.Refuse(!ok);
      trace := trace + [Here()];
    }
  }

  ghost function SettingsOf(settings: DnsTable): set<UndoItem> {
    set f | f in settings :: UndoSetting(f)
  }

  predicate IsBlank(s: string) {
    forall i :: 0 <= i < |s| ==> IsWhitespace(s[i])
  }
}
