/** DNS settings as a transaction: read, write, read back, and undo in reverse. */
module WindowsDns {
  import opened Common
  import opened UndoLog
  import opened WindowsModel
  import opened WindowsWorld

  // ---------------------------------------------------------------- what is asked for

  function Join(items: seq<string>): string {
    if |items| == 0 then ""
    else if |items| == 1 then items[0]
    else items[0] + "," + Join(items[1..])
  }

  function Texts(servers: seq<IpAddr>): seq<string> {
    Map((ip: IpAddr) => ip.text, servers)
  }

  function OfFamily(servers: seq<IpAddr>, f: Family): seq<IpAddr> {
    if |servers| == 0 then []
    else (if servers[0].Family() == f then [servers[0]] else []) + OfFamily(servers[1..], f)
  }

  /** The settings an interface must show for one family. */
  predicate Effective(dns: DnsTable, guid: Guid, f: Family, servers: seq<IpAddr>, items: seq<string>) {
    && (|servers| > 0 ==>
          NameServer(guid, f) in dns && dns[NameServer(guid, f)] == Text(Some(Join(Texts(servers)))))
    && (|items| > 0 ==> SearchList(guid, f) in dns && dns[SearchList(guid, f)] == Text(Some(Join(items))))
    && (|servers| > 0 || |items| > 0 ==>
          DisableUnconstrained(guid) in dns && dns[DisableUnconstrained(guid)] != Number(0))
  }

  /** What one interface must show: both families of the server list, and the search list with IPv4. */
  predicate EffectiveOn(dns: DnsTable, guid: Guid, servers: seq<IpAddr>, search: seq<string>) {
    && Effective(dns, guid, Ipv4, OfFamily(servers, Ipv4), TrimmedItems(search))
    && Effective(dns, guid, Ipv6, OfFamily(servers, Ipv6), [])
  }

  predicate NothingAsked(servers: seq<IpAddr>, search: seq<string>) {
    OfFamily(servers, Ipv4) == [] && OfFamily(servers, Ipv6) == [] && search == []
  }

  // ---------------------------------------------------------------- frames

  function FieldsOf(t: DnsTable, guid: Guid): set<DnsField> {
    set f | f in t && GuidOf(f) == guid
  }

  /** The states of a run from `from` on differ from `before` in settings of the given fields only. */
  ghost predicate OnlyDnsSince(before: Snapshot, trace: seq<Snapshot>, from: nat, fields: set<DnsField>) {
    forall i :: from <= i < |trace| ==>
      && trace[i].journal == before.journal && trace[i].step == before.step
      && before.undoFailures <= trace[i].undoFailures
      && trace[i].os == before.os.(dns := trace[i].os.dns)
      && AgreesOutside(before.os.dns, trace[i].os.dns, fields)
  }

  /** Two DNS-only stretches of a run, one after the other, are one. */
  lemma OnlyDnsChain(before: Snapshot, mid: Snapshot, trace1: seq<Snapshot>, trace2: seq<Snapshot>, from: nat,
                     later: set<DnsField>, fields: set<DnsField>)
    requires from <= |trace1| && trace1 <= trace2
    requires OnlyDnsSince(before, trace1, from, fields)
    requires mid.journal == before.journal && mid.step == before.step && before.undoFailures <= mid.undoFailures
    requires mid.os == before.os.(dns := mid.os.dns) && AgreesOutside(before.os.dns, mid.os.dns, fields)
    requires OnlyDnsSince(mid, trace2, |trace1|, later) && later <= fields
    ensures OnlyDnsSince(before, trace2, from, fields)
  {
    forall i | from <= i < |trace2|
      ensures trace2[i].os == before.os.(dns := trace2[i].os.dns)
      ensures AgreesOutside(before.os.dns, trace2[i].os.dns, fields)
    {
      if i < |trace1| {
        assert trace2[i] == trace1[i];
      }
    }
  }

  lemma OnlyDnsWider(before: Snapshot, trace: seq<Snapshot>, from: nat, some: set<DnsField>, more: set<DnsField>)
    requires OnlyDnsSince(before, trace, from, some) && some <= more
    ensures OnlyDnsSince(before, trace, from, more)
  {
  }

  // ---------------------------------------------------------------- undo

  /** Each setting has the value that undoing gives it, unless a call for it failed. */
  ghost predicate RestoredOrStuck(undo: DnsTable, dns: DnsTable, log: CallLog) {
    forall k :: k in undo && UndoSetting(k) !in log.stuck ==> k in dns && dns[k] == undo[k]
  }

  /** Put back what one entry replaced. */
  method CleanupDnsEntry(w: World, e: DnsEntry) returns (ok: bool)
    modifies w`os, w`trace, w`undoFailures, w`log
    ensures w.os == old(w.os).(dns := w.os.dns) && AgreesOutside(old(w.os.dns), w.os.dns, DnsOriginals(e).Keys)
    ensures old(w.undoFailures) <= w.undoFailures
    ensures w.undoFailures == old(w.undoFailures) ==> w.os.dns == old(w.os.dns) + DnsOriginals(e)
    ensures !ok ==> w.undoFailures > old(w.undoFailures)
    ensures old(w.log).Grows(w.log) && w.log.dnsFaults == old(w.log).dnsFaults
    ensures ok <==> w.log.refused == old(w.log).refused
    ensures RestoredOrStuck(DnsOriginals(e), w.os.dns, w.log)
    ensures w.Extends(old(w.trace), old(w.Here()))
    ensures OnlyDnsSince(old(w.Here()), w.trace, |old(w.trace)|, DnsOriginals(e).Keys)
  {
    if !e.touchedNameServer && !e.touchedSearch && !e.touchedDisableUnconstrained {
      assert w.os.dns + DnsOriginals(e) == w.os.dns;
      return true;
    }
    var settings: DnsTable := map[];
    if e.touchedNameServer {
      settings := settings[NameServer(e.guid, e.family) := Text(e.originalNameServer)];
    }
    if e.touchedSearch {
      settings := settings[SearchList(e.guid, e.family) := Text(e.originalSearchList)];
    }
    if e.touchedDisableUnconstrained {
      settings := settings[DisableUnconstrained(e.guid) := Number(e.originalDisableUnconstrained)];
    }
    assert settings == DnsOriginals(e);
    ok := w.SetDns(settings, e.guid, true);
  }

  /** Undo every entry, last first; the first error is reported but does not stop the others. */
  method CleanupDns(w: World, entries: seq<DnsEntry>) returns (ok: bool)
    modifies w`os, w`trace, w`undoFailures, w`log
    ensures w.os == old(w.os).(dns := w.os.dns)
    ensures AgreesOutside(old(w.os.dns), w.os.dns, Merge(DnsLog(entries)).Keys)
    ensures old(w.undoFailures) <= w.undoFailures
    ensures w.undoFailures == old(w.undoFailures) ==> ok && w.os.dns == old(w.os.dns) + Merge(DnsLog(entries))
    ensures !ok ==> w.undoFailures > old(w.undoFailures)
    ensures old(w.log).Grows(w.log) && w.log.dnsFaults == old(w.log).dnsFaults
    ensures ok <==> w.log.refused == old(w.log).refused
    ensures RestoredOrStuck(Merge(DnsLog(entries)), w.os.dns, w.log)
    ensures w.Extends(old(w.trace), old(w.Here()))
    ensures OnlyDnsSince(old(w.Here()), w.trace, |old(w.trace)|, Merge(DnsLog(entries)).Keys)
  {
    ok := true;
    var i := |entries|;
    ghost var log := DnsLog(entries);
    ghost var t0 := w.os.dns;
    while i > 0
      invariant 0 <= i <= |entries|
      invariant w.os == old(w.os).(dns := w.os.dns)
      invariant AgreesOutside(t0, w.os.dns, Merge(log[i..]).Keys)
      invariant old(w.undoFailures) <= w.undoFailures
      invariant w.undoFailures == old(w.undoFailures) ==> ok && w.os.dns == t0 + Merge(log[i..])
      invariant !ok ==> w.undoFailures > old(w.undoFailures)
      invariant w.Extends(old(w.trace), old(w.Here()))
      invariant old(w.log).Grows(w.log) && w.log.dnsFaults == old(w.log).dnsFaults
      invariant ok <==> w.log.refused == old(w.log).refused
      invariant RestoredOrStuck(Merge(log[i..]), w.os.dns, w.log)
      invariant OnlyDnsSince(old(w.Here()), w.trace, |old(w.trace)|, Merge(log[i..]).Keys)
    {
      i := i - 1;
      assert log[i..][1..] == log[i + 1..] && log[i..][0] == DnsOriginals(entries[i]);
      assert Merge(log[i..]) == Merge(log[i + 1..]) + DnsOriginals(entries[i]);
      MergeIsAssociative(t0, Merge(log[i + 1..]), DnsOriginals(entries[i]));
      ghost var dns1, log1 := w.os.dns, w.log;
      var done := CleanupDnsEntry(w, entries[i]);
      RestoredFurther(Merge(log[i + 1..]), DnsOriginals(entries[i]), dns1, log1, w.os.dns, w.log);
      if !done {
        ok := false;
      }
    }
    assert log[0..] == log;
  }

  lemma RestoredFurther(later: DnsTable, originals: DnsTable, dns1: DnsTable, log1: CallLog, dns: DnsTable,
                        log: CallLog)
    requires RestoredOrStuck(later, dns1, log1) && log1.Grows(log)
    requires AgreesOutside(dns1, dns, originals.Keys) && RestoredOrStuck(originals, dns, log)
    ensures RestoredOrStuck(later + originals, dns, log)
  {
  }

  // ---------------------------------------------------------------- apply

  /** Read the settings back and compare them with what was written. */
  method VerifyDnsFamily(w: World, guid: Guid, f: Family, servers: seq<IpAddr>, items: seq<string>) returns (ok: bool)
    requires NameServer(guid, f) in w.os.dns || |servers| == 0
    requires SearchList(guid, f) in w.os.dns || |items| == 0
    requires DisableUnconstrained(guid) in w.os.dns
    modifies w`log
    ensures ok ==> w.log == old(w.log) && Effective(w.os.dns, guid, f, servers, items)
    ensures !ok ==>
      || w.log == old(w.log).Fault(guid, true)
      || (w.log == old(w.log) && !(Effective(w.os.dns, guid, f, servers, items)
                                   && w.os.dns[DisableUnconstrained(guid)] != Number(0)))
  {
    var r := w.ReadDns(guid, f);
    if r.None? {
      return false;
    }
    if |servers| > 0 && r.value.0 != Some(Join(Texts(servers))) {
      return false;
    }
    if |items| > 0 && r.value.1 != Some(Join(items)) {
      return false;
    }
    return r.value.2 != 0;
  }

  /** The settings written for one family; their fields are the ones the entry touches. */
  function Requested(e: DnsEntry, servers: seq<IpAddr>, items: seq<string>): (r: DnsTable)
    ensures r.Keys == DnsOriginals(e).Keys
  {
    (if e.touchedNameServer then map[NameServer(e.guid, e.family) := Text(Some(Join(Texts(servers))))] else map[])
    + (if e.touchedSearch then map[SearchList(e.guid, e.family) := Text(Some(Join(items)))] else map[])
    + (if e.touchedDisableUnconstrained then map[DisableUnconstrained(e.guid) := Number(1)] else map[])
  }

  predicate FieldOfEntry(e: DnsEntry, k: DnsField) {
    k == NameServer(e.guid, e.family) || k == SearchList(e.guid, e.family) || k == DisableUnconstrained(e.guid)
  }

  /** The entry's originals are the values of `t`. */
  ghost predicate RecordsOriginals(e: DnsEntry, t: DnsTable) {
    forall k :: k in DnsOriginals(e) ==> k in t && DnsOriginals(e)[k] == t[k] && FieldOfEntry(e, k)
  }

  /** A write that stores what was asked for has the effect asked for. */
  lemma StoredIsEffective(e: DnsEntry, dns: DnsTable, servers: seq<IpAddr>, items: seq<string>)
    requires e.touchedNameServer == (|servers| > 0) && e.touchedSearch == (|items| > 0)
    requires e.touchedDisableUnconstrained
    ensures var after := dns + Requested(e, servers, items);
      && Effective(after, e.guid, e.family, servers, items)
      && DisableUnconstrained(e.guid) in after && after[DisableUnconstrained(e.guid)] != Number(0)
  {
  }

  /** The write, the read-back, and the revert of a write that did not verify. */
  method WriteAndVerify(w: World, e: DnsEntry, servers: seq<IpAddr>, items: seq<string>) returns (ok: bool)
    requires e.touchedNameServer == (|servers| > 0) && e.touchedSearch == (|items| > 0)
    requires e.touchedDisableUnconstrained == (|servers| > 0 || |items| > 0)
    requires e.touchedDisableUnconstrained
    requires forall k :: k in DnsOriginals(e) && k in w.os.dns ==> DnsOriginals(e)[k] == w.os.dns[k]
    modifies w`os, w`trace, w`undoFailures, w`log
    ensures w.os == old(w.os).(dns := w.os.dns) && AgreesOutside(old(w.os.dns), w.os.dns, DnsOriginals(e).Keys)
    ensures old(w.undoFailures) <= w.undoFailures
    ensures ok ==>
      && w.undoFailures == old(w.undoFailures)
      && RecordsOriginals(e, old(w.os.dns))
      && Effective(w.os.dns, e.guid, e.family, servers, items)
    ensures !ok && w.undoFailures == old(w.undoFailures) ==> w.os.dns == old(w.os.dns)
    ensures old(w.log).Grows(w.log) && (!ok ==> w.log.refused > old(w.log).refused)
    ensures w.log.dnsFaults[e.guid] == old(w.log).dnsFaults[e.guid] ==> ok
    ensures w.Extends(old(w.trace), old(w.Here()))
    ensures OnlyDnsSince(old(w.Here()), w.trace, |old(w.trace)|, DnsOriginals(e).Keys)
  {
    hide DnsOriginals, Requested, Effective, RecordsOriginals;
    var settings := Requested(e, servers, items);
    ok := w.SetDns(settings, e.guid, false);
    if !ok {
      return false;
    }
    OriginalsRecorded(e, old(w.os.dns), w.os.dns, servers, items);
    StoredIsEffective(e, old(w.os.dns), servers, items);
    ok := VerifyDnsFamily(w, e.guid, e.family, servers, items);
    if !ok {
      var _ := CleanupDnsEntry(w, e);
    }
  }

  /** A write to fields that are all there: the entry holds what was in them, and leads back. */
  lemma OriginalsRecorded(e: DnsEntry, before: DnsTable, written: DnsTable, servers: seq<IpAddr>, items: seq<string>)
    requires e.touchedNameServer == (|servers| > 0) && e.touchedSearch == (|items| > 0)
    requires e.touchedDisableUnconstrained
    requires forall k :: k in DnsOriginals(e) && k in before ==> DnsOriginals(e)[k] == before[k]
    requires DnsOriginals(e).Keys <= before.Keys && AgreesOutside(before, written, DnsOriginals(e).Keys)
    ensures NameServer(e.guid, e.family) in written || |servers| == 0
    ensures SearchList(e.guid, e.family) in written || |items| == 0
    ensures DisableUnconstrained(e.guid) in written
    ensures RecordsOriginals(e, before) && written + DnsOriginals(e) == before
  {
    assert DisableUnconstrained(e.guid) in DnsOriginals(e);
    assert |servers| > 0 ==> NameServer(e.guid, e.family) in DnsOriginals(e);
    assert |items| > 0 ==> SearchList(e.guid, e.family) in DnsOriginals(e);
  }

  lemma OwnFields(e: DnsEntry)
    ensures forall k :: k in DnsOriginals(e) ==> GuidOf(k) == e.guid
  {
  }

  lemma NothingWritten(e: DnsEntry, dns: DnsTable, servers: seq<IpAddr>, items: seq<string>)
    requires !e.touchedNameServer && !e.touchedSearch && !e.touchedDisableUnconstrained
    requires |servers| == 0 && |items| == 0
    ensures DnsOriginals(e) == map[] && RecordsOriginals(e, dns) && Effective(dns, e.guid, e.family, servers, items)
  {
  }

  /** Write one family of one interface; a write that does not verify is undone. */
  method ApplyDnsFamilyWithGuid(w: World, guid: Guid, f: Family, servers: seq<IpAddr>, search: seq<string>)
    returns (r: Option<DnsEntry>)
    modifies w`os, w`trace, w`undoFailures, w`log
    ensures w.os == old(w.os).(dns := w.os.dns) && AgreesOutside(old(w.os.dns), w.os.dns, FieldsOf(old(w.os.dns), guid))
    ensures old(w.undoFailures) <= w.undoFailures
    ensures r.Some? ==>
      && w.undoFailures == old(w.undoFailures)
      && r.value.guid == guid && r.value.family == f
      && AgreesOutside(old(w.os.dns), w.os.dns, DnsOriginals(r.value).Keys)
      && RecordsOriginals(r.value, old(w.os.dns))
      && (r.value.touchedSearch ==> |TrimmedItems(search)| > 0)
      && Effective(w.os.dns, guid, f, servers, TrimmedItems(search))
    ensures r.None? && w.undoFailures == old(w.undoFailures) ==> w.os.dns == old(w.os.dns)
    ensures old(w.log).Grows(w.log) && (r.None? ==> w.log.refused > old(w.log).refused)
    ensures w.log.dnsFaults[guid] == old(w.log).dnsFaults[guid] ==> r.Some?
    ensures w.Extends(old(w.trace), old(w.Here()))
    ensures OnlyDnsSince(old(w.Here()), w.trace, |old(w.trace)|, FieldsOf(old(w.os.dns), guid))
  {
    hide TrimmedItems, Effective, RecordsOriginals;
    var original := w.ReadDns(guid, f);
    if original.None? {
      return None;
    }
    var (ns, sl, du) := original.value;
    var items := TrimmedItems(search);
    var touchedNameServer := |servers| > 0;
    var touchedSearch := |items| > 0;
    var touchedDisable := touchedNameServer || touchedSearch;
    var e := DnsEntry(guid, f, touchedNameServer, touchedSearch, touchedDisable, ns, sl, du);
    OwnFields(e);
    if !touchedNameServer && !touchedSearch && !touchedDisable {
      NothingWritten(e, w.os.dns, servers, items);
      return Some(e);
    }
    var ok := WriteAndVerify(w, e, servers, items);
    r := if ok then Some(e) else None;
  }

  /** The entries put every setting of one interface back to `before`. */
  ghost predicate Restores(before: DnsTable, entries: seq<DnsEntry>, after: DnsTable, guids: set<Guid>) {
    && after + Merge(DnsLog(entries)) == before
    && after.Keys == before.Keys
    && forall k :: k in Merge(DnsLog(entries)) ==> GuidOf(k) in guids
  }

  lemma RestoresAppend(before: DnsTable, entries: seq<DnsEntry>, mid: DnsTable, e: DnsEntry, after: DnsTable,
                       guids: set<Guid>)
    requires Restores(before, entries, mid, guids)
    requires AgreesOutside(mid, after, DnsOriginals(e).Keys)
    requires RecordsOriginals(e, mid) && e.guid in guids
    ensures Restores(before, entries + [e], after, guids)
  {
    RecordThenUndo(DnsLog(entries), mid, after, DnsOriginals(e));
    assert DnsLog(entries + [e]) == DnsLog(entries) + [DnsOriginals(e)];
    MergeAppend(DnsLog(entries), DnsOriginals(e));
  }

  lemma EffectiveSurvives(guid: Guid, servers: seq<IpAddr>, items: seq<string>, mid: DnsTable, e: DnsEntry,
                          after: DnsTable, v6Servers: seq<IpAddr>)
    requires Effective(mid, guid, Ipv4, servers, items)
    requires AgreesOutside(mid, after, DnsOriginals(e).Keys)
    requires e.guid == guid && e.family == Ipv6 && |v6Servers| > 0
    requires Effective(after, guid, Ipv6, v6Servers, [])
    ensures Effective(after, guid, Ipv4, servers, items)
  {
  }

  /** Reverting the first family after the second one failed stays within the interface's own settings. */
  lemma RevertKeepsFrame(before: DnsTable, mid: DnsTable, failed: DnsTable, after: DnsTable, entries: seq<DnsEntry>,
                         guid: Guid)
    requires Restores(before, entries, mid, {guid})
    requires AgreesOutside(mid, failed, FieldsOf(mid, guid))
    requires AgreesOutside(failed, after, Merge(DnsLog(entries)).Keys)
    ensures FieldsOf(mid, guid) == FieldsOf(before, guid)
    ensures Merge(DnsLog(entries)).Keys <= FieldsOf(before, guid)
    ensures AgreesOutside(before, mid, FieldsOf(before, guid))
    ensures AgreesOutside(before, failed, FieldsOf(before, guid))
    ensures AgreesOutside(before, after, FieldsOf(before, guid))
    ensures failed == mid && after == failed + Merge(DnsLog(entries)) ==> after == before
  {
    forall k | k in Merge(DnsLog(entries)) ensures k in before && k in FieldsOf(before, guid) {
      assert k in mid + Merge(DnsLog(entries));
    }
    forall k | k in before && k !in FieldsOf(before, guid) ensures mid[k] == before[k] {
      assert (mid + Merge(DnsLog(entries)))[k] == mid[k];
    }
  }

  /** Writing one interface leaves what another one shows. */
  lemma EffectiveElsewhere(before: DnsTable, after: DnsTable, guid: Guid, other: Guid, servers: seq<IpAddr>,
                           search: seq<string>)
    requires EffectiveOn(before, guid, servers, search) && guid != other
    requires AgreesOutside(before, after, FieldsOf(before, other))
    ensures EffectiveOn(after, guid, servers, search)
  {
  }

  /** The IPv6 half of one interface, after `entries` were applied; where it fails, they are reverted. */
  method ApplyIpv6WithGuid(w: World, guid: Guid, entries: seq<DnsEntry>, v6Servers: seq<IpAddr>, ghost before: Snapshot,
                           ghost from: nat, ghost v4Servers: seq<IpAddr>, ghost items: seq<string>)
    returns (r: Option<seq<DnsEntry>>)
    requires |v6Servers| > 0
    requires w.os == before.os.(dns := w.os.dns) && w.journalFile == before.journal && w.step == before.step
    requires w.undoFailures == before.undoFailures
    requires Restores(before.os.dns, entries, w.os.dns, {guid})
    requires AgreesOutside(before.os.dns, w.os.dns, FieldsOf(before.os.dns, guid))
    requires forall i :: 0 <= i < |entries| ==> entries[i].guid == guid
    requires Effective(w.os.dns, guid, Ipv4, v4Servers, items)
    requires from <= |w.trace| && OnlyDnsSince(before, w.trace, from, FieldsOf(before.os.dns, guid))
    modifies w`os, w`trace, w`undoFailures, w`log
    ensures w.os == before.os.(dns := w.os.dns)
    ensures AgreesOutside(before.os.dns, w.os.dns, FieldsOf(before.os.dns, guid))
    ensures before.undoFailures <= w.undoFailures
    ensures r.Some? ==>
      && w.undoFailures == before.undoFailures
      && Restores(before.os.dns, r.value, w.os.dns, {guid})
      && r.value != [] && (forall i :: 0 <= i < |r.value| ==> r.value[i].guid == guid)
      && Effective(w.os.dns, guid, Ipv4, v4Servers, items)
      && Effective(w.os.dns, guid, Ipv6, v6Servers, [])
    ensures r.None? && w.undoFailures == before.undoFailures ==> w.os.dns == before.os.dns
    ensures old(w.log).Grows(w.log) && (r.None? ==> w.log.refused > old(w.log).refused)
    ensures w.log.dnsFaults[guid] == old(w.log).dnsFaults[guid] ==> r.Some?
    ensures w.Extends(old(w.trace), old(w.Here()))
    ensures OnlyDnsSince(before, w.trace, from, FieldsOf(before.os.dns, guid))
  {
    ghost var fields := FieldsOf(before.os.dns, guid);
    ghost var mid, trace1 := w.Here(), w.trace;
    var entry := ApplyDnsFamilyWithGuid(w, guid, Ipv6, v6Servers, []);
    assert FieldsOf(mid.os.dns, guid) == fields;
    OnlyDnsChain(before, mid, trace1, w.trace, from, fields, fields);
    if entry.None? {
      ghost var failed, trace2 := w.Here(), w.trace;
      var _ := CleanupDns(w, entries);
      RevertKeepsFrame(before.os.dns, mid.os.dns, failed.os.dns, w.os.dns, entries, guid);
      OnlyDnsChain(before, failed, trace2, w.trace, from, Merge(DnsLog(entries)).Keys, fields);
      return None;
    }
    RestoresAppend(before.os.dns, entries, mid.os.dns, entry.value, w.os.dns, {guid});
    EffectiveSurvives(guid, v4Servers, items, mid.os.dns, entry.value, w.os.dns, v6Servers);
    return Some(entries + [entry.value]);
  }

  lemma OnlyDnsNothing(before: Snapshot, trace: seq<Snapshot>, fields: set<DnsField>)
    ensures OnlyDnsSince(before, trace, |trace|, fields)
  {
  }

  lemma RestoresNothing(t: DnsTable, guids: set<Guid>)
    ensures Restores(t, [], t, guids)
  {
    assert t + map[] == t;
  }

  lemma NothingIsEffective(guid: Guid)
    ensures forall dns, f :: Effective(dns, guid, f, [], [])
    ensures TrimmedItems([]) == []
  {
  }

  /** Write both families of one interface, or leave it as it was. */
  method ApplyDnsWithGuid(w: World, guid: Guid, servers: seq<IpAddr>, search: seq<string>)
    returns (r: Option<seq<DnsEntry>>)
    modifies w`os, w`trace, w`undoFailures, w`log
    ensures w.os == old(w.os).(dns := w.os.dns) && AgreesOutside(old(w.os.dns), w.os.dns, FieldsOf(old(w.os.dns), guid))
    ensures old(w.undoFailures) <= w.undoFailures
    ensures r.Some? ==>
      && w.undoFailures == old(w.undoFailures)
      && Restores(old(w.os.dns), r.value, w.os.dns, {guid})
      && (forall i :: 0 <= i < |r.value| ==> r.value[i].guid == guid)
      && EffectiveOn(w.os.dns, guid, servers, search)
      && (r.value == [] ==> NothingAsked(servers, search))
    ensures r.None? && w.undoFailures == old(w.undoFailures) ==> w.os.dns == old(w.os.dns)
    ensures old(w.log).Grows(w.log) && (r.None? ==> w.log.refused > old(w.log).refused)
    ensures w.log.dnsFaults[guid] == old(w.log).dnsFaults[guid] ==> r.Some?
    ensures w.Extends(old(w.trace), old(w.Here()))
    ensures OnlyDnsSince(old(w.Here()), w.trace, |old(w.trace)|, FieldsOf(old(w.os.dns), guid))
  {
    hide OfFamily, DnsOriginals, Effective, TrimmedItems, Restores, OnlyDnsSince;
    NothingIsEffective(guid);
    var v4Servers := OfFamily(servers, Ipv4);
    var v6Servers := OfFamily(servers, Ipv6);
    var entries: seq<DnsEntry> := [];
    ghost var before, from := w.Here(), |w.trace|;
    RestoresNothing(w.os.dns, {guid});
    OnlyDnsNothing(before, w.trace, FieldsOf(w.os.dns, guid));
    if |v4Servers| > 0 || |search| > 0 {
      var entry := ApplyDnsFamilyWithGuid(w, guid, Ipv4, v4Servers, search);
      if entry.None? {
        return None;
      }
      RestoresAppend(before.os.dns, [], before.os.dns, entry.value, w.os.dns, {guid});
      entries := [entry.value];
      assert [] + [entry.value] == entries;
    }
    if |v6Servers| > 0 {
      r := ApplyIpv6WithGuid(w, guid, entries, v6Servers, before, from, v4Servers, TrimmedItems(search));
      return;
    }
    return Some(entries);
  }

  lemma RestoresConcat(before: DnsTable, e1: seq<DnsEntry>, mid: DnsTable, e2: seq<DnsEntry>, after: DnsTable,
                       guids: set<Guid>)
    requires Restores(before, e1, mid, guids) && Restores(mid, e2, after, guids)
    ensures Restores(before, e1 + e2, after, guids)
  {
    MergeConcat(DnsLog(e1), DnsLog(e2));
    assert DnsLog(e1 + e2) == DnsLog(e1) + DnsLog(e2);
    MergeIsAssociative(after, Merge(DnsLog(e2)), Merge(DnsLog(e1)));
  }

  /** The adapter's interfaces for DNS. */
  function DnsGuids(a: Adapter): set<Guid> {
    {a.guid} + (if a.dnsGuidFallback.Some? then {a.dnsGuidFallback.value} else {})
  }

  lemma WidenGuids(before: DnsTable, entries: seq<DnsEntry>, after: DnsTable, guids: set<Guid>, more: set<Guid>)
    requires Restores(before, entries, after, guids) && guids <= more
    ensures Restores(before, entries, after, more)
  {
  }

  lemma RestoredKeys(before: DnsTable, entries: seq<DnsEntry>, after: DnsTable, guids: set<Guid>)
    requires Restores(before, entries, after, guids)
    ensures forall k :: k in Merge(DnsLog(entries)) ==> k in before && GuidOf(k) in guids
  {
    assert (after + Merge(DnsLog(entries))).Keys == before.Keys;
  }

  /** The primary interface, or the fallback where the primary fails; `guid` is the one that took the settings. */
  method ApplyDnsToOne(w: World, a: Adapter, servers: seq<IpAddr>, search: seq<string>)
    returns (r: Option<seq<DnsEntry>>, guid: Guid)
    modifies w`os, w`trace, w`undoFailures, w`log
    ensures w.os == old(w.os).(dns := w.os.dns)
    ensures AgreesOutside(old(w.os.dns), w.os.dns, AdapterFields(a, old(w.os.dns)))
    ensures old(w.undoFailures) <= w.undoFailures
    ensures r.Some? && w.undoFailures == old(w.undoFailures) ==> Restores(old(w.os.dns), r.value, w.os.dns, DnsGuids(a))
    ensures r.Some? ==> guid in DnsGuids(a) && EffectiveOn(w.os.dns, guid, servers, search)
    ensures r.Some? ==> forall i :: 0 <= i < |r.value| ==> r.value[i].guid == guid
    ensures r == Some([]) ==> NothingAsked(servers, search)
    ensures r.Some? ==> Merge(DnsLog(r.value)).Keys <= AdapterFields(a, old(w.os.dns))
    ensures r.None? && w.undoFailures == old(w.undoFailures) ==> w.os.dns == old(w.os.dns)
    ensures old(w.log).Grows(w.log) && (r.None? ==> w.log.refused > old(w.log).refused)
    ensures w.log.dnsFaults[a.guid] == old(w.log).dnsFaults[a.guid] ==> r.Some? && guid == a.guid
    ensures forall g :: g in DnsGuids(a) && w.log.dnsFaults[g] == old(w.log).dnsFaults[g] ==> r.Some?
    ensures w.Extends(old(w.trace), old(w.Here()))
    ensures OnlyDnsSince(old(w.Here()), w.trace, |old(w.trace)|, AdapterFields(a, old(w.os.dns)))
  {
    hide EffectiveOn, NothingAsked, DnsOriginals, Merge, OnlyDnsSince;
    ghost var before, fields := w.Here(), AdapterFields(a, w.os.dns);
    guid := a.guid;
    r := ApplyDnsWithGuid(w, guid, servers, search);
    ghost var mid, trace1 := w.Here(), w.trace;
    assert FieldsOf(before.os.dns, a.guid) <= fields;
    OnlyDnsWider(before, trace1, |old(w.trace)|, FieldsOf(before.os.dns, a.guid), fields);
    if r.None? && a.dnsGuidFallback.Some? && a.dnsGuidFallback.value != a.guid {
      guid := a.dnsGuidFallback.value;
      assert FieldsOf(mid.os.dns, guid) <= fields;
      r := ApplyDnsWithGuid(w, guid, servers, search);
      OnlyDnsChain(before, mid, trace1, w.trace, |old(w.trace)|, FieldsOf(mid.os.dns, guid), fields);
    }
    if r.Some? {
      RestoredKeys(if guid == a.guid then before.os.dns else mid.os.dns, r.value, w.os.dns, {guid});
      if w.undoFailures == before.undoFailures {
        WidenGuids(before.os.dns, r.value, w.os.dns, {guid}, DnsGuids(a));
      }
    }
  }

  predicate AnyEntryFor(entries: seq<DnsEntry>, guid: Guid) {
    exists i :: 0 <= i < |entries| && entries[i].guid == guid
  }

  lemma NothingAskedIsEffective(dns: DnsTable, guid: Guid, servers: seq<IpAddr>, search: seq<string>)
    requires NothingAsked(servers, search)
    ensures EffectiveOn(dns, guid, servers, search)
  {
  }

  lemma AnyEntryOfNonEmpty(entries: seq<DnsEntry>, guid: Guid)
    requires forall i :: 0 <= i < |entries| ==> entries[i].guid == guid
    ensures entries == [] || AnyEntryFor(entries, guid)
  {
    if entries != [] {
      assert entries[0].guid == guid;
    }
  }

  /** The settings on the fallback as well; whether or not that works, the interface that has them keeps them. */
  method TryFallback(w: World, fallback: Guid, servers: seq<IpAddr>, search: seq<string>, ghost guid: Guid)
    returns (extra: Option<seq<DnsEntry>>)
    requires EffectiveOn(w.os.dns, guid, servers, search)
    requires guid == fallback ==> NothingAsked(servers, search)
    modifies w`os, w`trace, w`undoFailures, w`log
    ensures w.os == old(w.os).(dns := w.os.dns)
    ensures AgreesOutside(old(w.os.dns), w.os.dns, FieldsOf(old(w.os.dns), fallback))
    ensures old(w.undoFailures) <= w.undoFailures && old(w.log).Grows(w.log)
    ensures extra.Some? ==>
      && w.undoFailures == old(w.undoFailures)
      && Restores(old(w.os.dns), extra.value, w.os.dns, {fallback})
      && (forall i :: 0 <= i < |extra.value| ==> extra.value[i].guid == fallback)
    ensures extra.None? && w.undoFailures == old(w.undoFailures) ==> w.os.dns == old(w.os.dns)
    ensures EffectiveOn(w.os.dns, guid, servers, search)
    ensures w.log.dnsFaults[fallback] == old(w.log).dnsFaults[fallback] ==>
      EffectiveOn(w.os.dns, fallback, servers, search)
    ensures w.Extends(old(w.trace), old(w.Here()))
    ensures OnlyDnsSince(old(w.Here()), w.trace, |old(w.trace)|, FieldsOf(old(w.os.dns), fallback))
  {
    hide Effective, TrimmedItems, OfFamily, DnsOriginals, Merge, OnlyDnsSince;
    extra := ApplyDnsWithGuid(w, fallback, servers, search);
    if guid == fallback {
      NothingAskedIsEffective(w.os.dns, guid, servers, search);
    } else {
      EffectiveElsewhere(old(w.os.dns), w.os.dns, guid, fallback, servers, search);
    }
  }

  /**
   * Apply the settings to the primary interface, or to the fallback where that fails; where it succeeds,
   * the fallback is tried as well, without its failure mattering.
   */
  method ApplyDns(w: World, a: Adapter, servers: seq<IpAddr>, search: seq<string>) returns (r: Option<seq<DnsEntry>>)
    modifies w`os, w`trace, w`undoFailures, w`log
    ensures w.os == old(w.os).(dns := w.os.dns)
    ensures AgreesOutside(old(w.os.dns), w.os.dns, AdapterFields(a, old(w.os.dns)))
    ensures old(w.undoFailures) <= w.undoFailures
    ensures r.Some? && w.undoFailures == old(w.undoFailures) ==> Restores(old(w.os.dns), r.value, w.os.dns, DnsGuids(a))
    ensures r.Some? ==> exists guid :: guid in DnsGuids(a) && EffectiveOn(w.os.dns, guid, servers, search)
    ensures r.Some? ==> forall i :: 0 <= i < |r.value| ==> r.value[i].guid in DnsGuids(a)
    ensures r.Some? ==> Merge(DnsLog(r.value)).Keys <= AdapterFields(a, old(w.os.dns))
    ensures r.None? && w.undoFailures == old(w.undoFailures) ==> w.os.dns == old(w.os.dns)
    ensures old(w.log).Grows(w.log) && (r.None? ==> w.log.refused > old(w.log).refused)
    // An interface none of whose calls failed shows the settings; so an error means a failure on each of them.
    ensures forall g :: g in DnsGuids(a) && w.log.dnsFaults[g] == old(w.log).dnsFaults[g] ==>
      r.Some? && EffectiveOn(w.os.dns, g, servers, search)
    ensures w.Extends(old(w.trace), old(w.Here()))
    ensures OnlyDnsSince(old(w.Here()), w.trace, |old(w.trace)|, AdapterFields(a, old(w.os.dns)))
  {
    hide EffectiveOn, NothingAsked, DnsOriginals, Merge, OnlyDnsSince;
    ghost var before, fields := w.Here(), AdapterFields(a, w.os.dns);
    var guid;
    r, guid := ApplyDnsToOne(w, a, servers, search);
    if r.None? || a.dnsGuidFallback.None? || a.dnsGuidFallback.value == a.guid {
      return;
    }
    var fallback := a.dnsGuidFallback.value;
    if AnyEntryFor(r.value, fallback) {
      return;
    }
    ghost var done, trace1 := w.Here(), w.trace;
    if guid == fallback {
      AnyEntryOfNonEmpty(r.value, fallback);
    }
    var extra := TryFallback(w, fallback, servers, search, guid);
    assert FieldsOf(done.os.dns, fallback) <= fields;
    OnlyDnsChain(before, done, trace1, w.trace, |old(w.trace)|, FieldsOf(done.os.dns, fallback), fields);
    if extra.Some? {
      RestoredKeys(done.os.dns, extra.value, w.os.dns, {fallback});
      MergeConcat(DnsLog(r.value), DnsLog(extra.value));
      assert DnsLog(r.value + extra.value) == DnsLog(r.value) + DnsLog(extra.value);
      if w.undoFailures == before.undoFailures {
        WidenGuids(done.os.dns, extra.value, w.os.dns, {fallback}, DnsGuids(a));
        RestoresConcat(before.os.dns, r.value, done.os.dns, extra.value, w.os.dns, DnsGuids(a));
      }
      r := Some(r.value + extra.value);
    }
  }

  /** Applying and cleaning up again leaves the DNS settings of every interface as they were. */
  method ApplyThenCleanup(w: World, a: Adapter, servers: seq<IpAddr>, search: seq<string>) returns (applied: bool)
    modifies w`os, w`trace, w`undoFailures, w`log
    ensures w.undoFailures == old(w.undoFailures) ==> w.os == old(w.os)
    ensures w.log.dnsFaults[a.guid] == old(w.log).dnsFaults[a.guid] ==> applied
  {
    var r := ApplyDns(w, a, servers, search);
    applied := r.Some?;
    if applied {
      var _ := CleanupDns(w, r.value);
    }
  }
}
