/** The kernel WireGuard link and the journal that is written ahead of it. */
module KernelLink {
  import opened Common
  import opened Config

  datatype LinkKind = WireGuard | OtherKind
  datatype Phase = CreatingLink | LinkCreated | Running

  /** The journal file: missing, unreadable, or naming one link. */
  datatype Journal = Absent | Corrupt | Names(tun: string, phase: Phase)

  datatype KernelError = Unavailable | Operation | NameConflict

  datatype Outcome<+T> = Ok(value: T) | Err(error: KernelError)
  datatype Done = Done

  /** What a crash would leave: the links, the journal, and which links are of our making. */
  datatype Snapshot = Snapshot(links: map<string, LinkKind>, journal: Journal, ours: set<string>)

  predicate NamedBy(j: Journal, tun: string) {
    j.Names? && j.tun == tun
  }

  /** Our links that no journal names: nothing will remove them. */
  function Uncovered(s: Snapshot): set<string> {
    set n | n in s.ours && !NamedBy(s.journal, n)
  }

  /** The link whose journal entry a start under the name `tun` writes over. */
  function Overwritten(j: Journal, tun: string): set<string> {
    if j.Names? && j.tun != tun then {j.tun} else {}
  }

  /**
   * The links a start under the name `tun` may leave unnamed: those that were, the one whose journal entry it
   * writes over, and its own when creating it was reported as failed.
   */
  function Allowed(before: Snapshot, tun: string, lost: bool): set<string> {
    Uncovered(before) + Overwritten(before.journal, tun) + if lost then {tun} else {}
  }

  /** A start under the name `tun` finds the name free, or taken by a link of its own kind that its journal names. */
  predicate CanCreate(s: Snapshot, tun: string) {
    tun !in s.links || (NamedBy(s.journal, tun) && s.links[tun].WireGuard?)
  }

  /** The name is taken by a link that is never deleted. */
  predicate IsProtected(s: Snapshot, tun: string) {
    tun in s.links && s.links[tun].OtherKind?
  }

  /** No link but the one named has changed, and that one has at most been removed. */
  predicate OnlyRemoves(s: Snapshot, s': Snapshot, tun: string) {
    && s'.links - {tun} == s.links - {tun} && (tun in s'.links ==> tun in s.links && s.links[tun] == s'.links[tun])
    && s.ours - {tun} <= s'.ours <= s.ours
  }

  /** From `earlier` to `trace`, and now: no link of ours outside `allowed` has been unnamed at any point. */
  ghost predicate Bounded(earlier: seq<Snapshot>, trace: seq<Snapshot>, here: Snapshot, allowed: set<string>) {
    && earlier <= trace
    && (forall k :: |earlier| <= k < |trace| ==> Uncovered(trace[k]) <= allowed)
    && Uncovered(here) <= allowed
  }

  /** Two stretches of one trace. */
  lemma BoundedThen(earlier: seq<Snapshot>, middle: seq<Snapshot>, between: Snapshot, trace: seq<Snapshot>,
                    here: Snapshot, first: set<string>, second: set<string>, allowed: set<string>)
    requires Bounded(earlier, middle, between, first) && Bounded(middle, trace, here, second)
    requires first <= allowed && second <= allowed
    ensures Bounded(earlier, trace, here, allowed)
  {
  }

  /** What a further call may leave unnamed was unnamed before it. */
  lemma BoundedOn(earlier: seq<Snapshot>, middle: seq<Snapshot>, between: Snapshot, trace: seq<Snapshot>,
                  here: Snapshot, allowed: set<string>)
    requires Bounded(earlier, middle, between, allowed) && Bounded(middle, trace, here, Uncovered(between))
    ensures Bounded(earlier, trace, here, allowed)
  {
  }

  lemma BoundedStep(trace: seq<Snapshot>, here: Snapshot, allowed: set<string>)
    requires Uncovered(here) <= allowed
    ensures Bounded(trace, trace + [here], here, allowed)
  {
  }

  class World {
    var links: map<string, LinkKind>
    var journal: Journal
    ghost var ours: set<string>
    /** The state after each call, oldest first. */
    ghost var trace: seq<Snapshot>
    /** What each link is configured with. */
    ghost var configured: map<string, DeviceSettings>
    /** How many calls have failed. */
    ghost var refused: nat

    ghost function Here(): Snapshot
      reads `links, `journal, `ours
    {
      Snapshot(links, journal, ours)
    }

    ghost predicate Valid()
      reads `links, `ours
    {
      forall n :: n in ours ==> n in links && links[n].WireGuard?
    }

    constructor ()
      ensures Valid() && journal == Absent && ours == {} && trace == []
    {
      links, journal, ours, trace, configured, refused := map[], Absent, {}, [], map[], 0;
    }

    // -------------------------------------------------------------- the journal file

    /** A file that does not parse is moved aside and counts as missing. */
    method LoadJournal() returns (r: Outcome<Option<Journal>>)
      modifies `journal, `trace, `refused
      ensures r.Ok? ==> r.value == if old(journal).Names? then Some(old(journal)) else None
      ensures r.Err? ==> r.error == Operation
      ensures journal == old(journal) || (old(journal).Corrupt? && journal == Absent)
      ensures r.Ok? ==> !journal.Corrupt?
      ensures refused == old(refused) + if r.Err? then 1 else 0
      ensures trace == old(trace) + [Here()]
    {
      var readable: bool := *;
      if !readable && !journal.Absent? {
        r := Err(Operation);
      } else if journal.Corrupt? {
        var renamed: bool := *;
        if renamed {
          journal := Absent;
          r := Ok(None);
        } else {
          r := Err(Operation);
        }
      } else {
        r := Ok(if journal.Names? then Some(journal) else None);
      }
      refused := refused + if r.Err? then 1 else 0;
      trace := trace + [Here()];
    }

    /** An atomic write; one that fails may still have replaced the file. */
    method WriteJournal(tun: string, phase: Phase) returns (r: Outcome<Done>)
      modifies `journal, `trace, `refused
      ensures r.Ok? ==> journal == Names(tun, phase)
      ensures r.Err? ==> r.error == Operation && (journal == old(journal) || journal == Names(tun, phase))
      ensures refused == old(refused) + if r.Err? then 1 else 0
      ensures trace == old(trace) + [Here()]
    {
      var ok: bool, landed: bool := *, *;
      if ok || landed {
        journal := Names(tun, phase);
      }
      r := if ok then Ok(Done) else Err(Operation);
      refused := refused + if r.Err? then 1 else 0;
      trace := trace + [Here()];
    }

    method ClearJournal() returns (r: Outcome<Done>)
      modifies `journal, `trace, `refused
      ensures r.Ok? ==> journal == Absent
      ensures r.Err? ==> r.error == Operation && journal == old(journal)
      ensures refused == old(refused) + if r.Err? then 1 else 0
      ensures trace == old(trace) + [Here()]
    {
      var ok: bool := *;
      if ok || journal.Absent? {
        journal := Absent;
        r := Ok(Done);
      } else {
        r := Err(Operation);
      }
      refused := refused + if r.Err? then 1 else 0;
      trace := trace + [Here()];
    }

    // -------------------------------------------------------------- route netlink

    method Connect() returns (ok: bool)
      modifies `refused
      ensures refused == old(refused) + if ok then 0 else 1
    {
      ok := *;
      refused := refused + if ok then 0 else 1;
    }

    method FindLink(tun: string) returns (r: Outcome<Option<LinkKind>>)
      modifies `refused
      ensures r.Ok? ==> r.value == if tun in links then Some(links[tun]) else None
      ensures r.Err? ==> r.error == Unavailable || r.error == Operation
      ensures refused == old(refused) + if r.Err? then 1 else 0
    {
      var ok: bool, unavailable: bool := *, *;
      r := if ok then Ok(if tun in links then Some(links[tun]) else None)
           else Err(if unavailable then Unavailable else Operation);
      refused := refused + if r.Err? then 1 else 0;
    }

    /** The answer can be lost: then the link exists although the call failed. */
    method AddLink(tun: string) returns (r: Outcome<Done>)
      requires Valid() && tun !in links
      modifies `links, `ours, `trace, `configured, `refused
      ensures Valid()
      ensures || (links == old(links)[tun := WireGuard] && ours == old(ours) + {tun})
              || (links == old(links) && ours == old(ours))
      ensures r.Ok? ==> tun in ours
      ensures r.Err? ==> r.error == Unavailable || r.error == Operation
      ensures configured == if links == old(links) then old(configured) else old(configured) - {tun}
      ensures refused == old(refused) + if r.Err? then 1 else 0
      ensures trace == old(trace) + [Here()]
    {
      var ok: bool, done: bool, unavailable: bool := *, *, *;
      if ok || done {
        links := links[tun := WireGuard];
        configured := configured - {tun};
        ours := ours + {tun};
      }
      r := if ok then Ok(Done) else Err(if unavailable then Unavailable else Operation);
      refused := refused + if r.Err? then 1 else 0;
      trace := trace + [Here()];
    }

    method RemoveLink(tun: string) returns (r: Outcome<Done>)
      requires Valid() && tun in links
      modifies `links, `ours, `trace, `configured, `refused
      ensures Valid()
      ensures (links == old(links) - {tun} && ours == old(ours) - {tun}) || (links == old(links) && ours == old(ours))
      ensures r.Ok? ==> tun !in links
      ensures r.Err? ==> r.error == Unavailable || r.error == Operation
      ensures configured == if links == old(links) then old(configured) else old(configured) - {tun}
      ensures refused == old(refused) + if r.Err? then 1 else 0
      ensures trace == old(trace) + [Here()]
    {
      var ok: bool, done: bool, unavailable: bool := *, *, *;
      if ok || done {
        links := links - {tun};
        configured := configured - {tun};
        ours := ours - {tun};
      }
      r := if ok then Ok(Done) else Err(if unavailable then Unavailable else Operation);
      refused := refused + if r.Err? then 1 else 0;
      trace := trace + [Here()];
    }

    /** Generic netlink: keys, port, mark and peers of an existing link. */
    method Configure(tun: string, settings: DeviceSettings) returns (r: Outcome<Done>)
      modifies `trace, `configured, `refused
      ensures configured == if r.Ok? then old(configured)[tun := settings] else old(configured) - {tun}
      ensures r.Err? ==> r.error == Unavailable || r.error == Operation
      ensures refused == old(refused) + if r.Err? then 1 else 0
      ensures trace == old(trace) + [Here()]
    {
      var ok: bool, unavailable: bool := *, *;
      configured := if ok then configured[tun := settings] else configured - {tun};
      r := if ok then Ok(Done) else Err(if unavailable then Unavailable else Operation);
      refused := refused + if r.Err? then 1 else 0;
      trace := trace + [Here()];
    }

    /** Generic netlink: another key and one other peer; port and mark stay. */
    method ApplyUpdate(tun: string, key: Key, peer: DevicePeer) returns (r: Outcome<Done>)
      requires tun in configured
      modifies `trace, `configured, `refused
      ensures configured == if r.Ok? then old(configured)[tun := Upgraded(old(configured)[tun], key, peer)]
                            else old(configured) - {tun}
      ensures refused == old(refused) + if r.Err? then 1 else 0
      ensures trace == old(trace) + [Here()]
    {
      var ok: bool, unavailable: bool := *, *;
      configured := if ok then configured[tun := Upgraded(configured[tun], key, peer)] else configured - {tun};
      r := if ok then Ok(Done) else Err(if unavailable then Unavailable else Operation);
      refused := refused + if r.Err? then 1 else 0;
      trace := trace + [Here()];
    }
  }

  /** Configurations of other links are left alone. */
  ghost predicate OthersConfigured(before: map<string, DeviceSettings>, after: map<string, DeviceSettings>, tun: string)
  {
    after - {tun} == before - {tun}
  }

  /**
   * Delete a link of ours.  A link of another kind is never touched, and a link that is gone already is a
   * success.
   */
  method DeleteKernelDevice(w: World, tun: string) returns (r: Outcome<Done>)
    requires w.Valid()
    modifies w`links, w`ours, w`trace, w`configured, w`refused
    ensures w.Valid()
    ensures OnlyRemoves(old(w.Here()), w.Here(), tun)
    ensures r.Ok? ==> tun !in w.links && tun !in w.ours
    ensures tun in old(w.links) && old(w.links)[tun].OtherKind? ==> r.Err? && w.links == old(w.links)
    ensures r.Err? ==> r.error != NameConflict
    ensures Bounded(old(w.trace), w.trace, w.Here(), Uncovered(old(w.Here())))
    ensures old(w.refused) <= w.refused
    ensures r.Ok? <==> w.refused == old(w.refused) && !IsProtected(old(w.Here()), tun)
    ensures OthersConfigured(old(w.configured), w.configured, tun)
    ensures r == Err(Unavailable) ==> w.refused > old(w.refused)
  {
    var connected := w.Connect();
    if !connected {
      return Err(Operation);
    }
    var found := w.FindLink(tun);
    if found.Err? {
      return Err(found.error);
    }
    if found.value.Some? {
      if found.value.value != WireGuard {
        return Err(Operation);
      }
      r := w.RemoveLink(tun);
      return;
    }
    return Ok(Done);
  }

  /** Delete a link and, when that worked, its journal. */
  method DeleteAndClear(w: World, tun: string)
    requires w.Valid()
    modifies w`links, w`ours, w`journal, w`trace, w`configured, w`refused
    ensures w.Valid()
    ensures OnlyRemoves(old(w.Here()), w.Here(), tun)
    ensures w.journal == old(w.journal) || (w.journal == Absent && tun !in w.ours)
    ensures old(w.trace) <= w.trace
    ensures !old(w.journal).Names? || NamedBy(old(w.journal), tun) ==>
      Bounded(old(w.trace), w.trace, w.Here(), Uncovered(old(w.Here())))
    ensures old(w.refused) <= w.refused
    ensures w.refused == old(w.refused) && !IsProtected(old(w.Here()), tun) ==> w.journal == Absent && tun !in w.links
    ensures IsProtected(old(w.Here()), tun) ==> w.Here() == old(w.Here())
    ensures OthersConfigured(old(w.configured), w.configured, tun)
  {
    var deleted := DeleteKernelDevice(w, tun);
    if deleted.Ok? {
      var _ := w.ClearJournal();
    }
  }

  /** Before a link is created: one left over under the same name, and in the journal, goes first. */
  method CleanupJournaledLinkBeforeCreate(w: World, tun: string) returns (r: Outcome<Done>)
    requires w.Valid()
    modifies w`links, w`ours, w`journal, w`trace, w`configured, w`refused
    ensures w.Valid()
    ensures OnlyRemoves(old(w.Here()), w.Here(), tun)
    ensures r.Ok? && NamedBy(old(w.journal), tun) ==> tun !in w.links && w.journal == Absent
    ensures r.Ok? && !NamedBy(old(w.journal), tun) ==>
      w.ours == old(w.ours) && w.journal == if old(w.journal).Corrupt? then Absent else old(w.journal)
    ensures r.Ok? && tun in w.ours ==> tun in Uncovered(old(w.Here()))
    ensures r.Err? ==> w.journal in [old(w.journal), Absent] && r.error != NameConflict
    ensures Bounded(old(w.trace), w.trace, w.Here(), Uncovered(old(w.Here())))
    ensures old(w.refused) <= w.refused
    ensures r.Ok? <==> w.refused == old(w.refused)
                       && !(NamedBy(old(w.journal), tun) && IsProtected(old(w.Here()), tun))
    ensures OthersConfigured(old(w.configured), w.configured, tun)
    ensures !NamedBy(old(w.journal), tun) ==> w.links == old(w.links)
    ensures r == Err(Unavailable) ==> w.refused > old(w.refused)
  {
    var journal := w.LoadJournal();
    if journal.Err? {
      return Err(journal.error);
    }
    if journal.value.None? || journal.value.value.tun != tun {
      return Ok(Done);
    }
    r := DeleteKernelDevice(w, tun);
    if r.Err? {
      return;
    }
    r := w.ClearJournal();
  }

  /** The journal names a WireGuard link that is not of our making. */
  predicate TakesForeign(s: Snapshot) {
    && s.journal.Names? && s.journal.tun !in s.ours
    && s.journal.tun in s.links && s.links[s.journal.tun].WireGuard?
  }

  /** An interrupted start that found its name taken leaves such a journal. */
  lemma ForeignLinkCanBeNamed(tun: string)
    ensures TakesForeign(Snapshot(map[tun := WireGuard], Names(tun, CreatingLink), {}))
  {
  }

  /** At service start: remove whatever link the journal names. */
  method RepairStaleKernelDevice(w: World) returns (r: Outcome<Done>)
    requires w.Valid()
    modifies w`links, w`ours, w`journal, w`trace, w`configured, w`refused
    ensures w.Valid()
    ensures r.Ok? ==> w.journal == Absent && (old(w.journal).Names? ==> old(w.journal).tun !in w.links)
    ensures r.Ok? ==> w.ours == Uncovered(old(w.Here()))
    // At most the named link goes, and only a journal that names somebody else's lets a link go that is not ours.
    ensures if old(w.journal).Names? then OnlyRemoves(old(w.Here()), w.Here(), old(w.journal).tun)
            else w.links == old(w.links) && w.ours == old(w.ours)
    ensures !TakesForeign(old(w.Here())) ==> old(w.links).Keys - w.links.Keys <= old(w.ours)
    ensures r.Ok? ==> (old(w.links).Keys - w.links.Keys <= old(w.ours) <==> !TakesForeign(old(w.Here())))
    ensures Bounded(old(w.trace), w.trace, w.Here(), Uncovered(old(w.Here())))
    ensures r.Ok? <==> w.refused == old(w.refused)
                       && !(old(w.journal).Names? && IsProtected(old(w.Here()), old(w.journal).tun))
  {
    var journal := w.LoadJournal();
    if journal.Err? {
      return Err(journal.error);
    }
    if journal.value.None? {
      return Ok(Done);
    }
    ghost var before := w.Here();
    r := DeleteKernelDevice(w, journal.value.value.tun);
    RemovesAtMost(before, w.Here(), before.journal.tun);
    if r.Err? {
      return;
    }
    r := w.ClearJournal();
  }

  lemma RemovesAtMost(s: Snapshot, s': Snapshot, tun: string)
    requires OnlyRemoves(s, s', tun)
    ensures s.links.Keys - s'.links.Keys == if tun in s.links && tun !in s'.links then {tun} else {}
  {
    forall n | n != tun ensures n in s.links <==> n in s'.links {
      assert n in s.links - {tun} <==> n in s'.links - {tun};
    }
  }

  /** Create the link unless its name is taken. */
  method CreateWireguardLink(w: World, tun: string) returns (r: Outcome<Done>)
    requires w.Valid()
    modifies w`links, w`ours, w`trace, w`configured, w`refused
    ensures w.Valid()
    ensures w.links - {tun} == old(w.links) - {tun} && old(w.ours) <= w.ours <= old(w.ours) + {tun}
    ensures tun in old(w.links) ==> w.links == old(w.links) && w.ours == old(w.ours)
    ensures r.Ok? ==> tun in w.ours && tun !in old(w.links)
    ensures r == Err(NameConflict) ==> tun in old(w.links)
    ensures Bounded(old(w.trace), w.trace, w.Here(), Uncovered(old(w.Here())) + Uncovered(w.Here()))
    ensures old(w.refused) <= w.refused
    ensures r.Ok? <==> w.refused == old(w.refused) && tun !in old(w.links)
    ensures OthersConfigured(old(w.configured), w.configured, tun)
    ensures r == Err(Unavailable) ==> w.refused > old(w.refused)
  {
    var connected := w.Connect();
    if !connected {
      return Err(Operation);
    }
    var found := w.FindLink(tun);
    if found.Err? {
      return Err(found.error);
    }
    if found.value.Some? {
      return Err(NameConflict);
    }
    r := w.AddLink(tun);
  }

  /** The second half of a kernel start: the link exists and the journal names it. */
  method ConfigureCreatedLink(w: World, tun: string, settings: DeviceSettings) returns (r: Outcome<string>)
    requires w.Valid() && NamedBy(w.journal, tun) && tun in w.ours
    modifies w`links, w`ours, w`journal, w`trace, w`configured, w`refused
    ensures w.Valid()
    ensures r.Ok? ==> r.value == tun && w.journal == Names(tun, LinkCreated) && w.ours == old(w.ours)
    ensures r.Err? ==> r.error != NameConflict
    ensures OnlyRemoves(old(w.Here()), w.Here(), tun)
    ensures NamedBy(w.journal, tun) || (w.journal == Absent && tun !in w.ours)
    ensures Bounded(old(w.trace), w.trace, w.Here(), Uncovered(old(w.Here())))
    ensures old(w.refused) <= w.refused && (r.Ok? <==> w.refused == old(w.refused))
    ensures r.Ok? ==> tun in w.configured && w.configured[tun] == settings
    ensures OthersConfigured(old(w.configured), w.configured, tun)
  {
    var written := w.WriteJournal(tun, LinkCreated);
    if written.Err? {
      return Err(written.error);
    }
    var configured := w.Configure(tun, settings);
    if configured.Err? {
      DeleteAndClear(w, tun);
      return Err(configured.error);
    }
    return Ok(tun);
  }

  /**
   * Create and configure the link of a tunnel, with the journal written first.  `lost` is set when creating the
   * link was reported as failed and yet there is one: the journal is then cleared all the same.
   */
  method StartKernelDevice(w: World, tun: string, settings: DeviceSettings)
    returns (r: Outcome<string>, ghost lost: bool)
    requires w.Valid()
    modifies w`links, w`ours, w`journal, w`trace, w`configured, w`refused
    ensures w.Valid()
    ensures r.Ok? ==> r.value == tun && w.journal == Names(tun, LinkCreated)
    ensures r.Ok? ==> w.ours == old(w.ours) + {tun} && !lost
    ensures w.ours <= old(w.ours) + {tun}
    // Links of other names are left alone.
    ensures w.links - {tun} == old(w.links) - {tun} && w.ours - {tun} == old(w.ours) - {tun}
    // Finding the name taken by a link of somebody else's passes a point at which a repair would take that link.
    ensures r == Err(NameConflict) && tun in old(w.links) && old(w.links)[tun].WireGuard? && tun !in old(w.ours) ==>
      exists k :: |old(w.trace)| <= k < |w.trace| && TakesForeign(w.trace[k])
    ensures lost ==> r.Err? && tun in w.ours
    // Write-ahead, at every point: only a lost answer, or another name in the journal, can leave a link unnamed.
    ensures Bounded(old(w.trace), w.trace, w.Here(), Allowed(old(w.Here()), tun, lost))
    // The one irrecoverable case is real: the journal no longer names the link it named before.
    ensures r.Ok? ==> Overwritten(old(w.journal), tun) * old(w.ours) <= Uncovered(w.Here())
    // Nothing but a failed call, or a name that is taken, keeps a link from being started.
    ensures old(w.refused) <= w.refused
    ensures r.Ok? <==> w.refused == old(w.refused) && CanCreate(old(w.Here()), tun)
    ensures r.Ok? ==> tun in w.configured && w.configured[tun] == settings
    ensures OthersConfigured(old(w.configured), w.configured, tun)
    ensures r == Err(Unavailable) ==> w.refused > old(w.refused)
  {
    hide Bounded, Uncovered, Overwritten;
    lost := false;
    ghost var before := w.Here();
    ghost var allowed := Allowed(before, tun, false);
    var cleaned := CleanupJournaledLinkBeforeCreate(w, tun);
    ghost var trace, clean := w.trace, w.Here();
    BoundedWider(old(w.trace), trace, clean, Uncovered(before), allowed);
    if cleaned.Err? {
      return Err(cleaned.error), false;
    }
    var written := w.WriteJournal(tun, CreatingLink);
    ghost var named, at := w.Here(), |trace|;
    JournalWritten(clean, named, tun);
    OverwrittenOnce(before, clean, tun);
    BoundedStep(trace, named, allowed);
    BoundedThen(old(w.trace), trace, clean, w.trace, named, allowed, allowed, allowed);
    if written.Err? {
      return Err(written.error), false;
    }
    trace := w.trace;
    var created := CreateWireguardLink(w, tun);
    ghost var made := w.Here();
    NamedLinkIsCovered(named, made, tun);
    ghost var either := Uncovered(named) + Uncovered(made);
    assert either == Uncovered(named);
    BoundedLast(old(w.trace), trace, named, allowed);
    BoundedThen(old(w.trace), trace, named, w.trace, made, allowed, either, allowed);
    trace := w.trace;
    if created.Err? {
      lost := made.ours != named.ours;
      ghost var limit := Allowed(before, tun, lost);
      var _ := w.ClearJournal();
      JournalCleared(made, w.Here(), tun);
      assert Uncovered(w.Here()) <= limit;
      BoundedStep(trace, w.Here(), limit);
      BoundedThen(old(w.trace), trace, made, w.trace, w.Here(), allowed, limit, limit);
      if created.error == NameConflict && tun !in before.ours && before.links[tun].WireGuard? {
        assert TakesForeign(w.trace[at]);
      }
      return Err(created.error), lost;
    }
    r := ConfigureCreatedLink(w, tun, settings);
    if r.Ok? {
      OverwriteForgets(before, w.Here(), tun);
    }
    BoundedThen(old(w.trace), trace, made, w.trace, w.Here(), allowed, Uncovered(made), allowed);
    return r, false;
  }

  lemma BoundedWider(earlier: seq<Snapshot>, trace: seq<Snapshot>, here: Snapshot, some: set<string>, more: set<string>)
    requires Bounded(earlier, trace, here, some) && some <= more
    ensures Bounded(earlier, trace, here, more)
  {
  }

  lemma BoundedLast(earlier: seq<Snapshot>, trace: seq<Snapshot>, here: Snapshot, allowed: set<string>)
    requires Bounded(earlier, trace, here, allowed)
    ensures earlier <= trace && Uncovered(here) <= allowed
  {
  }

  lemma OverwriteForgets(before: Snapshot, here: Snapshot, tun: string)
    requires NamedBy(here.journal, tun) && before.ours - {tun} <= here.ours
    ensures Overwritten(before.journal, tun) * before.ours <= Uncovered(here)
  {
  }

  lemma OverwrittenOnce(before: Snapshot, clean: Snapshot, tun: string)
    requires clean.journal in [before.journal, Absent]
    ensures Overwritten(clean.journal, tun) <= Overwritten(before.journal, tun)
  {
  }

  lemma JournalWritten(s: Snapshot, s': Snapshot, tun: string)
    requires s'.ours == s.ours && (s'.journal == s.journal || NamedBy(s'.journal, tun))
    ensures Uncovered(s') <= Uncovered(s) + Overwritten(s.journal, tun)
    ensures NamedBy(s'.journal, tun) ==> Overwritten(s.journal, tun) * s.ours <= Uncovered(s')
  {
  }

  lemma NamedLinkIsCovered(s: Snapshot, s': Snapshot, tun: string)
    requires NamedBy(s.journal, tun) && s'.journal == s.journal && s.ours <= s'.ours <= s.ours + {tun}
    ensures Uncovered(s') == Uncovered(s)
  {
  }

  lemma JournalCleared(s: Snapshot, s': Snapshot, tun: string)
    requires NamedBy(s.journal, tun) && s'.ours == s.ours && s'.journal in [s.journal, Absent]
    ensures Uncovered(s') <= Uncovered(s) + if tun in s.ours then {tun} else {}
    ensures tun !in s.ours ==> Uncovered(s') == Uncovered(s)
  {
  }

  method MarkKernelDeviceRunning(w: World, tun: string) returns (r: Outcome<Done>)
    modifies w`journal, w`trace, w`refused
    ensures r.Ok? ==> w.journal == Names(tun, Running)
    ensures r.Err? ==> r.error == Operation && w.journal in [old(w.journal), Names(tun, Running)]
    ensures w.refused == old(w.refused) + if r.Err? then 1 else 0
    ensures NamedBy(old(w.journal), tun) ==>
      Bounded(old(w.trace), w.trace, w.Here(), Uncovered(old(w.Here())))
  {
    r := w.WriteJournal(tun, Running);
  }

  /** With no other name in the journal and no lost answer, every link of ours is named at every point. */
  lemma WriteAheadWhenNameIsFree(earlier: seq<Snapshot>, trace: seq<Snapshot>, here: Snapshot, before: Snapshot,
                                 tun: string)
    requires Uncovered(before) == {} && (before.journal.Names? ==> before.journal.tun == tun)
    requires Bounded(earlier, trace, here, Allowed(before, tun, false))
    ensures forall k, n :: |earlier| <= k < |trace| && n in trace[k].ours ==> NamedBy(trace[k].journal, n)
    ensures forall n :: n in here.ours ==> NamedBy(here.journal, n)
  {
    forall n | n in here.ours ensures NamedBy(here.journal, n) {
      assert n !in Uncovered(here);
    }
    forall k, n | |earlier| <= k < |trace| && n in trace[k].ours ensures NamedBy(trace[k].journal, n) {
      assert n !in Uncovered(trace[k]);
    }
  }
}
