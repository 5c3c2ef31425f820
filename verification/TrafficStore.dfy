/** Rolling traffic statistics: one list of days and one of hours, for everything and for each configuration. */
module TrafficStore {
  import opened Common
  import opened TrafficWindow

  const ROLLING_DAYS: nat := 60
  const HOURLY_HISTORY: nat := 48
  const U64_VALUES := U64_MAX + 1

  datatype Event =
    | Recorded(config: Option<nat>, day: int, hour: int, rx: U64, tx: U64)
    | Removed(removed: nat)

  /** Whose traffic, and by which clock. */
  datatype Scope = Everyone | Nobody | Of(config: nat)
  datatype Unit = Day | Hour

  function KeyOf(e: Event, u: Unit): int
    requires e.Recorded?
  {
    if u.Day? then e.day else e.hour
  }

  predicate Concerns(config: Option<nat>, scope: Scope) {
    match scope
    case Everyone => true
    case Nobody => config.None?
    case Of(c) => config == Some(c)
  }

  /** What a history says about one scope; removing a configuration forgets its entries. */
  function Entries(history: seq<Event>, scope: Scope, u: Unit): seq<Entry> {
    if |history| == 0 then []
    else
      var last, earlier := history[|history| - 1], Entries(history[..|history| - 1], scope, u);
      match last
      case Recorded(config, _, _, rx, tx) =>
        if Concerns(config, scope) then earlier + [Entry(KeyOf(last, u), rx, tx)] else earlier
      case Removed(c) => if scope == Of(c) then [] else earlier
  }

  lemma EntriesPush(history: seq<Event>, e: Event, scope: Scope, u: Unit)
    ensures Entries(history + [e], scope, u) ==
      if e.Recorded? then
        Entries(history, scope, u) + if Concerns(e.config, scope) then [Entry(KeyOf(e, u), e.rx, e.tx)] else []
      else if scope == Of(e.removed) then [] else Entries(history, scope, u)
  {
    assert (history + [e])[..|history|] == history;
  }

  function CapOf(u: Unit): nat {
    if u.Day? then ROLLING_DAYS else HOURLY_HISTORY
  }

  /** The lists of one clock are the windows of what the history says. */
  ghost predicate ListsFollow(all: seq<Bucket>, configs: map<nat, seq<Bucket>>, history: seq<Event>, u: Unit) {
    && Windowed(all, Ledger(Entries(history, Everyone, u)), CapOf(u))
    && (forall c :: c in configs <==> Entries(history, Of(c), u) != [])
    && (forall c :: c in configs ==> Windowed(configs[c], Ledger(Entries(history, Of(c), u)), CapOf(u)))
  }

  function ListOf(configs: map<nat, seq<Bucket>>, c: nat): seq<Bucket> {
    if c in configs then configs[c] else []
  }

  lemma OneMoreEntry(list: seq<Bucket>, entries: seq<Entry>, cap: nat, e: Entry)
    requires cap > 0 && Windowed(list, Ledger(entries), cap)
    ensures Windowed(Updated(list, cap, e.key, e.rx, e.tx), Ledger(entries + [e]), cap)
  {
    hide Windowed, Updated, Ledger;
    LedgerPush(entries, e);
    UpdateKeepsWindow(list, Ledger(entries), cap, e);
  }

  lemma ElsewhereNothingNew(history: seq<Event>, e: Event, c: nat, u: Unit)
    requires e.Recorded? && e.config != Some(c)
    ensures Entries(history + [e], Of(c), u) == Entries(history, Of(c), u)
  {
    hide Entries;
    EntriesPush(history, e, Of(c), u);
    assert Entries(history, Of(c), u) + [] == Entries(history, Of(c), u);
  }

  /** Recording keeps every list a window: the global one, and that of the configuration concerned. */
  lemma RecordKeepsLists(all: seq<Bucket>, configs: map<nat, seq<Bucket>>, history: seq<Event>, u: Unit, e: Event)
    requires ListsFollow(all, configs, history, u) && e.Recorded?
    ensures var key, cap := KeyOf(e, u), CapOf(u);
      var all' := Updated(all, cap, key, e.rx, e.tx);
      var configs' := if e.config.None? then configs
        else configs[e.config.value := Updated(ListOf(configs, e.config.value), cap, key, e.rx, e.tx)];
      ListsFollow(all', configs', history + [e], u)
  {
    hide Updated, Windowed, Entries, Ledger;
    var cap, entry := CapOf(u), Entry(KeyOf(e, u), e.rx, e.tx);
    EntriesPush(history, e, Everyone, u);
    OneMoreEntry(all, Entries(history, Everyone, u), cap, entry);
    forall c: nat | e.config != Some(c)
      ensures Entries(history + [e], Of(c), u) == Entries(history, Of(c), u)
    {
      ElsewhereNothingNew(history, e, c, u);
    }
    if e.config.Some? {
      ConfigRecorded(configs, history, u, e);
    }
  }

  lemma ConfigRecorded(configs: map<nat, seq<Bucket>>, history: seq<Event>, u: Unit, e: Event)
    requires e.Recorded? && e.config.Some?
    requires var c := e.config.value;
      && (c in configs <==> Entries(history, Of(c), u) != [])
      && (c in configs ==> Windowed(configs[c], Ledger(Entries(history, Of(c), u)), CapOf(u)))
    ensures var c := e.config.value;
      && Entries(history + [e], Of(c), u) != []
      && Windowed(Updated(ListOf(configs, c), CapOf(u), KeyOf(e, u), e.rx, e.tx),
                  Ledger(Entries(history + [e], Of(c), u)), CapOf(u))
  {
    hide Updated, Windowed, Entries, Ledger;
    var c, cap := e.config.value, CapOf(u);
    EntriesPush(history, e, Of(c), u);
    if c !in configs {
      EmptyWindow(Entries(history, Of(c), u), cap);
    }
    OneMoreEntry(ListOf(configs, c), Entries(history, Of(c), u), cap, Entry(KeyOf(e, u), e.rx, e.tx));
  }

  lemma EmptyWindow(entries: seq<Entry>, cap: nat)
    requires entries == []
    ensures Windowed([], Ledger(entries), cap)
  {
  }

  lemma RemoveKeepsLists(all: seq<Bucket>, configs: map<nat, seq<Bucket>>, history: seq<Event>, u: Unit, c: nat)
    requires ListsFollow(all, configs, history, u)
    ensures ListsFollow(all, configs - {c}, history + [Removed(c)], u)
  {
    hide Windowed, Entries, Ledger;
    EntriesPush(history, Removed(c), Everyone, u);
    forall k: nat
      ensures Entries(history + [Removed(c)], Of(k), u) == if k == c then [] else Entries(history, Of(k), u)
    {
      EntriesPush(history, Removed(c), Of(k), u);
    }
  }

  class TrafficStore {
    var globalDays: seq<Bucket>
    var globalHours: seq<Bucket>
    var configDays: map<nat, seq<Bucket>>
    var configHours: map<nat, seq<Bucket>>
    var dirty: bool
    var lastPersistAt: Option<nat>
    var rev: U64
    ghost var history: seq<Event>

    /** Every list is the window of what has been recorded and not removed since the store was created. */
    ghost predicate Valid()
      reads this
    {
      && ListsFollow(globalDays, configDays, history, Day)
      && ListsFollow(globalHours, configHours, history, Hour)
    }

    constructor ()
      ensures Valid() && history == []
      ensures !dirty && rev == 0 && lastPersistAt == None
    {
      globalDays, globalHours, configDays, configHours := [], [], map[], map[];
      dirty, lastPersistAt, rev := false, None, 0;
      history := [];
      new;
      EmptyWindow(Entries(history, Everyone, Day), ROLLING_DAYS);
      EmptyWindow(Entries(history, Everyone, Hour), HOURLY_HISTORY);
    }

    /** Bytes seen in an interval; whether any list opened a bucket for them. */
    method Record(config: Option<nat>, dayKey: int, hourKey: int, rx: U64, tx: U64) returns (created: bool)
      requires Valid()
      modifies this
      ensures Valid()
      ensures rx + tx == 0 ==> !created && history == old(history) && rev == old(rev) && dirty == old(dirty)
      ensures rx + tx > 0 ==>
        && history == old(history) + [Recorded(config, dayKey, hourKey, rx, tx)]
        && dirty && rev == (old(rev) + 1) % U64_VALUES
        && (created <==>
          || dayKey !in Keys(old(globalDays)) || hourKey !in Keys(old(globalHours))
          || (config.Some? &&
            (|| dayKey !in Keys(ListOf(old(configDays), config.value))
             || hourKey !in Keys(ListOf(old(configHours), config.value)))))
      ensures lastPersistAt == old(lastPersistAt)
    {
      hide Updated, Windowed, Entries, Ledger, ListsFollow, IndexOf;
      if SaturatingAdd(rx, tx) == 0 {
        return false;
      }
      ghost var event := Recorded(config, dayKey, hourKey, rx, tx);
      RecordKeepsLists(globalDays, configDays, history, Day, event);
      RecordKeepsLists(globalHours, configHours, history, Hour, event);
      created := false;
      var isNew: bool;
      HasKey(globalDays, dayKey);
      HasKey(globalHours, hourKey);
      globalDays, isNew := UpdateBuckets(globalDays, ROLLING_DAYS, dayKey, rx, tx);
      if isNew {
        created := true;
      }
      globalHours, isNew := UpdateBuckets(globalHours, HOURLY_HISTORY, hourKey, rx, tx);
      if isNew {
        created := true;
      }
      if config.Some? {
        var c := config.value;
        var list := ListOf(configDays, c);
        HasKey(list, dayKey);
        list, isNew := UpdateBuckets(list, ROLLING_DAYS, dayKey, rx, tx);
        configDays := configDays[c := list];
        if isNew {
          created := true;
        }
        list := ListOf(configHours, c);
        HasKey(list, hourKey);
        list, isNew := UpdateBuckets(list, HOURLY_HISTORY, hourKey, rx, tx);
        configHours := configHours[c := list];
        if isNew {
          created := true;
        }
      }
      history := history + [event];
      dirty := true;
      rev := (rev + 1) % U64_VALUES;
    }

    /** Forget a configuration; whether there was anything to forget. */
    method RemoveConfig(config: nat) returns (removed: bool)
      requires Valid()
      modifies this
      ensures Valid() && history == old(history) + [Removed(config)]
      ensures removed <==> config in old(configDays) || config in old(configHours)
      ensures config !in configDays && config !in configHours
      ensures globalDays == old(globalDays) && globalHours == old(globalHours)
      ensures rev == if removed then (old(rev) + 1) % U64_VALUES else old(rev)
      ensures dirty == old(dirty) && lastPersistAt == old(lastPersistAt)
    {
      hide Windowed, Entries, Ledger, ListsFollow;
      RemoveKeepsLists(globalDays, configDays, history, Day, config);
      RemoveKeepsLists(globalHours, configHours, history, Hour, config);
      var removedDays, removedHours := config in configDays, config in configHours;
      configDays := configDays - {config};
      configHours := configHours - {config};
      history := history + [Removed(config)];
      removed := removedDays || removedHours;
      if removed {
        rev := (rev + 1) % U64_VALUES;
      }
    }

    method MarkPersisted(at: nat)
      requires Valid()
      modifies this`dirty, this`lastPersistAt
      ensures Valid() && !dirty && lastPersistAt == Some(at) && history == old(history)
    {
      lastPersistAt := Some(at);
      dirty := false;
    }
  }

  lemma HasKey(list: seq<Bucket>, key: int)
    ensures key !in Keys(list) <==> forall i :: 0 <= i < |list| ==> list[i].key != key
  {
    forall i | 0 <= i < |list| ensures list[i].key in Keys(list) {
      assert list[i] in list;
    }
  }

  // ---------------------------------------------------------------- conservation

  function BytesIn(list: seq<Bucket>, key: int, d: Direction): nat {
    var i := IndexOf(list, key);
    if i == |list| then 0 else if d.Rx? then list[i].rx else list[i].tx
  }

  /** Sum over a finite map. */
  ghost function SumOf(m: map<nat, nat>): nat
    decreases |m|
  {
    if m == map[] then 0
    else var c :| c in m; m[c] + SumOf(m - {c})
  }

  lemma {:induction false} SumWithout(m: map<nat, nat>, c: nat)
    requires c in m
    ensures SumOf(m) == m[c] + SumOf(m - {c})
    decreases |m|
  {
    var x :| x in m && SumOf(m) == m[x] + SumOf(m - {x});
    if x != c {
      SumWithout(m - {x}, c);
      SumWithout(m - {c}, x);
      assert m - {x} - {c} == m - {c} - {x};
    }
  }

  lemma {:induction false} SumOfZeros(m: map<nat, nat>)
    requires forall c :: c in m ==> m[c] == 0
    ensures SumOf(m) == 0
    decreases |m|
  {
    if m != map[] {
      var c :| c in m && SumOf(m) == m[c] + SumOf(m - {c});
      SumOfZeros(m - {c});
    }
  }

  lemma SumChange(m: map<nat, nat>, m': map<nat, nat>, c: nat)
    requires m.Keys == m'.Keys && c in m && forall k :: k in m && k != c ==> m'[k] == m[k]
    ensures SumOf(m') + m[c] == SumOf(m) + m'[c]
  {
    SumWithout(m, c);
    SumWithout(m', c);
    assert m - {c} == m' - {c};
  }

  /** The recorded bytes of each configuration in a set. */
  ghost function TotalsPer(history: seq<Event>, cs: set<nat>, u: Unit, key: int, d: Direction): map<nat, nat> {
    map c | c in cs :: Total(Entries(history, Of(c), u), key, d)
  }

  /** The bytes of a key that removals have taken out of the configurations' shares. */
  function Discarded(history: seq<Event>, u: Unit, key: int, d: Direction): nat {
    if |history| == 0 then 0
    else
      var last, earlier := history[|history| - 1], history[..|history| - 1];
      Discarded(earlier, u, key, d) +
      if last.Removed? then Total(Entries(earlier, Of(last.removed), u), key, d) else 0
  }

  lemma DiscardedPush(history: seq<Event>, e: Event, u: Unit, key: int, d: Direction)
    ensures Discarded(history + [e], u, key, d) == Discarded(history, u, key, d) +
      if e.Removed? then Total(Entries(history, Of(e.removed), u), key, d) else 0
  {
    assert (history + [e])[..|history|] == history;
  }

  predicate NothingRemoved(history: seq<Event>) {
    forall i :: 0 <= i < |history| ==> history[i].Recorded?
  }

  lemma {:induction false} NothingRemovedNothingDiscarded(history: seq<Event>, u: Unit, key: int, d: Direction)
    requires NothingRemoved(history)
    ensures Discarded(history, u, key, d) == 0
  {
    if |history| > 0 {
      assert history[|history| - 1].Recorded?;
      NothingRemovedNothingDiscarded(history[..|history| - 1], u, key, d);
    }
  }

  /** The configuration an event is about, if any. */
  function Named(e: Event): Option<nat> {
    match e
    case Recorded(config, _, _, _, _) => config
    case Removed(c) => Some(c)
  }

  /** Every configuration named in a history. */
  predicate Covers(cs: set<nat>, history: seq<Event>) {
    forall i :: 0 <= i < |history| && Named(history[i]).Some? ==> Named(history[i]).value in cs
  }

  lemma TotalPush(entries: seq<Entry>, e: Entry, key: int, d: Direction)
    ensures Total(entries + [e], key, d) == Total(entries, key, d) + if e.key == key then Bytes(e, d) else 0
  {
    assert (entries + [e])[..|entries|] == entries;
  }

  lemma TotalOf(history: seq<Event>, e: Event, scope: Scope, u: Unit, key: int, d: Direction)
    requires e.Recorded?
    ensures Total(Entries(history + [e], scope, u), key, d) ==
      Total(Entries(history, scope, u), key, d) +
      if Concerns(e.config, scope) && KeyOf(e, u) == key then (if d.Rx? then e.rx else e.tx) else 0
  {
    var entry := Entry(KeyOf(e, u), e.rx, e.tx);
    EntriesPush(history, e, scope, u);
    TotalPush(Entries(history, scope, u), entry, key, d);
    assert Entries(history, scope, u) + [] == Entries(history, scope, u);
  }

  /**
   * All recorded bytes of a key are those of no configuration, those of the configurations, and those that
   * removals have discarded.
   */
  lemma {:induction false} BytesAdd(history: seq<Event>, cs: set<nat>, u: Unit, key: int, d: Direction)
    requires Covers(cs, history)
    ensures Total(Entries(history, Everyone, u), key, d) ==
      Total(Entries(history, Nobody, u), key, d) + SumOf(TotalsPer(history, cs, u, key, d))
        + Discarded(history, u, key, d)
  {
    var n := |history|;
    if n == 0 {
      SumOfZeros(TotalsPer(history, cs, u, key, d));
    } else {
      var earlier, e := history[..n - 1], history[n - 1];
      assert history == earlier + [e];
      assert Named(history[n - 1]) == Named(e);
      BytesAdd(earlier, cs, u, key, d);
      DiscardedPush(earlier, e, u, key, d);
      hide Entries, Total, TotalsPer, Discarded;
      if e.Recorded? {
        RecordingAdds(earlier, e, cs, u, key, d);
      } else {
        RemovalTakes(earlier, e.removed, cs, u, key, d);
      }
    }
  }

  lemma RecordingAdds(earlier: seq<Event>, e: Event, cs: set<nat>, u: Unit, key: int, d: Direction)
    requires e.Recorded? && (e.config.Some? ==> e.config.value in cs)
    ensures var history := earlier + [e];
      Total(Entries(history, Everyone, u), key, d) - Total(Entries(earlier, Everyone, u), key, d) ==
      Total(Entries(history, Nobody, u), key, d) - Total(Entries(earlier, Nobody, u), key, d)
        + SumOf(TotalsPer(history, cs, u, key, d)) - SumOf(TotalsPer(earlier, cs, u, key, d))
  {
    var history := earlier + [e];
    var before, after := TotalsPer(earlier, cs, u, key, d), TotalsPer(history, cs, u, key, d);
    hide Entries, Total;
    TotalOf(earlier, e, Everyone, u, key, d);
    TotalOf(earlier, e, Nobody, u, key, d);
    forall c | c in cs ensures e.config != Some(c) ==> after[c] == before[c] {
      TotalOf(earlier, e, Of(c), u, key, d);
    }
    if e.config.Some? {
      var c := e.config.value;
      TotalOf(earlier, e, Of(c), u, key, d);
      SumChange(before, after, c);
    } else {
      assert before == after;
    }
  }

  lemma RemovalTakes(earlier: seq<Event>, c: nat, cs: set<nat>, u: Unit, key: int, d: Direction)
    requires c in cs
    ensures var history := earlier + [Removed(c)];
      && Entries(history, Everyone, u) == Entries(earlier, Everyone, u)
      && Entries(history, Nobody, u) == Entries(earlier, Nobody, u)
      && SumOf(TotalsPer(history, cs, u, key, d)) + Total(Entries(earlier, Of(c), u), key, d) ==
        SumOf(TotalsPer(earlier, cs, u, key, d))
  {
    var history := earlier + [Removed(c)];
    var before, after := TotalsPer(earlier, cs, u, key, d), TotalsPer(history, cs, u, key, d);
    EntriesPush(earlier, Removed(c), Everyone, u);
    EntriesPush(earlier, Removed(c), Nobody, u);
    forall k | k in cs ensures k != c ==> after[k] == before[k] {
      EntriesPush(earlier, Removed(c), Of(k), u);
    }
    EntriesPush(earlier, Removed(c), Of(c), u);
    hide Entries;
    assert after[c] == Total([], key, d) == 0;
    SumChange(before, after, c);
  }

  // ---------------------------------------------------------------- what the lists say

  /** A store's lists are determined by what was recorded: any two stores with one history agree. */
  lemma ListsAreTheirHistory(all: seq<Bucket>, configs: map<nat, seq<Bucket>>, all': seq<Bucket>,
                             configs': map<nat, seq<Bucket>>, history: seq<Event>, u: Unit)
    requires ListsFollow(all, configs, history, u) && ListsFollow(all', configs', history, u)
    ensures all == all' && configs == configs'
  {
    hide Windowed, Ledger, Entries;
    WindowIsUnique(all, all', Ledger(Entries(history, Everyone, u)), CapOf(u));
    forall c | c in configs ensures c in configs' && configs[c] == configs'[c] {
      WindowIsUnique(configs[c], configs'[c], Ledger(Entries(history, Of(c), u)), CapOf(u));
    }
    assert forall c :: c in configs' ==> c in configs;
  }

  lemma BytesOfWindow(list: seq<Bucket>, entries: seq<Entry>, cap: nat, key: int, d: Direction)
    requires Windowed(list, Ledger(entries), cap) && key in Keys(list)
    ensures BytesIn(list, key, d) == AtMostMax(Total(entries, key, d))
  {
    var j :| 0 <= j < |list| && list[j].key == key;
    var i := IndexOf(list, key);
    KnownTotals(list, Ledger(entries), cap, i);
    LedgerHoldsTotals(entries, key, d);
    hide Windowed, Ledger, Total;
  }

  lemma BytesOfAbsent(list: seq<Bucket>, key: int, d: Direction)
    requires key !in Keys(list)
    ensures BytesIn(list, key, d) == 0
  {
    forall i | 0 <= i < |list| ensures list[i].key != key {
      assert list[i] in list;
    }
  }

  lemma {:induction false} OfIsPartOfEveryone(history: seq<Event>, c: nat, u: Unit)
    ensures forall e :: e in Entries(history, Of(c), u) ==> e in Entries(history, Everyone, u)
  {
    if |history| > 0 {
      OfIsPartOfEveryone(history[..|history| - 1], c, u);
    }
  }

  lemma LedgerKeys(some: seq<Entry>, all: seq<Entry>)
    requires forall e :: e in some ==> e in all
    ensures Ledger(some).Keys <= Ledger(all).Keys
  {
    forall k | k in Ledger(some) ensures k in Ledger(all) {
      LedgerHoldsTotals(some, k, Rx);
      LedgerHoldsTotals(all, k, Rx);
    }
  }

  ghost function PerConfig(configs: map<nat, seq<Bucket>>, key: int, d: Direction): map<nat, nat> {
    map c | c in configs :: BytesIn(configs[c], key, d)
  }

  function ConfigsNamed(history: seq<Event>): set<nat> {
    set i | 0 <= i < |history| && Named(history[i]).Some? :: Named(history[i]).value
  }

  lemma {:induction false} ZerosAddNothing(m: map<nat, nat>, m': map<nat, nat>)
    requires m.Keys <= m'.Keys && (forall c :: c in m ==> m'[c] == m[c])
    requires forall c :: c in m' && c !in m ==> m'[c] == 0
    ensures SumOf(m) == SumOf(m')
    decreases |m|
  {
    if m == map[] {
      SumOfZeros(m');
    } else {
      var c :| c in m;
      SumWithout(m, c);
      SumWithout(m', c);
      ZerosAddNothing(m - {c}, m' - {c});
    }
  }

  /** While the grand total fits, a configuration's list shows its share of every key the global list shows. */
  lemma ShareIsShown(all: seq<Bucket>, configs: map<nat, seq<Bucket>>, history: seq<Event>, u: Unit, key: int,
                     d: Direction, c: nat)
    requires ListsFollow(all, configs, history, u) && key in Keys(all) && c in configs
    requires Total(Entries(history, Of(c), u), key, d) <= U64_MAX
    ensures BytesIn(configs[c], key, d) == Total(Entries(history, Of(c), u), key, d)
  {
    var whole, part := Entries(history, Everyone, u), Entries(history, Of(c), u);
    OfIsPartOfEveryone(history, c, u);
    hide Entries, Total, Windowed, BytesIn, IndexOf;
    LedgerKeys(part, whole);
    LedgerHoldsTotals(part, key, d);
    hide Ledger;
    if key in Ledger(part) {
      PartKeepsKey(all, configs[c], Ledger(whole), Ledger(part), CapOf(u), key);
      BytesOfWindow(configs[c], part, CapOf(u), key, d);
    } else {
      KeysAreRecorded(configs[c], Ledger(part), CapOf(u), key);
      BytesOfAbsent(configs[c], key, d);
    }
  }

  lemma KeysAreRecorded(list: seq<Bucket>, ledger: map<int, Totals>, cap: nat, key: int)
    requires Windowed(list, ledger, cap) && key !in ledger
    ensures key !in Keys(list)
  {
    forall k | k in Keys(list) ensures k in ledger {
      var j :| 0 <= j < |list| && list[j].key == k;
    }
  }

  /**
   * Every list is pruned on its own, yet for each key the global list still shows, the traffic of no
   * configuration, the configurations and what removals have discarded account for its bytes.  So the first two
   * add up to it exactly when no removal has discarded bytes of that key.
   */
  lemma Conservation(all: seq<Bucket>, configs: map<nat, seq<Bucket>>, history: seq<Event>, u: Unit, key: int,
                     d: Direction)
    requires ListsFollow(all, configs, history, u) && key in Keys(all)
    requires Total(Entries(history, Everyone, u), key, d) <= U64_MAX
    ensures var parts := Total(Entries(history, Nobody, u), key, d) + SumOf(PerConfig(configs, key, d));
      && parts + Discarded(history, u, key, d) == BytesIn(all, key, d)
      && (parts == BytesIn(all, key, d) <==> Discarded(history, u, key, d) == 0)
      && (NothingRemoved(history) ==> parts == BytesIn(all, key, d))
  {
    var cs := configs.Keys + ConfigsNamed(history);
    forall i | 0 <= i < |history| && Named(history[i]).Some? ensures Named(history[i]).value in cs {
    }
    BytesAdd(history, cs, u, key, d);
    hide Entries, Total, Windowed, BytesIn, ConfigsNamed, Discarded;
    if NothingRemoved(history) {
      NothingRemovedNothingDiscarded(history, u, key, d);
    }
    BytesOfWindow(all, Entries(history, Everyone, u), CapOf(u), key, d);
    var totals, shown := TotalsPer(history, cs, u, key, d), PerConfig(configs, key, d);
    forall c | c in configs ensures shown[c] == totals[c] {
      SumWithout(totals, c);
      ShareIsShown(all, configs, history, u, key, d, c);
    }
    forall c | c in totals && c !in shown ensures totals[c] == 0 {
      NothingRecorded(key, d);
    }
    ZerosAddNothing(shown, totals);
  }

  /** A removal need not discard anything: that of a configuration without traffic does not. */
  lemma RemovalMayDiscardNothing()
    ensures var history := [Removed(7), Recorded(None, 1, 1, 5, 5)];
      !NothingRemoved(history) && Discarded(history, Day, 1, Rx) == 0
  {
    var history := [Removed(7), Recorded(None, 1, 1, 5, 5)];
    assert history[0].Removed?;
    assert history[..1] == [Removed(7)] && history[..1][..0] == [];
    assert Entries([], Of(7), Day) == [] && Total([], 1, Rx) == 0;
  }

  lemma NothingRecorded(key: int, d: Direction)
    ensures Total([], key, d) == 0
  {
  }

  // ---------------------------------------------------------------- what has gone stays gone

  /** Nothing in these events forgets the scope. */
  predicate Remembers(scope: Scope, events: seq<Event>) {
    forall i :: 0 <= i < |events| && events[i].Removed? ==> scope != Of(events[i].removed)
  }

  lemma {:induction false} EntriesGrow(history: seq<Event>, more: seq<Event>, scope: Scope, u: Unit)
    requires Remembers(scope, more)
    ensures Entries(history, scope, u) <= Entries(history + more, scope, u)
    decreases |more|
  {
    if |more| == 0 {
      assert history + more == history;
    } else {
      var n := |more| - 1;
      EntriesGrow(history, more[..n], scope, u);
      assert history + more == (history + more[..n]) + [more[n]];
      EntriesPush(history + more[..n], more[n], scope, u);
    }
  }

  lemma PrefixKeys(before: seq<Entry>, after: seq<Entry>)
    requires before <= after
    ensures Ledger(before).Keys <= Ledger(after).Keys
  {
    forall e | e in before ensures e in after {
      var i :| 0 <= i < |before| && before[i] == e;
      assert after[i] == e;
    }
    LedgerKeys(before, after);
  }

  function ListFor(all: seq<Bucket>, configs: map<nat, seq<Bucket>>, scope: Scope): seq<Bucket> {
    if scope.Of? then ListOf(configs, scope.config) else all
  }

  lemma ScopeIsWindow(all: seq<Bucket>, configs: map<nat, seq<Bucket>>, history: seq<Event>, scope: Scope, u: Unit)
    requires ListsFollow(all, configs, history, u) && !scope.Nobody?
    ensures Windowed(ListFor(all, configs, scope), Ledger(Entries(history, scope, u)), CapOf(u))
  {
    hide Windowed, Ledger, Entries;
    if scope.Of? && scope.config !in configs {
      EmptyWindow(Entries(history, scope, u), CapOf(u));
    }
  }

  /**
   * A key that was recorded and has fallen out of a list stays out of it, whatever is recorded or removed later,
   * until the list's own configuration is removed.
   */
  lemma EvictedForGood(all: seq<Bucket>, configs: map<nat, seq<Bucket>>, history: seq<Event>,
                       all': seq<Bucket>, configs': map<nat, seq<Bucket>>, more: seq<Event>,
                       scope: Scope, u: Unit, key: int)
    requires ListsFollow(all, configs, history, u) && ListsFollow(all', configs', history + more, u)
    requires !scope.Nobody? && Remembers(scope, more)
    requires key in Ledger(Entries(history, scope, u)) && key !in Keys(ListFor(all, configs, scope))
    ensures key !in Keys(ListFor(all', configs', scope))
  {
    var before, after := Entries(history, scope, u), Entries(history + more, scope, u);
    ScopeIsWindow(all, configs, history, scope, u);
    ScopeIsWindow(all', configs', history + more, scope, u);
    EntriesGrow(history, more, scope, u);
    hide Windowed, Entries, ListsFollow, ListFor, Keys;
    PrefixKeys(before, after);
    hide Ledger;
    EvictedStaysOut(ListFor(all, configs, scope), ListFor(all', configs', scope), Ledger(before), Ledger(after),
                    CapOf(u), key);
  }
}
