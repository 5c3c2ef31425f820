/** A capped list of traffic buckets, and the unbounded ledger it is a window onto. */
module TrafficWindow {
  import opened Common

  type U64 = n: int | 0 <= n <= U64_MAX

  datatype Bucket = Bucket(key: int, rx: U64, tx: U64)

  function SaturatingAdd(a: U64, b: U64): U64 {
    if a + b > U64_MAX then U64_MAX else a + b
  }

  function Add(b: Bucket, rx: U64, tx: U64): Bucket {
    b.(rx := SaturatingAdd(b.rx, rx), tx := SaturatingAdd(b.tx, tx))
  }

  // ---------------------------------------------------------------- the list

  function IndexOf(buckets: seq<Bucket>, key: int): (i: nat)
    ensures i <= |buckets| && (forall j :: 0 <= j < i ==> buckets[j].key != key)
    ensures i < |buckets| ==> buckets[i].key == key
  {
    if |buckets| == 0 || buckets[0].key == key then 0 else 1 + IndexOf(buckets[1..], key)
  }

  /** Stable insertion behind everything that is not larger. */
  function Insert(sorted: seq<Bucket>, b: Bucket): (r: seq<Bucket>)
    ensures |r| == |sorted| + 1
  {
    var n := |sorted|;
    if n == 0 || sorted[n - 1].key <= b.key then sorted + [b]
    else Insert(sorted[..n - 1], b) + [sorted[n - 1]]
  }

  /** A stable sort by key. */
  function SortByKey(buckets: seq<Bucket>): (r: seq<Bucket>)
    ensures |r| == |buckets|
  {
    var n := |buckets|;
    if n == 0 then [] else Insert(SortByKey(buckets[..n - 1]), buckets[n - 1])
  }

  function Pruned(buckets: seq<Bucket>, cap: nat): seq<Bucket> {
    var sorted := SortByKey(buckets);
    if |sorted| > cap then sorted[|sorted| - cap..] else sorted
  }

  function Updated(buckets: seq<Bucket>, cap: nat, key: int, rx: U64, tx: U64): seq<Bucket> {
    var i := IndexOf(buckets, key);
    if i < |buckets| then buckets[i := Add(buckets[i], rx, tx)]
    else Pruned(buckets + [Bucket(key, rx, tx)], cap)
  }

  /** Add bytes to the bucket of a key, or open one and let the oldest go. */
  method UpdateBuckets(buckets: seq<Bucket>, cap: nat, key: int, rx: U64, tx: U64)
    returns (after: seq<Bucket>, created: bool)
    ensures after == Updated(buckets, cap, key, rx, tx)
    ensures created <==> forall i :: 0 <= i < |buckets| ==> buckets[i].key != key
  {
    after := buckets;
    for i := 0 to |buckets|
      invariant after == buckets
      invariant forall j :: 0 <= j < i ==> buckets[j].key != key
    {
      if buckets[i].key == key {
        var found := IndexOf(buckets, key);
        assert found == i;
        after := after[i := Add(after[i], rx, tx)];
        return after, false;
      }
    }
    after := after + [Bucket(key, rx, tx)];
    after := SortByKey(after);
    if |after| > cap {
      var removeCount := |after| - cap;
      after := after[removeCount..];
    }
    return after, true;
  }

  predicate Sorted(s: seq<Bucket>) {
    forall i, j :: 0 <= i < j < |s| ==> s[i].key <= s[j].key
  }

  lemma SortedPush(s: seq<Bucket>, x: Bucket)
    requires Sorted(s) && forall y :: y in s ==> y.key <= x.key
    ensures Sorted(s + [x])
  {
    forall i, j | 0 <= i < j < |s| + 1 ensures (s + [x])[i].key <= (s + [x])[j].key {
      assert (s + [x])[i] == s[i] && s[i] in s;
    }
  }

  lemma SortedInit(s: seq<Bucket>)
    requires Sorted(s) && |s| > 0
    ensures var (init, last) := (s[..|s| - 1], s[|s| - 1]);
      && Sorted(init) && s == init + [last] && forall y :: y in s ==> y.key <= last.key
  {
  }

  lemma {:induction false} InsertSorts(sorted: seq<Bucket>, b: Bucket)
    requires Sorted(sorted)
    ensures Sorted(Insert(sorted, b)) && multiset(Insert(sorted, b)) == multiset(sorted) + multiset{b}
    ensures forall x :: x in Insert(sorted, b) ==> x == b || x in sorted
  {
    hide Sorted;
    var n := |sorted|;
    if n > 0 {
      SortedInit(sorted);
      var init, last := sorted[..n - 1], sorted[n - 1];
      if last.key > b.key {
        InsertSorts(init, b);
        SortedPush(Insert(init, b), last);
      } else {
        SortedPush(sorted, b);
      }
    } else {
      SortedPush(sorted, b);
    }
  }

  /** What the library's sort promises. */
  lemma {:induction false} SortByKeySorts(buckets: seq<Bucket>)
    ensures Sorted(SortByKey(buckets)) && multiset(SortByKey(buckets)) == multiset(buckets)
  {
    var n := |buckets|;
    if n > 0 {
      SortByKeySorts(buckets[..n - 1]);
      InsertSorts(SortByKey(buckets[..n - 1]), buckets[n - 1]);
      assert buckets == buckets[..n - 1] + [buckets[n - 1]];
    }
  }

  lemma {:induction false} SortOfSorted(s: seq<Bucket>)
    requires Sorted(s)
    ensures SortByKey(s) == s
  {
    var n := |s|;
    if n > 0 {
      SortOfSorted(s[..n - 1]);
      assert s == s[..n - 1] + [s[n - 1]];
    }
  }

  // ---------------------------------------------------------------- the ledger

  datatype Entry = Entry(key: int, rx: U64, tx: U64)
  datatype Totals = Totals(rx: U64, tx: U64)
  datatype Direction = Rx | Tx

  function Credited(ledger: map<int, Totals>, e: Entry): map<int, Totals> {
    var t := if e.key in ledger then ledger[e.key] else Totals(0, 0);
    ledger[e.key := Totals(SaturatingAdd(t.rx, e.rx), SaturatingAdd(t.tx, e.tx))]
  }

  /** Everything ever recorded, key by key. */
  function Ledger(entries: seq<Entry>): map<int, Totals> {
    if |entries| == 0 then map[]
    else Credited(Ledger(entries[..|entries| - 1]), entries[|entries| - 1])
  }

  lemma LedgerPush(entries: seq<Entry>, e: Entry)
    ensures Ledger(entries + [e]) == Credited(Ledger(entries), e)
  {
    assert (entries + [e])[..|entries|] == entries;
  }

  function Bytes(e: Entry, d: Direction): nat {
    if d.Rx? then e.rx else e.tx
  }

  /** The bytes recorded for a key, however many. */
  function Total(entries: seq<Entry>, key: int, d: Direction): nat {
    if |entries| == 0 then 0
    else
      var last := entries[|entries| - 1];
      Total(entries[..|entries| - 1], key, d) + if last.key == key then Bytes(last, d) else 0
  }

  function AtMostMax(n: nat): U64 {
    if n > U64_MAX then U64_MAX else n
  }

  function Side(t: Totals, d: Direction): U64 {
    if d.Rx? then t.rx else t.tx
  }

  /** The ledger holds exactly the recorded keys, each with its total cut off at the largest number. */
  lemma {:induction false} LedgerHoldsTotals(entries: seq<Entry>, key: int, d: Direction)
    ensures key in Ledger(entries) <==> exists e :: e in entries && e.key == key
    ensures key in Ledger(entries) ==> Side(Ledger(entries)[key], d) == AtMostMax(Total(entries, key, d))
    ensures key !in Ledger(entries) ==> Total(entries, key, d) == 0
  {
    var n := |entries|;
    if n > 0 {
      var last := entries[n - 1];
      LedgerHoldsTotals(entries[..n - 1], key, d);
      assert entries == entries[..n - 1] + [last];
      assert forall e :: e in entries <==> e in entries[..n - 1] || e == last;
    }
  }

  // ---------------------------------------------------------------- the window

  predicate StrictlySorted(s: seq<Bucket>) {
    forall i, j :: 0 <= i < j < |s| ==> s[i].key < s[j].key
  }

  function Keys(s: seq<Bucket>): set<int> {
    set b | b in s :: b.key
  }

  /** The list holds the largest keys of the ledger, as many as fit, in order and with their totals. */
  predicate Windowed(list: seq<Bucket>, ledger: map<int, Totals>, cap: nat) {
    && StrictlySorted(list) && |list| <= cap
    && (forall i :: 0 <= i < |list| ==>
      list[i].key in ledger && ledger[list[i].key] == Totals(list[i].rx, list[i].tx))
    && (forall k :: k in ledger && k !in Keys(list) ==>
      |list| == cap && forall i :: 0 <= i < |list| ==> k < list[i].key)
  }

  /** There is only one such list. */
  lemma {:induction false} WindowIsUnique(a: seq<Bucket>, b: seq<Bucket>, ledger: map<int, Totals>, cap: nat)
    requires Windowed(a, ledger, cap) && Windowed(b, ledger, cap)
    ensures a == b
    decreases cap
  {
    hide Windowed;
    EmptyTogether(a, b, ledger, cap);
    EmptyTogether(b, a, ledger, cap);
    if |a| > 0 {
      var x, y := a[|a| - 1], b[|b| - 1];
      LastIsLargest(b, ledger, cap);
      LastIsLargest(a, ledger, cap);
      WithoutLast(a, ledger, cap);
      WithoutLast(b, ledger, cap);
      WindowIsUnique(a[..|a| - 1], b[..|b| - 1], ledger - {x.key}, cap - 1);
      assert a == a[..|a| - 1] + [x] && b == b[..|b| - 1] + [y];
    }
  }

  lemma EmptyTogether(a: seq<Bucket>, b: seq<Bucket>, ledger: map<int, Totals>, cap: nat)
    requires Windowed(a, ledger, cap) && Windowed(b, ledger, cap)
    ensures |a| > 0 ==> |b| > 0
  {
    hide StrictlySorted;
    if |a| > 0 {
      assert a[0].key in ledger && (|b| == 0 ==> a[0].key !in Keys(b));
    }
  }

  lemma LastIsLargest(a: seq<Bucket>, ledger: map<int, Totals>, cap: nat)
    requires Windowed(a, ledger, cap) && |a| > 0
    ensures cap > 0
    ensures var x := a[|a| - 1];
      && x.key in ledger && ledger[x.key] == Totals(x.rx, x.tx)
      && forall k :: k in ledger ==> k <= x.key
  {
    forall k | k in ledger ensures k <= a[|a| - 1].key {
      if k in Keys(a) {
        var i :| 0 <= i < |a| && a[i].key == k;
      }
    }
  }

  lemma WithoutLast(a: seq<Bucket>, ledger: map<int, Totals>, cap: nat)
    requires Windowed(a, ledger, cap) && |a| > 0
    ensures Windowed(a[..|a| - 1], ledger - {a[|a| - 1].key}, cap - 1)
  {
    var init, x := a[..|a| - 1], a[|a| - 1];
    StrictInit(a);
    hide StrictlySorted;
    forall i | 0 <= i < |init| ensures init[i].key != x.key && init[i] == a[i] {
      assert init[i] in init;
    }
    forall k | k in ledger - {x.key} && k !in Keys(init)
      ensures |init| == cap - 1 && forall i :: 0 <= i < |init| ==> k < init[i].key
    {
      assert k !in Keys(a);
    }
  }

  lemma StrictPush(s: seq<Bucket>, x: Bucket)
    requires StrictlySorted(s) && forall y :: y in s ==> y.key < x.key
    ensures StrictlySorted(s + [x])
  {
    forall i, j | 0 <= i < j < |s| + 1 ensures (s + [x])[i].key < (s + [x])[j].key {
      assert (s + [x])[i] == s[i] && s[i] in s;
    }
  }

  lemma StrictInit(s: seq<Bucket>)
    requires StrictlySorted(s) && |s| > 0
    ensures var (init, last) := (s[..|s| - 1], s[|s| - 1]);
      && StrictlySorted(init) && s == init + [last] && forall y :: y in init ==> y.key < last.key
  {
  }

  lemma {:induction false} InsertNew(s: seq<Bucket>, b: Bucket)
    requires StrictlySorted(s) && b.key !in Keys(s)
    ensures StrictlySorted(Insert(s, b))
    ensures forall x :: x in Insert(s, b) <==> x in s || x == b
  {
    hide StrictlySorted;
    var n := |s|;
    if n == 0 {
      assert s + [b] == [b];
      OneIsSorted(b);
    } else {
      var last, init := s[n - 1], s[..n - 1];
      StrictInit(s);
      assert last in s;
      if last.key > b.key {
        InsertNew(init, b);
        StrictPush(Insert(init, b), last);
      } else {
        StrictPush(s, b);
      }
    }
  }

  lemma OneIsSorted(b: Bucket)
    ensures StrictlySorted([b])
  {
  }

  lemma {:induction false} InsertFirst(s: seq<Bucket>, b: Bucket)
    requires forall x :: x in s ==> b.key < x.key
    ensures Insert(s, b) == [b] + s
  {
    var n := |s|;
    if n > 0 {
      assert s[n - 1] in s;
      InsertFirst(s[..n - 1], b);
      assert s == s[..n - 1] + [s[n - 1]];
      assert [b] + s == [b] + s[..n - 1] + [s[n - 1]];
    }
  }

  lemma KnownKeyKeepsWindow(list: seq<Bucket>, ledger: map<int, Totals>, cap: nat, e: Entry)
    requires Windowed(list, ledger, cap) && IndexOf(list, e.key) < |list|
    ensures Windowed(Updated(list, cap, e.key, e.rx, e.tx), Credited(ledger, e), cap)
  {
    hide Windowed, IndexOf, Pruned;
    var i := IndexOf(list, e.key);
    KnownTotals(list, ledger, cap, i);
    BumpKeepsWindow(list, ledger, cap, i, e);
  }

  lemma EvictedKeyKeepsWindow(list: seq<Bucket>, ledger: map<int, Totals>, cap: nat, e: Entry)
    requires cap > 0 && Windowed(list, ledger, cap) && e.key !in Keys(list) && e.key in ledger
    ensures Windowed(Updated(list, cap, e.key, e.rx, e.tx), Credited(ledger, e), cap)
  {
    hide Updated, StrictlySorted;
    OutsideFullWindow(list, ledger, cap, e.key);
    TooOldChangesNothing(list, cap, e.key, e.rx, e.tx);
    LedgerGrows(list, ledger, Credited(ledger, e), cap, e.key);
    hide Windowed;
  }

  lemma NewKeyIsCredited(list: seq<Bucket>, ledger: map<int, Totals>, cap: nat, e: Entry)
    requires cap > 0 && Windowed(list, ledger, cap) && IndexOf(list, e.key) == |list| && e.key !in ledger
    ensures Windowed(Updated(list, cap, e.key, e.rx, e.tx), Credited(ledger, e), cap)
  {
    hide Insert, IndexOf, Updated, StrictlySorted;
    var b := Bucket(e.key, e.rx, e.tx);
    NewBucket(list, cap, e.key, e.rx, e.tx);
    InsertNew(list, b);
    NewKeyKeepsWindow(list, ledger, cap, b, Insert(list, b));
    hide Windowed;
  }

  /** Recording keeps the list a window onto the ledger. */
  lemma UpdateKeepsWindow(list: seq<Bucket>, ledger: map<int, Totals>, cap: nat, e: Entry)
    requires cap > 0 && Windowed(list, ledger, cap)
    ensures Windowed(Updated(list, cap, e.key, e.rx, e.tx), Credited(ledger, e), cap)
  {
    hide Windowed, IndexOf, Updated, Credited, Keys;
    if IndexOf(list, e.key) < |list| {
      KnownKeyKeepsWindow(list, ledger, cap, e);
    } else {
      NotAKey(list, e.key);
      if e.key in ledger {
        EvictedKeyKeepsWindow(list, ledger, cap, e);
      } else {
        NewKeyIsCredited(list, ledger, cap, e);
      }
    }
  }

  lemma KnownTotals(list: seq<Bucket>, ledger: map<int, Totals>, cap: nat, i: nat)
    requires Windowed(list, ledger, cap) && i < |list|
    ensures list[i].key in ledger && ledger[list[i].key] == Totals(list[i].rx, list[i].tx)
  {
  }

  lemma OutsideFullWindow(list: seq<Bucket>, ledger: map<int, Totals>, cap: nat, key: int)
    requires cap > 0 && Windowed(list, ledger, cap) && key in ledger && key !in Keys(list)
    ensures |list| == cap && key < list[0].key
  {
  }

  /** An update for a key the list does not have sorts one bucket in and drops the oldest beyond the cap. */
  lemma NewBucket(list: seq<Bucket>, cap: nat, key: int, rx: U64, tx: U64)
    requires StrictlySorted(list) && |list| <= cap && IndexOf(list, key) == |list|
    ensures key !in Keys(list)
    ensures var longer := Insert(list, Bucket(key, rx, tx));
      Updated(list, cap, key, rx, tx) == if |longer| > cap then longer[1..] else longer
  {
    var b := Bucket(key, rx, tx);
    hide StrictlySorted, IndexOf, Sorted, Keys, SortByKey, Insert;
    WeaklySorted(list);
    NotAKey(list, key);
    SortOfSorted(list);
    SortPush(list, b);
  }

  lemma SortPush(s: seq<Bucket>, b: Bucket)
    ensures SortByKey(s + [b]) == Insert(SortByKey(s), b)
  {
    assert (s + [b])[..|s|] == s;
  }

  lemma NotAKey(list: seq<Bucket>, key: int)
    requires IndexOf(list, key) == |list|
    ensures key !in Keys(list)
  {
    forall x | x in list ensures x.key != key {
      var j :| 0 <= j < |list| && list[j] == x;
    }
  }

  lemma WeaklySorted(list: seq<Bucket>)
    requires StrictlySorted(list)
    ensures Sorted(list)
  {
  }

  lemma BumpKeepsWindow(list: seq<Bucket>, ledger: map<int, Totals>, cap: nat, i: nat, e: Entry)
    requires Windowed(list, ledger, cap) && i < |list| && list[i].key == e.key
    ensures var b := Add(list[i], e.rx, e.tx);
      Windowed(list[i := b], ledger[e.key := Totals(b.rx, b.tx)], cap)
  {
    hide SaturatingAdd;
    var after := list[i := Add(list[i], e.rx, e.tx)];
    assert forall j :: 0 <= j < |list| ==> after[j].key == list[j].key;
    SameKeys(list, after);
    hide Keys;
  }

  lemma SameKeys(a: seq<Bucket>, b: seq<Bucket>)
    requires |a| == |b| && forall j :: 0 <= j < |a| ==> a[j].key == b[j].key
    ensures Keys(a) == Keys(b)
  {
    forall k ensures k in Keys(a) <==> k in Keys(b) {
      if k in Keys(a) {
        var j :| 0 <= j < |a| && a[j].key == k;
        assert b[j] in b;
      }
      if k in Keys(b) {
        var j :| 0 <= j < |b| && b[j].key == k;
        assert a[j] in a;
      }
    }
  }

  /** A change to a key outside a full window does not touch it. */
  lemma LedgerGrows(list: seq<Bucket>, before: map<int, Totals>, after: map<int, Totals>, cap: nat, key: int)
    requires Windowed(list, before, cap) && key in before && key !in Keys(list)
    requires after.Keys == before.Keys && forall k :: k in before && k != key ==> after[k] == before[k]
    ensures Windowed(list, after, cap)
  {
  }

  lemma NewKeyKeepsWindow(list: seq<Bucket>, ledger: map<int, Totals>, cap: nat, b: Bucket, longer: seq<Bucket>)
    requires cap > 0 && Windowed(list, ledger, cap) && b.key !in ledger
    requires StrictlySorted(longer) && |longer| == |list| + 1 && (forall x :: x in longer <==> x in list || x == b)
    ensures Windowed(if |longer| > cap then longer[1..] else longer, ledger[b.key := Totals(b.rx, b.tx)], cap)
  {
    var after := if |longer| > cap then longer[1..] else longer;
    var all := ledger[b.key := Totals(b.rx, b.tx)];
    assert StrictlySorted(after);
    SplitFirst(longer);
    hide StrictlySorted;
    forall i | 0 <= i < |after|
      ensures after[i].key in all && all[after[i].key] == Totals(after[i].rx, after[i].tx)
    {
      assert after[i] in longer;
    }
    forall k | k in all && k !in Keys(after)
      ensures |after| == cap && forall i :: 0 <= i < |after| ==> k < after[i].key
    {
      MissingKey(list, ledger, cap, b, longer, k);
      forall i | 0 <= i < |after| ensures k < after[i].key {
        assert after[i] in after;
      }
    }
  }

  lemma SplitFirst(s: seq<Bucket>)
    requires StrictlySorted(s) && |s| > 0
    ensures (forall x :: x in s <==> x == s[0] || x in s[1..]) && forall x :: x in s[1..] ==> s[0].key < x.key
  {
    assert s == [s[0]] + s[1..];
  }

  /** A recorded key that the longer list has lost, or never had, is older than everything that stays. */
  lemma MissingKey(list: seq<Bucket>, ledger: map<int, Totals>, cap: nat, b: Bucket, longer: seq<Bucket>, k: int)
    requires cap > 0 && Windowed(list, ledger, cap) && b.key !in ledger
    requires StrictlySorted(longer) && |longer| == |list| + 1 && (forall x :: x in longer <==> x in list || x == b)
    requires (k in ledger || k == b.key) && k !in Keys(if |longer| > cap then longer[1..] else longer)
    ensures |longer| == cap + 1 && forall x :: x in longer[1..] ==> k < x.key
  {
    SplitFirst(longer);
    hide StrictlySorted;
    assert b in longer;
    if k == longer[0].key {
      assert longer[0] in longer;
    } else {
      assert k !in Keys(longer);
      assert k !in Keys(list);
      assert |list| == cap;
      forall x | x in longer[1..] ensures k < x.key {
        if x in list {
          var j :| 0 <= j < |list| && list[j] == x;
        } else {
          assert longer[0] in list;
          var j :| 0 <= j < |list| && list[j] == longer[0];
        }
      }
    }
  }

  /** Too old for a full list: nothing changes, now or ever. */
  lemma TooOldChangesNothing(list: seq<Bucket>, cap: nat, key: int, rx: U64, tx: U64)
    requires StrictlySorted(list) && |list| == cap > 0 && key < list[0].key
    ensures Updated(list, cap, key, rx, tx) == list
  {
    forall x | x in list ensures key < x.key {
      var j :| 0 <= j < |list| && list[j] == x;
    }
    hide StrictlySorted, Insert;
    var b := Bucket(key, rx, tx);
    NotFound(list, key);
    NewBucket(list, cap, key, rx, tx);
    InsertFirst(list, b);
    assert ([b] + list)[1..] == list;
  }

  lemma NotFound(list: seq<Bucket>, key: int)
    requires forall x :: x in list ==> x.key != key
    ensures IndexOf(list, key) == |list|
  {
    forall i | 0 <= i < |list| ensures list[i].key != key {
      assert list[i] in list;
    }
  }

  // ---------------------------------------------------------------- windows of parts

  lemma {:induction false} KeysCount(s: seq<Bucket>)
    requires StrictlySorted(s)
    ensures |Keys(s)| == |s|
  {
    if |s| > 0 {
      var init, last := s[..|s| - 1], s[|s| - 1];
      KeysCount(init);
      assert s == init + [last];
      assert last.key !in Keys(init);
      assert Keys(s) == Keys(init) + {last.key};
    } else {
      assert Keys(s) == {};
    }
  }

  /** A key in the window of the whole is in the window of every part that ever recorded it. */
  lemma PartKeepsKey(whole: seq<Bucket>, part: seq<Bucket>, all: map<int, Totals>, some: map<int, Totals>, cap: nat,
                     key: int)
    requires Windowed(whole, all, cap) && Windowed(part, some, cap) && some.Keys <= all.Keys
    requires key in Keys(whole) && key in some
    ensures key in Keys(part)
  {
    if key !in Keys(part) {
      var i :| 0 <= i < |whole| && whole[i].key == key;
      forall k | k in Keys(part) ensures k in Keys(whole) && k != key {
        var j :| 0 <= j < |part| && part[j].key == k;
        assert key < k;
      }
      KeysCount(part);
      KeysCount(whole);
      assert |Keys(part) + {key}| == |Keys(part)| + 1;
      CardinalityMonotone(Keys(part) + {key}, Keys(whole));
    }
  }

  /** A recorded key that has fallen out never comes back, whatever is recorded later. */
  lemma EvictedStaysOut(list: seq<Bucket>, later: seq<Bucket>, ledger: map<int, Totals>, grown: map<int, Totals>,
                        cap: nat, key: int)
    requires Windowed(list, ledger, cap) && Windowed(later, grown, cap) && ledger.Keys <= grown.Keys
    requires key in ledger && key !in Keys(list)
    ensures key !in Keys(later)
  {
    if key in Keys(later) {
      PartKeepsKey(later, list, grown, ledger, cap, key);
    }
  }

  lemma CardinalityMonotone(a: set<int>, b: set<int>)
    requires a <= b
    ensures |a| <= |b|
  {
    assert b == a + (b - a) && a !! b - a;
  }
}
