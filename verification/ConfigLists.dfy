/** Comma lists: one line, or several lines of the same key. */
module ConfigLists {
  import opened Common
  import opened Config
  import opened ConfigParser
  import opened ConfigLines

  // ---------------------------------------------------------------- items of a list

  lemma CommaBetween(a: string, b: string, n: nat)
    requires n <= |a|
    ensures (a + "," + b)[..n] == a[..n] && (a + "," + b)[n..] == a[n..] + "," + b
    ensures IndexOfAny(a + "," + b, {','}) == IndexOfAny(a, {','})
  {
    var whole := a + "," + b;
    assert forall j :: 0 <= j < |a| ==> whole[j] == a[j];
    assert whole[|a|] == ',';
    IndexOfAnyIs(whole, {','}, IndexOfAny(a, {','}));
    hide IndexOfAny;
  }

  lemma {:induction false} SplitCommasConcat(a: string, b: string)
    ensures SplitCommas(a + "," + b) == SplitCommas(a) + SplitCommas(b)
    decreases |a|
  {
    hide IndexOfAny;
    var i := IndexOfAny(a, {','});
    var whole := a + "," + b;
    CommaBetween(a, b, i);
    if i == |a| {
      assert whole[i + 1..] == b && a[..i] == a;
    } else {
      CommaBetween(a, b, i + 1);
      SplitCommasConcat(a[i + 1..], b);
    }
  }

  lemma {:induction false} TrimmedItemsConcat(a: seq<string>, b: seq<string>)
    ensures TrimmedItems(a + b) == TrimmedItems(a) + TrimmedItems(b)
    decreases |a|
  {
    if |a| == 0 {
      assert a + b == b;
    } else {
      assert (a + b)[1..] == a[1..] + b;
      TrimmedItemsConcat(a[1..], b);
    }
  }

  lemma ItemsConcat(a: string, b: string)
    ensures Items(a + "," + b) == Items(a) + Items(b)
  {
    SplitCommasConcat(a, b);
    TrimmedItemsConcat(SplitCommas(a), SplitCommas(b));
  }

  lemma SplitFirst(s: string)
    ensures var i := IndexOfAny(s, {','});
      Items(s) == TrimmedItems([s[..i]]) + if i == |s| then [] else Items(s[i + 1..])
  {
    var i := IndexOfAny(s, {','});
    hide Trim, IndexOfAny;
    if i == |s| {
      assert s[..i] == s;
      assert TrimmedItems([s]) + [] == TrimmedItems([s]);
    } else {
      hide TrimmedItems;
      TrimmedItemsConcat([s[..i]], SplitCommas(s[i + 1..]));
    }
  }

  lemma {:induction false} LeadingSpaceInList(s: string)
    ensures Items(TrimStart(s)) == Items(s)
    decreases |s|
  {
    if |s| > 0 && IsWhitespace(s[0]) {
      var t := s[1..];
      LeadingSpaceInList(t);
      SplitFirst(s);
      SplitFirst(t);
      var i := IndexOfAny(t, {','});
      assert IndexOfAny(s, {','}) == i + 1;
      assert s[..i + 1][1..] == t[..i];
      assert i < |t| ==> s[i + 2..] == t[i + 1..];
      assert TrimmedItems([s[..i + 1]]) == TrimmedItems([t[..i]]);
    }
  }

  lemma CommaBeforeSpace(s: string, w: char)
    requires w != ','
    ensures var i, longer := IndexOfAny(s, {','}), s + [w];
      if i == |s| then IndexOfAny(longer, {','}) == |longer|
      else IndexOfAny(longer, {','}) == i && longer[..i] == s[..i] && longer[i + 1..] == s[i + 1..] + [w]
  {
    var i, longer := IndexOfAny(s, {','}), s + [w];
    assert forall j :: 0 <= j < |s| ==> longer[j] == s[j];
    IndexOfAnyIs(longer, {','}, if i == |s| then i + 1 else i);
    hide IndexOfAny;
  }

  lemma {:induction false} TrailingSpaceInList(s: string, w: char)
    requires IsWhitespace(w)
    ensures Items(s + [w]) == Items(s)
    decreases |s|
  {
    var longer := s + [w];
    SplitFirst(s);
    SplitFirst(longer);
    CommaBeforeSpace(s, w);
    hide Items, Trim, IndexOfAny;
    var i := IndexOfAny(s, {','});
    if i == |s| {
      assert longer[..i + 1] == longer && s[..i] == s;
      TrimOfSpaces(s, w);
      OneItem(s);
      OneItem(longer);
    } else {
      TrailingSpaceInList(s[i + 1..], w);
    }
    hide TrimmedItems;
  }

  lemma OneItem(piece: string)
    ensures TrimmedItems([piece]) == if Trim(piece) == "" then [] else [Trim(piece)]
  {
    hide Trim;
    assert [piece][1..] == [];
  }

  lemma {:induction false} TrimEndInList(s: string)
    ensures Items(TrimEnd(s)) == Items(s)
    decreases |s|
  {
    if |s| > 0 && IsWhitespace(s[|s| - 1]) {
      var t := s[..|s| - 1];
      assert s == t + [s[|s| - 1]];
      TrailingSpaceInList(t, s[|s| - 1]);
      TrimEndInList(t);
    }
  }

  lemma TrimInList(s: string)
    ensures Items(Trim(s)) == Items(s)
  {
    LeadingSpaceInList(s);
    TrimEndInList(TrimStart(s));
  }

  // ---------------------------------------------------------------- one key, several lines

  predicate IsListKey(section: Section, key: string) {
    match section
    case InterfaceSection => key == "address" || key == "dns"
    case PeerSection => key == "allowedips"
  }

  lemma {:induction false} ParseEachConcat<T>(parse: string -> Option<T>, a: seq<string>, b: seq<string>)
    ensures var (x, y) := (ParseEach(parse, a), ParseEach(parse, b));
      ParseEach(parse, a + b) == if x.None? || y.None? then None else Some(x.value + y.value)
    decreases |a|
  {
    if |a| == 0 {
      assert a + b == b;
      var y := ParseEach(parse, b);
      assert y.Some? ==> [] + y.value == y.value;
    } else {
      assert (a + b)[1..] == a[1..] + b;
      ParseEachConcat(parse, a[1..], b);
      var first, x, y := parse(a[0]), ParseEach(parse, a[1..]), ParseEach(parse, b);
      if first.Some? && x.Some? && y.Some? {
        assert [first.value] + (x.value + y.value) == [first.value] + x.value + y.value;
      }
    }
  }

  lemma {:induction false} ParseEachLength<T>(parse: string -> Option<T>, items: seq<string>)
    ensures var r := ParseEach(parse, items); r.Some? ==> |r.value| == |items|
  {
    if |items| > 0 {
      ParseEachLength(parse, items[1..]);
    }
  }

  lemma ParseListConcat<T>(parse: string -> Option<T>, key: string, v: string, left: string, right: string)
    requires Items(v) == Items(left) + Items(right)
    ensures var (x, y) := (ParseList(parse, key, left), ParseList(parse, key, right));
      && (|Items(left)| > 0 && |Items(right)| > 0 ==>
        ParseList(parse, key, v) == if x.Ok? && y.Ok? then Ok(x.value + y.value) else Err(Invalid(key)))
      && (|Items(left)| == 0 ==> x == Err(EmptyList(key)))
      && (|Items(right)| == 0 ==> y == Err(EmptyList(key)))
      && (|Items(left)| > 0 && x.Err? ==> x == Err(Invalid(key)))
      && (|Items(right)| > 0 && y.Err? ==> y == Err(Invalid(key)))
  {
    hide Items;
    ParseEachConcat(parse, Items(left), Items(right));
    ParseEachLength(parse, Items(left));
    ParseEachLength(parse, Items(right));
  }

  lemma {:induction false} DnsConcat(c: Codecs, a: seq<string>, b: seq<string>)
    ensures Servers(c, a + b) == Servers(c, a) + Servers(c, b)
    ensures SearchDomains(c, a + b) == SearchDomains(c, a) + SearchDomains(c, b)
    decreases |a|
  {
    if |a| == 0 {
      assert a + b == b;
    } else {
      assert (a + b)[1..] == a[1..] + b;
      DnsConcat(c, a[1..], b);
    }
  }

  /** Two lines in a row. */
  function TwoInterfaceLines(c: Codecs, b: InterfaceBuilder, key: string, left: string, right: string)
    : Result<InterfaceBuilder>
  {
    var first := InterfaceKv(c, b, key, left);
    if first.Err? then first else InterfaceKv(c, first.value, key, right)
  }

  function TwoPeerLines(c: Codecs, b: PeerBuilder, key: string, left: string, right: string): Result<PeerBuilder> {
    var first := PeerKv(c, b, key, left);
    if first.Err? then first else PeerKv(c, first.value, key, right)
  }

  lemma InterfaceListSplit(c: Codecs, b: InterfaceBuilder, key: string, v: string, left: string, right: string)
    requires IsListKey(InterfaceSection, key) && Items(v) == Items(left) + Items(right)
    ensures |Items(left)| > 0 && |Items(right)| > 0 ==>
      InterfaceKv(c, b, key, v) == TwoInterfaceLines(c, b, key, left, right)
    ensures |Items(left)| == 0 || |Items(right)| == 0 ==> TwoInterfaceLines(c, b, key, left, right).Err?
  {
    hide Items, ParseList;
    if key == "address" {
      ParseListConcat(c.address, key, v, left, right);
      var x, y := ParseList(c.address, key, left), ParseList(c.address, key, right);
      if x.Ok? && y.Ok? {
        assert b.addresses + (x.value + y.value) == b.addresses + x.value + y.value;
      }
    } else {
      var x, y := Items(left), Items(right);
      DnsConcat(c, x, y);
      assert b.dnsServers + (Servers(c, x) + Servers(c, y)) == b.dnsServers + Servers(c, x) + Servers(c, y);
      assert b.dnsSearch + (SearchDomains(c, x) + SearchDomains(c, y))
          == b.dnsSearch + SearchDomains(c, x) + SearchDomains(c, y);
    }
  }

  lemma PeerListSplit(c: Codecs, b: PeerBuilder, key: string, v: string, left: string, right: string)
    requires IsListKey(PeerSection, key) && Items(v) == Items(left) + Items(right)
    ensures |Items(left)| > 0 && |Items(right)| > 0 ==> PeerKv(c, b, key, v) == TwoPeerLines(c, b, key, left, right)
    ensures |Items(left)| == 0 || |Items(right)| == 0 ==> TwoPeerLines(c, b, key, left, right).Err?
  {
    hide Items, ParseList;
    ParseListConcat(c.allowedIp, key, v, left, right);
    var x, y := ParseList(c.allowedIp, key, left), ParseList(c.allowedIp, key, right);
    if x.Ok? && y.Ok? {
      assert b.allowedIps + (x.value + y.value) == b.allowedIps + x.value + y.value;
    }
  }

  // ---------------------------------------------------------------- the lines as written

  lemma {:induction false} TrimStartConcat(s: string, t: string)
    requires TrimStart(s) != ""
    ensures TrimStart(s + t) == TrimStart(s) + t
  {
    if IsWhitespace(s[0]) {
      assert (s + t)[1..] == s[1..] + t;
      TrimStartConcat(s[1..], t);
    }
  }

  lemma {:induction false} TrimEndConcat(s: string, t: string)
    ensures TrimEnd(t) != "" ==> TrimEnd(s + t) == s + TrimEnd(t)
    ensures TrimEnd(t) == "" ==> TrimEnd(s + t) == TrimEnd(s)
    decreases |t|
  {
    if |t| == 0 {
      assert s + t == s;
    } else if IsWhitespace(t[|t| - 1]) {
      assert (s + t)[..|s + t| - 1] == s + t[..|t| - 1];
      TrimEndConcat(s, t[..|t| - 1]);
    }
  }

  lemma {:induction false} TrimStartTwice(s: string)
    ensures TrimStart(TrimStart(s)) == TrimStart(s)
    ensures forall x <- TrimStart(s) :: x in s
    ensures TrimStart(s) == "" ==> Trim(s) == ""
  {
    if |s| > 0 && IsWhitespace(s[0]) {
      TrimStartTwice(s[1..]);
    }
  }

  lemma {:induction false} TrimEndOfBlank(s: string)
    requires TrimEnd(s) == ""
    ensures Trim(s) == ""
  {
    if |s| > 0 {
      TrimEndOfBlank(s[..|s| - 1]);
      assert s == s[..|s| - 1] + [s[|s| - 1]];
      TrimOfSpaces(s[..|s| - 1], s[|s| - 1]);
    }
  }

  /** A text without a comment mark. */
  predicate NoMarks(s: string) {
    forall x <- s :: x !in {'#', ';'}
  }

  lemma NoMarksJoined(a: string, b: string)
    requires NoMarks(a) && NoMarks(b)
    ensures NoMarks(a + "," + b)
  {
    forall x | x in a + "," + b ensures x !in {'#', ';'} {
      assert x in a || x == ',' || x in b;
    }
  }

  /** A line `key = value` without a comment, its key written in any case and with any spacing. */
  lemma LineOfKeyValue(k: string, v: string)
    requires forall x <- k :: x !in {'#', ';', '='}
    requires NoMarks(v)
    requires Trim(k) != "" && Trim(k)[0] != '['
    ensures LineOf(k + "=" + v) ==
      if Trim(TrimEnd(v)) == "" then Malformed(EmptyValue)
      else KeyValue(Lower(Trim(k)), Trim(TrimEnd(v)))
  {
    var raw := k + "=" + v;
    var key := TrimStart(k);
    var line := key + "=" + TrimEnd(v);
    TrimmedKeyValue(k, v);
    hide Trim, TrimStart, TrimEnd, Lower;
    NothingToStrip(k, v);
    FirstEquals(key, TrimEnd(v));
    hide StripComments, IndexOfAny, NoMarks;
    assert line[0] == key[0] != '[';
  }

  /** A line without an equals sign that is no section header. */
  lemma LineWithoutEquals(s: string)
    requires NoMarks(s) && '=' !in s && Trim(s) != "" && Trim(s)[0] != '['
    ensures LineOf(s) == Malformed(ExpectedKeyValue)
  {
    forall i | 0 <= i < |s| ensures s[i] !in {'#', ';'} {
      assert s[i] in s;
    }
    IndexOfAnyIs(s, {'#', ';'}, |s|);
    assert StripComments(s) == s;
    var line := Trim(s);
    TrimKeepsNoEquals(s);
    IndexOfAnyIs(line, {'='}, |line|);
    hide Trim, StripComments;
  }

  lemma TrimKeepsNoEquals(s: string)
    requires '=' !in s
    ensures '=' !in Trim(s)
  {
    TrimStartTwice(s);
    TrimEndIsPart(TrimStart(s));
  }

  lemma {:induction false} TrimEndIsPart(s: string)
    ensures forall x <- TrimEnd(s) :: x in s
  {
    if |s| > 0 && IsWhitespace(s[|s| - 1]) {
      TrimEndIsPart(s[..|s| - 1]);
    }
  }

  /** A line with nothing in front of its equals sign. */
  lemma LineWithoutKey(v: string)
    requires NoMarks(v)
    ensures LineOf("=" + v) == Malformed(EmptyKey)
  {
    var s := "=" + v;
    NothingToStrip("", v);
    assert "" + s == s;
    assert StripComments(s) == s && TrimStart(s) == s;
    assert TrimEnd("=") == "=";
    TrimEndConcat("=", v);
    var line := Trim(s);
    assert line[0] == '=' && line[..0] == "";
    assert Trim("") == "";
    hide Trim, StripComments, TrimEnd, TrimStart;
  }

  lemma NothingToStrip(k: string, v: string)
    requires (forall x <- k :: x !in {'#', ';', '='}) && NoMarks(v)
    ensures StripComments(k + "=" + v) == k + "=" + v
  {
    var raw := k + "=" + v;
    forall i | 0 <= i < |raw| ensures raw[i] !in {'#', ';'} {
      if i < |k| {
        assert raw[i] == k[i] && k[i] in k;
      } else if i > |k| {
        assert raw[i] == v[i - |k| - 1] && v[i - |k| - 1] in v;
      }
    }
    IndexOfAnyIs(raw, {'#', ';'}, |raw|);
  }

  lemma FirstEquals(key: string, value: string)
    requires forall x <- key :: x != '='
    ensures var line := key + "=" + value;
      IndexOfAny(line, {'='}) == |key| && line[..|key|] == key && line[|key| + 1..] == value
  {
    var line := key + "=" + value;
    forall i | 0 <= i < |key| ensures line[i] != '=' {
      assert line[i] == key[i] && key[i] in key;
    }
    assert line[|key|] == '=';
    IndexOfAnyIs(line, {'='}, |key|);
  }

  lemma TrimmedKeyValue(k: string, v: string)
    requires Trim(k) != "" && Trim(k)[0] != '['
    ensures var key := TrimStart(k);
      && Trim(k + "=" + v) == key + "=" + TrimEnd(v)
      && key != "" && key[0] != '[' && Trim(key) == Trim(k)
      && (forall x <- key :: x in k)
  {
    FirstOfKey(k);
    TrimStartTwice(k);
    var key := TrimStart(k);
    assert TrimEnd("=") == "=";
    hide TrimStart, TrimEnd, IsWhitespace;
    TrimStartConcat(k, "=");
    TrimStartConcat(k + "=", v);
    TrimEndConcat(key, "=");
    TrimEndConcat(key + "=", v);
    assert key + "=" + "" == key + "=";
  }

  lemma FirstOfKey(k: string)
    requires Trim(k) != "" && Trim(k)[0] != '['
    ensures |TrimStart(k)| > 0 && TrimStart(k)[0] != '['
  {
    var s := TrimStart(k);
    TrimStartTwice(k);
    if |s| > 0 {
      TrimEndKeepsFirst(s);
    }
  }

  // ---------------------------------------------------------------- the law

  predicate ListKey(key: string) {
    key == "address" || key == "dns" || key == "allowedips"
  }

  function TwoSteps(c: Codecs, s: State, first: Line, second: Line): Result<State> {
    var next := Step(c, s, first);
    if next.Err? then next else Step(c, next.value, second)
  }

  lemma StepSplit(c: Codecs, s: State, key: string, v: string, left: string, right: string)
    requires ListKey(key) && Items(v) == Items(left) + Items(right)
    ensures |Items(left)| > 0 && |Items(right)| > 0 ==>
      Step(c, s, KeyValue(key, v)) == TwoSteps(c, s, KeyValue(key, left), KeyValue(key, right))
    ensures |Items(left)| == 0 || |Items(right)| == 0 ==>
      TwoSteps(c, s, KeyValue(key, left), KeyValue(key, right)).Err?
  {
    hide Items, InterfaceKv, PeerKv;
    if s.section == Some(InterfaceSection) {
      if key == "allowedips" {
        UnsupportedInInterface(c, s.iface, key);
      } else {
        InterfaceListSplit(c, s.iface, key, v, left, right);
      }
    } else if s.section == Some(PeerSection) && s.currentPeer.Some? {
      if key == "allowedips" {
        PeerListSplit(c, s.currentPeer.value, key, v, left, right);
      } else {
        UnsupportedInPeer(c, s.currentPeer.value, key);
      }
    }
  }

  lemma UnsupportedInInterface(c: Codecs, b: InterfaceBuilder, key: string)
    requires key == "allowedips"
    ensures forall v :: InterfaceKv(c, b, key, v) == Err(UnsupportedKey(key))
  {
  }

  lemma UnsupportedInPeer(c: Codecs, b: PeerBuilder, key: string)
    requires key == "address" || key == "dns"
    ensures forall v :: PeerKv(c, b, key, v) == Err(UnsupportedKey(key))
  {
  }

  lemma BlankHasNoItems()
    ensures Items("") == []
  {
    assert SplitCommas("") == [""];
    assert TrimmedItems([""]) == [];
  }

  /** What the line `k = v` says when `k` is a list key. */
  lemma ListLine(k: string, v: string)
    requires forall x <- k :: x !in {'#', ';', '='}
    requires NoMarks(v)
    requires ListKey(Lower(Trim(k)))
    ensures var line := LineOf(k + "=" + v);
      && (|Items(v)| > 0 ==> line.KeyValue?)
      && (line.KeyValue? ==> line.key == Lower(Trim(k)) && Items(line.value) == Items(v))
      && (!line.KeyValue? ==> line == Malformed(EmptyValue))
  {
    hide LineOf, Items, TrimEnd;
    var key := Trim(k);
    assert Lower(key)[0] == LowerChar(key[0]);
    LineOfKeyValue(k, v);
    TrimEndInList(v);
    TrimInList(TrimEnd(v));
    BlankHasNoItems();
  }

  lemma SplitStep(c: Codecs, s: State, k: string, left: string, right: string)
    requires forall x <- k :: x !in {'#', ';', '='}
    requires NoMarks(left) && NoMarks(right)
    requires ListKey(Lower(Trim(k)))
    ensures var (first, second) := (LineOf(k + "=" + left), LineOf(k + "=" + right));
      && (|Items(left)| > 0 && |Items(right)| > 0 ==>
        Step(c, s, LineOf(k + "=" + (left + "," + right))) == TwoSteps(c, s, first, second))
      && (|Items(left)| == 0 || |Items(right)| == 0 ==> TwoSteps(c, s, first, second).Err?)
  {
    hide LineOf, Items, Trim, Lower, Step, ListKey;
    var v := left + "," + right;
    NoMarksJoined(left, right);
    hide NoMarks;
    ItemsConcat(left, right);
    ListLine(k, v);
    ListLine(k, left);
    ListLine(k, right);
    var first, second, whole := LineOf(k + "=" + left), LineOf(k + "=" + right), LineOf(k + "=" + v);
    if first.KeyValue? && second.KeyValue? {
      if whole.KeyValue? {
        StepSplit(c, s, first.key, whole.value, first.value, second.value);
      } else {
        StepSplit(c, s, first.key, v, first.value, second.value);
      }
    } else {
      MalformedFails(c, s, first, second);
    }
  }

  lemma MalformedFails(c: Codecs, s: State, first: Line, second: Line)
    requires first.Malformed? || second.Malformed?
    ensures TwoSteps(c, s, first, second).Err?
  {
  }

  lemma SplitLines(c: Codecs, a: seq<Line>, k: string, left: string, right: string, b: seq<Line>)
    requires forall x <- k :: x !in {'#', ';', '='}
    requires NoMarks(left) && NoMarks(right)
    requires ListKey(Lower(Trim(k)))
    ensures var whole := Parse(c, a + [LineOf(k + "=" + (left + "," + right))] + b);
      var split := Parse(c, a + [LineOf(k + "=" + left), LineOf(k + "=" + right)] + b);
      && (|Items(left)| > 0 && |Items(right)| > 0 ==> split == whole)
      && (|Items(left)| == 0 || |Items(right)| == 0 ==> split.Err?)
  {
    var first, second, one := LineOf(k + "=" + left), LineOf(k + "=" + right), LineOf(k + "=" + (left + "," + right));
    var mid := Run(c, START, a);
    if mid.Ok? {
      SplitStep(c, mid.value, k, left, right);
    }
    hide LineOf, Items, Trim, Lower, ListKey, Step;
    RunThree(c, a, [one], b);
    RunThree(c, a, [first, second], b);
    if mid.Ok? {
      RunOne(c, mid.value, one);
      RunTwo(c, mid.value, first, second);
    }
  }

  /** A line of a list key does not begin with a byte-order mark. */
  lemma ListKeyIsNoBom(k: string)
    requires ListKey(Lower(Trim(k)))
    ensures |k| > 0 && k[0] != BOM
  {
    assert Lower(Trim(k))[0] == LowerChar(Trim(k)[0]);
    if k[0] == BOM {
      TrimEndKeepsFirst(k);
    }
  }

  /** A line that may stand anywhere: with something on it, and no byte-order mark in front. */
  predicate ProperLine(x: string) {
    |x| > 0 && x[0] != BOM && '\n' !in x
  }

  lemma WithoutBomBefore(before: string, x: string)
    requires WholeLines(before) && |x| > 0 && x[0] != BOM
    ensures WithoutBom(before + x) == WithoutBom(before) + x
  {
    if before == "" {
      assert before + x == x && WithoutBom(before) + x == x;
    } else {
      assert before[|before| - 1] != BOM;
      WithoutBomConcat(before, x);
    }
  }

  /** The lines of a text with one more line in its middle, or at its end. */
  lemma TextWithLine(c: Codecs, before: string, x: string, after: string)
    requires WholeLines(before) && ProperLine(x)
    ensures var a := LinesOf(Lines(WithoutBom(before)));
      && ParseText(c, before + WithLine(x, after)) == Parse(c, a + [LineOf(x)] + LinesOf(Lines(after)))
      && ParseText(c, before + x) == Parse(c, a + [LineOf(x)] + [])
  {
    var body := WithoutBom(before);
    WithoutBomKeepsWholeLines(before);
    WithoutBomBefore(before, WithLine(x, after));
    WithoutBomBefore(before, x);
    hide Lines, LineOf, LinesOf, Parse, WithoutBom, WithLine, WholeLines;
    LineInBody(body, x, after);
    LastLineInBody(body, x);
    var a := LinesOf(Lines(body));
    assert a + [LineOf(x)] + [] == a + [LineOf(x)];
  }

  /** A text up to and with a line, as the front of what follows. */
  lemma LineBefore(before: string, x: string, after: string)
    requires WholeLines(before) && ProperLine(x)
    ensures var longer := before + WithLine(x, "");
      && before + WithLine(x, after) == longer + after && WholeLines(longer)
      && LinesOf(Lines(WithoutBom(longer))) == LinesOf(Lines(WithoutBom(before))) + [LineOf(x)]
  {
    WithoutBomKeepsWholeLines(before);
    WithoutBomBefore(before, WithLine(x, ""));
    LineInBody(WithoutBom(before), x, "");
    assert Lines("") == [] && LinesOf([]) == [];
    hide Lines, LineOf, LinesOf, WithoutBom;
    assert before + WithLine(x, after) == before + WithLine(x, "") + after;
    var a := LinesOf(Lines(WithoutBom(before))) + [LineOf(x)];
    assert a + [] == a;
  }

  lemma TextWithTwoLines(c: Codecs, before: string, x: string, y: string, after: string)
    requires WholeLines(before) && ProperLine(x) && ProperLine(y)
    ensures var a := LinesOf(Lines(WithoutBom(before)));
      && ParseText(c, before + WithLine(x, WithLine(y, after)))
          == Parse(c, a + [LineOf(x), LineOf(y)] + LinesOf(Lines(after)))
      && ParseText(c, before + WithLine(x, y)) == Parse(c, a + [LineOf(x), LineOf(y)] + [])
  {
    LineBefore(before, x, WithLine(y, after));
    LineBefore(before, x, y);
    hide Lines, LineOf, LinesOf, Parse, ParseText, WithoutBom, WholeLines, ProperLine;
    TextWithLine(c, before + WithLine(x, ""), y, after);
    hide WithLine;
    var a := LinesOf(Lines(WithoutBom(before)));
    assert a + [LineOf(x)] + [LineOf(y)] == a + [LineOf(x), LineOf(y)];
  }

  /**
   * A comma list split over two lines of its key, anywhere in a text, means the same whenever each half names
   * something; a half that names nothing makes the two-line text an error.
   */
  lemma SplittingAList(c: Codecs, before: string, k: string, left: string, right: string, after: string)
    requires WholeLines(before) && '\n' !in k && '\n' !in left && '\n' !in right
    requires forall x <- k :: x !in {'#', ';', '='}
    requires NoMarks(left) && NoMarks(right)
    requires ListKey(Lower(Trim(k)))
    ensures var one, first, second := k + "=" + (left + "," + right), k + "=" + left, k + "=" + right;
      && (|Items(left)| > 0 && |Items(right)| > 0 ==>
        && ParseText(c, before + WithLine(first, WithLine(second, after)))
            == ParseText(c, before + WithLine(one, after))
        && ParseText(c, before + WithLine(first, second)) == ParseText(c, before + one))
      && (|Items(left)| == 0 || |Items(right)| == 0 ==>
        && ParseText(c, before + WithLine(first, WithLine(second, after))).Err?
        && ParseText(c, before + WithLine(first, second)).Err?)
  {
    var one, first, second := k + "=" + (left + "," + right), k + "=" + left, k + "=" + right;
    ListKeyIsNoBom(k);
    assert ProperLine(one) && ProperLine(first) && ProperLine(second);
    hide ListKey, Items, NoMarks, ParseText, Parse, LineOf, Lines, LinesOf, WithoutBom, Trim, WithLine, ProperLine;
    TextWithTwoLines(c, before, first, second, after);
    TextWithLine(c, before, one, after);
    var a, b := LinesOf(Lines(WithoutBom(before))), LinesOf(Lines(after));
    SplitLines(c, a, k, left, right, b);
    SplitLines(c, a, k, left, right, []);
  }

  /** What a list line does depends on the items alone. */
  lemma StepByItems(c: Codecs, s: State, key: string, v: string, w: string)
    requires ListKey(key) && Items(v) == Items(w)
    ensures Step(c, s, KeyValue(key, v)) == Step(c, s, KeyValue(key, w))
  {
    hide Items, ParseEach;
  }

  lemma LineByItems(c: Codecs, s: State, k: string, v: string, w: string)
    requires forall x <- k :: x !in {'#', ';', '='}
    requires NoMarks(v) && NoMarks(w)
    requires ListKey(Lower(Trim(k))) && Items(v) == Items(w) != []
    ensures Step(c, s, LineOf(k + "=" + v)) == Step(c, s, LineOf(k + "=" + w))
  {
    hide LineOf, Items, Trim, Lower, Step, ListKey;
    ListLine(k, v);
    ListLine(k, w);
    StepByItems(c, s, Lower(Trim(k)), LineOf(k + "=" + v).value, LineOf(k + "=" + w).value);
  }

  /** The line of a list may be replaced by one with the same items. */
  lemma SameItemsSameText(c: Codecs, before: string, k: string, v: string, w: string, after: string)
    requires WholeLines(before) && '\n' !in k && '\n' !in v && '\n' !in w
    requires forall x <- k :: x !in {'#', ';', '='}
    requires NoMarks(v) && NoMarks(w)
    requires ListKey(Lower(Trim(k))) && Items(v) == Items(w) != []
    ensures ParseText(c, before + WithLine(k + "=" + v, after)) == ParseText(c, before + WithLine(k + "=" + w, after))
  {
    ListKeyIsNoBom(k);
    var x, y := k + "=" + v, k + "=" + w;
    assert ProperLine(x) && ProperLine(y);
    var a, b := LinesOf(Lines(WithoutBom(before))), LinesOf(Lines(after));
    var mid := Run(c, START, a);
    if mid.Ok? {
      LineByItems(c, mid.value, k, v, w);
    }
    hide ListKey, Items, NoMarks, ParseText, Step, LineOf, Lines, LinesOf, WithoutBom, Trim, WithLine, ProperLine;
    TextWithLine(c, before, x, after);
    TextWithLine(c, before, y, after);
    RunThree(c, a, [LineOf(x)], b);
    RunThree(c, a, [LineOf(y)], b);
    if mid.Ok? {
      RunOne(c, mid.value, LineOf(x));
      RunOne(c, mid.value, LineOf(y));
    }
  }

  /**
   * Where one half names nothing, the two-line text is an error and the one-line text means what the other half
   * alone means: splitting spoils exactly the texts that parse with the empty half left out.
   */
  lemma SplittingSpoilsIff(c: Codecs, before: string, k: string, left: string, right: string, after: string)
    requires WholeLines(before) && '\n' !in k && '\n' !in left && '\n' !in right
    requires forall x <- k :: x !in {'#', ';', '='}
    requires NoMarks(left) && NoMarks(right)
    requires ListKey(Lower(Trim(k))) && Items(left + "," + right) != []
    ensures var whole := ParseText(c, before + WithLine(k + "=" + (left + "," + right), after));
      var split := ParseText(c, before + WithLine(k + "=" + left, WithLine(k + "=" + right, after)));
      whole.Ok? && split.Err?
      <==> (Items(right) == [] && ParseText(c, before + WithLine(k + "=" + left, after)).Ok?)
           || (Items(left) == [] && ParseText(c, before + WithLine(k + "=" + right, after)).Ok?)
  {
    SplittingAList(c, before, k, left, right, after);
    ItemsConcat(left, right);
    NoMarksJoined(left, right);
    hide ListKey, Items, NoMarks, ParseText, Trim, WithLine;
    if Items(right) == [] {
      assert Items(left) + [] == Items(left);
      SameItemsSameText(c, before, k, left + "," + right, left, after);
    } else if Items(left) == [] {
      assert [] + Items(right) == Items(right);
      SameItemsSameText(c, before, k, left + "," + right, right, after);
    }
  }

  /** The front of a small text with a list. */
  const KEYED := WithLine("[" + "interface" + "]", WithLine("privatekey=k", ""))

  lemma PlainWord(s: string)
    requires |s| > 0 && forall i :: 0 <= i < |s| ==> 'a' <= s[i] <= 'z'
    ensures Trim(s) == s && TrimEnd(s) == s && Lower(s) == s
    ensures NoMarks(s) && '\n' !in s && '=' !in s
  {
    assert TrimStart(s) == s && TrimEnd(s) == s;
  }

  /** A line `[name]` without a comment. */
  lemma LineOfHeader(name: string)
    requires NoMarks(name)
    ensures LineOf("[" + name + "]") ==
      if Lower(Trim(name)) == "interface" then InterfaceHeader
      else if Lower(Trim(name)) == "peer" then PeerHeader
      else OtherHeader(Trim(name))
  {
    var h := "[" + name + "]";
    forall i | 0 <= i < |h| ensures h[i] !in {'#', ';'} {
      assert i == 0 || i == |h| - 1 || (h[i] == name[i - 1] && name[i - 1] in name);
    }
    IndexOfAnyIs(h, {'#', ';'}, |h|);
    assert StripComments(h) == h && TrimStart(h) == h && TrimEnd(h) == h;
    assert h[1..|h| - 1] == name;
    hide StripComments, TrimStart, TrimEnd, Lower;
  }

  lemma HeaderLine()
    ensures LineOf("[" + "interface" + "]") == InterfaceHeader
  {
    var name := "interface";
    PlainWord(name);
    hide LineOf, Trim, Lower, NoMarks;
    LineOfHeader(name);
  }

  lemma KeyLine()
    ensures LineOf("privatekey=k") == KeyValue("privatekey", "k")
  {
    var k := "privatekey";
    PlainWord(k);
    PlainWord("k");
    hide LineOf, Trim, TrimEnd, Lower;
    assert "privatekey=k" == k + "=" + "k";
    LineOfKeyValue(k, "k");
  }

  lemma KeyedSteps(c: Codecs)
    requires c.key("k").Some?
    ensures TwoSteps(c, START, InterfaceHeader, KeyValue("privatekey", "k")) ==
      Ok(START.(section := Some(InterfaceSection), seenInterface := true,
                iface := NEW_INTERFACE.(privateKey := c.key("k"))))
  {
  }

  lemma KeyedRuns(c: Codecs)
    requires c.key("k").Some?
    ensures WholeLines(KEYED)
    ensures Run(c, START, LinesOf(Lines(WithoutBom(KEYED)))) ==
      Ok(START.(section := Some(InterfaceSection), seenInterface := true,
                iface := NEW_INTERFACE.(privateKey := c.key("k"))))
  {
    hide LineOf, Lines, LinesOf, Step, Run;
    var header, key := "[" + "interface" + "]", "privatekey=k";
    LineBefore("", header, WithLine(key, ""));
    LineBefore(WithLine(header, ""), key, "");
    HeaderLine();
    KeyLine();
    hide WithoutBom;
    assert "" + WithLine(header, "") == WithLine(header, "") && "" + WithLine(header, WithLine(key, "")) == KEYED;
    NothingBefore();
    assert [] + [InterfaceHeader] + [KeyValue("privatekey", "k")] == [InterfaceHeader, KeyValue("privatekey", "k")];
    RunTwo(c, START, InterfaceHeader, KeyValue("privatekey", "k"));
    KeyedSteps(c);
  }

  lemma NothingBefore()
    ensures LinesOf(Lines(WithoutBom(""))) == []
  {
  }

  lemma OneDomain(c: Codecs, s: State)
    requires s.section == Some(InterfaceSection) && s.currentPeer.None? && s.seenInterface
    requires s.iface.privateKey.Some?
    ensures var next := Step(c, s, LineOf("dns" + "=" + "a")); next.Ok? && Finish(next.value).Ok?
    ensures Items("a") != []
  {
    var k, v := "dns", "a";
    PlainWord(k);
    PlainWord(v);
    assert SplitCommas(v) == [v];
    hide Trim, Lower;
    OneItem(v);
    hide LineOf, Items, NoMarks, SplitCommas, Step, Finish;
    ListLine(k, v);
    DnsLineIsRead(c, s, LineOf(k + "=" + v));
  }

  lemma DnsLineIsRead(c: Codecs, s: State, line: Line)
    requires s.section == Some(InterfaceSection) && s.currentPeer.None? && s.seenInterface
    requires s.iface.privateKey.Some?
    requires line.KeyValue? && line.key == "dns" && Items(line.value) != []
    ensures var next := Step(c, s, line); next.Ok? && Finish(next.value).Ok?
  {
    hide Items, Servers, SearchDomains;
  }

  /** A list line with a comma at its end, where the line without it completes the text. */
  lemma EmptyHalf(c: Codecs, before: string, s: State, k: string, v: string)
    requires WholeLines(before) && Run(c, START, LinesOf(Lines(WithoutBom(before)))) == Ok(s)
    requires '\n' !in k && '\n' !in v && NoMarks(v) && (forall x <- k :: x !in {'#', ';', '='})
    requires ListKey(Lower(Trim(k))) && Items(v) != []
    requires var next := Step(c, s, LineOf(k + "=" + v)); next.Ok? && Finish(next.value).Ok?
    ensures ParseText(c, before + WithLine(k + "=" + (v + "," + ""), "")).Ok?
    ensures ParseText(c, before + WithLine(k + "=" + v, WithLine(k + "=" + "", ""))).Err?
  {
    var line, a := k + "=" + v, LinesOf(Lines(WithoutBom(before)));
    ItemsConcat(v, "");
    BlankHasNoItems();
    ListKeyIsNoBom(k);
    assert ProperLine(line);
    hide Lines, LineOf, LinesOf, Run, Items, WithoutBom, Step, Trim, Lower, WithLine, WholeLines, Finish, ListKey;
    SplittingSpoilsIff(c, before, k, v, "", "");
    hide NoMarks, ParseText, ProperLine;
    TextWithLine(c, before, line, "");
    NothingBefore();
    RunThree(c, a, [LineOf(line)], []);
    RunOne(c, s, LineOf(line));
    RunNone(c);
  }

  /** One line may end its list with a comma; written as two lines, the second names nothing and is refused. */
  lemma AnEmptyHalfMatters(c: Codecs)
    requires c.key("k").Some?
    ensures ParseText(c, KEYED + WithLine("dns" + "=" + ("a" + "," + ""), "")).Ok?
    ensures ParseText(c, KEYED + WithLine("dns" + "=" + "a", WithLine("dns" + "=" + "", ""))).Err?
  {
    var k, v := "dns", "a";
    KeyedRuns(c);
    PlainWord(k);
    PlainWord(v);
    var s := Run(c, START, LinesOf(Lines(WithoutBom(KEYED)))).value;
    OneDomain(c, s);
    hide ParseText, Run, Lines, LinesOf, LineOf, WithoutBom, WithLine, WholeLines, NoMarks, Trim, Lower, Items, Step;
    EmptyHalf(c, KEYED, s, k, v);
  }

  lemma RunNone(c: Codecs)
    ensures forall s :: Run(c, s, []) == Ok(s)
  {
  }

  lemma RunThree(c: Codecs, a: seq<Line>, m: seq<Line>, b: seq<Line>)
    ensures var x := Run(c, START, a);
      Run(c, START, a + m + b) ==
      if x.Err? then x
      else var y := Run(c, x.value, m); if y.Err? then y else Run(c, y.value, b)
  {
    RunConcat(c, START, a + m, b);
    RunConcat(c, START, a, m);
  }

  lemma RunOne(c: Codecs, s: State, line: Line)
    ensures Run(c, s, [line]) == Step(c, s, line)
  {
    hide Step;
    assert [line][1..] == [];
  }

  lemma RunTwo(c: Codecs, s: State, first: Line, second: Line)
    ensures Run(c, s, [first, second]) == TwoSteps(c, s, first, second)
  {
    hide Step;
    assert [first, second][1..] == [second];
    var next := Step(c, s, first);
    if next.Ok? {
      RunOne(c, next.value, second);
    }
  }
}
