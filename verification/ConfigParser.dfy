/** The WireGuard configuration parser: a line machine with one builder per section. */
module ConfigParser {
  import opened Common
  import opened Config

  /** Reading of the values themselves: keys, numbers, addresses and endpoints. */
  datatype Codecs = Codecs(
    key: string -> Option<Key>,
    u16: string -> Option<nat>,
    u32: string -> Option<nat>,
    hexU32: string -> Option<nat>,
    address: string -> Option<Cidr>,
    allowedIp: string -> Option<Cidr>,
    ip: string -> Option<IpAddr>,
    endpoint: string -> Option<Endpoint>)

  datatype ErrorKind =
    | MultipleInterfaces
    | UnsupportedSection(name: string)
    | KeyBeforeSection
    | PeerKeyWithoutPeer
    | ExpectedKeyValue
    | EmptyKey
    | EmptyValue
    | Duplicate(key: string)
    | Invalid(key: string)
    | EmptyList(key: string)
    | UnsupportedKey(key: string)
    | MissingPublicKey
    | MissingPrivateKey
    | MissingInterface

  datatype Result<+T> = Ok(value: T) | Err(kind: ErrorKind)

  /** What a caller sees: the configuration, or an error with the line it is about. */
  datatype Outcome = Parsed(config: WireGuardConfig) | Failed(line: Option<nat>, kind: ErrorKind)

  // ---------------------------------------------------------------- text

  /** Position of the first character of `s` among `chars`, or the length. */
  function IndexOfAny(s: string, chars: set<char>): (r: nat)
    ensures r <= |s| && (forall i :: 0 <= i < r ==> s[i] !in chars) && (r < |s| ==> s[r] in chars)
  {
    if |s| == 0 || s[0] in chars then 0 else 1 + IndexOfAny(s[1..], chars)
  }

  function StripComments(s: string): string {
    s[..IndexOfAny(s, {'#', ';'})]
  }

  /** The pieces between commas. */
  function SplitCommas(s: string): (r: seq<string>)
    ensures |r| > 0
    decreases |s|
  {
    var i := IndexOfAny(s, {','});
    if i == |s| then [s] else [s[..i]] + SplitCommas(s[i + 1..])
  }

  function Items(value: string): seq<string> {
    TrimmedItems(SplitCommas(value))
  }

  /** Lines of a text: a line ends with a newline, perhaps after a carriage return. */
  function Lines(s: string): seq<string>
    decreases |s|
  {
    if |s| == 0 then []
    else
      var i := IndexOfAny(s, {'\n'});
      if i == |s| then [s]
      else
        var line := if i > 0 && s[i - 1] == '\r' then s[..i - 1] else s[..i];
        [line] + Lines(s[i + 1..])
  }

  function WithoutBom(s: string): string {
    if |s| > 0 && s[0] == '\U{FEFF}' then WithoutBom(s[1..]) else s
  }

  // ---------------------------------------------------------------- one line

  /** What one line says, whatever came before it. */
  datatype Line =
    | Blank
    | InterfaceHeader
    | PeerHeader
    | OtherHeader(name: string)
    | KeyValue(key: string, value: string)
    | Malformed(error: ErrorKind)

  predicate IsHeader(line: string) {
    |line| >= 2 && line[0] == '[' && line[|line| - 1] == ']'
  }

  function HeaderName(line: string): string
    requires IsHeader(line)
  {
    Trim(line[1..|line| - 1])
  }

  function SplitKeyValue(line: string): Line {
    var i := IndexOfAny(line, {'='});
    if i == |line| then Malformed(ExpectedKeyValue)
    else
      var key, value := Trim(line[..i]), Trim(line[i + 1..]);
      if key == "" then Malformed(EmptyKey)
      else if value == "" then Malformed(EmptyValue)
      else KeyValue(Lower(key), value)
  }

  function LineOf(raw: string): Line {
    var line := Trim(StripComments(raw));
    if line == "" then Blank
    else if IsHeader(line) then
      var name := HeaderName(line);
      if Lower(name) == "interface" then InterfaceHeader
      else if Lower(name) == "peer" then PeerHeader
      else OtherHeader(name)
    else SplitKeyValue(line)
  }

  // ---------------------------------------------------------------- values

  datatype InterfaceBuilder = InterfaceBuilder(
    privateKey: Option<Key>,
    listenPort: Option<nat>,
    fwmark: Option<nat>,
    addresses: seq<Cidr>,
    dnsServers: seq<IpAddr>,
    dnsSearch: seq<string>,
    mtu: Option<nat>,
    table: Option<RouteTable>)

  datatype PeerBuilder = PeerBuilder(
    publicKey: Option<Key>,
    presharedKey: Option<Key>,
    allowedIps: seq<Cidr>,
    endpoint: Option<Endpoint>,
    persistentKeepalive: Option<nat>)

  const NEW_INTERFACE := InterfaceBuilder(None, None, None, [], [], [], None, None)
  const NEW_PEER := PeerBuilder(None, None, [], None, None)

  /** Every item parsed, if every item parses. */
  function ParseEach<T>(parse: string -> Option<T>, items: seq<string>): Option<seq<T>> {
    if |items| == 0 then Some([])
    else
      var first := parse(items[0]);
      var rest := ParseEach(parse, items[1..]);
      if first.None? || rest.None? then None else Some([first.value] + rest.value)
  }

  /** A comma list of at least one item. */
  function ParseList<T>(parse: string -> Option<T>, key: string, value: string): Result<seq<T>> {
    var parsed := ParseEach(parse, Items(value));
    if parsed.None? then Err(Invalid(key))
    else if |parsed.value| == 0 then Err(EmptyList(key))
    else Ok(parsed.value)
  }

  function Servers(c: Codecs, items: seq<string>): seq<IpAddr> {
    if |items| == 0 then []
    else (if c.ip(items[0]).Some? then [c.ip(items[0]).value] else []) + Servers(c, items[1..])
  }

  function SearchDomains(c: Codecs, items: seq<string>): seq<string> {
    if |items| == 0 then []
    else (if c.ip(items[0]).Some? then [] else [items[0]]) + SearchDomains(c, items[1..])
  }

  function ParseTable(c: Codecs, value: string): Result<RouteTable> {
    if Lower(value) == "auto" then Ok(Auto)
    else if Lower(value) == "off" then Ok(Off)
    else
      var id := c.u32(value);
      if id.Some? then Ok(Id(id.value)) else Err(Invalid("table"))
  }

  function ParseFwmark(c: Codecs, value: string): Result<Option<nat>> {
    if Lower(value) == "off" || value == "0" then Ok(None)
    else
      var parsed := if "0x" <= value then c.hexU32(value[2..]) else c.u32(value);
      if parsed.Some? then Ok(parsed) else Err(Invalid("fwmark"))
  }

  /** A key that may be given once. */
  function Once<T>(current: Option<T>, key: string, parsed: Option<T>): Result<Option<T>> {
    if current.Some? then Err(Duplicate(key)) else if parsed.None? then Err(Invalid(key)) else Ok(parsed)
  }

  function InterfaceKv(c: Codecs, b: InterfaceBuilder, key: string, value: string): Result<InterfaceBuilder> {
    if key == "privatekey" then
      var r := Once(b.privateKey, key, c.key(value));
      if r.Ok? then Ok(b.(privateKey := r.value)) else Err(r.kind)
    else if key == "listenport" then
      var r := Once(b.listenPort, key, c.u16(value));
      if r.Ok? then Ok(b.(listenPort := r.value)) else Err(r.kind)
    else if key == "fwmark" then
      if b.fwmark.Some? then Err(Duplicate(key))
      else
        var r := ParseFwmark(c, value);
        if r.Ok? then Ok(b.(fwmark := r.value)) else Err(r.kind)
    else if key == "address" then
      var r := ParseList(c.address, key, value);
      if r.Ok? then Ok(b.(addresses := b.addresses + r.value)) else Err(r.kind)
    else if key == "dns" then
      var items := Items(value);
      if |items| == 0 then Err(EmptyList(key))
      else Ok(b.(dnsServers := b.dnsServers + Servers(c, items), dnsSearch := b.dnsSearch + SearchDomains(c, items)))
    else if key == "mtu" then
      var r := Once(b.mtu, key, c.u16(value));
      if r.Ok? then Ok(b.(mtu := r.value)) else Err(r.kind)
    else if key == "table" then
      if b.table.Some? then Err(Duplicate(key))
      else
        var r := ParseTable(c, value);
        if r.Ok? then Ok(b.(table := Some(r.value))) else Err(r.kind)
    else Err(UnsupportedKey(key))
  }

  function PeerKv(c: Codecs, b: PeerBuilder, key: string, value: string): Result<PeerBuilder> {
    if key == "publickey" then
      var r := Once(b.publicKey, key, c.key(value));
      if r.Ok? then Ok(b.(publicKey := r.value)) else Err(r.kind)
    else if key == "presharedkey" then
      var r := Once(b.presharedKey, key, c.key(value));
      if r.Ok? then Ok(b.(presharedKey := r.value)) else Err(r.kind)
    else if key == "allowedips" then
      var r := ParseList(c.allowedIp, key, value);
      if r.Ok? then Ok(b.(allowedIps := b.allowedIps + r.value)) else Err(r.kind)
    else if key == "endpoint" then
      var r := Once(b.endpoint, key, c.endpoint(value));
      if r.Ok? then Ok(b.(endpoint := r.value)) else Err(r.kind)
    else if key == "persistentkeepalive" then
      var r := Once(b.persistentKeepalive, key, c.u16(value));
      if r.Ok? then Ok(b.(persistentKeepalive := r.value)) else Err(r.kind)
    else Err(UnsupportedKey(key))
  }

  function FinishPeer(b: PeerBuilder): Result<PeerConfig> {
    if b.publicKey.None? then Err(MissingPublicKey)
    else Ok(PeerConfig(b.publicKey.value, b.presharedKey, b.allowedIps, b.endpoint, b.persistentKeepalive))
  }

  function FinishInterface(b: InterfaceBuilder): Result<InterfaceConfig> {
    if b.privateKey.None? then Err(MissingPrivateKey)
    else Ok(InterfaceConfig(b.privateKey.value, b.listenPort, b.fwmark, b.addresses, b.dnsServers, b.dnsSearch, b.mtu,
                            b.table))
  }

  // ---------------------------------------------------------------- the machine

  datatype Section = InterfaceSection | PeerSection

  datatype State = State(
    section: Option<Section>,
    iface: InterfaceBuilder,
    peers: seq<PeerConfig>,
    currentPeer: Option<PeerBuilder>,
    seenInterface: bool)

  const START := State(None, NEW_INTERFACE, [], None, false)

  /** Move an open peer to the finished ones. */
  function ClosePeer(s: State): Result<State> {
    if s.currentPeer.None? then Ok(s)
    else
      var peer := FinishPeer(s.currentPeer.value);
      if peer.Err? then Err(peer.kind) else Ok(s.(peers := s.peers + [peer.value], currentPeer := None))
  }

  function Step(c: Codecs, s: State, line: Line): Result<State> {
    match line
    case Blank => Ok(s)
    case InterfaceHeader =>
      if s.seenInterface then Err(MultipleInterfaces)
      else
        var closed := ClosePeer(s);
        if closed.Err? then closed
        else Ok(closed.value.(seenInterface := true, section := Some(InterfaceSection)))
    case PeerHeader =>
      var closed := ClosePeer(s);
      if closed.Err? then closed
      else Ok(closed.value.(currentPeer := Some(NEW_PEER), section := Some(PeerSection)))
    case OtherHeader(name) => Err(UnsupportedSection(name))
    case Malformed(error) => if s.section.None? then Err(KeyBeforeSection) else Err(error)
    case KeyValue(key, value) =>
      match s.section
      case None => Err(KeyBeforeSection)
      case Some(InterfaceSection) =>
        var b := InterfaceKv(c, s.iface, key, value);
        if b.Err? then Err(b.kind) else Ok(s.(iface := b.value))
      case Some(PeerSection) =>
        if s.currentPeer.None? then Err(PeerKeyWithoutPeer)
        else
          var b := PeerKv(c, s.currentPeer.value, key, value);
          if b.Err? then Err(b.kind) else Ok(s.(currentPeer := Some(b.value)))
  }

  function Run(c: Codecs, s: State, lines: seq<Line>): Result<State>
    decreases |lines|
  {
    if |lines| == 0 then Ok(s)
    else
      var next := Step(c, s, lines[0]);
      if next.Err? then next else Run(c, next.value, lines[1..])
  }

  function Finish(s: State): Result<WireGuardConfig> {
    var closed := ClosePeer(s);
    if closed.Err? then Err(closed.kind)
    else if !s.seenInterface then Err(MissingInterface)
    else
      var iface := FinishInterface(s.iface);
      if iface.Err? then Err(iface.kind) else Ok(WireGuardConfig(iface.value, closed.value.peers))
  }

  function Parse(c: Codecs, lines: seq<Line>): Result<WireGuardConfig> {
    var s := Run(c, START, lines);
    if s.Err? then Err(s.kind) else Finish(s.value)
  }

  function LinesOf(raw: seq<string>): (r: seq<Line>)
    ensures |r| == |raw|
  {
    seq(|raw|, i requires 0 <= i < |raw| => LineOf(raw[i]))
  }

  function ParseText(c: Codecs, input: string): Result<WireGuardConfig> {
    Parse(c, LinesOf(Lines(WithoutBom(input))))
  }

  lemma {:induction false} RunConcat(c: Codecs, s: State, a: seq<Line>, b: seq<Line>)
    ensures Run(c, s, a + b) == var mid := Run(c, s, a); if mid.Err? then mid else Run(c, mid.value, b)
    decreases |a|
  {
    if |a| == 0 {
      assert a + b == b;
    } else {
      assert (a + b)[1..] == a[1..] + b;
      var next := Step(c, s, a[0]);
      if next.Ok? {
        RunConcat(c, next.value, a[1..], b);
      }
    }
  }

  lemma RunPush(c: Codecs, s: State, a: seq<Line>, line: Line)
    ensures Run(c, s, a + [line]) == var mid := Run(c, s, a); if mid.Err? then mid else Step(c, mid.value, line)
  {
    RunConcat(c, s, a, [line]);
    var mid := Run(c, s, a);
    if mid.Ok? {
      assert [line][1..] == [];
      var next := Step(c, mid.value, line);
      assert Run(c, mid.value, [line]) == next;
    }
  }

  function Prepended<T>(out: seq<T>, rest: Option<seq<T>>): Option<seq<T>> {
    if rest.None? then None else Some(out + rest.value)
  }

  lemma PrependedNext<T>(out: seq<T>, x: T, rest: Option<seq<T>>)
    ensures Prepended(out, Prepended([x], rest)) == Prepended(out + [x], rest)
  {
    if rest.Some? {
      assert out + ([x] + rest.value) == (out + [x]) + rest.value;
    }
  }

  lemma PrependedEnds<T>(rest: Option<seq<T>>, out: seq<T>)
    ensures Prepended([], rest) == rest
    ensures Prepended(out, Some([])) == Some(out)
  {
    assert rest.Some? ==> [] + rest.value == rest.value;
    assert out + [] == out;
  }

  /** The comma list of a line, item by item. */
  method ReadList<T>(parse: string -> Option<T>, key: string, value: string) returns (r: Result<seq<T>>)
    ensures r == ParseList(parse, key, value)
  {
    var out: seq<T> := [];
    var items := Items(value);
    assert items[0..] == items;
    PrependedEnds(ParseEach(parse, items), out);
    for i := 0 to |items|
      invariant ParseEach(parse, items) == Prepended(out, ParseEach(parse, items[i..]))
    {
      assert items[i..][1..] == items[i + 1..];
      var item := parse(items[i]);
      if item.None? {
        return Err(Invalid(key));
      }
      PrependedNext(out, item.value, ParseEach(parse, items[i + 1..]));
      out := out + [item.value];
    }
    PrependedEnds(ParseEach(parse, items), out);
    assert ParseEach(parse, items[|items|..]) == Some([]);
    if |out| == 0 {
      return Err(EmptyList(key));
    }
    return Ok(out);
  }

  /** DNS entries: addresses are servers, everything else is a search domain. */
  method ReadDnsEntries(c: Codecs, value: string) returns (servers: seq<IpAddr>, search: seq<string>)
    ensures servers == Servers(c, Items(value)) && search == SearchDomains(c, Items(value))
  {
    var items := Items(value);
    servers, search := [], [];
    hide Items;
    assert items[0..] == items;
    for i := 0 to |items|
      invariant servers + Servers(c, items[i..]) == Servers(c, items)
      invariant search + SearchDomains(c, items[i..]) == SearchDomains(c, items)
    {
      assert items[i..][1..] == items[i + 1..];
      if c.ip(items[i]).Some? {
        servers := servers + [c.ip(items[i]).value];
      } else {
        search := search + [items[i]];
      }
    }
  }

  /** One setting of the interface section. */
  method ReadInterfaceKv(c: Codecs, b: InterfaceBuilder, key: string, value: string)
    returns (r: Result<InterfaceBuilder>)
    ensures r == InterfaceKv(c, b, key, value)
  {
    hide Items, ParseEach, Servers, SearchDomains;
    if key == "address" {
      var addresses := ReadList(c.address, key, value);
      return if addresses.Ok? then Ok(b.(addresses := b.addresses + addresses.value)) else Err(addresses.kind);
    }
    if key == "dns" {
      var servers, search := ReadDnsEntries(c, value);
      EveryItemCounts(c, Items(value));
      if |servers| == 0 && |search| == 0 {
        return Err(EmptyList(key));
      }
      return Ok(b.(dnsServers := b.dnsServers + servers, dnsSearch := b.dnsSearch + search));
    }
    return InterfaceKv(c, b, key, value);
  }

  lemma {:induction false} EveryItemCounts(c: Codecs, items: seq<string>)
    ensures |Servers(c, items)| + |SearchDomains(c, items)| == |items|
  {
    if |items| > 0 {
      EveryItemCounts(c, items[1..]);
    }
  }

  /** One setting of a peer section. */
  method ReadPeerKv(c: Codecs, b: PeerBuilder, key: string, value: string) returns (r: Result<PeerBuilder>)
    ensures r == PeerKv(c, b, key, value)
  {
    hide Items, ParseEach;
    if key == "allowedips" {
      var allowed := ReadList(c.allowedIp, key, value);
      return if allowed.Ok? then Ok(b.(allowedIps := b.allowedIps + allowed.value)) else Err(allowed.kind);
    }
    return PeerKv(c, b, key, value);
  }

  /** What one line does to the state of the parse. */
  method ReadLine(c: Codecs, s: State, line: Line) returns (r: Result<State>)
    ensures r == Step(c, s, line)
  {
    hide InterfaceKv, PeerKv, ClosePeer;
    if line.KeyValue? && s.section == Some(InterfaceSection) {
      var b := ReadInterfaceKv(c, s.iface, line.key, line.value);
      return if b.Ok? then Ok(s.(iface := b.value)) else Err(b.kind);
    }
    if line.KeyValue? && s.section == Some(PeerSection) && s.currentPeer.Some? {
      var b := ReadPeerKv(c, s.currentPeer.value, line.key, line.value);
      return if b.Ok? then Ok(s.(currentPeer := Some(b.value))) else Err(b.kind);
    }
    return Step(c, s, line);
  }

  /** The lines up to `n` are fine, and the next one is not. */
  ghost predicate FirstBadLine(c: Codecs, lines: seq<Line>, n: nat) {
    n < |lines| && Run(c, START, lines[..n]).Ok? && Run(c, START, lines[..n + 1]).Err?
  }

  lemma OneMoreLine(c: Codecs, lines: seq<Line>, i: nat, s: State)
    requires i < |lines| && Run(c, START, lines[..i]) == Ok(s)
    ensures Run(c, START, lines[..i + 1]) == Step(c, s, lines[i])
    ensures Step(c, s, lines[i]).Err? ==> Run(c, START, lines) == Step(c, s, lines[i])
  {
    hide Step, Run;
    assert lines[..i + 1] == lines[..i] + [lines[i]];
    RunPush(c, START, lines[..i], lines[i]);
    RunConcat(c, START, lines[..i + 1], lines[i + 1..]);
    assert lines[..i + 1] + lines[i + 1..] == lines;
  }

  /** The whole parse.  An error about a line names the first line that cannot be accepted. */
  method ParseConfig(c: Codecs, input: string) returns (r: Outcome)
    ensures r.Parsed? <==> ParseText(c, input).Ok?
    ensures r.Parsed? ==> Ok(r.config) == ParseText(c, input)
    ensures r.Failed? ==> ParseText(c, input) == Err(r.kind)
    ensures r.Failed? && r.line.Some? && !r.kind.MissingPublicKey? && !r.kind.MissingPrivateKey? ==>
      r.line.value > 0 && FirstBadLine(c, LinesOf(Lines(WithoutBom(input))), r.line.value - 1)
    ensures r.Failed? && r.line.None? ==> r.kind.MissingInterface?
    ensures r.Failed? && r.line.Some? && r.kind.MissingPublicKey? ==>
      IsHeaderLine(LinesOf(Lines(WithoutBom(input))), r.line.value, PeerHeader)
    ensures r.Failed? && r.line.Some? && r.kind.MissingPrivateKey? ==>
      IsHeaderLine(LinesOf(Lines(WithoutBom(input))), r.line.value, InterfaceHeader)
  {
    var raw := Lines(WithoutBom(input));
    ghost var lines := LinesOf(raw);
    var s := START;
    var interfaceLine: Option<nat> := None;
    var peerLine: nat := 0;
    for i := 0 to |raw|
      invariant Run(c, START, lines[..i]) == Ok(s)
      invariant s.seenInterface ==> interfaceLine.Some? && IsHeaderLine(lines, interfaceLine.value, InterfaceHeader)
      invariant s.currentPeer.Some? ==> IsHeaderLine(lines, peerLine, PeerHeader)
    {
      hide Step, LineOf, Lines, WithoutBom, Run;
      var lineNo := i + 1;
      var line := LineOf(raw[i]);
      OneMoreLine(c, lines, i, s);
      var next := ReadLine(c, s, line);
      WhoseKeyIsMissing(c, s, raw[i]);
      if next.Err? {
        return Failed(Some(if next.kind.MissingPublicKey? then peerLine else lineNo), next.kind);
      }
      SeenInterface(c, s, line);
      if line.InterfaceHeader? {
        interfaceLine := Some(lineNo);
      }
      if line.PeerHeader? {
        peerLine := lineNo;
      }
      s := next.value;
    }
    assert lines[..|raw|] == lines;
    hide Run, FinishPeer, FinishInterface, LinesOf, LineOf, Lines, WithoutBom, Step;
    var closed := ClosePeer(s);
    if closed.Err? {
      return Failed(Some(peerLine), closed.kind);
    }
    if !s.seenInterface {
      return Failed(None, MissingInterface);
    }
    var iface := FinishInterface(s.iface);
    if iface.Err? {
      return Failed(interfaceLine, iface.kind);
    }
    return Parsed(WireGuardConfig(iface.value, closed.value.peers));
  }

  /** Line numbers count from one. */
  predicate IsHeaderLine(lines: seq<Line>, number: nat, header: Line) {
    0 < number <= |lines| && lines[number - 1] == header
  }

  lemma WhoseKeyIsMissing(c: Codecs, s: State, raw: string)
    ensures var next := Step(c, s, LineOf(raw));
      && (next == Err(MissingPublicKey) ==> s.currentPeer.Some?)
      && next != Err(MissingPrivateKey)
      && (next.Ok? && next.value.currentPeer.Some? ==> LineOf(raw).PeerHeader? || s.currentPeer.Some?)
  {
    hide Trim, StripComments, Lower, IsHeader, HeaderName, IndexOfAny;
    LineErrors(raw);
    hide LineOf;
  }

  lemma LineErrors(raw: string)
    ensures LineOf(raw).Malformed? ==>
      LineOf(raw).error.ExpectedKeyValue? || LineOf(raw).error.EmptyKey? || LineOf(raw).error.EmptyValue?
  {
    hide Trim, StripComments, Lower, IsHeader, HeaderName, IndexOfAny;
  }

  lemma SeenInterface(c: Codecs, s: State, line: Line)
    ensures var next := Step(c, s, line);
      next.Ok? ==> (next.value.seenInterface <==> s.seenInterface || line.InterfaceHeader?)
  {
  }
}
