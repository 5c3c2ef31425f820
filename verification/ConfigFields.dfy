/** What each field of a configuration is, key by key, and why a line is refused. */
module ConfigFields {
  import opened Common
  import opened Config
  import opened ConfigParser
  import opened ConfigSections
  import L = ConfigLists

  /** The values given for a key in a section, in order. */
  function Values(body: seq<Line>, key: string): seq<string> {
    if |body| == 0 then []
    else
      var last := body[|body| - 1];
      Values(body[..|body| - 1], key) + if last.KeyValue? && last.key == key then [last.value] else []
  }

  predicate OnlyKeys(body: seq<Line>, keys: set<string>) {
    forall i :: 0 <= i < |body| ==> body[i].KeyValue? && body[i].key in keys
  }

  // ---------------------------------------------------------------- keys that are given once

  predicate OneAccepted<T>(parse: string -> Option<T>, values: seq<string>) {
    |values| <= 1 && forall v <- values :: parse(v).Some?
  }

  /** The value of the one line, if there is one. */
  function One<T>(parse: string -> Option<T>, values: seq<string>): Option<T> {
    if |values| == 0 then None else parse(values[0])
  }

  function TableOf(c: Codecs, value: string): Option<RouteTable> {
    if Lower(value) == "auto" then Some(RouteTable.Auto)
    else if Lower(value) == "off" then Some(RouteTable.Off)
    else
      match c.u32(value)
      case None => None
      case Some(id) => Some(RouteTable.Id(id))
  }

  function Tables(c: Codecs): string -> Option<RouteTable> {
    (value: string) => TableOf(c, value)
  }

  // ---------------------------------------------------------------- the firewall mark

  predicate NoMark(value: string) {
    Lower(value) == "off" || value == "0"
  }

  function MarkNumber(c: Codecs, value: string): Option<nat> {
    if "0x" <= value then c.hexU32(value[2..]) else c.u32(value)
  }

  /** A line that asks for no mark may be repeated; one that sets a mark must be the last. */
  predicate MarkAccepted(c: Codecs, values: seq<string>) {
    forall i :: 0 <= i < |values| ==>
      NoMark(values[i]) || (i == |values| - 1 && MarkNumber(c, values[i]).Some?)
  }

  function Mark(c: Codecs, values: seq<string>): Option<nat> {
    if |values| == 0 || NoMark(values[|values| - 1]) then None else MarkNumber(c, values[|values| - 1])
  }

  // ---------------------------------------------------------------- lists

  /** The items of all lines of a list key, in order. */
  function AllItems(values: seq<string>): seq<string> {
    if |values| == 0 then [] else AllItems(values[..|values| - 1]) + Items(values[|values| - 1])
  }

  /** What `pick` makes of the items it knows, in order. */
  function Picked<T>(pick: string -> Option<T>, items: seq<string>): seq<T> {
    if |items| == 0 then []
    else
      var last := pick(items[|items| - 1]);
      Picked(pick, items[..|items| - 1]) + if last.Some? then [last.value] else []
  }

  predicate ListAccepted<T>(parse: string -> Option<T>, values: seq<string>) {
    forall v <- values :: Items(v) != [] && forall item <- Items(v) :: parse(item).Some?
  }

  predicate DnsAccepted(values: seq<string>) {
    forall v <- values :: Items(v) != []
  }

  /** What is no address is a search domain. */
  function Domains(c: Codecs): string -> Option<string> {
    (item: string) => if c.ip(item).Some? then None else Some(item)
  }

  // ---------------------------------------------------------------- sections

  const INTERFACE_KEYS := {"privatekey", "listenport", "fwmark", "address", "dns", "mtu", "table"}
  const PEER_KEYS := {"publickey", "presharedkey", "allowedips", "endpoint", "persistentkeepalive"}

  predicate InterfaceAccepted(c: Codecs, body: seq<Line>) {
    && OnlyKeys(body, INTERFACE_KEYS)
    && OneAccepted(c.key, Values(body, "privatekey"))
    && OneAccepted(c.u16, Values(body, "listenport"))
    && MarkAccepted(c, Values(body, "fwmark"))
    && ListAccepted(c.address, Values(body, "address"))
    && DnsAccepted(Values(body, "dns"))
    && OneAccepted(c.u16, Values(body, "mtu"))
    && OneAccepted(Tables(c), Values(body, "table"))
  }

  function InterfaceSaid(c: Codecs, body: seq<Line>): InterfaceBuilder {
    var dns := AllItems(Values(body, "dns"));
    InterfaceBuilder(
      One(c.key, Values(body, "privatekey")),
      One(c.u16, Values(body, "listenport")),
      Mark(c, Values(body, "fwmark")),
      Picked(c.address, AllItems(Values(body, "address"))),
      Picked(c.ip, dns),
      Picked(Domains(c), dns),
      One(c.u16, Values(body, "mtu")),
      One(Tables(c), Values(body, "table")))
  }

  predicate PeerAccepted(c: Codecs, body: seq<Line>) {
    && OnlyKeys(body, PEER_KEYS)
    && OneAccepted(c.key, Values(body, "publickey"))
    && OneAccepted(c.key, Values(body, "presharedkey"))
    && ListAccepted(c.allowedIp, Values(body, "allowedips"))
    && OneAccepted(c.endpoint, Values(body, "endpoint"))
    && OneAccepted(c.u16, Values(body, "persistentkeepalive"))
  }

  function PeerSaid(c: Codecs, body: seq<Line>): PeerBuilder {
    PeerBuilder(
      One(c.key, Values(body, "publickey")),
      One(c.key, Values(body, "presharedkey")),
      Picked(c.allowedIp, AllItems(Values(body, "allowedips"))),
      One(c.endpoint, Values(body, "endpoint")),
      One(c.u16, Values(body, "persistentkeepalive")))
  }

  // ---------------------------------------------------------------- one more line

  lemma ValuesNext(body: seq<Line>, next: Line, key: string)
    ensures Values(body + [next], key) ==
      Values(body, key) + if next.KeyValue? && next.key == key then [next.value] else []
  {
    assert (body + [next])[..|body|] == body;
  }

  lemma OnlyKeysNext(body: seq<Line>, next: Line, keys: set<string>)
    ensures OnlyKeys(body + [next], keys) <==> OnlyKeys(body, keys) && next.KeyValue? && next.key in keys
  {
    assert (body + [next])[|body|] == next && forall i :: 0 <= i < |body| ==> (body + [next])[i] == body[i];
  }

  lemma OneNext<T>(parse: string -> Option<T>, values: seq<string>, v: string)
    ensures OneAccepted(parse, values + [v]) <==> values == [] && parse(v).Some?
    ensures values == [] ==> One(parse, values + [v]) == parse(v)
    ensures OneAccepted(parse, values) ==> (One(parse, values).Some? <==> values != [])
  {
    assert (values + [v])[|values|] == v;
    if |values| == 1 {
      assert values[0] in values;
    }
  }

  lemma MarkNext(c: Codecs, values: seq<string>, v: string)
    ensures MarkAccepted(c, values + [v]) <==>
      MarkAccepted(c, values) && Mark(c, values).None? && (NoMark(v) || MarkNumber(c, v).Some?)
    ensures Mark(c, values + [v]) == if NoMark(v) then None else MarkNumber(c, v)
  {
    var all := values + [v];
    assert all[|values|] == v && forall i :: 0 <= i < |values| ==> all[i] == values[i];
    if MarkAccepted(c, all) && |values| > 0 {
      assert NoMark(all[|values| - 1]);
    }
    if MarkAccepted(c, values) && Mark(c, values).None? && (NoMark(v) || MarkNumber(c, v).Some?) {
      forall i | 0 <= i < |all| ensures NoMark(all[i]) || (i == |all| - 1 && MarkNumber(c, all[i]).Some?) {
        if i < |values| {
          assert NoMark(values[i]);
        }
      }
    }
  }

  lemma AllItemsNext(values: seq<string>, v: string)
    ensures AllItems(values + [v]) == AllItems(values) + Items(v)
  {
    assert (values + [v])[..|values|] == values;
  }

  lemma {:induction false} PickedConcat<T>(pick: string -> Option<T>, a: seq<string>, b: seq<string>)
    ensures Picked(pick, a + b) == Picked(pick, a) + Picked(pick, b)
    decreases |b|
  {
    if |b| == 0 {
      assert a + b == a;
    } else {
      var n := |b| - 1;
      assert (a + b)[..|a + b| - 1] == a + b[..n];
      PickedConcat(pick, a, b[..n]);
    }
  }

  lemma {:induction false} PickedParsed<T>(parse: string -> Option<T>, items: seq<string>)
    ensures ParseEach(parse, items).Some? <==> forall item <- items :: parse(item).Some?
    ensures ParseEach(parse, items).Some? ==> ParseEach(parse, items).value == Picked(parse, items)
    decreases |items|
  {
    if |items| > 0 {
      PickedParsed(parse, items[1..]);
      assert items == [items[0]] + items[1..];
      PickedConcat(parse, [items[0]], items[1..]);
      PickedOne(parse, items[0]);
      assert forall item :: item in items <==> item == items[0] || item in items[1..];
    }
  }

  lemma PickedOne<T>(pick: string -> Option<T>, item: string)
    ensures Picked(pick, [item]) == if pick(item).Some? then [pick(item).value] else []
  {
    assert [item][..0] == [];
  }

  lemma {:induction false} PickedDns(c: Codecs, items: seq<string>)
    ensures Servers(c, items) == Picked(c.ip, items)
    ensures SearchDomains(c, items) == Picked(Domains(c), items)
    decreases |items|
  {
    if |items| > 0 {
      var domain := Domains(c);
      PickedDns(c, items[1..]);
      assert items == [items[0]] + items[1..];
      PickedConcat(c.ip, [items[0]], items[1..]);
      PickedConcat(domain, [items[0]], items[1..]);
      PickedOne(c.ip, items[0]);
      PickedOne(domain, items[0]);
    }
  }

  lemma ListNext<T>(parse: string -> Option<T>, key: string, values: seq<string>, v: string)
    ensures ListAccepted(parse, values + [v]) <==> ListAccepted(parse, values) && ParseList(parse, key, v).Ok?
    ensures ParseList(parse, key, v).Ok? ==>
      Picked(parse, AllItems(values + [v])) == Picked(parse, AllItems(values)) + ParseList(parse, key, v).value
  {
    assert forall x :: x in values + [v] <==> x in values || x == v;
    AllItemsNext(values, v);
    PickedConcat(parse, AllItems(values), Items(v));
    PickedParsed(parse, Items(v));
    L.ParseEachLength(parse, Items(v));
    hide Items;
  }

  lemma DnsNext(c: Codecs, values: seq<string>, v: string)
    ensures DnsAccepted(values + [v]) <==> DnsAccepted(values) && Items(v) != []
    ensures Picked(c.ip, AllItems(values + [v])) == Picked(c.ip, AllItems(values)) + Servers(c, Items(v))
    ensures var domain := Domains(c);
      Picked(domain, AllItems(values + [v])) == Picked(domain, AllItems(values)) + SearchDomains(c, Items(v))
  {
    assert forall x :: x in values + [v] <==> x in values || x == v;
    AllItemsNext(values, v);
    PickedConcat(c.ip, AllItems(values), Items(v));
    PickedConcat(Domains(c), AllItems(values), Items(v));
    PickedDns(c, Items(v));
    hide Items;
  }

  predicate IsFor(line: Line, key: string) {
    line.KeyValue? && line.key == key
  }

  lemma OneStep<T>(parse: string -> Option<T>, body: seq<Line>, next: Line, key: string)
    ensures var (before, after) := (Values(body, key), Values(body + [next], key));
      && (OneAccepted(parse, after) <==>
        OneAccepted(parse, before) && (IsFor(next, key) ==> before == [] && parse(next.value).Some?))
      && (OneAccepted(parse, before) ==> (One(parse, before).Some? <==> before != []))
      && (IsFor(next, key) && before == [] ==> One(parse, after) == parse(next.value))
      && (!IsFor(next, key) ==> One(parse, after) == One(parse, before))
  {
    ValuesNext(body, next, key);
    if IsFor(next, key) {
      OneNext(parse, Values(body, key), next.value);
    } else {
      OneNext(parse, Values(body, key), "");
      assert Values(body, key) + [] == Values(body, key);
    }
    hide Values;
  }

  lemma MarkStep(c: Codecs, body: seq<Line>, next: Line, key: string)
    ensures var (before, after) := (Values(body, key), Values(body + [next], key));
      && (MarkAccepted(c, after) <==>
        && MarkAccepted(c, before)
        && (IsFor(next, key) ==>
          Mark(c, before).None? && (NoMark(next.value) || MarkNumber(c, next.value).Some?)))
      && Mark(c, after) ==
        if !IsFor(next, key) then Mark(c, before) else if NoMark(next.value) then None else MarkNumber(c, next.value)
  {
    ValuesNext(body, next, key);
    if IsFor(next, key) {
      MarkNext(c, Values(body, key), next.value);
    } else {
      assert Values(body, key) + [] == Values(body, key);
    }
    hide Values, MarkNumber, NoMark;
  }

  lemma ListStep<T>(parse: string -> Option<T>, body: seq<Line>, next: Line, key: string)
    ensures var (before, after) := (Values(body, key), Values(body + [next], key));
      && (ListAccepted(parse, after) <==>
        ListAccepted(parse, before) && (IsFor(next, key) ==> ParseList(parse, key, next.value).Ok?))
      && (IsFor(next, key) && ParseList(parse, key, next.value).Ok? ==>
        Picked(parse, AllItems(after)) == Picked(parse, AllItems(before)) + ParseList(parse, key, next.value).value)
      && (!IsFor(next, key) ==> Picked(parse, AllItems(after)) == Picked(parse, AllItems(before)))
  {
    ValuesNext(body, next, key);
    hide ListAccepted, ParseList, Picked, AllItems;
    if IsFor(next, key) {
      ListNext(parse, key, Values(body, key), next.value);
    } else {
      assert Values(body, key) + [] == Values(body, key);
    }
    hide Values;
  }

  lemma DnsStep(c: Codecs, body: seq<Line>, next: Line, key: string)
    ensures var (before, after) := (Values(body, key), Values(body + [next], key));
      && (DnsAccepted(after) <==> DnsAccepted(before) && (IsFor(next, key) ==> Items(next.value) != []))
      && (IsFor(next, key) ==>
        && Picked(c.ip, AllItems(after)) == Picked(c.ip, AllItems(before)) + Servers(c, Items(next.value))
        && Picked(Domains(c), AllItems(after)) ==
          Picked(Domains(c), AllItems(before)) + SearchDomains(c, Items(next.value)))
      && (!IsFor(next, key) ==>
        && Picked(c.ip, AllItems(after)) == Picked(c.ip, AllItems(before))
        && Picked(Domains(c), AllItems(after)) == Picked(Domains(c), AllItems(before)))
  {
    ValuesNext(body, next, key);
    hide DnsAccepted, Picked, AllItems, Items;
    if IsFor(next, key) {
      DnsNext(c, Values(body, key), next.value);
    } else {
      assert Values(body, key) + [] == Values(body, key);
    }
    hide Values;
  }

  // ---------------------------------------------------------------- one more setting

  /** A setting is accepted exactly when the section with it is, and does what the section then says. */
  lemma InterfaceStep(c: Codecs, body: seq<Line>, next: Line)
    requires InterfaceAccepted(c, body)
    ensures InterfaceAccepted(c, body + [next]) <==>
      next.KeyValue? && InterfaceKv(c, InterfaceSaid(c, body), next.key, next.value).Ok?
    ensures InterfaceAccepted(c, body + [next]) ==>
      InterfaceKv(c, InterfaceSaid(c, body), next.key, next.value) == Ok(InterfaceSaid(c, body + [next]))
  {
    var all := body + [next];
    hide OneAccepted, One, MarkAccepted, Mark, ListAccepted, DnsAccepted, Picked, AllItems, Values, OnlyKeys, Items;
    hide ParseList, Servers, SearchDomains, Domains;
    OnlyKeysNext(body, next, INTERFACE_KEYS);
    OneStep(c.key, body, next, "privatekey");
    OneStep(c.u16, body, next, "listenport");
    MarkStep(c, body, next, "fwmark");
    ListStep(c.address, body, next, "address");
    DnsStep(c, body, next, "dns");
    OneStep(c.u16, body, next, "mtu");
    OneStep(Tables(c), body, next, "table");
  }

  lemma InterfaceEarlier(c: Codecs, body: seq<Line>, next: Line)
    requires InterfaceAccepted(c, body + [next])
    ensures InterfaceAccepted(c, body)
  {
    hide OneAccepted, One, MarkAccepted, Mark, ListAccepted, DnsAccepted, Picked, AllItems, Values, OnlyKeys, Items;
    hide ParseList, Servers, SearchDomains, Domains;
    OnlyKeysNext(body, next, INTERFACE_KEYS);
    OneStep(c.key, body, next, "privatekey");
    OneStep(c.u16, body, next, "listenport");
    MarkStep(c, body, next, "fwmark");
    ListStep(c.address, body, next, "address");
    DnsStep(c, body, next, "dns");
    OneStep(c.u16, body, next, "mtu");
    OneStep(Tables(c), body, next, "table");
  }

  lemma PeerStep(c: Codecs, body: seq<Line>, next: Line)
    requires PeerAccepted(c, body)
    ensures PeerAccepted(c, body + [next]) <==>
      next.KeyValue? && PeerKv(c, PeerSaid(c, body), next.key, next.value).Ok?
    ensures PeerAccepted(c, body + [next]) ==>
      PeerKv(c, PeerSaid(c, body), next.key, next.value) == Ok(PeerSaid(c, body + [next]))
  {
    hide OneAccepted, One, ListAccepted, Picked, AllItems, Values, OnlyKeys, Items, ParseList;
    OnlyKeysNext(body, next, PEER_KEYS);
    OneStep(c.key, body, next, "publickey");
    OneStep(c.key, body, next, "presharedkey");
    ListStep(c.allowedIp, body, next, "allowedips");
    OneStep(c.endpoint, body, next, "endpoint");
    OneStep(c.u16, body, next, "persistentkeepalive");
  }

  lemma PeerEarlier(c: Codecs, body: seq<Line>, next: Line)
    requires PeerAccepted(c, body + [next])
    ensures PeerAccepted(c, body)
  {
    hide OneAccepted, One, ListAccepted, Picked, AllItems, Values, OnlyKeys, Items, ParseList;
    OnlyKeysNext(body, next, PEER_KEYS);
    OneStep(c.key, body, next, "publickey");
    OneStep(c.key, body, next, "presharedkey");
    ListStep(c.allowedIp, body, next, "allowedips");
    OneStep(c.endpoint, body, next, "endpoint");
    OneStep(c.u16, body, next, "persistentkeepalive");
  }

  /** An interface section is read field by field: each from the lines of its own key, and from no others. */
  lemma {:induction false} InterfaceIsItsFields(c: Codecs, body: seq<Line>)
    ensures InterfaceOf(c, body) == if InterfaceAccepted(c, body) then Some(InterfaceSaid(c, body)) else None
  {
    if |body| == 0 {
      assert InterfaceAccepted(c, []) && InterfaceSaid(c, []) == NEW_INTERFACE;
    } else {
      var earlier, next := body[..|body| - 1], body[|body| - 1];
      assert body == earlier + [next];
      InterfaceIsItsFields(c, earlier);
      hide InterfaceKv, InterfaceSaid, InterfaceAccepted;
      if InterfaceAccepted(c, earlier) {
        InterfaceStep(c, earlier, next);
      } else if InterfaceAccepted(c, body) {
        InterfaceEarlier(c, earlier, next);
      }
    }
  }

  lemma {:induction false} PeerIsItsFields(c: Codecs, body: seq<Line>)
    ensures PeerSettings(c, body) == if PeerAccepted(c, body) then Some(PeerSaid(c, body)) else None
  {
    if |body| == 0 {
      assert PeerAccepted(c, []) && PeerSaid(c, []) == NEW_PEER;
    } else {
      var earlier, next := body[..|body| - 1], body[|body| - 1];
      assert body == earlier + [next];
      PeerIsItsFields(c, earlier);
      hide PeerKv, PeerSaid, PeerAccepted;
      if PeerAccepted(c, earlier) {
        PeerStep(c, earlier, next);
      } else if PeerAccepted(c, body) {
        PeerEarlier(c, earlier, next);
      }
    }
  }

  // ---------------------------------------------------------------- whole configurations

  /** The fields of an interface, key by key. */
  predicate InterfaceFields(c: Codecs, body: seq<Line>, i: InterfaceConfig) {
    var dns := AllItems(Values(body, "dns"));
    && InterfaceAccepted(c, body)
    && One(c.key, Values(body, "privatekey")) == Some(i.privateKey)
    && i.listenPort == One(c.u16, Values(body, "listenport"))
    && i.fwmark == Mark(c, Values(body, "fwmark"))
    && i.addresses == Picked(c.address, AllItems(Values(body, "address")))
    && i.dnsServers == Picked(c.ip, dns)
    && i.dnsSearch == Picked(Domains(c), dns)
    && i.mtu == One(c.u16, Values(body, "mtu"))
    && i.table == One(Tables(c), Values(body, "table"))
  }

  predicate PeerFields(c: Codecs, body: seq<Line>, p: PeerConfig) {
    && PeerAccepted(c, body)
    && One(c.key, Values(body, "publickey")) == Some(p.publicKey)
    && p.presharedKey == One(c.key, Values(body, "presharedkey"))
    && p.allowedIps == Picked(c.allowedIp, AllItems(Values(body, "allowedips")))
    && p.endpoint == One(c.endpoint, Values(body, "endpoint"))
    && p.persistentKeepalive == One(c.u16, Values(body, "persistentkeepalive"))
  }

  /** One interface section, and a peer for each peer section, with the fields their lines say. */
  ghost predicate SaysConfig(c: Codecs, lines: seq<Line>, config: WireGuardConfig) {
    var parts := Parts(lines);
    var interfaces, peers := InterfaceBodies(parts), PeerBodies(parts);
    && Preamble(lines) == [] && KnownSections(parts)
    && |interfaces| == 1 && InterfaceFields(c, interfaces[0], config.interface)
    && |config.peers| == |peers| && forall k :: 0 <= k < |peers| ==> PeerFields(c, peers[k], config.peers[k])
  }

  lemma InterfaceFinished(c: Codecs, body: seq<Line>, i: InterfaceConfig)
    ensures InterfaceFields(c, body, i) <==>
      InterfaceOf(c, body).Some? && FinishInterface(InterfaceOf(c, body).value) == Ok(i)
  {
    InterfaceIsItsFields(c, body);
    hide InterfaceAccepted, InterfaceOf, Values, One, Mark, Picked, AllItems, Tables, Domains;
  }

  lemma PeerFinished(c: Codecs, body: seq<Line>, p: PeerConfig)
    ensures PeerFields(c, body, p) <==> PeerOf(c, body) == Some(p)
  {
    PeerIsItsFields(c, body);
    hide PeerAccepted, PeerSettings, Values, One, Picked, AllItems;
  }

  /** A text parses to a configuration exactly when each field is what the lines of its key, in its section, say. */
  lemma ConfigIsItsFields(c: Codecs, input: string, config: WireGuardConfig)
    ensures ParseText(c, input) == Ok(config) <==> SaysConfig(c, LinesOf(Lines(WithoutBom(input))), config)
  {
    var lines := LinesOf(Lines(WithoutBom(input)));
    var parts := Parts(lines);
    var interfaces, peers := InterfaceBodies(parts), PeerBodies(parts);
    ParseIsMeaning(c, lines, config);
    hide Parse, Parts, Preamble, InterfaceBodies, PeerBodies, KnownSections, InterfaceFields, PeerFields, InterfaceOf;
    hide PeerOf, FinishInterface, Lines, LinesOf, WithoutBom;
    if |interfaces| == 1 {
      InterfaceFinished(c, interfaces[0], config.interface);
    }
    forall k | 0 <= k < |peers| && k < |config.peers|
      ensures PeerFields(c, peers[k], config.peers[k]) <==> PeerOf(c, peers[k]) == Some(config.peers[k])
    {
      PeerFinished(c, peers[k], config.peers[k]);
    }
    if SaysConfig(c, lines, config) {
      assert AllPeers(c, peers);
      assert config.peers == Peers(c, peers);
    }
    if Means(c, lines, config) {
      forall k | 0 <= k < |peers| ensures PeerFields(c, peers[k], config.peers[k]) {
        assert Some(config.peers[k]) == PeerOf(c, peers[k]);
      }
    }
  }

  // ---------------------------------------------------------------- refusals

  /** Why a setting is refused where the settings before it in its interface section were accepted. */
  function InterfaceRefusal(c: Codecs, body: seq<Line>, key: string, value: string): ErrorKind {
    if key !in INTERFACE_KEYS then UnsupportedKey(key)
    else if key == "dns" then EmptyList(key)
    else if key == "address" then
      if exists item <- Items(value) :: c.address(item).None? then Invalid(key) else EmptyList(key)
    else if key == "fwmark" then if Mark(c, Values(body, key)).Some? then Duplicate(key) else Invalid(key)
    else if Values(body, key) != [] then Duplicate(key)
    else Invalid(key)
  }

  function PeerRefusal(c: Codecs, body: seq<Line>, key: string, value: string): ErrorKind {
    if key !in PEER_KEYS then UnsupportedKey(key)
    else if key == "allowedips" then
      if exists item <- Items(value) :: c.allowedIp(item).None? then Invalid(key) else EmptyList(key)
    else if Values(body, key) != [] then Duplicate(key)
    else Invalid(key)
  }

  lemma ListRefused<T>(parse: string -> Option<T>, key: string, value: string)
    requires ParseList(parse, key, value).Err?
    ensures ParseList(parse, key, value) ==
      Err(if exists item <- Items(value) :: parse(item).None? then Invalid(key) else EmptyList(key))
  {
    PickedParsed(parse, Items(value));
    hide Items;
  }

  lemma OneTaken<T>(parse: string -> Option<T>, values: seq<string>)
    requires OneAccepted(parse, values)
    ensures One(parse, values).Some? <==> values != []
  {
    OneNext(parse, values, "");
  }

  lemma InterfaceRefused(c: Codecs, body: seq<Line>, key: string, value: string)
    requires InterfaceAccepted(c, body) && InterfaceKv(c, InterfaceSaid(c, body), key, value).Err?
    ensures InterfaceKv(c, InterfaceSaid(c, body), key, value) == Err(InterfaceRefusal(c, body, key, value))
  {
    hide OneAccepted, One, MarkAccepted, Mark, ListAccepted, DnsAccepted, Picked, AllItems, Values, OnlyKeys, Items;
    hide ParseList, Servers, SearchDomains, Domains;
    OneTaken(c.key, Values(body, "privatekey"));
    OneTaken(c.u16, Values(body, "listenport"));
    OneTaken(c.u16, Values(body, "mtu"));
    OneTaken(Tables(c), Values(body, "table"));
    if key == "address" {
      ListRefused(c.address, key, value);
    }
  }

  lemma PeerRefused(c: Codecs, body: seq<Line>, key: string, value: string)
    requires PeerAccepted(c, body) && PeerKv(c, PeerSaid(c, body), key, value).Err?
    ensures PeerKv(c, PeerSaid(c, body), key, value) == Err(PeerRefusal(c, body, key, value))
  {
    hide OneAccepted, One, ListAccepted, Picked, AllItems, Values, OnlyKeys, Items, ParseList;
    OneTaken(c.key, Values(body, "publickey"));
    OneTaken(c.key, Values(body, "presharedkey"));
    OneTaken(c.endpoint, Values(body, "endpoint"));
    OneTaken(c.u16, Values(body, "persistentkeepalive"));
    if key == "allowedips" {
      ListRefused(c.allowedIp, key, value);
    }
  }

  /** Why a line is refused where the sections before it were accepted; a blank one never is. */
  function Refusal(c: Codecs, parts: seq<Part>, next: Line): ErrorKind {
    match next
    case OtherHeader(name) => UnsupportedSection(name)
    case InterfaceHeader => if InterfaceBodies(parts) != [] then MultipleInterfaces else MissingPublicKey
    case PeerHeader => MissingPublicKey
    case Blank => ExpectedKeyValue
    case Malformed(error) => if parts == [] then KeyBeforeSection else error
    case KeyValue(key, value) =>
      if parts == [] then KeyBeforeSection
      else
        var last := parts[|parts| - 1];
        if last.header.InterfaceHeader? then InterfaceRefusal(c, last.body, key, value)
        else PeerRefusal(c, last.body, key, value)
  }

  lemma SectionOfState(c: Codecs, lines: seq<Line>)
    requires Accepted(c, lines)
    ensures var (s, parts) := (StateAfter(c, lines), Parts(lines));
      && (parts == [] ==> s.section == None)
      && (parts != [] ==>
        var last := parts[|parts| - 1];
        && (last.header.InterfaceHeader? ==>
          s.section == Some(InterfaceSection) && Some(s.iface) == InterfaceOf(c, last.body))
        && (last.header.PeerHeader? ==>
          s.section == Some(PeerSection) && s.currentPeer == PeerSettings(c, last.body) && s.currentPeer.Some?)
        && (last.header.InterfaceHeader? || last.header.PeerHeader?))
  {
    var parts := Parts(lines);
    if parts != [] {
      var last := parts[|parts| - 1];
      PartsHaveHeaders(lines);
      assert last in parts;
      AllButLast(parts);
      LastPart(parts[..|parts| - 1], last);
      hide Parts, Preamble, InterfaceOf, PeerSettings, PeerBodies, InterfaceBodies;
    }
  }

  /** The error of a refused text is about its first line that cannot be accepted, and says why it cannot. */
  lemma RefusedForAReason(c: Codecs, lines: seq<Line>, n: nat)
    requires FirstBadLine(c, lines, n)
    ensures Run(c, START, lines[..n + 1]) == Err(Refusal(c, Parts(lines[..n]), lines[n]))
  {
    var earlier, next := lines[..n], lines[n];
    assert lines[..n + 1] == earlier + [next];
    RunPush(c, START, earlier, next);
    MachineInStep(c, earlier);
    SectionOfState(c, earlier);
    SeenIff(c, earlier);
    var s := StateAfter(c, earlier);
    StepRefused(c, s, Parts(earlier), next);
    hide Run, Step, Parts, StateAfter, Accepted, InterfaceBodies, InterfaceRefusal, PeerRefusal;
  }

  lemma StepRefused(c: Codecs, s: State, parts: seq<Part>, next: Line)
    requires Step(c, s, next).Err?
    requires s.seenInterface <==> |InterfaceBodies(parts)| == 1
    requires |InterfaceBodies(parts)| <= 1
    requires parts == [] ==> s.section == None
    requires parts != [] ==>
      var last := parts[|parts| - 1];
      && (last.header.InterfaceHeader? ==>
        s.section == Some(InterfaceSection) && Some(s.iface) == InterfaceOf(c, last.body))
      && (last.header.PeerHeader? ==>
        s.section == Some(PeerSection) && s.currentPeer == PeerSettings(c, last.body) && s.currentPeer.Some?)
      && (last.header.InterfaceHeader? || last.header.PeerHeader?)
    ensures Step(c, s, next) == Err(Refusal(c, parts, next))
  {
    hide InterfaceKv, PeerKv, InterfaceOf, PeerSettings, InterfaceRefusal, PeerRefusal, InterfaceAccepted, PeerAccepted;
    hide InterfaceSaid, PeerSaid;
    if next.KeyValue? && parts != [] {
      var last := parts[|parts| - 1];
      if last.header.InterfaceHeader? {
        InterfaceIsItsFields(c, last.body);
        InterfaceRefused(c, last.body, next.key, next.value);
      } else {
        PeerIsItsFields(c, last.body);
        PeerRefused(c, last.body, next.key, next.value);
      }
    }
  }
}
