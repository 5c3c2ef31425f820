/** What a configuration text means, section by section, and that the line machine computes exactly that. */
module ConfigSections {
  import opened Common
  import opened Config
  import opened ConfigParser

  /** A section header with the lines below it that say something. */
  datatype Part = Part(header: Line, body: seq<Line>)

  predicate HeaderLine(line: Line) {
    line.InterfaceHeader? || line.PeerHeader? || line.OtherHeader?
  }

  /** The lines of a text before its first header that say something. */
  function Preamble(lines: seq<Line>): seq<Line> {
    if |lines| == 0 then []
    else
      var n := |lines| - 1;
      var last := lines[n];
      if HeaderLine(last) || last.Blank? || |Parts(lines[..n])| > 0 then Preamble(lines[..n])
      else Preamble(lines[..n]) + [last]
  }

  /** The sections of a text, in order. */
  function Parts(lines: seq<Line>): seq<Part> {
    if |lines| == 0 then []
    else
      var n := |lines| - 1;
      var last, earlier := lines[n], Parts(lines[..n]);
      var m := |earlier|;
      if HeaderLine(last) then earlier + [Part(last, [])]
      else if last.Blank? || m == 0 then earlier
      else earlier[..m - 1] + [earlier[m - 1].(body := earlier[m - 1].body + [last])]
  }

  /** The settings of one interface section. */
  function InterfaceOf(c: Codecs, body: seq<Line>): Option<InterfaceBuilder> {
    if |body| == 0 then Some(NEW_INTERFACE)
    else
      var last, earlier := body[|body| - 1], InterfaceOf(c, body[..|body| - 1]);
      if earlier.None? || !last.KeyValue? then None
      else
        var b := InterfaceKv(c, earlier.value, last.key, last.value);
        if b.Ok? then Some(b.value) else None
  }

  /** The settings of one peer section. */
  function PeerSettings(c: Codecs, body: seq<Line>): Option<PeerBuilder> {
    if |body| == 0 then Some(NEW_PEER)
    else
      var last, earlier := body[|body| - 1], PeerSettings(c, body[..|body| - 1]);
      if earlier.None? || !last.KeyValue? then None
      else
        var b := PeerKv(c, earlier.value, last.key, last.value);
        if b.Ok? then Some(b.value) else None
  }

  function PeerOf(c: Codecs, body: seq<Line>): Option<PeerConfig> {
    var b := PeerSettings(c, body);
    if b.None? || FinishPeer(b.value).Err? then None else Some(FinishPeer(b.value).value)
  }

  /** The bodies of the peer sections, in order. */
  function PeerBodies(parts: seq<Part>): seq<seq<Line>> {
    if |parts| == 0 then []
    else
      var last := parts[|parts| - 1];
      PeerBodies(parts[..|parts| - 1]) + if last.header.PeerHeader? then [last.body] else []
  }

  function InterfaceBodies(parts: seq<Part>): seq<seq<Line>> {
    if |parts| == 0 then []
    else
      var last := parts[|parts| - 1];
      InterfaceBodies(parts[..|parts| - 1]) + if last.header.InterfaceHeader? then [last.body] else []
  }

  predicate KnownSections(parts: seq<Part>) {
    forall p <- parts :: !p.header.OtherHeader?
  }

  predicate AllPeers(c: Codecs, bodies: seq<seq<Line>>) {
    forall i :: 0 <= i < |bodies| ==> PeerOf(c, bodies[i]).Some?
  }

  function Peers(c: Codecs, bodies: seq<seq<Line>>): (r: seq<PeerConfig>)
    requires AllPeers(c, bodies)
    ensures |r| == |bodies| && forall i :: 0 <= i < |bodies| ==> Some(r[i]) == PeerOf(c, bodies[i])
  {
    seq(|bodies|, i requires 0 <= i < |bodies| => PeerOf(c, bodies[i]).value)
  }

  /**
   * The meaning of a text: one known interface section with a private key, any number of peer sections with a
   * public key each, and nothing in front of the first section.
   */
  ghost predicate Means(c: Codecs, lines: seq<Line>, config: WireGuardConfig) {
    var parts := Parts(lines);
    var interfaces, peers := InterfaceBodies(parts), PeerBodies(parts);
    && Preamble(lines) == [] && KnownSections(parts)
    && |interfaces| == 1 && InterfaceOf(c, interfaces[0]).Some?
    && FinishInterface(InterfaceOf(c, interfaces[0]).value) == Ok(config.interface)
    && AllPeers(c, peers) && config.peers == Peers(c, peers)
  }

  // ---------------------------------------------------------------- the machine in the middle of a text

  /** Everything the machine has accepted so far. */
  ghost predicate Accepted(c: Codecs, lines: seq<Line>) {
    var parts := Parts(lines);
    var n := |parts|;
    var interfaces := InterfaceBodies(parts);
    && Preamble(lines) == [] && KnownSections(parts)
    && |interfaces| <= 1 && (|interfaces| == 1 ==> InterfaceOf(c, interfaces[0]).Some?)
    && (n > 0 ==> AllPeers(c, PeerBodies(parts[..n - 1])))
    && (n > 0 && parts[n - 1].header.PeerHeader? ==> PeerSettings(c, parts[n - 1].body).Some?)
  }

  function SectionOf(header: Line): Option<Section> {
    match header
    case InterfaceHeader => Some(InterfaceSection)
    case PeerHeader => Some(PeerSection)
    case _ => None
  }

  function StateAfter(c: Codecs, lines: seq<Line>): State
    requires Accepted(c, lines)
  {
    var parts := Parts(lines);
    var n := |parts|;
    var interfaces := InterfaceBodies(parts);
    if n == 0 then START
    else
      State(SectionOf(parts[n - 1].header),
            if |interfaces| == 1 then InterfaceOf(c, interfaces[0]).value else NEW_INTERFACE,
            Peers(c, PeerBodies(parts[..n - 1])),
            if parts[n - 1].header.PeerHeader? then PeerSettings(c, parts[n - 1].body) else None,
            |interfaces| == 1)
  }

  /** The machine has got through exactly the acceptable lines, and its state is what they say. */
  ghost predicate InStep(c: Codecs, lines: seq<Line>) {
    var r := Run(c, START, lines);
    && (r.Ok? <==> Accepted(c, lines))
    && (r.Ok? ==> r.value == StateAfter(c, lines))
  }

  /** One step carries the acceptable lines to the acceptable lines. */
  ghost predicate StepIsRight(c: Codecs, lines: seq<Line>, next: Line) {
    && (Accepted(c, lines + [next]) ==> Accepted(c, lines))
    && (Accepted(c, lines) ==>
      var r := Step(c, StateAfter(c, lines), next);
      && (r.Ok? <==> Accepted(c, lines + [next]))
      && (r.Ok? ==> r.value == StateAfter(c, lines + [next])))
  }

  lemma LastLine(lines: seq<Line>, next: Line)
    ensures var all, earlier := lines + [next], Parts(lines);
      var m := |earlier|;
      && Preamble(all) == (if HeaderLine(next) || next.Blank? || m > 0 then Preamble(lines)
                           else Preamble(lines) + [next])
      && Parts(all) == (if HeaderLine(next) then earlier + [Part(next, [])]
                        else if next.Blank? || m == 0 then earlier
                        else earlier[..m - 1] + [earlier[m - 1].(body := earlier[m - 1].body + [next])])
  {
    assert (lines + [next])[..|lines|] == lines;
  }

  lemma LastPart(parts: seq<Part>, p: Part)
    ensures (parts + [p])[..|parts|] == parts
    ensures PeerBodies(parts + [p]) == PeerBodies(parts) + if p.header.PeerHeader? then [p.body] else []
    ensures InterfaceBodies(parts + [p]) == InterfaceBodies(parts) + if p.header.InterfaceHeader? then [p.body] else []
    ensures KnownSections(parts + [p]) <==> KnownSections(parts) && !p.header.OtherHeader?
  {
    assert (parts + [p])[..|parts|] == parts;
    assert p in parts + [p] && forall q :: q in parts + [p] <==> q in parts || q == p;
  }

  lemma AllButLast(parts: seq<Part>)
    requires |parts| > 0
    ensures parts == parts[..|parts| - 1] + [parts[|parts| - 1]]
  {
  }

  lemma MorePeers(c: Codecs, bodies: seq<seq<Line>>, body: seq<Line>)
    ensures AllPeers(c, bodies + [body]) <==> AllPeers(c, bodies) && PeerOf(c, body).Some?
    ensures AllPeers(c, bodies + [body]) ==>
      Peers(c, bodies + [body]) == Peers(c, bodies) + [PeerOf(c, body).value]
  {
    var all := bodies + [body];
    assert all[|bodies|] == body && forall i :: 0 <= i < |bodies| ==> all[i] == bodies[i];
    if AllPeers(c, bodies) && PeerOf(c, body).Some? {
      assert AllPeers(c, all);
      assert Peers(c, all) == Peers(c, bodies) + [PeerOf(c, body).value];
    }
    if AllPeers(c, all) {
      forall i | 0 <= i < |bodies| ensures PeerOf(c, bodies[i]).Some? {
        assert PeerOf(c, all[i]).Some?;
      }
    }
  }

  /** Closing the open peer, if there is one, leaves one finished peer for each peer section. */
  lemma ClosePeerIsRight(c: Codecs, lines: seq<Line>)
    requires Accepted(c, lines)
    ensures var bodies := PeerBodies(Parts(lines));
      var s, r := StateAfter(c, lines), ClosePeer(StateAfter(c, lines));
      && (r.Ok? <==> AllPeers(c, bodies))
      && (r.Ok? ==> r.value == s.(peers := Peers(c, bodies), currentPeer := None))
  {
    var parts := Parts(lines);
    var m := |parts|;
    if m > 0 {
      AllButLast(parts);
      LastPart(parts[..m - 1], parts[m - 1]);
      var earlier := PeerBodies(parts[..m - 1]);
      hide Parts, Preamble, KnownSections, InterfaceBodies, PeerSettings, FinishPeer;
      if parts[m - 1].header.PeerHeader? {
        MorePeers(c, earlier, parts[m - 1].body);
      } else {
        assert earlier + [] == earlier;
      }
    }
  }

  lemma AfterHeader(c: Codecs, lines: seq<Line>, next: Line)
    requires HeaderLine(next)
    ensures var parts, all := Parts(lines), lines + [next];
      && (Accepted(c, all) <==>
        && Accepted(c, lines) && AllPeers(c, PeerBodies(parts)) && !next.OtherHeader?
        && (next.InterfaceHeader? ==> InterfaceBodies(parts) == []))
      && (Accepted(c, all) ==>
        StateAfter(c, all) == StateAfter(c, lines).(
          section := SectionOf(next),
          peers := Peers(c, PeerBodies(parts)),
          currentPeer := if next.PeerHeader? then Some(NEW_PEER) else None,
          seenInterface := next.InterfaceHeader? || StateAfter(c, lines).seenInterface))
  {
    var parts := Parts(lines);
    var m := |parts|;
    LastLine(lines, next);
    LastPart(parts, Part(next, []));
    if m > 0 {
      AllButLast(parts);
      LastPart(parts[..m - 1], parts[m - 1]);
      var earlier := PeerBodies(parts[..m - 1]);
      if parts[m - 1].header.PeerHeader? {
        MorePeers(c, earlier, parts[m - 1].body);
      } else {
        assert earlier + [] == earlier;
      }
    }
    assert PeerBodies([]) == [];
    assert InterfaceBodies(parts) + [] == InterfaceBodies(parts);
    assert PeerSettings(c, []) == Some(NEW_PEER) && InterfaceOf(c, []) == Some(NEW_INTERFACE);
    hide Parts, Preamble, PeerBodies, InterfaceBodies, KnownSections, FinishPeer, AllPeers, Peers;
  }

  lemma HeaderStep(c: Codecs, lines: seq<Line>, next: Line)
    requires HeaderLine(next)
    ensures StepIsRight(c, lines, next)
  {
    hide InterfaceKv, PeerKv, FinishPeer, PeerSettings, InterfaceOf;
    AfterHeader(c, lines, next);
    if Accepted(c, lines) {
      ClosePeerIsRight(c, lines);
      assert StateAfter(c, lines).seenInterface <==> InterfaceBodies(Parts(lines)) != [] by {
        SeenIff(c, lines);
      }
    }
    hide Parts, Accepted, StateAfter, ClosePeer, AllPeers, Peers, PeerBodies, InterfaceBodies;
  }

  lemma SeenIff(c: Codecs, lines: seq<Line>)
    requires Accepted(c, lines)
    ensures StateAfter(c, lines).seenInterface <==> |InterfaceBodies(Parts(lines))| == 1
    ensures |InterfaceBodies(Parts(lines))| <= 1
  {
  }

  lemma {:induction false} PartsHaveHeaders(lines: seq<Line>)
    ensures forall p <- Parts(lines) :: HeaderLine(p.header)
  {
    if |lines| > 0 {
      var n := |lines| - 1;
      PartsHaveHeaders(lines[..n]);
      var earlier := Parts(lines[..n]);
      if |earlier| > 0 {
        assert earlier[|earlier| - 1] in earlier;
      }
    }
  }

  /** A setting joins the last section and touches nothing else. */
  lemma AfterSetting(c: Codecs, lines: seq<Line>, next: Line)
    requires (next.KeyValue? || next.Malformed?) && |Parts(lines)| > 0
    ensures var (parts, all) := (Parts(lines), Parts(lines + [next]));
      var (m, last) := (|parts|, parts[|parts| - 1]);
      && HeaderLine(last.header)
      && Preamble(lines + [next]) == Preamble(lines)
      && |all| == m && all[..m - 1] == parts[..m - 1]
      && all[m - 1] == Part(last.header, last.body + [next])
      && (KnownSections(all) <==> KnownSections(parts))
      && InterfaceBodies(parts) ==
        InterfaceBodies(parts[..m - 1]) + (if last.header.InterfaceHeader? then [last.body] else [])
      && InterfaceBodies(all) ==
        InterfaceBodies(parts[..m - 1]) + (if last.header.InterfaceHeader? then [last.body + [next]] else [])
      && (KnownSections(parts) ==> !last.header.OtherHeader?)
  {
    var parts := Parts(lines);
    var m := |parts|;
    var last := parts[m - 1];
    var longer := last.(body := last.body + [next]);
    LastLine(lines, next);
    PartsHaveHeaders(lines);
    assert last in parts;
    AllButLast(parts);
    LastPart(parts[..m - 1], last);
    LastPart(parts[..m - 1], longer);
    hide Parts, Preamble, PeerBodies, InterfaceBodies;
  }

  lemma OneMoreSetting(c: Codecs, body: seq<Line>, next: Line)
    ensures InterfaceOf(c, body + [next]) ==
      if InterfaceOf(c, body).None? || !next.KeyValue? then None
      else
        var b := InterfaceKv(c, InterfaceOf(c, body).value, next.key, next.value);
        if b.Ok? then Some(b.value) else None
    ensures PeerSettings(c, body + [next]) ==
      if PeerSettings(c, body).None? || !next.KeyValue? then None
      else
        var b := PeerKv(c, PeerSettings(c, body).value, next.key, next.value);
        if b.Ok? then Some(b.value) else None
  {
    hide InterfaceKv, PeerKv;
    assert (body + [next])[..|body|] == body;
  }

  lemma SettingStepped(c: Codecs, s: State, next: Line)
    requires next.KeyValue? || next.Malformed?
    ensures s.section == Some(InterfaceSection) ==>
      var b := if next.KeyValue? then InterfaceKv(c, s.iface, next.key, next.value) else Err(next.error);
      Step(c, s, next) == if b.Ok? then Ok(s.(iface := b.value)) else Err(b.kind)
    ensures s.section == Some(PeerSection) && s.currentPeer.Some? ==>
      var b := if next.KeyValue? then PeerKv(c, s.currentPeer.value, next.key, next.value) else Err(next.error);
      Step(c, s, next) == if b.Ok? then Ok(s.(currentPeer := Some(b.value))) else Err(b.kind)
  {
    hide InterfaceKv, PeerKv;
  }

  lemma AfterInterfaceSetting(c: Codecs, lines: seq<Line>, next: Line)
    requires (next.KeyValue? || next.Malformed?) && |Parts(lines)| > 0
    requires Parts(lines)[|Parts(lines)| - 1].header.InterfaceHeader?
    ensures var all, body := lines + [next], Parts(lines)[|Parts(lines)| - 1].body;
      && (Accepted(c, all) <==> Accepted(c, lines) && InterfaceOf(c, body + [next]).Some?)
      && (Accepted(c, lines) ==>
        && StateAfter(c, lines).section == Some(InterfaceSection)
        && Some(StateAfter(c, lines).iface) == InterfaceOf(c, body))
      && (Accepted(c, all) ==>
        StateAfter(c, all) == StateAfter(c, lines).(iface := InterfaceOf(c, body + [next]).value))
  {
    hide InterfaceKv, PeerKv, InterfaceOf, PeerSettings, Peers, AllPeers, KnownSections, Preamble, PeerBodies;
    var parts := Parts(lines);
    var body := parts[|parts| - 1].body;
    var earlier := InterfaceBodies(parts[..|parts| - 1]);
    AfterSetting(c, lines, next);
    assert InterfaceOf(c, body + [next]).Some? ==> InterfaceOf(c, body).Some? by {
      OneMoreSetting(c, body, next);
    }
    if |earlier| == 0 {
      assert earlier + [body] == [body] && earlier + [body + [next]] == [body + [next]];
    }
    hide Parts, InterfaceBodies;
  }

  lemma InterfaceSetting(c: Codecs, lines: seq<Line>, next: Line)
    requires (next.KeyValue? || next.Malformed?) && |Parts(lines)| > 0
    requires Parts(lines)[|Parts(lines)| - 1].header.InterfaceHeader?
    ensures StepIsRight(c, lines, next)
  {
    hide Step, InterfaceKv, PeerKv, PeerSettings, InterfaceOf;
    AfterInterfaceSetting(c, lines, next);
    OneMoreSetting(c, Parts(lines)[|Parts(lines)| - 1].body, next);
    if Accepted(c, lines) {
      SettingStepped(c, StateAfter(c, lines), next);
    }
    hide Parts, Accepted, StateAfter;
  }

  lemma AfterPeerSetting(c: Codecs, lines: seq<Line>, next: Line)
    requires (next.KeyValue? || next.Malformed?) && |Parts(lines)| > 0
    requires Parts(lines)[|Parts(lines)| - 1].header.PeerHeader?
    ensures var all, body := lines + [next], Parts(lines)[|Parts(lines)| - 1].body;
      && (Accepted(c, all) <==> Accepted(c, lines) && PeerSettings(c, body + [next]).Some?)
      && (Accepted(c, lines) ==>
        && StateAfter(c, lines).section == Some(PeerSection)
        && StateAfter(c, lines).currentPeer == PeerSettings(c, body) && PeerSettings(c, body).Some?)
      && (Accepted(c, all) ==>
        StateAfter(c, all) == StateAfter(c, lines).(currentPeer := PeerSettings(c, body + [next])))
  {
    hide InterfaceKv, PeerKv, InterfaceOf, PeerSettings, Peers, AllPeers, KnownSections, Preamble, PeerBodies;
    var parts := Parts(lines);
    var body := parts[|parts| - 1].body;
    AfterSetting(c, lines, next);
    assert PeerSettings(c, body + [next]).Some? ==> PeerSettings(c, body).Some? by {
      OneMoreSetting(c, body, next);
    }
    assert InterfaceBodies(parts) == InterfaceBodies(Parts(lines + [next]));
    hide Parts, InterfaceBodies;
  }

  lemma PeerSetting(c: Codecs, lines: seq<Line>, next: Line)
    requires (next.KeyValue? || next.Malformed?) && |Parts(lines)| > 0
    requires Parts(lines)[|Parts(lines)| - 1].header.PeerHeader?
    ensures StepIsRight(c, lines, next)
  {
    hide Step, InterfaceKv, PeerKv, PeerSettings, InterfaceOf;
    AfterPeerSetting(c, lines, next);
    OneMoreSetting(c, Parts(lines)[|Parts(lines)| - 1].body, next);
    if Accepted(c, lines) {
      SettingStepped(c, StateAfter(c, lines), next);
    }
    hide Parts, Accepted, StateAfter;
  }

  lemma SettingStep(c: Codecs, lines: seq<Line>, next: Line)
    requires next.KeyValue? || next.Malformed?
    ensures StepIsRight(c, lines, next)
  {
    var parts := Parts(lines);
    LastLine(lines, next);
    hide StepIsRight;
    if |parts| == 0 {
      SettingBeforeSections(c, lines, next);
    } else if parts[|parts| - 1].header.InterfaceHeader? {
      InterfaceSetting(c, lines, next);
    } else if parts[|parts| - 1].header.PeerHeader? {
      PeerSetting(c, lines, next);
    } else {
      AfterSetting(c, lines, next);
      StrayNever(c, lines, next);
    }
  }

  lemma SettingBeforeSections(c: Codecs, lines: seq<Line>, next: Line)
    requires (next.KeyValue? || next.Malformed?) && |Parts(lines)| == 0
    ensures StepIsRight(c, lines, next)
  {
    LastLine(lines, next);
    assert Parts(lines + [next]) == Parts(lines);
    hide Parts, Preamble;
  }

  lemma StrayNever(c: Codecs, lines: seq<Line>, next: Line)
    requires (next.KeyValue? || next.Malformed?) && |Parts(lines)| > 0
    requires Parts(lines)[|Parts(lines)| - 1].header.OtherHeader?
    ensures StepIsRight(c, lines, next)
  {
    AfterSetting(c, lines, next);
    hide Parts, Preamble, KnownSections;
  }

  lemma BlankLineStep(c: Codecs, lines: seq<Line>)
    ensures StepIsRight(c, lines, Blank)
  {
    LastLine(lines, Blank);
    hide Parts, Preamble, PeerBodies, InterfaceBodies, KnownSections;
  }

  /** The machine gets through exactly the acceptable lines, and its state is what they say. */
  lemma {:induction false} MachineInStep(c: Codecs, lines: seq<Line>)
    ensures InStep(c, lines)
  {
    if |lines| > 0 {
      var n := |lines| - 1;
      var next := lines[n];
      MachineInStep(c, lines[..n]);
      assert lines == lines[..n] + [next];
      RunPush(c, START, lines[..n], next);
      if HeaderLine(next) {
        HeaderStep(c, lines[..n], next);
      } else if next.Blank? {
        BlankLineStep(c, lines[..n]);
      } else {
        SettingStep(c, lines[..n], next);
      }
      hide Accepted, StateAfter, Step, Run;
    } else {
      assert PeerBodies([]) == [];
      assert InterfaceBodies([]) == [];
    }
  }

  /** The line machine parses a text to a configuration exactly when that is what its sections say. */
  lemma ParseIsMeaning(c: Codecs, lines: seq<Line>, config: WireGuardConfig)
    ensures Parse(c, lines) == Ok(config) <==> Means(c, lines, config)
  {
    MachineInStep(c, lines);
    MeaningIsAccepted(c, lines, config);
    if Accepted(c, lines) {
      ClosePeerIsRight(c, lines);
      InterfaceAfter(c, lines);
    }
    hide Parts, Preamble, PeerBodies, InterfaceBodies, KnownSections, Peers, AllPeers, InterfaceOf, PeerSettings, Run,
         ClosePeer, StateAfter, Accepted, FinishInterface;
  }

  lemma InterfaceAfter(c: Codecs, lines: seq<Line>)
    requires Accepted(c, lines)
    ensures var (s, interfaces) := (StateAfter(c, lines), InterfaceBodies(Parts(lines)));
      && Preamble(lines) == [] && KnownSections(Parts(lines))
      && (s.seenInterface <==> |interfaces| == 1)
      && (|interfaces| == 1 ==> Some(s.iface) == InterfaceOf(c, interfaces[0]))
  {
    if |Parts(lines)| == 0 {
      assert Parts(lines) == [] && InterfaceBodies([]) == [];
    }
    hide Parts, Preamble, KnownSections, Peers, InterfaceOf, PeerSettings;
  }

  lemma MeaningIsAccepted(c: Codecs, lines: seq<Line>, config: WireGuardConfig)
    ensures Means(c, lines, config) ==> Accepted(c, lines)
  {
    AllPeersFinish(c, Parts(lines));
    hide Parts, Preamble, PeerBodies, InterfaceBodies, KnownSections, Peers, AllPeers, InterfaceOf, PeerSettings;
  }

  lemma AllPeersFinish(c: Codecs, parts: seq<Part>)
    ensures var n := |parts|; n > 0 && AllPeers(c, PeerBodies(parts)) ==>
      && AllPeers(c, PeerBodies(parts[..n - 1]))
      && (parts[n - 1].header.PeerHeader? ==> PeerSettings(c, parts[n - 1].body).Some?)
  {
    var n := |parts|;
    if n > 0 {
      var earlier := PeerBodies(parts[..n - 1]);
      MorePeers(c, earlier, parts[n - 1].body);
      assert earlier + [] == earlier;
      hide AllPeers, FinishPeer, PeerSettings;
    }
  }

  /** Where the peer headers are, counted. */
  function PeerHeaders(lines: seq<Line>): nat {
    if |lines| == 0 then 0
    else PeerHeaders(lines[..|lines| - 1]) + if lines[|lines| - 1].PeerHeader? then 1 else 0
  }

  lemma {:induction false} PeerBodiesPerHeader(lines: seq<Line>)
    ensures |PeerBodies(Parts(lines))| == PeerHeaders(lines)
  {
    if |lines| > 0 {
      var n := |lines| - 1;
      var next, parts := lines[n], Parts(lines[..n]);
      PeerBodiesPerHeader(lines[..n]);
      assert lines == lines[..n] + [next];
      LastLine(lines[..n], next);
      if HeaderLine(next) {
        LastPart(parts, Part(next, []));
      } else if !next.Blank? && |parts| > 0 {
        var last := parts[|parts| - 1];
        AllButLast(parts);
        LastPart(parts[..|parts| - 1], last);
        LastPart(parts[..|parts| - 1], last.(body := last.body + [next]));
      }
      hide Parts, PeerBodies, InterfaceBodies, KnownSections;
    } else {
      assert PeerBodies([]) == [];
    }
  }

  /** One peer per peer header, in the order of the headers, each read from the lines below its own header. */
  lemma OnePeerPerHeader(c: Codecs, lines: seq<Line>, config: WireGuardConfig)
    requires Parse(c, lines) == Ok(config)
    ensures |config.peers| == PeerHeaders(lines) == |PeerBodies(Parts(lines))|
    ensures forall i :: 0 <= i < |config.peers| ==> Some(config.peers[i]) == PeerOf(c, PeerBodies(Parts(lines))[i])
  {
    ParseIsMeaning(c, lines, config);
    PeerBodiesPerHeader(lines);
    hide Parse, Parts, PeerOf;
  }

  predicate AsWritten(line: Line) {
    line.Malformed? ==> line.error.ExpectedKeyValue? || line.error.EmptyKey? || line.error.EmptyValue?
  }

  /** Settings in a peer section always have an open peer to go to: that error cannot be reported. */
  lemma PeerSectionHasAPeer(c: Codecs, input: string)
    ensures ParseText(c, input) != Err(PeerKeyWithoutPeer)
  {
    var lines := LinesOf(Lines(WithoutBom(input)));
    forall i | 0 <= i < |lines| ensures AsWritten(lines[i]) {
    }
    RunNeverLacksAPeer(c, lines);
    hide Run, Lines, LinesOf;
  }

  lemma {:induction false} RunNeverLacksAPeer(c: Codecs, lines: seq<Line>)
    requires forall i :: 0 <= i < |lines| ==> AsWritten(lines[i])
    ensures Run(c, START, lines) != Err(PeerKeyWithoutPeer)
  {
    if |lines| > 0 {
      var n := |lines| - 1;
      var next := lines[n];
      RunNeverLacksAPeer(c, lines[..n]);
      assert lines == lines[..n] + [next];
      RunPush(c, START, lines[..n], next);
      MachineInStep(c, lines[..n]);
      if Accepted(c, lines[..n]) {
        OpenPeer(c, lines[..n]);
        StepWithAPeer(c, StateAfter(c, lines[..n]), next);
      }
      hide Run, Step, Accepted, StateAfter;
    }
  }

  lemma OpenPeer(c: Codecs, lines: seq<Line>)
    requires Accepted(c, lines)
    ensures var s := StateAfter(c, lines); s.section == Some(PeerSection) ==> s.currentPeer.Some?
  {
  }

  lemma StepWithAPeer(c: Codecs, s: State, line: Line)
    requires s.section == Some(PeerSection) ==> s.currentPeer.Some?
    requires AsWritten(line)
    ensures Step(c, s, line) != Err(PeerKeyWithoutPeer)
  {
  }
}
