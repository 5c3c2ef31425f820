/** The route planner: which network operations a configuration asks for. */
module RoutePlan {
  import opened Common
  import opened Config

  const DEFAULT_FULL_TUNNEL_FWMARK := 0x5257
  const LINUX_DEFAULT_POLICY_TABLE_ID := 200

  datatype Platform = Linux | Windows | Other

  datatype FullTunnel = FullTunnel(ipv4: bool, ipv6: bool) {
    predicate Any() {
      ipv4 || ipv6
    }

    predicate Matches(f: Family) {
      if f.Ipv4? then ipv4 else ipv6
    }
  }

  datatype RouteKind = Allowed | DnsHost
  datatype RouteOp = RouteOp(route: Cidr, tableId: Option<nat>, kind: RouteKind)
  datatype PolicyRuleOp = PolicyRuleOp(family: Family, tableId: nat, fwmark: nat)
  datatype MetricOp = MetricOp(family: Family, metric: nat)
  datatype BypassOp = BypassOp(host: Host, port: nat)

  datatype Plan = Plan(
    platform: Platform,
    requestedTable: Option<RouteTable>,
    allowedRoutes: seq<Cidr>,
    fullTunnel: FullTunnel,
    linuxPolicyTableId: Option<nat>,
    routeOps: seq<RouteOp>,
    policyRuleOps: seq<PolicyRuleOp>,
    metricOps: seq<MetricOp>,
    bypassOps: seq<BypassOp>,
    windowsPlannedBypassCount: nat)

  datatype DnsMode = FollowConfig | UseSystemDns | AutoFillMissingFamilies | OverrideAll

  /** A DNS mode with the addresses of the chosen preset. */
  datatype DnsSelection = DnsSelection(mode: DnsMode, presetV4: seq<IpAddr>, presetV6: seq<IpAddr>)

  // ---------------------------------------------------------------- normalisation

  predicate IsDefaultRoute(r: Cidr) {
    r.addr.IsUnspecified() && r.cidr == 0
  }

  predicate WantsFullTunnel(peers: seq<PeerConfig>) {
    exists i :: 0 <= i < |peers| && exists r :: r in peers[i].allowedIps && IsDefaultRoute(r)
  }

  function ApplyDnsSelection(i: InterfaceConfig, s: DnsSelection): InterfaceConfig {
    match s.mode
    case FollowConfig => i
    case UseSystemDns => i.(dnsServers := [], dnsSearch := [])
    case AutoFillMissingFamilies =>
      var hasV4 := exists ip :: ip in i.dnsServers && ip.V4?;
      var hasV6 := exists ip :: ip in i.dnsServers && ip.V6?;
      i.(dnsServers := i.dnsServers + (if hasV4 then [] else s.presetV4) + (if hasV6 then [] else s.presetV6))
    case OverrideAll => i.(dnsServers := s.presetV4 + s.presetV6, dnsSearch := [])
  }

  function NormalizeForRuntime(c: WireGuardConfig, s: DnsSelection): WireGuardConfig {
    var i := ApplyDnsSelection(c.interface, s);
    c.(interface :=
         if WantsFullTunnel(c.peers) && i.fwmark.None? then i.(fwmark := Some(DEFAULT_FULL_TUNNEL_FWMARK)) else i)
  }

  /** The allowed networks of all peers, in order of appearance. */
  function AllowedOf(peers: seq<PeerConfig>): seq<Cidr> {
    if |peers| == 0 then [] else AllowedOf(peers[..|peers| - 1]) + peers[|peers| - 1].allowedIps
  }

  /** The first occurrences of a list. */
  function FirstOccurrences(s: seq<Cidr>): seq<Cidr> {
    if |s| == 0 then []
    else
      var init, last := s[..|s| - 1], s[|s| - 1];
      if last in init then FirstOccurrences(init) else FirstOccurrences(init) + [last]
  }

  lemma {:induction false} FirstOccurrencesKeepsElements(s: seq<Cidr>)
    ensures forall x :: x in FirstOccurrences(s) <==> x in s
    ensures forall i, j :: 0 <= i < j < |FirstOccurrences(s)| ==> FirstOccurrences(s)[i] != FirstOccurrences(s)[j]
  {
    if |s| > 0 {
      FirstOccurrencesKeepsElements(s[..|s| - 1]);
      assert s == s[..|s| - 1] + [s[|s| - 1]];
    }
  }

  lemma FirstOccurrencesAppend(s: seq<Cidr>, x: Cidr)
    ensures FirstOccurrences(s + [x]) == if x in s then FirstOccurrences(s) else FirstOccurrences(s) + [x]
  {
    assert (s + [x])[..|s|] == s;
  }

  lemma AllowedOfNext(peers: seq<PeerConfig>, i: nat)
    requires i < |peers|
    ensures AllowedOf(peers[..i + 1]) == AllowedOf(peers[..i]) + peers[i].allowedIps
  {
    assert peers[..i + 1][..i] == peers[..i];
  }

  /** The networks of one peer, as far as they are new. */
  method CollectPeer(allowed: seq<Cidr>, seen0: set<Cidr>, routes0: seq<Cidr>, ghost before: seq<Cidr>)
    returns (seen: set<Cidr>, routes: seq<Cidr>)
    requires routes0 == FirstOccurrences(before) && seen0 == ToSet(before)
    ensures routes == FirstOccurrences(before + allowed) && seen == ToSet(before + allowed)
  {
    seen, routes := seen0, routes0;
    assert before + allowed[..0] == before;
    for j := 0 to |allowed|
      invariant routes == FirstOccurrences(before + allowed[..j])
      invariant seen == ToSet(before + allowed[..j])
    {
      ghost var done := before + allowed[..j];
      assert before + allowed[..j + 1] == done + [allowed[j]];
      FirstOccurrencesAppend(done, allowed[j]);
      ToSetAppend(done, allowed[j]);
      if allowed[j] !in seen {
        seen := seen + {allowed[j]};
        routes := routes + [Cidr(allowed[j].addr, allowed[j].cidr)];
      }
    }
    assert allowed[..|allowed|] == allowed;
  }

  method CollectAllowedRoutes(peers: seq<PeerConfig>) returns (routes: seq<Cidr>)
    ensures routes == FirstOccurrences(AllowedOf(peers))
  {
    var seen: set<Cidr> := {};
    routes := [];
    for i := 0 to |peers|
      invariant routes == FirstOccurrences(AllowedOf(peers[..i]))
      invariant seen == ToSet(AllowedOf(peers[..i]))
    {
      AllowedOfNext(peers, i);
      seen, routes := CollectPeer(peers[i].allowedIps, seen, routes, AllowedOf(peers[..i]));
    }
    assert peers[..|peers|] == peers;
  }

  function FullTunnelOf(routes: seq<Cidr>): FullTunnel {
    FullTunnel(exists r :: r in routes && IsDefaultRoute(r) && r.addr.V4?,
               exists r :: r in routes && IsDefaultRoute(r) && r.addr.V6?)
  }

  method DetectFullTunnel(routes: seq<Cidr>) returns (status: FullTunnel)
    ensures status == FullTunnelOf(routes)
  {
    status := FullTunnel(false, false);
    for i := 0 to |routes|
      invariant status == FullTunnelOf(routes[..i])
    {
      var route := routes[i];
      assert routes[..i + 1] == routes[..i] + [route];
      assert forall r :: r in routes[..i + 1] <==> r in routes[..i] || r == route;
      match route.addr {
        case V4(_) =>
          if route.addr.IsUnspecified() && route.cidr == 0 {
            status := status.(ipv4 := true);
          }
        case V6(_) =>
          if route.addr.IsUnspecified() && route.cidr == 0 {
            status := status.(ipv6 := true);
          }
      }
    }
    assert routes[..|routes|] == routes;
  }

  lemma {:induction false} AllowedOfElements(peers: seq<PeerConfig>, r: Cidr)
    ensures r in AllowedOf(peers) <==> exists i :: 0 <= i < |peers| && r in peers[i].allowedIps
  {
    if |peers| > 0 {
      var init := peers[..|peers| - 1];
      AllowedOfElements(init, r);
      if r in AllowedOf(init) {
        var i :| 0 <= i < |init| && r in init[i].allowedIps;
        assert r in peers[i].allowedIps;
      }
    }
  }

  /** The flag that fills in the firewall mark and the planner's detection agree. */
  lemma WantsFullTunnelIffDetected(peers: seq<PeerConfig>)
    ensures WantsFullTunnel(peers) <==> FullTunnelOf(FirstOccurrences(AllowedOf(peers))).Any()
  {
    var routes := FirstOccurrences(AllowedOf(peers));
    FirstOccurrencesKeepsElements(AllowedOf(peers));
    if WantsFullTunnel(peers) {
      var i :| 0 <= i < |peers| && exists r :: r in peers[i].allowedIps && IsDefaultRoute(r);
      var r :| r in peers[i].allowedIps && IsDefaultRoute(r);
      AllowedOfElements(peers, r);
      assert r in routes;
    }
    if FullTunnelOf(routes).Any() {
      var r :| r in routes && IsDefaultRoute(r);
      AllowedOfElements(peers, r);
    }
  }

  // ---------------------------------------------------------------- planning

  function RouteTableId(table: Option<RouteTable>): Option<nat> {
    if table.Some? && table.value.Id? then Some(table.value.id) else None
  }

  predicate TableOff(table: Option<RouteTable>) {
    table == Some(Off)
  }

  function LinuxPolicyTableId(platform: Platform, table: Option<RouteTable>, full: FullTunnel): Option<nat> {
    if !platform.Linux? || TableOff(table) || !full.Any() then None
    else if table.Some? && table.value.Id? then Some(table.value.id)
    else Some(LINUX_DEFAULT_POLICY_TABLE_ID)
  }

  function LinuxRouteTableFor(platform: Platform, table: Option<RouteTable>, policyTableId: Option<nat>,
                              full: FullTunnel, route: Cidr): Option<nat> {
    if platform.Linux? && policyTableId.Some? && full.Matches(route.addr.Family()) then policyTableId
    else RouteTableId(table)
  }

  function AllowedRouteOp(platform: Platform, table: Option<RouteTable>, policyTableId: Option<nat>,
                          full: FullTunnel, route: Cidr): RouteOp {
    RouteOp(route,
            match platform
            case Linux => LinuxRouteTableFor(platform, table, policyTableId, full, route)
            case Windows => None
            case Other => RouteTableId(table),
            Allowed)
  }

  function AllowedRouteOps(platform: Platform, table: Option<RouteTable>, policyTableId: Option<nat>,
                           full: FullTunnel, routes: seq<Cidr>): (r: seq<RouteOp>)
    ensures |r| == |routes|
  {
    seq(|routes|, i requires 0 <= i < |routes| => AllowedRouteOp(platform, table, policyTableId, full, routes[i]))
  }

  function DnsHostOp(server: IpAddr): RouteOp {
    RouteOp(Cidr(server, if server.V4? then 32 else 128), None, DnsHost)
  }

  function DnsHostOps(full: FullTunnel, servers: seq<IpAddr>): seq<RouteOp> {
    if |servers| == 0 then []
    else
      var last := servers[|servers| - 1];
      DnsHostOps(full, servers[..|servers| - 1]) + (if full.Matches(last.Family()) then [DnsHostOp(last)] else [])
  }

  method BuildRouteOps(platform: Platform, c: WireGuardConfig, routes: seq<Cidr>, full: FullTunnel,
                       policyTableId: Option<nat>)
    returns (ops: seq<RouteOp>)
    ensures ops == if TableOff(c.interface.table) then []
                   else AllowedRouteOps(platform, c.interface.table, policyTableId, full, routes)
                        + if platform.Windows? then DnsHostOps(full, c.interface.dnsServers) else []
  {
    if c.interface.table == Some(Off) {
      return [];
    }
    ops := AllowedRouteOps(platform, c.interface.table, policyTableId, full, routes);
    if platform == Windows {
      var servers := c.interface.dnsServers;
      ghost var allowed := ops;
      for i := 0 to |servers|
        invariant ops == allowed + DnsHostOps(full, servers[..i])
      {
        assert servers[..i + 1][..i] == servers[..i];
        var server := servers[i];
        var applies := (server.V4? && full.ipv4) || (server.V6? && full.ipv6);
        if applies {
          ops := ops + [DnsHostOp(server)];
        }
      }
      assert servers[..|servers|] == servers;
    }
  }

  function PolicyRuleOps(platform: Platform, i: InterfaceConfig, full: FullTunnel, policyTableId: Option<nat>)
    : seq<PolicyRuleOp>
  {
    if !platform.Linux? || TableOff(i.table) || policyTableId.None? || i.fwmark.None? then []
    else
      (if full.ipv4 then [PolicyRuleOp(Ipv4, policyTableId.value, i.fwmark.value)] else [])
      + (if full.ipv6 then [PolicyRuleOp(Ipv6, policyTableId.value, i.fwmark.value)] else [])
  }

  function MetricOps(platform: Platform, i: InterfaceConfig, full: FullTunnel): seq<MetricOp> {
    if !platform.Windows? || TableOff(i.table) then []
    else (if full.ipv4 then [MetricOp(Ipv4, 0)] else []) + (if full.ipv6 then [MetricOp(Ipv6, 0)] else [])
  }

  /** Whether a peer's endpoint needs a route around the tunnel. */
  predicate NeedsBypass(full: FullTunnel, peer: PeerConfig) {
    peer.endpoint.Some? &&
    match peer.endpoint.value.host.ip
    case Some(ip) => full.Matches(ip.Family())
    case None => full.Any()
  }

  function BypassOps(full: FullTunnel, peers: seq<PeerConfig>): seq<BypassOp> {
    if |peers| == 0 then []
    else
      var last := peers[|peers| - 1];
      BypassOps(full, peers[..|peers| - 1])
      + if NeedsBypass(full, last) then [BypassOp(last.endpoint.value.host, last.endpoint.value.port)] else []
  }

  method BuildBypassOps(platform: Platform, c: WireGuardConfig, full: FullTunnel) returns (ops: seq<BypassOp>)
    ensures ops == if !platform.Windows? || TableOff(c.interface.table) then [] else BypassOps(full, c.peers)
  {
    if platform != Windows || c.interface.table == Some(Off) || !full.Any() {
      if platform.Windows? && !TableOff(c.interface.table) {
        NoBypassWithoutFullTunnel(full, c.peers);
      }
      return [];
    }
    ops := [];
    for i := 0 to |c.peers|
      invariant ops == BypassOps(full, c.peers[..i])
    {
      assert c.peers[..i + 1][..i] == c.peers[..i];
      var peer := c.peers[i];
      if peer.endpoint.None? {
        continue;
      }
      var endpoint := peer.endpoint.value;
      match endpoint.host.ip {
        case Some(V4(_)) =>
          if full.ipv4 {
            ops := ops + [BypassOp(endpoint.host, endpoint.port)];
          }
        case Some(V6(_)) =>
          if full.ipv6 {
            ops := ops + [BypassOp(endpoint.host, endpoint.port)];
          }
        case None =>
          if full.Any() {
            ops := ops + [BypassOp(endpoint.host, endpoint.port)];
          }
      }
    }
    assert c.peers[..|c.peers|] == c.peers;
  }

  lemma {:induction false} NoBypassWithoutFullTunnel(full: FullTunnel, peers: seq<PeerConfig>)
    requires !full.Any()
    ensures BypassOps(full, peers) == []
  {
    if |peers| > 0 {
      NoBypassWithoutFullTunnel(full, peers[..|peers| - 1]);
    }
  }

  method WindowsPlannedBypassCount(platform: Platform, peers: seq<PeerConfig>, full: FullTunnel) returns (count: nat)
    ensures count == if platform.Windows? then |BypassOps(full, peers)| else 0
  {
    if platform != Windows || !full.Any() {
      if platform.Windows? {
        NoBypassWithoutFullTunnel(full, peers);
      }
      return 0;
    }
    count := 0;
    for i := 0 to |peers|
      invariant count == |BypassOps(full, peers[..i])|
    {
      assert peers[..i + 1][..i] == peers[..i];
      var peer := peers[i];
      if peer.endpoint.None? {
        continue;
      }
      match peer.endpoint.value.host.ip {
        case Some(V4(_)) =>
          if full.ipv4 {
            count := count + 1;
          }
        case Some(V6(_)) =>
          if full.ipv6 {
            count := count + 1;
          }
        case None =>
          if full.Any() {
            count := count + 1;
          }
      }
    }
    assert peers[..|peers|] == peers;
  }

  /** The plan of a configuration. */
  function PlanOf(platform: Platform, c: WireGuardConfig): Plan {
    var i := c.interface;
    var routes := FirstOccurrences(AllowedOf(c.peers));
    var full := FullTunnelOf(routes);
    var policy := LinuxPolicyTableId(platform, i.table, full);
    var bypass := if !platform.Windows? || TableOff(i.table) then [] else BypassOps(full, c.peers);
    Plan(platform, i.table, routes, full, policy,
         if TableOff(i.table) then []
         else AllowedRouteOps(platform, i.table, policy, full, routes)
              + if platform.Windows? then DnsHostOps(full, i.dnsServers) else [],
         PolicyRuleOps(platform, i, full, policy), MetricOps(platform, i, full), bypass, |bypass|)
  }

  method Build(platform: Platform, c: WireGuardConfig) returns (plan: Plan)
    ensures plan == PlanOf(platform, c)
  {
    var routes := CollectAllowedRoutes(c.peers);
    var full := DetectFullTunnel(routes);
    var policy := LinuxPolicyTableId(platform, c.interface.table, full);
    var routeOps := BuildRouteOps(platform, c, routes, full, policy);
    var policyRuleOps := PolicyRuleOps(platform, c.interface, full, policy);
    var metricOps := MetricOps(platform, c.interface, full);
    var bypassOps := BuildBypassOps(platform, c, full);
    plan := Plan(platform, c.interface.table, routes, full, policy, routeOps, policyRuleOps, metricOps, bypassOps,
                 |bypassOps|);
  }

  // ---------------------------------------------------------------- what a plan guarantees

  /** The rules of one family. */
  function RulesOf(ops: seq<PolicyRuleOp>, f: Family): seq<PolicyRuleOp> {
    if |ops| == 0 then []
    else (if ops[0].family == f then [ops[0]] else []) + RulesOf(ops[1..], f)
  }

  /** One rule per full-tunnel family, and the family's allowed routes all in that rule's table. */
  ghost predicate LinuxComplete(plan: Plan) {
    forall f: Family ::
      if plan.fullTunnel.Matches(f) then
        && |RulesOf(plan.policyRuleOps, f)| == 1
        && |plan.routeOps| == |plan.allowedRoutes|
        && forall i :: 0 <= i < |plan.allowedRoutes| ==>
             && plan.routeOps[i].route == plan.allowedRoutes[i]
             && (plan.allowedRoutes[i].addr.Family() == f ==>
                   plan.routeOps[i].tableId == Some(RulesOf(plan.policyRuleOps, f)[0].tableId))
      else
        RulesOf(plan.policyRuleOps, f) == []
  }

  lemma RulesOfPlan(i: InterfaceConfig, full: FullTunnel, table: Option<nat>, f: Family)
    ensures RulesOf(PolicyRuleOps(Linux, i, full, table), f) ==
            if TableOff(i.table) || table.None? || i.fwmark.None? || !full.Matches(f) then []
            else [PolicyRuleOp(f, table.value, i.fwmark.value)]
  {
    var ops := PolicyRuleOps(Linux, i, full, table);
    if |ops| == 1 {
      assert ops[1..] == [];
    } else if |ops| == 2 {
      assert ops[1..] == [ops[1]] && ops[1..][1..] == [];
      assert RulesOf(ops[1..], f) == if ops[1].family == f then [ops[1]] else [];
    }
  }

  /** Unless routing is off, a Linux plan is complete exactly when full tunnelling comes with a firewall mark. */
  lemma LinuxPlanCompleteIff(c: WireGuardConfig)
    requires !TableOff(c.interface.table)
    ensures LinuxComplete(PlanOf(Linux, c)) <==> (WantsFullTunnel(c.peers) ==> c.interface.fwmark.Some?)
  {
    hide RulesOf, PolicyRuleOps, FullTunnelOf, WantsFullTunnel, AllowedOf, FirstOccurrences, DnsHostOps, BypassOps,
         MetricOps;
    var plan := PlanOf(Linux, c);
    WantsFullTunnelIffDetected(c.peers);
    forall f: Family {
      RulesOfPlan(c.interface, plan.fullTunnel, plan.linuxPolicyTableId, f);
    }
    if plan.fullTunnel.Any() && c.interface.fwmark.None? {
      var f := if plan.fullTunnel.ipv4 then Ipv4 else Ipv6;
      assert RulesOf(plan.policyRuleOps, f) == [];
    }
  }

  /** Normalising for runtime is what makes every Linux plan complete. */
  lemma NormalizedLinuxPlanIsComplete(c: WireGuardConfig, s: DnsSelection)
    requires !TableOff(c.interface.table)
    ensures LinuxComplete(PlanOf(Linux, NormalizeForRuntime(c, s)))
  {
    LinuxPlanCompleteIff(NormalizeForRuntime(c, s));
  }

  /** The pipeline's own view of the full-tunnel families, read back from the metric operations. */
  predicate HasMetricFor(ops: seq<MetricOp>, f: Family) {
    exists op :: op in ops && op.family == f
  }

  lemma WindowsMetricOpsMirrorFullTunnel(c: WireGuardConfig, f: Family)
    ensures var plan := PlanOf(Windows, c);
      && (HasMetricFor(plan.metricOps, f) <==> plan.fullTunnel.Matches(f) && !TableOff(c.interface.table))
      && (forall i, j :: 0 <= i < j < |plan.metricOps| ==> plan.metricOps[i].family != plan.metricOps[j].family)
  {
    var plan := PlanOf(Windows, c);
    if plan.fullTunnel.Matches(f) && !TableOff(c.interface.table) {
      assert MetricOp(f, 0) in plan.metricOps;
    }
  }

  /**
   * The bypass count for a peer list is the number of bypass operations exactly when routing is on or
   * no peer needs a bypass: the count ignores `Table = off`.
   */
  lemma BypassCountAgreesIff(c: WireGuardConfig)
    ensures var plan := PlanOf(Windows, c);
      |BypassOps(plan.fullTunnel, c.peers)| == |plan.bypassOps|
      <==> !TableOff(c.interface.table) || forall p :: p in c.peers ==> !NeedsBypass(plan.fullTunnel, p)
  {
    BypassOpsEmptyIff(PlanOf(Windows, c).fullTunnel, c.peers);
  }

  lemma {:induction false} BypassOpsEmptyIff(full: FullTunnel, peers: seq<PeerConfig>)
    ensures BypassOps(full, peers) == [] <==> forall p :: p in peers ==> !NeedsBypass(full, p)
  {
    if |peers| > 0 {
      var init, last := peers[..|peers| - 1], peers[|peers| - 1];
      BypassOpsEmptyIff(full, init);
      assert peers == init + [last];
    }
  }

  /** Every full-tunnel DNS server gets a host route on Windows, after the allowed routes. */
  lemma {:induction false} DnsHostRoutes(full: FullTunnel, servers: seq<IpAddr>, server: IpAddr)
    ensures DnsHostOp(server) in DnsHostOps(full, servers) <==> server in servers && full.Matches(server.Family())
  {
    if |servers| > 0 {
      DnsHostRoutes(full, servers[..|servers| - 1], server);
    }
  }

  // ---------------------------------------------------------------- a plan, read from the configuration

  function Where<T>(keep: T -> bool, s: seq<T>): seq<T> {
    if |s| == 0 then []
    else Where(keep, s[..|s| - 1]) + if keep(s[|s| - 1]) then [s[|s| - 1]] else []
  }

  /** Some peer may send to every address of the family. */
  predicate TakesAll(peers: seq<PeerConfig>, everything: Cidr) {
    exists i :: 0 <= i < |peers| && everything in peers[i].allowedIps
  }

  const EVERYTHING_V4 := Cidr(V4("0.0.0.0"), 0)
  const EVERYTHING_V6 := Cidr(V6("::"), 0)

  /** The first `x` of `s` comes before any `y`. */
  predicate ComesFirst(s: seq<Cidr>, x: Cidr, y: Cidr) {
    exists k :: 0 <= k < |s| && s[k] == x && y !in s[..k + 1]
  }

  lemma {:induction false} FirstPlace(s: seq<Cidr>, i: nat, j: nat)
    requires i < j < |FirstOccurrences(s)|
    ensures ComesFirst(s, FirstOccurrences(s)[i], FirstOccurrences(s)[j])
  {
    var init, last := s[..|s| - 1], s[|s| - 1];
    FirstOccurrencesKeepsElements(s);
    FirstOccurrencesKeepsElements(init);
    var k;
    if j < |FirstOccurrences(init)| {
      FirstPlace(init, i, j);
      k :| 0 <= k < |init| && init[k] == FirstOccurrences(init)[i] && FirstOccurrences(init)[j] !in init[..k + 1];
    } else {
      assert FirstOccurrences(init)[i] in init;
      k :| 0 <= k < |init| && init[k] == FirstOccurrences(init)[i];
    }
    assert s[..k + 1] == init[..k + 1];
  }

  /** The allowed routes of a plan are those of the peers, each once, in the order in which they first appear. */
  lemma AllowedRoutesInOrder(platform: Platform, c: WireGuardConfig)
    ensures var routes := PlanOf(platform, c).allowedRoutes;
      && (forall r :: r in routes <==> exists i :: 0 <= i < |c.peers| && r in c.peers[i].allowedIps)
      && forall i, j :: 0 <= i < j < |routes| ==> ComesFirst(AllowedOf(c.peers), routes[i], routes[j])
  {
    var all := AllowedOf(c.peers);
    var routes := FirstOccurrences(all);
    FirstOccurrencesKeepsElements(all);
    forall r ensures r in routes <==> exists i :: 0 <= i < |c.peers| && r in c.peers[i].allowedIps {
      AllowedOfElements(c.peers, r);
    }
    forall i, j | 0 <= i < j < |routes| ensures ComesFirst(all, routes[i], routes[j]) {
      FirstPlace(all, i, j);
    }
    assert PlanOf(platform, c).allowedRoutes == routes;
    hide FirstOccurrences, AllowedOf, ComesFirst, PlanOf;
  }

  lemma FullTunnelIs(peers: seq<PeerConfig>)
    ensures FullTunnelOf(FirstOccurrences(AllowedOf(peers))) ==
      FullTunnel(TakesAll(peers, EVERYTHING_V4), TakesAll(peers, EVERYTHING_V6))
  {
    FirstOccurrencesKeepsElements(AllowedOf(peers));
    AllowedOfElements(peers, EVERYTHING_V4);
    AllowedOfElements(peers, EVERYTHING_V6);
    assert forall r: Cidr :: IsDefaultRoute(r) && r.addr.V4? <==> r == EVERYTHING_V4;
    assert forall r: Cidr :: IsDefaultRoute(r) && r.addr.V6? <==> r == EVERYTHING_V6;
  }

  /** A peer whose traffic the tunnel would swallow: its endpoint's family is, or may be, taken over. */
  predicate IsSwallowed(v4: bool, v6: bool, p: PeerConfig) {
    match p.endpoint
    case None => false
    case Some(endpoint) =>
      match endpoint.host.ip
      case None => v4 || v6
      case Some(V4(_)) => v4
      case Some(V6(_)) => v6
  }

  function EndpointOp(p: PeerConfig): BypassOp {
    if p.endpoint.Some? then BypassOp(p.endpoint.value.host, p.endpoint.value.port)
    else BypassOp(Config.Host("", None), 0)
  }

  lemma {:induction false} BypassOpsAre(v4: bool, v6: bool, peers: seq<PeerConfig>)
    ensures BypassOps(FullTunnel(v4, v6), peers) ==
      Map((p: PeerConfig) => EndpointOp(p), Where((p: PeerConfig) => IsSwallowed(v4, v6, p), peers))
  {
    if |peers| > 0 {
      BypassOpsAre(v4, v6, peers[..|peers| - 1]);
    }
  }

  lemma {:induction false} DnsHostOpsAre(v4: bool, v6: bool, servers: seq<IpAddr>)
    ensures DnsHostOps(FullTunnel(v4, v6), servers) ==
      Map((ip: IpAddr) => RouteOp(Cidr(ip, if ip.V4? then 32 else 128), None, DnsHost),
          Where((ip: IpAddr) => if ip.V4? then v4 else v6, servers))
  {
    if |servers| > 0 {
      DnsHostOpsAre(v4, v6, servers[..|servers| - 1]);
    }
  }

  /** The operations per family that a full tunnel asks for. */
  function PerFamily<T>(v4: bool, v6: bool, op4: T, op6: T): seq<T> {
    (if v4 then [op4] else []) + (if v6 then [op6] else [])
  }

  /**
   * On Windows: the allowed routes on the adapter, host routes to the DNS servers and metric 0 for each family that
   * is taken over, and a bypass for each endpoint that would be swallowed; nothing when routing is off.
   */
  lemma PlanOnWindows(c: WireGuardConfig)
    ensures var plan := PlanOf(Windows, c);
      var (v4, v6) := (TakesAll(c.peers, EVERYTHING_V4), TakesAll(c.peers, EVERYTHING_V6));
      && plan.fullTunnel == FullTunnel(v4, v6) && plan.requestedTable == c.interface.table
      && plan.policyRuleOps == [] && plan.linuxPolicyTableId == None
      && plan.windowsPlannedBypassCount == |plan.bypassOps|
      && if c.interface.table == Some(Off) then
           plan.routeOps == [] && plan.metricOps == [] && plan.bypassOps == []
         else
           && plan.routeOps ==
             Map((r: Cidr) => RouteOp(r, None, Allowed), plan.allowedRoutes)
             + Map((ip: IpAddr) => RouteOp(Cidr(ip, if ip.V4? then 32 else 128), None, DnsHost),
                   Where((ip: IpAddr) => if ip.V4? then v4 else v6, c.interface.dnsServers))
           && plan.metricOps == PerFamily(v4, v6, MetricOp(Ipv4, 0), MetricOp(Ipv6, 0))
           && plan.bypassOps ==
             Map((p: PeerConfig) => EndpointOp(p), Where((p: PeerConfig) => IsSwallowed(v4, v6, p), c.peers))
  {
    var v4, v6 := TakesAll(c.peers, EVERYTHING_V4), TakesAll(c.peers, EVERYTHING_V6);
    FullTunnelIs(c.peers);
    DnsHostOpsAre(v4, v6, c.interface.dnsServers);
    BypassOpsAre(v4, v6, c.peers);
    var plan := PlanOf(Windows, c);
    assert AllowedRouteOps(Windows, c.interface.table, None, plan.fullTunnel, plan.allowedRoutes) ==
      Map((r: Cidr) => RouteOp(r, None, Allowed), plan.allowedRoutes);
    hide FirstOccurrences, AllowedOf, FullTunnelOf, TakesAll, DnsHostOps, BypassOps, Where, IsSwallowed, EndpointOp;
  }

  /** The table that routes of a full tunnel go to on Linux: the one asked for, or the default. */
  function PolicyTable(c: WireGuardConfig): nat {
    match c.interface.table
    case Some(Id(id)) => id
    case _ => LINUX_DEFAULT_POLICY_TABLE_ID
  }

  /** The table a route goes to on Linux, where the families `v4` and `v6` are taken over. */
  function TableFor(c: WireGuardConfig, v4: bool, v6: bool, r: Cidr): Option<nat> {
    if (if r.addr.V4? then v4 else v6) then Some(PolicyTable(c))
    else
      match c.interface.table
      case Some(Id(id)) => Some(id)
      case _ => None
  }

  /**
   * On Linux: each allowed route in the table of its family, and a rule that sends marked traffic around that table
   * for each family that is taken over; nothing when routing is off.
   */
  lemma PlanOnLinux(c: WireGuardConfig)
    ensures var plan := PlanOf(Linux, c);
      var (v4, v6) := (TakesAll(c.peers, EVERYTHING_V4), TakesAll(c.peers, EVERYTHING_V6));
      && plan.fullTunnel == FullTunnel(v4, v6) && plan.requestedTable == c.interface.table
      && plan.linuxPolicyTableId ==
        (if c.interface.table != Some(Off) && (v4 || v6) then Some(PolicyTable(c)) else None)
      && plan.metricOps == [] && plan.bypassOps == [] && plan.windowsPlannedBypassCount == 0
      && if c.interface.table == Some(Off) then plan.routeOps == [] && plan.policyRuleOps == []
         else
           && plan.routeOps == Map((r: Cidr) => RouteOp(r, TableFor(c, v4, v6, r), Allowed), plan.allowedRoutes)
           && plan.policyRuleOps ==
             match c.interface.fwmark
             case None => []
             case Some(mark) =>
               PerFamily(v4, v6, PolicyRuleOp(Ipv4, PolicyTable(c), mark), PolicyRuleOp(Ipv6, PolicyTable(c), mark))
  {
    var v4, v6 := TakesAll(c.peers, EVERYTHING_V4), TakesAll(c.peers, EVERYTHING_V6);
    FullTunnelIs(c.peers);
    hide FirstOccurrences, AllowedOf, FullTunnelOf, TakesAll;
    var plan := PlanOf(Linux, c);
    if c.interface.table != Some(Off) {
      assert plan.routeOps == Map((r: Cidr) => RouteOp(r, TableFor(c, v4, v6, r), Allowed), plan.allowedRoutes);
    }
  }

  /** On other systems the allowed routes are all there is, in the table asked for. */
  lemma PlanElsewhere(c: WireGuardConfig)
    ensures var plan := PlanOf(Other, c);
      && plan.metricOps == [] && plan.bypassOps == [] && plan.policyRuleOps == []
      && plan.routeOps ==
        if c.interface.table == Some(Off) then []
        else Map((r: Cidr) => RouteOp(r, if c.interface.table.Some? && c.interface.table.value.Id?
                                         then Some(c.interface.table.value.id) else None, Allowed), plan.allowedRoutes)
  {
    hide FirstOccurrences, AllowedOf, FullTunnelOf;
    var plan := PlanOf(Other, c);
    if c.interface.table != Some(Off) {
      assert plan.routeOps ==
        Map((r: Cidr) => RouteOp(r, if c.interface.table.Some? && c.interface.table.value.Id?
                                    then Some(c.interface.table.value.id) else None, Allowed), plan.allowedRoutes);
    }
  }

  // ---------------------------------------------------------------- item ids

  function ItemId(prefix: string, suffix: string): string {
    prefix + ":" + Lower(suffix)
  }

  function RouteText(r: Cidr): string {
    r.addr.text + "/" + Decimal(r.cidr)
  }

  function RouteItemId(op: RouteOp): string {
    if op.kind.Allowed? then ItemId("allowed", RouteText(op.route)) else ItemId("dns-route", op.route.addr.text)
  }

  function MetricItemId(op: MetricOp): string {
    if op.family.Ipv4? then "metric-v4" else "metric-v6"
  }

  function BypassItemId(op: BypassOp): string {
    ItemId(if op.host.ip.Some? then "bypass" else "bypass-pending", op.host.text + ":" + Decimal(op.port))
  }
}
