/** The parsed WireGuard configuration. */
module Config {
  import opened Common

  datatype Key = Key(bytes: seq<nat>)

  datatype RouteTable = Auto | Off | Id(id: nat)

  /** A host as written in an endpoint, with the address it parses to when it is an address literal. */
  datatype Host = Host(text: string, ip: Option<IpAddr>)

  datatype Endpoint = Endpoint(host: Host, port: nat)

  datatype InterfaceConfig = InterfaceConfig(
    privateKey: Key,
    listenPort: Option<nat>,
    fwmark: Option<nat>,
    addresses: seq<Cidr>,
    dnsServers: seq<IpAddr>,
    dnsSearch: seq<string>,
    mtu: Option<nat>,
    table: Option<RouteTable>)

  datatype PeerConfig = PeerConfig(
    publicKey: Key,
    presharedKey: Option<Key>,
    allowedIps: seq<Cidr>,
    endpoint: Option<Endpoint>,
    persistentKeepalive: Option<nat>)

  datatype WireGuardConfig = WireGuardConfig(interface: InterfaceConfig, peers: seq<PeerConfig>)

  /** What a WireGuard device is configured with: endpoints are resolved by then. */
  datatype SocketAddr = SocketAddr(ip: IpAddr, port: nat)

  datatype DevicePeer = DevicePeer(
    publicKey: Key,
    presharedKey: Option<Key>,
    allowedIps: seq<Cidr>,
    endpoint: Option<SocketAddr>,
    keepalive: Option<nat>)

  datatype DeviceSettings = DeviceSettings(
    privateKey: Key,
    listenPort: Option<nat>,
    fwmark: Option<nat>,
    peers: seq<DevicePeer>)

  /** Another key and one other peer; port and mark stay. */
  function Upgraded(settings: DeviceSettings, key: Key, peer: DevicePeer): DeviceSettings {
    settings.(privateKey := key, peers := [peer])
  }
}
