/** The values that the route code passes around: addresses, prefixes, routes,
    snapshots (src/EasyTierHost.Abstractions/Models.cs). Addresses and prefixes are
    held by value, so the text "1.1.1.1/32" is `Prefix(0x0101_0101, 32)`. */
module Addresses {

  type Ipv4 = n: int | 0 <= n < 0x1_0000_0000
  type PrefixLength = n: int | 0 <= n <= 32

  datatype IpAddress = V4(number: Ipv4) | V6(bits: nat)

  datatype Prefix = Prefix(address: Ipv4, length: PrefixLength)

  /** Two routes are the same when these four fields agree; the owner tag of the
      source takes no part in identity. */
  datatype RouteEntry = RouteEntry(destination: Prefix, nextHop: Ipv4, interfaceIndex: int, metric: int)

  datatype GatewayState =
    | PhysicalOnly | Capturing | UnderlayProtected | Probing | GatewayActive | RollingBack | Faulted

  /** The physical side of a route snapshot. */
  datatype Physical = Physical(interfaceIndex: int, ipv4: Ipv4, gateway: Ipv4)

  datatype GatewayContext = GatewayContext(
    overlayInterfaceIndex: int,
    overlayIp: IpAddress,
    endpoints: seq<IpAddress>,
    underlayProtectionVerified: bool)

  const OVERLAY_GATEWAY: Ipv4 := 0x0a0a_0001
  const DHCP_START: Ipv4 := 0x0a0a_000b
  const DHCP_END: Ipv4 := 0x0a0a_fffe
  const ANY: Ipv4 := 0

  predicate IsOverlay(ip: IpAddress) {
    ip.V4? && ip.number / 0x1_0000 == 0x0a0a
  }

  predicate IsClient(ip: IpAddress) {
    IsOverlay(ip) && DHCP_START <= ip.number <= DHCP_END
  }

  predicate IsLoopback(ip: IpAddress) {
    match ip
    case V4(n) => n / 0x100_0000 == 127
    case V6(bits) => bits == 1
  }

  /** A unicast IPv4 address outside the overlay: what the planner accepts as underlay. */
  predicate IsUnderlay(ip: IpAddress) {
    ip.V4? && !IsOverlay(ip) && !IsLoopback(ip) && 0 < ip.number / 0x100_0000 < 224
  }

  /** Underlay is 1.0.0.0 to 223.255.255.255 without 10.10.0.0/16 and 127.0.0.0/8. */
  lemma UnderlayIsRange(ip: IpAddress)
    ensures IsUnderlay(ip) <==>
              && ip.V4? && 0x0100_0000 <= ip.number < 0xe000_0000
              && !(0x0a0a_0000 <= ip.number <= 0x0a0a_ffff) && !(0x7f00_0000 <= ip.number <= 0x7fff_ffff)
  {
  }

  /** Clients are 10.10.0.11 to 10.10.255.254. */
  lemma ClientIsRange(ip: IpAddress)
    ensures IsClient(ip) <==> ip.V4? && 0x0a0a_000b <= ip.number <= 0x0a0a_fffe
  {
  }
}
