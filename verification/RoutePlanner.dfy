/** The route plan (src/EasyTierHost.Network/RoutePlanner.cs) and its meaning under
    longest-prefix match (section 5.2.4.3 of RFC 1812). */
module RoutePlanner {
  import opened Options
  import opened Addresses

  // ---------------------------------------------------------------- the plan

  /** First occurrences only, in order (LINQ `Distinct`). */
  function Distinct(ips: seq<IpAddress>): (r: seq<IpAddress>)
    ensures forall ip :: ip in r <==> ip in ips
    ensures forall i, j :: 0 <= i < j < |r| ==> r[i] != r[j]
  {
    if ips == [] then []
    else
      var init := Distinct(ips[..|ips| - 1]);
      var last := ips[|ips| - 1];
      assert ips == ips[..|ips| - 1] + [last];
      if last in init then init else init + [last]
  }

  function ProtectOne(physical: Physical, ip: IpAddress): RouteEntry
    requires ip.V4?
  {
    RouteEntry(
      Prefix(ip.number, 32),
      if ip.number == physical.gateway then ANY else physical.gateway,
      physical.interfaceIndex,
      1)
  }

  function ProtectAll(physical: Physical, ips: seq<IpAddress>): (r: Option<seq<RouteEntry>>)
    ensures r.Some? <==> forall ip :: ip in ips ==> IsUnderlay(ip)
    ensures r.Some? ==> |r.value| == |ips|
                        && forall i :: 0 <= i < |ips| ==> ips[i].V4? && r.value[i] == ProtectOne(physical, ips[i])
  {
    if ips == [] then Some([])
    else
      var init := ProtectAll(physical, ips[..|ips| - 1]);
      var last := ips[|ips| - 1];
      assert ips == ips[..|ips| - 1] + [last];
      if init.None? || !IsUnderlay(last) then None
      else Some(init.value + [ProtectOne(physical, last)])
  }

  /** The /32 routes that keep underlay traffic on the physical interface; `None` is
      the ETH003 exception for an endpoint that is not underlay. */
  function Protect(physical: Physical, endpoints: seq<IpAddress>): Option<seq<RouteEntry>> {
    ProtectAll(physical, Distinct(endpoints + [V4(physical.gateway)]))
  }

  const PROBE_TARGETS: seq<Ipv4> := [0x0101_0101, 0x0808_0808]

  function Probe(context: GatewayContext): seq<RouteEntry> {
    [RouteEntry(Prefix(0x0101_0101, 32), OVERLAY_GATEWAY, context.overlayInterfaceIndex, 1),
     RouteEntry(Prefix(0x0808_0808, 32), OVERLAY_GATEWAY, context.overlayInterfaceIndex, 1)]
  }

  function Default(context: GatewayContext): seq<RouteEntry> {
    [RouteEntry(Prefix(0, 1), OVERLAY_GATEWAY, context.overlayInterfaceIndex, 1),
     RouteEntry(Prefix(0x8000_0000, 1), OVERLAY_GATEWAY, context.overlayInterfaceIndex, 1)]
  }

  /** What a successful plan holds, stated on addresses: accepted exactly for underlay
      endpoints behind an underlay gateway; one /32 for each endpoint and for the
      gateway and nothing else; each on the physical interface; no two for one
      destination; and only the gateway's own route is on-link. */
  lemma ProtectIsExact(physical: Physical, endpoints: seq<IpAddress>)
    ensures var r := Protect(physical, endpoints);
            && (r.Some? <==> IsUnderlay(V4(physical.gateway)) && forall ip :: ip in endpoints ==> IsUnderlay(ip))
            && (r.Some? ==>
                  && (forall n: Ipv4 :: (exists q :: q in r.value && q.destination == Prefix(n, 32))
                        <==> n == physical.gateway || V4(n) in endpoints)
                  && (forall q :: q in r.value ==>
                        && q.destination.length == 32 && q.interfaceIndex == physical.interfaceIndex && q.metric == 1
                        && q.nextHop == (if q.destination.address == physical.gateway then 0 else physical.gateway))
                  && (forall i, j :: 0 <= i < j < |r.value| ==> r.value[i].destination != r.value[j].destination))
  {
    hide Distinct, ProtectAll;
    var gateway := V4(physical.gateway);
    var ips := Distinct(endpoints + [gateway]);
    assert forall ip :: ip in ips <==> ip in endpoints || ip == gateway;
    var r := ProtectAll(physical, ips);
    if r.Some? {
      forall n: Ipv4
        ensures (exists q :: q in r.value && q.destination == Prefix(n, 32)) <==> V4(n) in ips
      {
        ProtectsOne(physical, ips, n);
      }
    }
  }

  lemma ProtectsOne(physical: Physical, ips: seq<IpAddress>, n: Ipv4)
    requires ProtectAll(physical, ips).Some?
    ensures (exists q :: q in ProtectAll(physical, ips).value && q.destination == Prefix(n, 32)) <==> V4(n) in ips
  {
    hide ProtectAll;
    var r := ProtectAll(physical, ips).value;
    if V4(n) in ips {
      var i :| 0 <= i < |ips| && ips[i] == V4(n);
      assert r[i] in r && r[i].destination == Prefix(n, 32);
    }
    if q :| q in r && q.destination == Prefix(n, 32) {
      var i :| 0 <= i < |r| && r[i] == q;
      assert ips[i] == V4(n);
    }
  }

  // ---------------------------------------------------- longest-prefix match

  function Pow2(n: nat): (p: nat)
    ensures p > 0
  {
    if n == 0 then 1 else 2 * Pow2(n - 1)
  }

  /** The leading `length` bits of the address agree with the prefix. */
  predicate Covers(p: Prefix, ip: Ipv4) {
    ip / Pow2(32 - p.length) == p.address / Pow2(32 - p.length)
  }

  /** `r` is a best route for `ip`: it covers it, no covering route is longer, and among
      those equally long none has a smaller metric. */
  ghost predicate Chosen(table: set<RouteEntry>, ip: Ipv4, r: RouteEntry) {
    && r in table
    && Covers(r.destination, ip)
    && forall q :: q in table && Covers(q.destination, ip) ==>
         || q.destination.length < r.destination.length
         || (q.destination.length == r.destination.length && r.metric <= q.metric)
  }

  predicate Better(a: RouteEntry, b: RouteEntry) {
    || a.destination.length > b.destination.length
    || (a.destination.length == b.destination.length && a.metric <= b.metric)
  }

  /** A finite table with some covering route has a best one. */
  lemma {:induction false} ChosenExists(table: set<RouteEntry>, ip: Ipv4, start: RouteEntry)
    requires start in table && Covers(start.destination, ip)
    ensures exists r :: Chosen(table, ip, r)
    decreases |table|
  {
    var rest := table - {start};
    if q :| q in rest && Covers(q.destination, ip) {
      ChosenExists(rest, ip, q);
      var r :| Chosen(rest, ip, r);
      if Better(start, r) {
        assert Chosen(table, ip, start);
      } else {
        assert Chosen(table, ip, r);
      }
    } else {
      assert forall q :: q in table && Covers(q.destination, ip) ==> q == start || q in rest;
      assert Chosen(table, ip, start);
    }
  }

  lemma Pow2Values()
    ensures Pow2(0) == 1 && Pow2(31) == 0x8000_0000 && Pow2(32) == 0x1_0000_0000
  {
    assert Pow2(8) == 256;
    assert Pow2(16) == 65536;
    assert Pow2(24) == 16777216;
    assert Pow2(31) == 128 * Pow2(24);
  }

  /** No other route of the table is for the destination of `r`. */
  ghost predicate Exclusive(table: set<RouteEntry>, r: RouteEntry) {
    r in table && forall q :: q in table && q.destination == r.destination ==> q == r
  }

  function AsSet(s: seq<RouteEntry>): set<RouteEntry> {
    set r | r in s
  }

  /** The routes an active gateway owns. */
  function Plan(physical: Physical, context: GatewayContext): Option<seq<RouteEntry>> {
    match Protect(physical, context.endpoints)
    case None => None
    case Some(p) => Some(p + Default(context))
  }

  /** Lookup of a protected address yields its own /32 and nothing else. */
  lemma HostRouteWins(table: set<RouteEntry>, ip: Ipv4, mine: RouteEntry, r: RouteEntry)
    requires mine.destination == Prefix(ip, 32) && Exclusive(table, mine) && Chosen(table, ip, r)
    ensures r == mine
  {
    Pow2Values();
    assert Covers(mine.destination, ip);
    assert r.destination.length == 32;
    assert r.destination.address == ip by { assert Pow2(0) == 1; }
    assert r.destination == mine.destination;
  }

  /** Every address is covered by one half of the split default. */
  lemma SplitDefaultCovers(context: GatewayContext, ip: Ipv4)
    ensures exists d :: d in Default(context) && Covers(d.destination, ip)
  {
    Pow2Values();
    var d := Default(context)[if ip < 0x8000_0000 then 0 else 1];
    assert d in Default(context) && Covers(d.destination, ip);
  }

  /** The meaning of the plan. With the planned routes in the table and no foreign route
      for the same destinations: an endpoint is reached through the physical gateway on
      the physical interface; the gateway itself is on-link there; every other address
      has a best route, which is either one half of the split default or a foreign route
      strictly more specific than any /0. */
  lemma PlanMeaning(table: set<RouteEntry>, physical: Physical, context: GatewayContext, ip: Ipv4)
    requires Plan(physical, context).Some?
    requires forall r :: r in Plan(physical, context).value ==> Exclusive(table, r)
    ensures RoutedAt(table, physical, context, ip)
  {
    hide Chosen, Plan, Exclusive, RoutedBy, Covers;
    SplitDefaultCovers(context, ip);
    var d :| d in Default(context) && Covers(d.destination, ip);
    PlannedIsThere(table, physical, context, d);
    ChosenExists(table, ip, d);
    forall r | Chosen(table, ip, r)
      ensures RoutedBy(r, physical, context, ip)
    {
      BestIsIntended(table, physical, context, ip, d, r);
    }
  }

  lemma PlannedIsThere(table: set<RouteEntry>, physical: Physical, context: GatewayContext, d: RouteEntry)
    requires Plan(physical, context).Some? && d in Default(context)
    requires forall r :: r in Plan(physical, context).value ==> Exclusive(table, r)
    ensures d in table && Exclusive(table, d)
  {
    assert d in Plan(physical, context).value;
  }

  lemma BestIsIntended(
      table: set<RouteEntry>, physical: Physical, context: GatewayContext, ip: Ipv4, d: RouteEntry, r: RouteEntry)
    requires Plan(physical, context).Some?
    requires forall q :: q in Plan(physical, context).value ==> Exclusive(table, q)
    requires d in Default(context) && Covers(d.destination, ip) && Chosen(table, ip, r)
    ensures RoutedBy(r, physical, context, ip)
  {
    hide Protect, Covers, Exclusive;
    var protect := Protect(physical, context.endpoints).value;
    ProtectIsExact(physical, context.endpoints);
    PlannedIsThere(table, physical, context, d);
    assert r.destination.length >= 1;
    if ip == physical.gateway || V4(ip) in context.endpoints {
      var mine :| mine in protect && mine.destination == Prefix(ip, 32);
      assert mine in Plan(physical, context).value;
      HostRouteWins(table, ip, mine, r);
    }
    if r.destination in {Prefix(0, 1), Prefix(0x8000_0000, 1)} {
      var half := Default(context)[if r.destination.address == 0 then 0 else 1];
      assert half in Default(context) && half.destination == r.destination;
      PlannedIsThere(table, physical, context, half);
      OnlyOne(table, half, r);
    }
  }

  lemma OnlyOne(table: set<RouteEntry>, q: RouteEntry, r: RouteEntry)
    requires Exclusive(table, q) && r in table && r.destination == q.destination
    ensures r == q
  {
  }

  /** While the gateway is tried: the best route for 1.1.1.1 and 8.8.8.8 is through the overlay
      gateway. */
  ghost predicate ProbeRouted(table: set<RouteEntry>, context: GatewayContext) {
    ThroughOverlay(table, context, 0x0101_0101) && ThroughOverlay(table, context, 0x0808_0808)
  }

  ghost predicate ThroughOverlay(table: set<RouteEntry>, context: GatewayContext, ip: Ipv4) {
    && (exists r :: Chosen(table, ip, r))
    && (forall r :: Chosen(table, ip, r) ==>
          r == RouteEntry(Prefix(ip, 32), 0x0a0a_0001, context.overlayInterfaceIndex, 1))
  }

  lemma ProbeMeaning(table: set<RouteEntry>, context: GatewayContext)
    requires forall r :: r in Probe(context) ==> Exclusive(table, r)
    ensures ProbeRouted(table, context)
  {
    ProbeMeaningAt(table, context, 0);
    ProbeMeaningAt(table, context, 1);
  }

  lemma ProbeMeaningAt(table: set<RouteEntry>, context: GatewayContext, i: nat)
    requires i < 2 && forall r :: r in Probe(context) ==> Exclusive(table, r)
    ensures ThroughOverlay(table, context, if i == 0 then 0x0101_0101 else 0x0808_0808)
  {
    var ip: Ipv4 := if i == 0 then 0x0101_0101 else 0x0808_0808;
    var mine := RouteEntry(Prefix(ip, 32), 0x0a0a_0001, context.overlayInterfaceIndex, 1);
    assert mine == Probe(context)[i] && mine in Probe(context);
    ChosenExists(table, ip, mine);
    forall r | Chosen(table, ip, r)
      ensures r == mine
    {
      HostRouteWins(table, ip, mine, r);
    }
  }

  /** The table routes every address as the plan intends; see `PlanMeaning`. */
  ghost predicate Routed(table: set<RouteEntry>, physical: Physical, context: GatewayContext) {
    forall ip: Ipv4 :: RoutedAt(table, physical, context, ip)
  }

  /** There is a best route for `ip`, and every best route is an intended one. */
  ghost predicate RoutedAt(table: set<RouteEntry>, physical: Physical, context: GatewayContext, ip: Ipv4) {
    && (exists r :: Chosen(table, ip, r))
    && (forall r :: Chosen(table, ip, r) ==> RoutedBy(r, physical, context, ip))
  }

  /** `r` is an intended best route for `ip`. */
  predicate RoutedBy(r: RouteEntry, physical: Physical, context: GatewayContext, ip: Ipv4) {
    && r.destination.length >= 1
    && (ip == physical.gateway ==> r == RouteEntry(Prefix(ip, 32), 0, physical.interfaceIndex, 1))
    && (ip != physical.gateway && V4(ip) in context.endpoints ==>
          r == RouteEntry(Prefix(ip, 32), physical.gateway, physical.interfaceIndex, 1))
    && (r.destination in {Prefix(0, 1), Prefix(0x8000_0000, 1)} ==>
          r == RouteEntry(r.destination, 0x0a0a_0001, context.overlayInterfaceIndex, 1))
  }

  /** The table of an active gateway in which nobody else has a route for a planned
      destination: every planned route is the only one for its destination. */
  lemma PlannedAreExclusive(foreign: set<RouteEntry>, physical: Physical, context: GatewayContext)
    requires Plan(physical, context).Some?
    requires forall q, r :: q in foreign && r in Plan(physical, context).value ==> q.destination != r.destination
    ensures var plan := Plan(physical, context).value;
            forall r :: r in plan ==> Exclusive(foreign + AsSet(plan), r)
  {
    var plan := Plan(physical, context).value;
    var protect := Protect(physical, context.endpoints).value;
    ProtectIsExact(physical, context.endpoints);
    forall q, r | q in plan && r in plan && q.destination == r.destination
      ensures q == r
    {
      if q in protect && r in protect {
        var i :| 0 <= i < |protect| && protect[i] == q;
        var j :| 0 <= j < |protect| && protect[j] == r;
        assert i == j;
      }
    }
  }

  lemma PlanIsRouted(foreign: set<RouteEntry>, physical: Physical, context: GatewayContext)
    requires Plan(physical, context).Some?
    requires forall q, r :: q in foreign && r in Plan(physical, context).value ==> q.destination != r.destination
    ensures Routed(foreign + AsSet(Plan(physical, context).value), physical, context)
  {
    hide Plan, Exclusive, RoutedAt, AsSet;
    var table := foreign + AsSet(Plan(physical, context).value);
    PlannedAreExclusive(foreign, physical, context);
    forall ip: Ipv4
      ensures RoutedAt(table, physical, context, ip)
    {
      PlanMeaning(table, physical, context, ip);
    }
  }
}
