/** `UnderlayRouteProtector` (src/EasyTierHost.Network/RoutePlanner.cs): which endpoints
    stay protected for a while after they were last seen. */
module GracePeriod {
  import opened Options
  import opened Addresses

  /** One call: the clock, and the endpoints reported active. */
  datatype Sighting = Sighting(now: int, active: seq<IpAddress>)

  /** When an endpoint was last reported, over the whole history. */
  function LastSeen(history: seq<Sighting>, ip: IpAddress): Option<int> {
    if history == [] then None
    else
      var last := history[|history| - 1];
      if ip in last.active then Some(last.now) else LastSeen(history[..|history| - 1], ip)
  }

  /** The endpoint was reported less than `grace` before `now`. */
  predicate Recent(history: seq<Sighting>, ip: IpAddress, now: int, grace: int) {
    LastSeen(history, ip).Some? && now - LastSeen(history, ip).value < grace
  }

  class UnderlayRouteProtector {
    const grace: int
    var endpoints: map<IpAddress, int>

    ghost var history: seq<Sighting>
    ghost var latest: int

    /** The dictionary holds exactly the endpoints that were recent at the last call. */
    ghost predicate Valid()
      reads this
    {
      && (forall ip :: ip in endpoints <==> Recent(history, ip, latest, grace))
      && (forall ip :: ip in endpoints ==> endpoints[ip] == LastSeen(history, ip).value)
    }

    constructor (grace: int, start: int)
      ensures Valid() && history == [] && latest == start && this.grace == grace
    {
      this.grace := grace;
      endpoints, history, latest := map[], [], start;
    }

    /** With a clock that does not run backwards, the result is exactly the endpoints whose
        last sighting over the whole call history is less than the grace period old. */
    method Update(now: int, active: seq<IpAddress>) returns (keys: set<IpAddress>)
      requires Valid() && latest <= now
      modifies this
      ensures Valid() && latest == now && history == old(history) + [Sighting(now, active)]
      ensures forall ip :: ip in keys <==> Recent(history, ip, now, grace)
      ensures grace > 0 ==> forall ip :: ip in active ==> ip in keys
    {
      history, latest := history + [Sighting(now, active)], now;
      assert history[..|history| - 1] == old(history);
      for i := 0 to |active|
        invariant forall ip :: ip in endpoints <==> ip in old(endpoints) || ip in active[..i]
        invariant forall ip :: ip in endpoints ==>
                    endpoints[ip] == if ip in active[..i] then now else old(endpoints)[ip]
        invariant history == old(history) + [Sighting(now, active)] && latest == now
      {
        endpoints := endpoints[active[i] := now];
      }
      assert active[..|active|] == active;
      ghost var sighted := endpoints;
      var stale := set ip | ip in endpoints && now - endpoints[ip] >= grace;
      while stale != {}
        invariant stale <= endpoints.Keys <= sighted.Keys
        invariant forall ip :: ip in endpoints ==> endpoints[ip] == sighted[ip]
        invariant forall ip :: ip in sighted && now - sighted[ip] < grace ==> ip in endpoints
        invariant forall ip :: ip in endpoints && now - sighted[ip] >= grace ==> ip in stale
        invariant forall ip :: ip in stale ==> now - sighted[ip] >= grace
        invariant history == old(history) + [Sighting(now, active)] && latest == now
        decreases stale
      {
        var ip :| ip in stale;
        endpoints := endpoints - {ip};
        stale := stale - {ip};
      }
      forall ip
        ensures ip in endpoints <==> Recent(history, ip, now, grace)
        ensures ip in endpoints ==> endpoints[ip] == LastSeen(history, ip).value
      {
        assert LastSeen(history, ip) == if ip in active then Some(now) else LastSeen(old(history), ip);
        assert ip in old(endpoints) <==> Recent(old(history), ip, old(latest), grace);
      }
      keys := endpoints.Keys;
    }
  }
}
