/** Whole lives of a machine: any operations in any order, with any faults and crashes. */
module RouteRuns {
  import opened Options
  import opened Addresses
  import opened AwaitedCalls
  import opened ResolvedLink
  import opened RoutePlanner
  import opened RouteTransaction
  import opened RouteController

  datatype Operation =
    | Activate(context: GatewayContext)
    | UpdateProtection(endpoints: seq<IpAddress>)
    | Reconcile
    | Rollback
    | Recover
    | Kill
    | OthersSetLink(link: Link)

  /** What an operation that ended like this has come to, at least. */
  ghost predicate Performed(c: GatewayRouteController, operation: Operation, o: Outcome)
    reads c
  {
    if o.Crashed? then c.journal.None? && c.state == PhysicalOnly
    else
      match operation
      case Activate(context) => o.Done? ==> c.state == GatewayActive
      case UpdateProtection(endpoints) => o.Done? && c.state == GatewayActive ==> Protects(c.journal, endpoints)
      case Reconcile =>
        o.Done? && c.state == GatewayActive ==>
          c.journal.Some? && forall r :: r in c.journal.value.owned ==> r in c.machine.routes
      case Rollback => o.Done? ==> c.journal.None?
      case Recover => o.Done? ==> c.machine.disk.None?
      case Kill => false
      case OthersSetLink(link) => c.machine.link == link
  }

  /** One operation; if the process dies in it, the next one starts with empty memory. The
      routes of others change only by what the schedule says. */
  method Perform(c: GatewayRouteController, operation: Operation) returns (o: Outcome)
    requires c.Valid() && c.Ready()
    modifies c
    ensures c.Valid() && c.Ready() && Performed(c, operation, o)
    ensures old(c.trace) <= c.trace
    ensures Outside(c.schedule, old(c.machine.foreign), old(c.clock), c.machine.foreign, c.clock)
    ensures !operation.OthersSetLink? && !old(c.machine.meddled) ==>
              !c.machine.meddled && c.machine.home == old(c.machine.home)
  {
    hide Safe, AllSafe, Carries, Outside, Planned, Installed, Room, Routed, Calm, Quiet, Steady, Clean, BadCount,
         Protect, Answered, CanRefresh;
    o := Done;
    match operation {
      case Activate(context) => o := c.Activate(context);
      case UpdateProtection(endpoints) => o := c.UpdateProtection(endpoints);
      case Reconcile => o := c.Reconcile();
      case Rollback => var errors; o, errors := c.Rollback();
      case Recover => o := c.Recover();
      case Kill =>
        OutsideItself(c.schedule, c.machine.foreign, c.clock);
        o := Crashed;
      case OthersSetLink(link) =>
        OutsideItself(c.schedule, c.machine.foreign, c.clock);
        c.OthersSetLink(link);
    }
    if o.Crashed? {
      c.Restart();
    }
  }

  /** The write-ahead rule over a whole run: whatever is done in whatever order, and
      wherever calls fail or the process dies, every recorded moment is safe. */
  method Run(c: GatewayRouteController, operations: seq<Operation>) returns (o: Outcome)
    requires c.Valid() && c.Ready()
    modifies c
    ensures c.Valid() && c.Ready()
    ensures operations != [] ==> Performed(c, operations[|operations| - 1], o)
    ensures old(c.trace) <= c.trace
    ensures Outside(c.schedule, old(c.machine.foreign), old(c.clock), c.machine.foreign, c.clock)
    ensures (forall i :: 0 <= i < |operations| ==> !operations[i].OthersSetLink?) && !old(c.machine.meddled) ==>
              !c.machine.meddled && c.machine.home == old(c.machine.home)
  {
    hide Safe, AllSafe, Outside, Performed;
    OutsideItself(c.schedule, c.machine.foreign, c.clock);
    o := Done;
    for i := 0 to |operations|
      invariant c.Valid() && c.Ready()
      invariant i > 0 ==> Performed(c, operations[i - 1], o)
      invariant old(c.trace) <= c.trace
      invariant Outside(c.schedule, old(c.machine.foreign), old(c.clock), c.machine.foreign, c.clock)
      invariant (forall i :: 0 <= i < |operations| ==> !operations[i].OthersSetLink?) && !old(c.machine.meddled) ==>
                  !c.machine.meddled && c.machine.home == old(c.machine.home)
    {
      ghost var foreign, clock := c.machine.foreign, c.clock;
      o := Perform(c, operations[i]);
      OutsideTransitive(c.schedule, old(c.machine.foreign), old(c.clock), foreign, clock, c.machine.foreign, c.clock);
    }
  }

  /** The process dies and a new one recovers. A normal return leaves no host route, no journal
      file, and in the table exactly what others put there; a flagged resolver is gone or as
      captured, any other is as it was. Once calls stop failing, it returns normally if and only
      if the file has no flag, or the captured link is gone or has nothing but the host's
      settings. */
  method CrashAndRecover(c: GatewayRouteController) returns (o: Outcome)
    requires c.Valid()
    modifies c
    ensures c.Valid() && c.Ready() && old(c.trace) <= c.trace
    ensures Outside(c.schedule, old(c.machine.foreign), old(c.clock), c.machine.foreign, c.clock)
    ensures !old(c.machine.meddled) ==> !c.machine.meddled && c.machine.home == old(c.machine.home)
    ensures o.Done? ==> c.machine.disk.None? && Clean(c.machine)
    ensures o.Done? && old(Flagged(c.machine.disk)) ==> Settled(c.machine.link, old(c.machine.disk.value.snapshot.dns))
    ensures o.Done? && old(!Flagged(c.machine.disk)) ==> LinkStays(old(c.machine.link), c.machine.link)
    ensures Steady(c.schedule, old(c.clock)) ==> (o.Done? <==> old(CanRestore(c.machine.link, c.machine.disk)))
  {
    hide Safe, AllSafe, Outside, Clean, Carries;
    c.Restart();
    o := c.Recover();
  }

  /** Crash recovery. After any history and one more crash, a recovery that returns normally
      leaves no host route, no journal file, and the machine as it was found: a route is in
      the table only if it was there at first or another program added it, and missing only if
      another program removed it; and the overlay link, if nobody else set it, is gone or as it
      was. */
  method RecoverAfterAnyHistory(schedule: Schedule, routes: set<RouteEntry>, link: Link, operations: seq<Operation>)
    returns (c: GatewayRouteController, o: Outcome)
    ensures fresh(c) && c.schedule == schedule
    ensures AllSafe(c.trace)
    ensures o.Done? ==> c.machine.disk.None? && c.machine.host == {}
    ensures o.Done? ==> Outside(schedule, routes, 0, c.machine.routes, c.clock)
    ensures o.Done? && Quiet(schedule, 0) ==> c.machine.routes == routes
    ensures o.Done? && (forall i :: 0 <= i < |operations| ==> !operations[i].OthersSetLink?) ==>
              c.machine.link.Absent? || c.machine.link == link
  {
    hide Safe, AllSafe, Outside;
    c := new GatewayRouteController(schedule, routes, link);
    var last := Run(c, operations);
    ghost var foreign, clock := c.machine.foreign, c.clock;
    o := CrashAndRecover(c);
    OutsideTransitive(schedule, routes, 0, foreign, clock, c.machine.foreign, c.clock);
    if o.Done? {
      if Quiet(schedule, 0) { OutsideQuiet(schedule, routes, 0, c.machine.foreign, c.clock); }
      if !c.machine.meddled { CleanMeansHome(c.machine, c.journal); }
    }
  }

  // ------------------------------------------------------------- refreshes

  /** An activation and any run of refreshes that others do not interfere with: as long as they
      return normally, longest-prefix lookup of every address does what the plan for the
      endpoints of the last refresh intends. */
  method ActivateAndRefresh(c: GatewayRouteController, context: GatewayContext, refreshes: seq<seq<IpAddress>>)
    returns (o: Outcome)
    requires c.Valid() && c.Ready() && c.state != GatewayActive && Quiet(c.schedule, c.clock)
    modifies c
    ensures c.Valid() && c.Ready()
    ensures o.Done? ==>
              var last := if refreshes == [] then context.endpoints else refreshes[|refreshes| - 1];
              && c.state == GatewayActive && c.journal.Some?
              && Routed(c.machine.routes, c.journal.value.snapshot.physical, context.(endpoints := last))
  {
    hide Safe, AllSafe, Follows, Planned, Routed, Installed, Plan, Protect, Quiet, Calm, Refreshed, Clean;
    ghost var start := Opening(c.Seen());
    o := c.Activate(context);
    if !o.Done? { return; }
    FollowsClock(c.schedule, start, c.Seen(), ALL);
    ghost var now := context;
    for i := 0 to |refreshes|
      invariant c.Valid() && c.Ready() && c.state == GatewayActive && old(c.clock) <= c.clock
      invariant c.journal.Some? && Planned(c.machine, c.journal, now)
      invariant now == context.(endpoints := if i == 0 then context.endpoints else refreshes[i - 1])
    {
      QuietLater(c.schedule, old(c.clock), c.clock);
      ghost var before := Opening(c.Seen());
      o := c.UpdateProtection(refreshes[i]);
      FollowsClock(c.schedule, before, c.Seen(), ALL);
      if !o.Done? { return; }
      now := now.(endpoints := refreshes[i]);
    }
    PlannedIsRouted(c.machine, c.journal.value, now);
    o := Done;
  }

  // -------------------------------------------------------- refused restores

  /** A recovery that is refused the resolver is refused for ever, however often it is repeated
      and although no call fails. The file stays, and over a file nothing is activated. */
  method NeverRecovers(c: GatewayRouteController, times: nat) returns (o: Outcome)
    requires c.Valid() && c.Ready() && Steady(c.schedule, c.clock)
    requires !CanRestore(c.machine.link, c.machine.disk) && times > 0
    modifies c
    ensures c.Valid() && c.Ready()
    ensures o.Threw? && !CanRestore(c.machine.link, c.machine.disk)
  {
    hide Safe, AllSafe, Carries, Outside, Clean, Steady, Accepts;
    o := Done;
    for i := 0 to times
      invariant c.Valid() && c.Ready() && old(c.clock) <= c.clock
      invariant !CanRestore(c.machine.link, c.machine.disk) && (i > 0 ==> o.Threw?)
    {
      SteadyLater(c.schedule, old(c.clock), c.clock);
      FileMatches(c.machine, c.journal);
      o := c.Recover();
      FileMatches(c.machine, c.journal);
    }
  }

  const PHYSICAL := Physical(2, 0xc0a8_0002, 0xc0a8_0001)
  const CONTEXT := GatewayContext(3, V4(0x0a0a_000b), [V4(0x0505_0505)], true)

  /** Nothing fails, nobody interferes, every query answers yes. */
  ghost const CALM: Schedule := (k: nat) => Tick(Fine, {}, {}, false, false, PHYSICAL, true)

  /** The overlay interface of an active gateway is replaced while the service is down, under the
      same index: no recovery ever returns normally again. */
  method ReusedIndexFails(schedule: Schedule, times: nat) returns (c: GatewayRouteController, o: Outcome)
    requires schedule == CALM && times > 0
    ensures fresh(c) && o.Threw? && Flagged(c.machine.disk)
  {
    c := ActiveThenKilled(schedule);
    c.OthersSetLink(Present(c.machine.base.value.identity + 1, [], [], false));
    o := NeverRecovers(c, times);
  }

  /** So it is when somebody else configures a resolver on the captured interface. */
  method ForeignResolverFails(schedule: Schedule, times: nat) returns (c: GatewayRouteController, o: Outcome)
    requires schedule == CALM && times > 0
    ensures fresh(c) && o.Threw? && Flagged(c.machine.disk)
  {
    c := ActiveThenKilled(schedule);
    c.OthersSetLink(Present(c.machine.base.value.identity, [V6(9)], [], false));
    assert V6(9) in c.machine.link.servers;
    o := NeverRecovers(c, times);
  }

  /** And so it is when somebody else sets a search domain there. */
  method ForeignDomainFails(schedule: Schedule, times: nat) returns (c: GatewayRouteController, o: Outcome)
    requires schedule == CALM && times > 0
    ensures fresh(c) && o.Threw? && Flagged(c.machine.disk)
  {
    c := ActiveThenKilled(schedule);
    c.OthersSetLink(Present(c.machine.base.value.identity, [], [Domain("example.org", false)], false));
    assert Domain("example.org", false) in c.machine.link.domains;
    o := NeverRecovers(c, times);
  }

  method ActiveThenKilled(schedule: Schedule) returns (c: GatewayRouteController)
    requires schedule == CALM
    ensures fresh(c) && c.schedule == schedule && c.Valid() && c.Ready()
    ensures Flagged(c.machine.disk) && c.machine.base == Some(c.machine.disk.value.snapshot.dns)
  {
    hide Safe, AllSafe, Follows, Clean, Routed, Planned, Installed, Protect, Room, Plan, Probe, Default;
    c := new GatewayRouteController(schedule, {}, Present(1, [], [], false));
    assert CONTEXT.endpoints == [V4(0x0505_0505)] && Protectable(PHYSICAL, CONTEXT.endpoints);
    PlanHasRoom(PHYSICAL, CONTEXT);
    var o := c.Activate(CONTEXT);
    c.Restart();
    FileMatches(c.machine, c.journal);
  }

  lemma FileMatches(m: Machine, memory: Option<RouteJournal>)
    requires Safe(m, memory)
    ensures m.disk.Some? ==> m.base == Some(m.disk.value.snapshot.dns)
  {
  }
}
