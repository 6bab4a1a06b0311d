/** The service: its restart loop, the two role coordinators as far as they drive the
    transactions, and the standalone recovery (src/EasyTierHost.Service/Program.cs,
    GatewayCoordinator.cs, ClientInternetCoordinator.cs, NetworkRecovery.cs). */
module ServiceLoop {
  import opened Options
  import opened Addresses
  import opened AwaitedCalls
  import Resolver = ResolvedLink
  import RoutePlanner
  import Routes = RouteTransaction
  import opened RouteController
  import Nat = GatewayTransaction
  import opened GatewayBootstrapper

  datatype Role = OverlayOnly | GatewayRole | ClientRole

  /** How a role task ends: cancelled by the loop, with any other exception, or never. */
  datatype RoleEnd = Cancelled | Failed | Died

  /** Waiting for the overlay: it comes up, it does not, or the wait is cancelled. */
  datatype Readiness = Up | TimedOut | Abandoned

  /** One pass of the monitor loop of a client. The flag says that a call that throws does
      so because it was cancelled. */
  datatype ClientEvent =
    | Refresh(endpoints: seq<IpAddress>, cancelling: bool)
    | NetworkChanged
    | StatusFails
    | ClientCancelled

  datatype GatewayEvent = HealthCheck(cancelling: bool) | GatewayFails | GatewayCancelled

  /** What one round of the restart loop meets. */
  datatype Round = Round(
    launchFails: bool,
    link: Resolver.Link,
    readiness: Readiness,
    context: GatewayContext,
    clientEvents: seq<ClientEvent>,
    forwarding: map<nat, bool>,
    physicalIndex: int,
    overlay: GatewayAdapter,
    gatewayEvents: seq<GatewayEvent>,
    cancelling: bool,
    statusSaved: bool,
    coreStops: bool)

  /** One life of the service: whether the Core configuration could be written, what the rounds
      meet, and whether at the end Core could be stopped and the status saved. */
  datatype Life = Life(role: Role, prepared: bool, rounds: seq<Round>, coreStops: bool, statusSaved: bool)

  /** The machine at a Core launch. */
  datatype Launch = Launch(routes: Routes.Machine, gateway: Nat.GatewayMachine)

  /** The loop was left between two rounds, or by an exception; or the service never came to
      the loop; or it was killed. */
  datatype Exit = Ended | Broken | NotStarted | Killed

  datatype Status = NotWritten | RecoveryRequired | AllStopped

  /** The rounds of some lives, together. */
  ghost function RoundCount(lives: seq<Life>): nat {
    if lives == [] then 0 else RoundCount(lives[..|lives| - 1]) + |lives[|lives| - 1].rounds|
  }

  lemma RoundCountStep(lives: seq<Life>, i: nat)
    requires i < |lives|
    ensures RoundCount(lives[..i + 1]) == RoundCount(lives[..i]) + |lives[i].rounds|
    ensures RoundCount(lives[..0]) == 0 && lives[..|lives|] == lives
  {
    assert lives[..i + 1][..i] == lives[..i];
  }

  lemma NoLives()
    ensures RoundCount([]) == 0
  {
  }

  /** Every launch of Core in this life works. */
  ghost predicate Launching(life: Life) {
    forall i :: 0 <= i < |life.rounds| ==> !life.rounds[i].launchFails
  }

  ghost predicate CleanLaunch(l: Launch) {
    && l.routes.disk.None? && Routes.Clean(l.routes)
    && l.gateway.disk.None? && Nat.GatewayClean(l.gateway)
  }

  /** A moment of an active client: the plan for the context is owned, in both journals and in the
      table, and the resolver is flagged. */
  ghost predicate ActiveMoment(m: Routes.Moment, context: GatewayContext) {
    && Routes.Flagged(m.memory) && m.machine.disk == m.memory
    && RoutePlanner.Plan(m.memory.value.snapshot.physical, context) == Some(m.memory.value.owned)
    && forall r :: r in m.memory.value.owned ==> r in m.machine.routes
  }

  ghost predicate HasActiveMoment(trace: seq<Routes.Moment>, from: nat, context: GatewayContext) {
    exists i :: from <= i < |trace| && ActiveMoment(trace[i], context)
  }

  lemma ActiveMomentStays(a: seq<Routes.Moment>, b: seq<Routes.Moment>, from: nat, context: GatewayContext)
    requires a <= b
    ensures HasActiveMoment(a, from, context) ==> HasActiveMoment(b, from, context)
  {
    if HasActiveMoment(a, from, context) {
      var i :| from <= i < |a| && ActiveMoment(a[i], context);
      assert b[i] == a[i];
    }
  }

  /** A moment of a serving gateway: every switch of the snapshot is on and every object in place. */
  ghost predicate ServingMoment(m: Nat.GatewayMoment, platform: Nat.Platform, switches: seq<nat>) {
    && m.memory.Some? && m.machine.disk == m.memory
    && m.memory.value.forwardingMayHaveChanged && m.memory.value.natMayExist
    && (forall k :: 0 <= k < |switches| ==> Nat.On(m.machine, switches[k]))
    && Nat.NatInPlace(platform, m.machine.objects, Nat.Made(m.memory.value.snapshot.token))
  }

  ghost predicate HasServingMoment(
    trace: seq<Nat.GatewayMoment>, from: nat, platform: Nat.Platform, switches: seq<nat>)
  {
    exists i :: from <= i < |trace| && ServingMoment(trace[i], platform, switches)
  }

  lemma ServingMomentStays(
    a: seq<Nat.GatewayMoment>, b: seq<Nat.GatewayMoment>, from: nat, platform: Nat.Platform, switches: seq<nat>)
    requires a <= b
    ensures HasServingMoment(a, from, platform, switches) ==> HasServingMoment(b, from, platform, switches)
  {
    if HasServingMoment(a, from, platform, switches) {
      var i :| from <= i < |a| && ServingMoment(a[i], platform, switches);
      assert b[i] == a[i];
    }
  }

  /** The first event that is no refresh is number `n`; if there is none, `n` is their number. */
  ghost predicate FirstOther(events: seq<ClientEvent>, n: nat) {
    n <= |events| && (forall j :: 0 <= j < n ==> events[j].Refresh?) && (n < |events| ==> !events[n].Refresh?)
  }

  lemma FirstOtherIsUnique(events: seq<ClientEvent>, i: nat)
    requires FirstOther(events, i)
    ensures forall n: nat :: FirstOther(events, n) ==> n == i
  {
  }

  lemma FirstOtherCheckIsUnique(events: seq<GatewayEvent>, i: nat)
    requires FirstOtherCheck(events, i)
    ensures forall n: nat :: FirstOtherCheck(events, n) ==> n == i
  {
  }

  ghost predicate FirstOtherCheck(events: seq<GatewayEvent>, n: nat) {
    n <= |events| && (forall j :: 0 <= j < n ==> events[j].HealthCheck?) && (n < |events| ==> !events[n].HealthCheck?)
  }

  class Service {
    const client: GatewayRouteController
    const gateway: GatewayBootstrapper

    ghost var launches: seq<Launch>
    /** For every bootstrapper stopped so far, whether the file it was stopped over was its own. */
    ghost var stops: seq<bool>

    ghost predicate Valid()
      reads this, client, gateway
    {
      && client.Valid() && client.Ready()
      && gateway.Valid()
      && (forall i :: 0 <= i < |launches| ==> CleanLaunch(launches[i]))
      && (gateway.Honest() ==> forall i :: 0 <= i < |launches| ==> launches[i].gateway.orphans == {})
      && (forall i :: 0 <= i < |stops| ==> stops[i])
    }

    /** The client has no file that it does not know of. */
    ghost predicate ClientKnows()
      reads this, client
    {
      client.journal.None? ==> client.machine.disk.None?
    }

    constructor (client: GatewayRouteController, gateway: GatewayBootstrapper)
      requires client.Valid() && client.Ready() && gateway.Valid()
      ensures Valid() && this.client == client && this.gateway == gateway && launches == []
    {
      this.client, this.gateway := client, gateway;
      launches, stops := [], [];
    }

    // ------------------------------------------------------------- roles

    /** What the events up to number `n` have come to: the protection is that of the last refresh,
        every owned route is in the table, and the result is as event `n` says. */
    ghost predicate Followed(events: seq<ClientEvent>, n: nat, end: RoleEnd)
      requires FirstOther(events, n)
      reads this, client
    {
      && (n > 0 ==> Routes.Protects(client.journal, events[n - 1].endpoints))
      && (n > 0 ==> forall r :: r in client.journal.value.owned ==> r in client.machine.routes)
      && (n == |events| ==> end.Cancelled?)
      && (n < |events| ==> !events[n].NetworkChanged? && (end.Cancelled? <==> events[n].ClientCancelled?))
    }

    /** One refresh of the monitor loop. If it goes through, the gateway is active, the protection is
        that of the new endpoints, and every owned route is in the table. */
    method RefreshClient(endpoints: seq<IpAddress>) returns (o: Outcome)
      requires Valid() && ClientKnows()
      modifies client
      ensures Valid() && old(client.trace) <= client.trace && old(client.clock) <= client.clock
      ensures !o.Crashed? ==> ClientKnows()
      ensures o.Done? && client.state == GatewayActive && old(client.state == GatewayActive) ==>
                && Routes.Protects(client.journal, endpoints)
                && forall r :: r in client.journal.value.owned ==> r in client.machine.routes
      ensures old(client.state != GatewayActive) ==> client.state != GatewayActive
      ensures o.Threw? && Routes.Steady(client.schedule, old(client.clock)) ==> client.state != GatewayActive
      ensures old(client.state == GatewayActive) && o.Done? ==>
                old(RoutePlanner.Protect(client.journal.value.snapshot.physical, endpoints).Some?)
    {
      hide Routes.Safe, Routes.AllSafe, Nat.GatewaySafe, Nat.GatewayAllSafe, Routes.Follows, CleanLaunch,
           Routes.Clean, Routes.Installed, Routes.Steady, Routes.Planned, RoutePlanner.Protect, Routes.Quiet,
           Routes.Calm, Routes.CanRefresh;
      ghost var before := Routes.Opening(client.Seen());
      o := client.UpdateProtection(endpoints);
      Routes.FollowsClock(client.schedule, before, client.Seen(), Routes.ALL);
      if !o.Done? { return; }
      before := Routes.Opening(client.Seen());
      Routes.SteadyLater(client.schedule, old(client.clock), client.clock);
      o := client.Reconcile();
      Routes.FollowsClock(client.schedule, before, client.Seen(), Routes.ALL);
    }

    method RollBackClient() returns (o: Outcome)
      requires Valid()
      modifies client
      ensures Valid() && old(client.trace) <= client.trace && old(client.clock) <= client.clock
      ensures !o.Crashed? ==> (old(ClientKnows()) ==> ClientKnows()) && client.state != GatewayActive
      ensures o.Done? && old(ClientKnows()) ==> client.machine.disk.None?
      ensures Routes.Steady(client.schedule, old(client.clock)) ==>
                !o.Crashed? && (o.Done? <==> old(Routes.CanRestore(client.machine.link, client.journal)))
      ensures old(client.journal.None?) ==> o.Done?
    {
      hide Routes.Safe, Routes.AllSafe, Nat.GatewaySafe, Nat.GatewayAllSafe, Routes.Follows, CleanLaunch,
           Routes.Clean, Routes.Steady, Routes.BadCount;
      ghost var before := Routes.Opening(client.Seen());
      var errors;
      o, errors := client.Rollback();
      Routes.FollowsClock(client.schedule, before, client.Seen(), Routes.ALL);
    }

    /** The monitor loop of `ClientInternetCoordinator.RunAsync`. It ends only with an
        exception; the result says whether that is a cancellation. If no call fails and the
        gateway is still active at the end, the protection is that of the last refresh, every
        owned route was in the table, and the event that ended the loop decides the result. */
    method MonitorClient(events: seq<ClientEvent>) returns (end: RoleEnd)
      requires Valid() && ClientKnows()
      modifies client
      ensures Valid() && old(client.trace) <= client.trace && old(client.clock) <= client.clock
      ensures !end.Died? ==> ClientKnows()
      ensures events != [] && !events[0].Refresh? ==> (end.Cancelled? <==> events[0].ClientCancelled?)
      ensures events != [] && events[0].ClientCancelled? ==>
                client.machine == old(client.machine) && client.journal == old(client.journal)
      ensures && Routes.Steady(client.schedule, old(client.clock)) && !end.Died? && client.state == GatewayActive
              && old(client.state == GatewayActive)
              ==> forall n: nat :: FirstOther(events, n) ==> Followed(events, n, end)
      ensures && events != [] && events[0].Refresh? && old(client.state == GatewayActive) && !end.Died?
              && old(RoutePlanner.Protect(client.journal.value.snapshot.physical, events[0].endpoints).None?)
              ==> (end.Cancelled? <==> events[0].cancelling)
    {
      hide Routes.Safe, Routes.AllSafe, Nat.GatewaySafe, Nat.GatewayAllSafe, CleanLaunch, Routes.Steady,
           Routes.Protects;
      for i := 0 to |events|
        invariant Valid() && ClientKnows() && old(client.trace) <= client.trace && old(client.clock) <= client.clock
        invariant old(client.state != GatewayActive) ==> client.state != GatewayActive
        invariant forall j :: 0 <= j < i ==> events[j].Refresh?
        invariant i == 0 ==> client.machine == old(client.machine) && client.journal == old(client.journal)
        invariant i == 0 ==> client.state == old(client.state)
        invariant i > 0 && old(client.state == GatewayActive) ==>
                    old(RoutePlanner.Protect(client.journal.value.snapshot.physical, events[0].endpoints).Some?)
        invariant i > 0 && old(client.state == GatewayActive) ==>
                    && client.state == GatewayActive && Routes.Protects(client.journal, events[i - 1].endpoints)
                    && forall r :: r in client.journal.value.owned ==> r in client.machine.routes
      {
        Routes.SteadyLater(client.schedule, old(client.clock), client.clock);
        if !events[i].Refresh? { FirstOtherIsUnique(events, i); }
        var o;
        match events[i] {
          case Refresh(endpoints, cancelling) =>
            o := RefreshClient(endpoints);
            if o.Crashed? { return Died; }
            if o.Threw? { return if cancelling then Cancelled else Failed; }
            if client.state != GatewayActive { return Failed; }
          case NetworkChanged =>
            o := RollBackClient();
            return if o.Crashed? then Died else Failed;
          case StatusFails => return Failed;
          case ClientCancelled => return Cancelled;
        }
      }
      FirstOtherIsUnique(events, |events|);
      end := Cancelled;
    }

    /** `ClientInternetCoordinator.RunAsync`: activate and monitor, and roll back in any
        case. If it ends as cancelled, no journal file is left. If nothing fails, nobody
        interferes and the probe answers yes, the client has been active. */
    method RunClient(round: Round) returns (end: RoleEnd)
      requires Valid() && client.machine.disk.None?
      modifies client
      ensures Valid() && old(client.trace) <= client.trace && old(client.clock) <= client.clock
      ensures end.Cancelled? ==> client.machine.disk.None?
      ensures round.readiness.TimedOut? ==> end.Failed? && client.trace == old(client.trace)
      ensures round.readiness.Abandoned? ==> end.Cancelled? && client.trace == old(client.trace)
      ensures round.readiness.Up? && !round.statusSaved && !end.Died? ==> end.Failed?
      ensures && round.readiness.Up? && Routes.Calm(client.schedule, old(client.clock))
              && Routes.Assenting(client.schedule, old(client.clock)) && old(client.CanActivate(round.context))
              ==>
                && HasActiveMoment(client.trace, old(|client.trace|), round.context)
                && (round.statusSaved && round.clientEvents != [] && !round.clientEvents[0].Refresh? && !end.Died? ==>
                      (end.Cancelled? <==> round.clientEvents[0].ClientCancelled?))
      ensures && round.readiness.Up? && old(client.journal.None?) && !client.Welcome(round.context) && round.statusSaved
              ==> (end.Cancelled? <==> round.cancelling)
    {
      hide Routes.Safe, Routes.AllSafe, Nat.GatewaySafe, Nat.GatewayAllSafe, CleanLaunch, Routes.Calm,
           Routes.Assenting, HasActiveMoment, Followed, Routes.Steady;
      if !round.readiness.Up? { return if round.readiness.Abandoned? then Cancelled else Failed; }
      var o := ActivateClient(round.context);
      if o.Crashed? { return Died; }
      ghost var trace := client.trace;
      if o.Done? {
        end := MonitorClient(round.clientEvents);
        ActiveMomentStays(trace, client.trace, old(|client.trace|), round.context);
        if end.Died? { return; }
      } else {
        // A rollback that failed replaces the exception.
        end := if round.cancelling && client.journal.None? then Cancelled else Failed;
      }
      trace := client.trace;
      Routes.CalmNow(client.schedule, old(client.clock));
      Routes.SteadyLater(client.schedule, old(client.clock), client.clock);
      o := RollBackClient();
      ActiveMomentStays(trace, client.trace, old(|client.trace|), round.context);
      if o.Crashed? { return Died; }
      if o.Threw? || !round.statusSaved { end := Failed; }
    }

    method ActivateClient(context: GatewayContext) returns (o: Outcome)
      requires Valid() && client.machine.disk.None?
      modifies client
      ensures Valid() && old(client.trace) <= client.trace && old(client.clock) <= client.clock
      ensures !o.Crashed? ==> ClientKnows()
      ensures && Routes.Calm(client.schedule, old(client.clock)) && Routes.Assenting(client.schedule, old(client.clock))
              && old(client.CanActivate(context))
              ==> o.Done? && HasActiveMoment(client.trace, old(|client.trace|), context)
      ensures o.Done? && old(client.state != GatewayActive) ==> Routes.CanRestore(client.machine.link, client.journal)
      ensures old(client.journal.None?) && !client.Welcome(context) ==> o.Threw? && client.journal.None?
    {
      hide Routes.Safe, Routes.AllSafe, Nat.GatewaySafe, Nat.GatewayAllSafe, Routes.Follows, CleanLaunch,
           Routes.Clean, Routes.Installed, Routes.Calm, Routes.Assenting, Routes.Room, RoutePlanner.Protect,
           RoutePlanner.Routed, HasActiveMoment, Routes.Answered, Routes.Planned, RoutePlanner.Plan;
      ghost var before := Routes.Opening(client.Seen());
      Routes.CalmNow(client.schedule, client.clock);
      o := client.Activate(context);
      Routes.FollowsClock(client.schedule, before, client.Seen(), Routes.ALL);
      if o.Done? { ActivatedMoment(context, |before.trace|); }
    }

    /** An activation that nobody interfered with ends in an active moment. */
    lemma ActivatedMoment(context: GatewayContext, length: nat)
      requires client.Activated(context) && length < |client.trace|
      requires client.trace[|client.trace| - 1] == Routes.Moment(client.machine, client.journal)
      ensures (forall r :: r in client.journal.value.owned ==> r in client.machine.routes) ==>
                HasActiveMoment(client.trace, length, context)
    {
      if forall r :: r in client.journal.value.owned ==> r in client.machine.routes {
        assert ActiveMoment(client.trace[|client.trace| - 1], context);
      }
    }

    /** The monitor loop of `GatewayCoordinator.RunAsync`. A health check that does not end the loop
        was answered; if nothing fails, nobody interferes and everything is in place, the event
        that ended the loop decides the result. */
    method MonitorGateway(events: seq<GatewayEvent>) returns (end: RoleEnd)
      requires Valid() && gateway.Recovered()
      modifies gateway
      ensures Valid() && gateway.Recovered()
      ensures old(gateway.trace) <= gateway.trace && old(gateway.clock) <= gateway.clock
      ensures && |events| > 0 && events[0].HealthCheck? && !events[0].cancelling && end.Cancelled?
              ==> Nat.GatewayAnswered(gateway.schedule, old(gateway.clock), gateway.clock)
      ensures && Nat.GatewayCalm(gateway.schedule, old(gateway.clock)) && Nat.Truthful(gateway.schedule)
              && Nat.GatewayAssents(gateway.schedule) && old(gateway.state == Nat.Ready && gateway.InPlace())
              ==> !end.Died? && forall n: nat :: FirstOtherCheck(events, n) ==>
                    (end.Cancelled? <==> n == |events| || events[n].GatewayCancelled?)
      ensures && events != [] && events[0].HealthCheck? && old(gateway.state == Nat.Ready && gateway.journal.Some?)
              && Verdict(gateway.schedule(old(gateway.clock)).fault).Threw?
              ==> (end.Cancelled? <==> events[0].cancelling)
    {
      hide Routes.Safe, Routes.AllSafe, Nat.GatewaySafe, Nat.GatewayAllSafe, Nat.Comes, Nat.Applied, CleanLaunch,
           Nat.GatewayCalm, Nat.GatewayQuiet, Nat.GatewaySteady, Nat.Truthful, Nat.GatewayAssents, Nat.AllOn,
           Nat.ObjectsOf;
      Nat.GatewayCalmLater(gateway.schedule, old(gateway.clock), gateway.clock);
      for i := 0 to |events|
        invariant Valid() && gateway.Recovered() && old(gateway.trace) <= gateway.trace
        invariant old(gateway.clock) <= gateway.clock && gateway.state == old(gateway.state)
        invariant gateway.journal == old(gateway.journal)
        invariant Nat.GatewayQuiet(gateway.schedule, old(gateway.clock)) ==> gateway.machine == old(gateway.machine)
        invariant forall j :: 0 <= j < i ==> events[j].HealthCheck?
        invariant i > 0 ==> Nat.GatewayAnswered(gateway.schedule, old(gateway.clock), gateway.clock)
        invariant i == 0 ==> gateway.clock == old(gateway.clock)
        invariant i > 0 && old(gateway.state == Nat.Ready && gateway.journal.Some?) ==>
                    !Verdict(gateway.schedule(old(gateway.clock)).fault).Threw?
      {
        Nat.GatewayQuietLater(gateway.schedule, old(gateway.clock), gateway.clock);
        Nat.GatewayCalmLater(gateway.schedule, old(gateway.clock), gateway.clock);
        ghost var before := gateway.Seen();
        if !events[i].HealthCheck? { FirstOtherCheckIsUnique(events, i); }
        match events[i] {
          case HealthCheck(cancelling) =>
            var o, healthy := gateway.Check();
            Nat.ComesClock(gateway.schedule, before, gateway.Seen());
            Nat.AnsweredGrows(gateway.schedule, old(gateway.clock), before.clock, gateway.clock);
            if o.Crashed? { return Died; }
            if o.Threw? && cancelling { return Cancelled; }
            if o.Threw? || !healthy { return Failed; }
          case GatewayFails => return Failed;
          case GatewayCancelled => return Cancelled;
        }
      }
      FirstOtherCheckIsUnique(events, |events|);
      end := Cancelled;
    }

    /** The switches a gateway is about. */
    ghost function Switches(tick: nat): seq<nat>
      reads this, gateway
    {
      if gateway.platform.Windows? then gateway.schedule(tick).adapters else [Nat.GLOBAL]
    }

    /** `GatewayCoordinator.RunAsync`: a new bootstrapper, started, monitored, and stopped in
        any case. If it ends as cancelled, no journal file is left. If nothing fails, nobody
        interferes and every query answers yes, the gateway has been serving. */
    method RunGateway(round: Round) returns (end: RoleEnd)
      requires Valid() && gateway.machine.disk.None?
      modifies this`stops, gateway
      ensures Valid() && old(gateway.trace) <= gateway.trace
      ensures end.Cancelled? ==> gateway.machine.disk.None?
      ensures stops == old(stops) || stops == old(stops) + [true]
      ensures round.readiness.Up? && !end.Died? ==> stops == old(stops) + [true]
      ensures round.readiness.TimedOut? ==> end.Failed? && gateway.trace == old(gateway.trace)
      ensures round.readiness.Abandoned? ==> end.Cancelled? && gateway.trace == old(gateway.trace)
      ensures round.readiness.Up? && !round.statusSaved && !end.Died? ==> end.Failed?
      ensures && round.readiness.Up? && Nat.GatewayCalm(gateway.schedule, old(gateway.clock))
              && Nat.Truthful(gateway.schedule) && Nat.GatewayAssents(gateway.schedule)
              && old(gateway.CanStartWith(round.physicalIndex, round.overlay, round.forwarding))
              ==>
                && HasServingMoment(gateway.trace, old(|gateway.trace|), gateway.platform, Switches(old(gateway.clock)))
                && (round.statusSaved ==>
                      forall n: nat :: FirstOtherCheck(round.gatewayEvents, n) ==>
                        (end.Cancelled? <==> n == |round.gatewayEvents| || round.gatewayEvents[n].GatewayCancelled?))
      ensures && round.readiness.Up? && Nat.GatewayCalm(gateway.schedule, old(gateway.clock))
              && !gateway.Separate(round.physicalIndex, round.overlay) && round.statusSaved
              ==> (end.Cancelled? <==> round.cancelling)
    {
      hide Routes.Safe, Routes.AllSafe, Nat.GatewaySafe, Nat.GatewayAllSafe, CleanLaunch, Nat.GatewayCalm,
           Nat.Truthful, Nat.GatewayAssents, HasServingMoment, Nat.AllOn, Nat.ObjectsOf, FirstOtherCheck;
      if !round.readiness.Up? { return if round.readiness.Abandoned? then Cancelled else Failed; }
      var o := StartGateway(round);
      if o.Crashed? { return Died; }
      ghost var trace := gateway.trace;
      Nat.GatewayCalmLater(gateway.schedule, old(gateway.clock), gateway.clock);
      if o.Done? {
        end := MonitorGateway(round.gatewayEvents);
        ServingMomentStays(trace, gateway.trace, old(|gateway.trace|), gateway.platform, Switches(old(gateway.clock)));
        if end.Died? { return; }
      } else {
        end := if round.cancelling then Cancelled else Failed;
      }
      trace := gateway.trace;
      Nat.GatewayCalmLater(gateway.schedule, old(gateway.clock), gateway.clock);
      stops := stops + [gateway.Recovered()];
      o := StopGateway();
      ServingMomentStays(trace, gateway.trace, old(|gateway.trace|), gateway.platform, Switches(old(gateway.clock)));
      if o.Crashed? { return Died; }
      if o.Threw? || !round.statusSaved { end := Failed; }
    }

    method StartGateway(round: Round) returns (o: Outcome)
      requires Valid() && gateway.machine.disk.None?
      modifies gateway
      ensures Valid() && old(gateway.trace) <= gateway.trace && old(gateway.clock) <= gateway.clock
      ensures !o.Crashed? ==> gateway.Recovered()
      ensures && Nat.GatewayCalm(gateway.schedule, old(gateway.clock))
              && Nat.Truthful(gateway.schedule) && Nat.GatewayAssents(gateway.schedule)
              && old(gateway.CanStartWith(round.physicalIndex, round.overlay, round.forwarding))
              ==>
                && o.Done? && gateway.state == Nat.Ready && gateway.InPlace()
                && HasServingMoment(gateway.trace, old(|gateway.trace|), gateway.platform, Switches(old(gateway.clock)))
      ensures !gateway.Separate(round.physicalIndex, round.overlay) ==> o.Threw?
    {
      hide Routes.Safe, Routes.AllSafe, Nat.GatewaySafe, Nat.GatewayAllSafe, Nat.Comes, Nat.GatewayClean, Nat.Applied,
           CleanLaunch, Nat.Restored, Nat.GatewayCalm, Nat.Truthful, Nat.GatewayAssents, Nat.AllOn, Nat.ObjectsOf,
           HasServingMoment, Nat.NatInPlace, Nat.Identities, Nat.GatewayAnswered;
      gateway.Restart();
      gateway.OthersSwitch(round.forwarding);
      ghost var before := gateway.Seen();
      Nat.GatewayCalmLater(gateway.schedule, gateway.clock, gateway.clock);
      o := gateway.Start(round.physicalIndex, round.overlay);
      Nat.ComesClock(gateway.schedule, before, gateway.Seen());
      if o.Done? { StartedMoment(before.clock, |before.trace|); }
    }

    method StopGateway() returns (o: Outcome)
      requires Valid() && gateway.Recovered()
      modifies gateway
      ensures Valid() && old(gateway.trace) <= gateway.trace
      ensures o.Done? ==> gateway.machine.disk.None?
      ensures Nat.GatewayCalm(gateway.schedule, old(gateway.clock)) ==> o.Done?
    {
      hide Routes.Safe, Routes.AllSafe, Nat.GatewaySafe, Nat.GatewayAllSafe, Nat.Comes, Nat.GatewayClean, CleanLaunch,
           Nat.Restored, Nat.GatewayCalm, Nat.LeavesOnly, Nat.GatewayBadCount;
      ghost var before := gateway.Seen();
      var errors;
      o, errors := gateway.Stop();
      Nat.ComesClock(gateway.schedule, before, gateway.Seen());
    }

    /** A start that nobody interfered with ends in a serving moment. */
    lemma StartedMoment(tick: nat, length: nat)
      requires gateway.journal.Some? && gateway.machine.disk == gateway.journal && length < |gateway.trace|
      requires gateway.journal.value.forwardingMayHaveChanged && gateway.journal.value.natMayExist
      requires gateway.AboutSwitches(gateway.journal.value.snapshot, tick)
      requires gateway.trace[|gateway.trace| - 1] == Nat.GatewayMoment(gateway.machine, gateway.journal)
      ensures gateway.InPlace() ==> HasServingMoment(gateway.trace, length, gateway.platform, Switches(tick))
    {
      if gateway.InPlace() {
        var s := gateway.journal.value.snapshot;
        Nat.AllOnMeans(gateway.machine, s);
        Nat.ObjectsAreNat(s, gateway.machine.objects);
        assert Nat.Identities(s) == Switches(tick);
        assert ServingMoment(gateway.trace[|gateway.trace| - 1], gateway.platform, Switches(tick));
      }
    }

    // ------------------------------------------------------- restart loop

    method RecoverClient() returns (o: Outcome)
      requires Valid()
      modifies client
      ensures Valid() && old(client.trace) <= client.trace && old(client.clock) <= client.clock
      ensures o.Done? ==> client.machine.disk.None? && Routes.Clean(client.machine)
      ensures old(client.machine.disk.None?) ==>
                o.Done? && client.clock == old(client.clock) && client.trace == old(client.trace)
                && client.journal == old(client.journal) && client.machine.routes == old(client.machine.routes)
      ensures && Routes.Steady(client.schedule, old(client.clock))
              ==> (o.Done? <==> old(Routes.CanRestore(client.machine.link, client.machine.disk))) && !o.Crashed?
    {
      hide Routes.Safe, Routes.AllSafe, Nat.GatewaySafe, Nat.GatewayAllSafe, Routes.Follows, Routes.Clean,
           Routes.Steady, CleanLaunch;
      ghost var before := Routes.Opening(client.Seen());
      o := client.Recover();
      Routes.FollowsClock(client.schedule, before, client.Seen(), Routes.ALL);
    }

    /** One round: recover the client, launch Core, run the role. The loop goes on only if
        no role ran or it ended as cancelled; any other end is rethrown. */
    method RunRound(role: Role, round: Round) returns (end: RoleEnd)
      requires Valid() && gateway.machine.disk.None?
      modifies this`launches, this`stops, client, gateway
      ensures Valid()
      ensures end.Cancelled? ==> gateway.machine.disk.None?
      ensures end.Cancelled? && |launches| > |old(launches)| && role.ClientRole? ==> client.machine.disk.None?
      ensures old(launches) <= launches && |launches| <= |old(launches)| + 1 && old(stops) <= stops
      ensures end.Failed? ==> |launches| == |old(launches)| + 1
      ensures round.launchFails ==> launches == old(launches)
      ensures && Routes.Steady(client.schedule, old(client.clock)) && old(client.machine.disk.None?)
              && !round.launchFails
              ==> |launches| == |old(launches)| + 1
      ensures old(client.machine.disk.None?) && end.Cancelled? ==> client.machine.disk.None?
      ensures old(client.clock) <= client.clock
      ensures && |launches| > |old(launches)| && role.ClientRole? && round.readiness.Up?
              && Routes.Calm(client.schedule, old(client.clock)) && Routes.Assenting(client.schedule, old(client.clock))
              && old(client.CanActivateOn(round.context, round.link))
              ==> HasActiveMoment(client.trace, old(|client.trace|), round.context)
      ensures && |launches| > |old(launches)| && role.GatewayRole? && round.readiness.Up?
              && Nat.GatewayCalm(gateway.schedule, old(gateway.clock))
              && Nat.Truthful(gateway.schedule) && Nat.GatewayAssents(gateway.schedule)
              && old(gateway.CanStartWith(round.physicalIndex, round.overlay, round.forwarding))
              ==> HasServingMoment(gateway.trace, old(|gateway.trace|), gateway.platform, Switches(old(gateway.clock)))
    {
      hide Routes.Safe, Routes.AllSafe, Nat.GatewaySafe, Nat.GatewayAllSafe, Nat.GatewayClean, Routes.Clean,
           Routes.Steady, Routes.Calm, Routes.Assenting, Routes.Room, Nat.GatewayCalm, Nat.Truthful,
           Nat.GatewayAssents, HasActiveMoment, HasServingMoment, RoutePlanner.Protect;
      var o := RecoverClient();
      if o.Crashed? { return Died; }
      if o.Threw? || round.launchFails { return Cancelled; }
      Nat.GatewayNoFileMeansClean(gateway.machine, gateway.journal);
      launches := launches + [Launch(client.machine, gateway.machine)];
      client.OthersSetLink(round.link);
      match role {
        case OverlayOnly => end := Cancelled;
        case GatewayRole => end := RunGateway(round);
        case ClientRole => end := RunClient(round);
      }
    }

    /** `RunAsync`, with what it will meet. Both recoveries come first, and the loop ends when a
        role fails or Core cannot be stopped. At the end the status tells whether a journal is
        left, if Core can be stopped and the status saved. A client whose resolver cannot be
        restored never gets to the loop, even if no call fails. */
    method RunAsync(life: Life) returns (exit: Exit, status: Status)
      requires Valid()
      modifies this`launches, this`stops, client, gateway
      ensures Valid() && old(launches) <= launches && old(stops) <= stops && old(client.clock) <= client.clock
      ensures status == if exit.Killed? || exit.NotStarted? || !life.coreStops || !life.statusSaved then NotWritten
                        else if client.machine.disk.None? && gateway.machine.disk.None? then AllStopped
                        else RecoveryRequired
      ensures exit.Ended? ==> life.coreStops && life.statusSaved && gateway.machine.disk.None?
      ensures exit.NotStarted? ==> launches == old(launches)
      ensures exit.Ended? ==> forall i :: 0 <= i < |life.rounds| ==> life.rounds[i].coreStops
      ensures && exit.Ended? && Routes.Steady(client.schedule, old(client.clock))
              && Launching(life)
              ==> |launches| == |old(launches)| + |life.rounds|
      ensures && Routes.Steady(client.schedule, old(client.clock))
              && old(!Routes.CanRestore(client.machine.link, client.machine.disk))
              ==> exit.NotStarted?
    {
      hide Routes.Safe, Routes.AllSafe, Nat.GatewaySafe, Nat.GatewayAllSafe, Routes.Follows, Nat.GatewayClean,
           Routes.Clean, CleanLaunch, Nat.Comes, Routes.Steady;
      status := NotWritten;
      var o := RecoverClient();
      if o.Done? { o := gateway.Recover(); }
      if o.Crashed? { return Killed, status; }
      if o.Threw? || !life.prepared { return NotStarted, status; }
      exit := Ended;
      var i := 0;
      while i < |life.rounds| && exit.Ended?
        invariant 0 <= i <= |life.rounds| && Valid() && (exit.Ended? || exit.Broken?)
        invariant old(launches) <= launches && old(stops) <= stops && old(client.clock) <= client.clock
        invariant exit.Ended? ==> gateway.machine.disk.None? && client.machine.disk.None?
        invariant exit.Ended? ==> forall j :: 0 <= j < i ==> life.rounds[j].coreStops
        invariant && exit.Ended? && Routes.Steady(client.schedule, old(client.clock))
                  && Launching(life)
                  ==> |launches| == |old(launches)| + i
      {
        Routes.SteadyLater(client.schedule, old(client.clock), client.clock);
        var end := RunRound(life.role, life.rounds[i]);
        if end.Died? { return Killed, status; }
        if end.Failed? || !life.rounds[i].coreStops { exit := Broken; }
        i := i + 1;
      }
      if !life.coreStops || !life.statusSaved { return Broken, status; }
      status := if client.machine.disk.Some? || gateway.machine.disk.Some? then RecoveryRequired else AllStopped;
    }

    /** Any number of lives of the service on one machine, each ended by its own exit or by a
        crash: every Core launch of every life finds no journal file and nothing of the host on
        the machine but what it has forgotten, which is nothing if every query can tell;
        and no bootstrapper is ever stopped over an unrecovered file. If no call of the client fails
        and every launch works, lives that end by themselves launch Core once in each round. */
    method Lives(lives: seq<Life>) returns (exits: seq<Exit>)
      requires Valid()
      modifies this`launches, this`stops, client, gateway
      ensures |exits| == |lives| && Valid() && old(launches) <= launches && old(stops) <= stops
      ensures forall i :: 0 <= i < |launches| ==> CleanLaunch(launches[i])
      ensures gateway.Honest() ==> forall i :: 0 <= i < |launches| ==> launches[i].gateway.orphans == {}
      ensures forall i :: 0 <= i < |stops| ==> stops[i]
      ensures && Routes.Steady(client.schedule, old(client.clock))
              && (forall i :: 0 <= i < |lives| ==> exits[i].Ended? && Launching(lives[i]))
              ==> |launches| == |old(launches)| + RoundCount(lives)
    {
      hide Routes.Safe, Routes.AllSafe, Nat.GatewaySafe, Nat.GatewayAllSafe, CleanLaunch, Routes.Steady, RoundCount,
           Launching;
      exits := [];
      if lives != [] { RoundCountStep(lives, 0); } else { NoLives(); }
      for i := 0 to |lives|
        invariant |exits| == i && Valid() && old(launches) <= launches && old(stops) <= stops
        invariant old(client.clock) <= client.clock
        invariant && Routes.Steady(client.schedule, old(client.clock))
                  && (forall j :: 0 <= j < i ==> exits[j].Ended? && Launching(lives[j]))
                  ==> |launches| == |old(launches)| + RoundCount(lives[..i])
      {
        RoundCountStep(lives, i);
        Routes.SteadyLater(client.schedule, old(client.clock), client.clock);
        client.Restart();
        gateway.Restart();
        var exit, status := RunAsync(lives[i]);
        ghost var before := exits;
        exits := exits + [exit];
        assert exits[i] == exit && forall j :: 0 <= j < i ==> exits[j] == before[j];
      }
      assert lives[..|lives|] == lives;
    }

    /** `RecoverNetworkAsync` with `NetworkRecovery.RestoreAsync`: both are tried, whatever the
        first one does. A normal return means that both machines are clean. */
    method RecoverNetwork() returns (o: Outcome)
      requires Valid()
      modifies client, gateway
      ensures Valid()
      ensures o.Done? ==> && client.machine.disk.None? && Routes.Clean(client.machine)
                          && gateway.machine.disk.None? && Nat.GatewayClean(gateway.machine)
      ensures !o.Crashed? && Nat.GatewayCalm(gateway.schedule, old(gateway.clock)) ==>
                gateway.machine.disk.None? && Nat.GatewayClean(gateway.machine)
      ensures && Routes.Steady(client.schedule, old(client.clock))
              && old(!Routes.CanRestore(client.machine.link, client.machine.disk))
              ==> !o.Done?
    {
      hide Routes.Safe, Routes.AllSafe, Nat.GatewaySafe, Nat.GatewayAllSafe, Routes.Follows, Nat.GatewayClean,
           Routes.Clean, CleanLaunch, Nat.Comes, Nat.GatewayCalm;
      var first := client.Recover();
      if first.Crashed? { return first; }
      var second := gateway.Recover();
      if second.Crashed? { return second; }
      if first.Threw? || second.Threw? { return Threw; }
      if client.machine.disk.Some? || gateway.machine.disk.Some? { return Threw; }
      o := Done;
    }
  }
}
