/** `GatewayRouteController` with the machine it works on
    (src/EasyTierHost.Network/GatewayRouteController.cs). */
module RouteController {
  import opened Options
  import opened Addresses
  import opened AwaitedCalls
  import opened ResolvedLink
  import opened RoutePlanner
  import opened RouteTransaction

  class GatewayRouteController {
    // What happens to the machine, call by call.
    const schedule: Schedule

    // The process: lost in a crash.
    var journal: Option<RouteJournal>
    var state: GatewayState

    // The machine: survives a crash.
    var machine: Machine
    var clock: nat

    // Every instant so far.
    ghost var trace: seq<Moment>

    ghost function Seen(): View
      reads this
    {
      View(machine, clock, trace)
    }

    /** The write-ahead rule holds now and held at every recorded moment. */
    ghost predicate Valid()
      reads this
    {
      Safe(machine, journal) && AllSafe(trace)
    }

    /** An active gateway has its journal, in memory and on disk. */
    ghost predicate Ready()
      reads this
    {
      state == GatewayActive ==> journal.Some? && machine.disk.Some?
    }

    /** A valid point of a run that comes after `from`; see `Follows`. */
    ghost predicate Since(from: View, except: iset<RouteEntry>)
      reads this
    {
      Valid() && Follows(schedule, from, Seen(), except)
    }

    /** A machine the host has never touched. */
    constructor (schedule: Schedule, routes: set<RouteEntry>, link: Link)
      ensures Valid() && Ready()
      ensures this.schedule == schedule && clock == 0 && trace == []
      ensures machine == Machine(routes, link, None, routes, {}, {}, {}, None, link, false)
      ensures journal.None? && state == PhysicalOnly
    {
      this.schedule := schedule;
      machine, clock, trace := Machine(routes, link, None, routes, {}, {}, {}, None, link, false), 0, [];
      journal, state := None, PhysicalOnly;
    }

    // ------------------------------------------------------ awaited calls

    /** Let a call be pending: other programs act. */
    method Await(ghost from: View, ghost except: iset<RouteEntry>) returns (t: Tick)
      requires Since(from, except)
      modifies this`clock, this`machine, this`trace
      ensures Since(from, except)
      ensures t == schedule(old(clock)) && clock == old(clock) + 1
      ensures Drifts(old(machine), machine, journal)
      ensures machine.link == if t.linkLost then Absent else old(machine.link)
      ensures Quiet(schedule, old(clock)) ==>
                machine.foreign == old(machine.foreign) && machine.routes == old(machine.routes)
    {
      hide Safe, Follows, AllSafe, Interfere, Drifts;
      t := schedule(clock);
      InterferenceDrifts(machine, journal, t);
      InterfereIsSafe(machine, journal, t);
      FollowsInterference(schedule, from, Seen(), journal, except);
      clock, machine := clock + 1, Interfere(machine, journal, t);
      AllSafeGrows(trace, machine, journal);
      trace := trace + [Moment(machine, journal)];
    }

    /** Record a change of memory, or of bookkeeping. */
    ghost method Record(from: View, except: iset<RouteEntry>)
      requires AllSafe(trace) && Safe(machine, journal) && Follows(schedule, from, Seen(), except)
      modifies this`trace
      ensures Since(from, except)
      ensures trace == old(trace) + [Moment(machine, journal)]
    {
      hide Safe, Follows, AllSafe;
      FollowsStep(schedule, from, Seen(), machine, journal, except);
      AllSafeGrows(trace, machine, journal);
      trace := trace + [Moment(machine, journal)];
    }

    method ListRoutes(ghost from: View, ghost except: iset<RouteEntry>) returns (o: Outcome, table: set<RouteEntry>)
      requires Since(from, except)
      modifies this`clock, this`machine, this`trace
      ensures Since(from, except)
      ensures Drifts(old(machine), machine, journal)
      ensures machine.link == if schedule(old(clock)).linkLost then Absent else old(machine.link)
      ensures Quiet(schedule, old(clock)) ==>
                machine.foreign == old(machine.foreign) && machine.routes == old(machine.routes)
      ensures table == machine.routes
      ensures o == Verdict(schedule(old(clock)).fault) && clock == old(clock) + 1
    {
      hide *;
      var t := Await(from, except);
      o, table := Verdict(t.fault), machine.routes;
    }

    /** `SaveAtomicAsync`: the file holds the old or the new journal, never a mixture. */
    method Save(ghost from: View, ghost except: iset<RouteEntry>) returns (o: Outcome)
      requires Since(from, except) && journal.Some?
      modifies this`clock, this`machine, this`trace
      ensures Since(from, except)
      ensures o == Verdict(schedule(old(clock)).fault) && clock == old(clock) + 1
      ensures machine.disk == if Happens(schedule(old(clock)).fault) then journal else old(machine.disk)
      ensures Drifts(old(machine), machine.(disk := old(machine.disk)), journal)
      ensures Keeps(old(machine), machine, iset{})
      ensures machine.link == if schedule(old(clock)).linkLost then Absent else old(machine.link)
      ensures Quiet(schedule, old(clock)) ==>
                machine.foreign == old(machine.foreign) && machine.routes == old(machine.routes)
    {
      hide Safe, Follows, AllSafe;
      var t := Await(from, except);
      if Happens(t.fault) {
        SaveIsSafe(machine, journal);
        FollowsStep(schedule, from, Seen(), machine.(disk := journal), journal, except);
        machine := machine.(disk := journal);
        AllSafeGrows(trace, machine, journal);
        trace := trace + [Moment(machine, journal)];
      }
      o := Verdict(t.fault);
    }

    method AddRoute(route: RouteEntry, ghost from: View, ghost except: iset<RouteEntry>) returns (o: Outcome)
      requires Since(from, except) && journal.Some? && machine.disk.Some?
      requires route in journal.value.owned && route in machine.disk.value.owned
      modifies this`clock, this`machine, this`trace
      ensures Since(from, except)
      ensures o == Verdict(schedule(old(clock)).fault) && clock == old(clock) + 1
      ensures machine.disk == old(machine.disk) && machine.base == old(machine.base)
      ensures machine.host <= old(machine.host) + {route} && Keeps(old(machine), machine, iset{})
      ensures Quiet(schedule, old(clock)) ==> machine.foreign == old(machine.foreign)
      ensures LinkStays(old(machine.link), machine.link)
      ensures Quiet(schedule, old(clock)) && o.Done? ==> machine.routes == old(machine.routes) + {route}
      ensures o.Done? ==> route in machine.host
      ensures machine.link == if schedule(old(clock)).linkLost then Absent else old(machine.link)
    {
      hide Safe, Follows, AllSafe;
      var t := Await(from, except);
      if Happens(t.fault) {
        PutIsSafe(machine, journal, route);
        FollowsStep(schedule, from, Seen(), Put(machine, route), journal, except);
        machine := Put(machine, route);
        AllSafeGrows(trace, machine, journal);
        trace := trace + [Moment(machine, journal)];
      }
      o := Verdict(t.fault);
    }

    method DeleteRoute(route: RouteEntry, ghost from: View, ghost except: iset<RouteEntry>) returns (o: Outcome)
      requires Since(from, except) && journal.Some? && route in journal.value.owned && route in except
      modifies this`clock, this`machine, this`trace
      ensures Since(from, except)
      ensures o == Verdict(schedule(old(clock)).fault) && clock == old(clock) + 1
      ensures machine.disk == old(machine.disk) && machine.base == old(machine.base)
      ensures machine.host <= old(machine.host) && Keeps(old(machine), machine, iset{route})
      ensures machine.link == if schedule(old(clock)).linkLost then Absent else old(machine.link)
      ensures Quiet(schedule, old(clock)) ==> machine.foreign == old(machine.foreign)
      ensures o.Done? && !schedule(old(clock)).ignored ==> route !in machine.routes
    {
      hide Safe, Follows, AllSafe;
      var t := Await(from, except);
      if Happens(t.fault) && !t.ignored {
        TakeIsSafe(machine, journal, route);
        FollowsStep(schedule, from, Seen(), Take(machine, route), journal, except);
        machine := Take(machine, route);
        AllSafeGrows(trace, machine, journal);
        trace := trace + [Moment(machine, journal)];
      }
      o := Verdict(t.fault);
    }

    // ------------------------------------------------------ owned routes

    /** Journal a route whose destination nobody has, then add it. */
    method AddOwned(route: RouteEntry, ghost from: View, ghost except: iset<RouteEntry>) returns (o: Outcome)
      requires Since(from, except) && journal.Some? && machine.disk.Some?
      modifies this`journal, this`clock, this`machine, this`trace
      ensures Since(from, except)
      ensures journal.Some? && machine.disk.Some? && machine.base == old(machine.base) && old(clock) <= clock
      ensures o.Done? ==> journal.value == old(journal.value).(owned := old(journal.value.owned) + [route])
                          && machine.disk == journal && route in machine.host
      ensures LinkStays(old(machine.link), machine.link)
      ensures Keeps(old(machine), machine, iset{})
      ensures Quiet(schedule, old(clock)) ==> machine.foreign == old(machine.foreign)
      ensures o.Done? && Quiet(schedule, old(clock)) ==>
                forall q :: q in old(machine.foreign) ==> q.destination != route.destination
      ensures o.Done? && Quiet(schedule, old(clock)) ==>
                Room(old(machine.routes), [route]) && machine.routes == old(machine.routes) + {route}
      ensures Calm(schedule, old(clock)) && Room(old(machine.routes), [route]) ==>
                o.Done? && machine.routes == old(machine.routes) + {route} && machine.link == old(machine.link)
    {
      hide Safe, Follows, AllSafe;
      var table;
      o, table := ListRoutes(from, except);
      if !o.Done? { return; }
      if exists q :: q in table && q.destination == route.destination { return Threw; }
      ClaimIsSafe(machine, journal.value, route);
      journal := Some(journal.value.(owned := journal.value.owned + [route]));
      Record(from, except);
      o := Save(from, except);
      if !o.Done? { return; }
      o := AddRoute(route, from, except);
    }

    /** Delete an owned route if it is there, make sure it is gone, then forget it. */
    method RemoveOwned(route: RouteEntry, ghost from: View, ghost except: iset<RouteEntry>) returns (o: Outcome)
      requires Since(from, except) && journal.Some? && machine.disk.Some? && route in except
      modifies this`journal, this`clock, this`machine, this`trace
      ensures Since(from, except)
      ensures journal.Some? && machine.disk.Some? && machine.base == old(machine.base) && old(clock) <= clock
      ensures machine.host <= old(machine.host)
      ensures journal.value == old(journal.value)
              || journal.value == old(journal.value).(owned := Without(old(journal.value.owned), route))
      ensures o.Done? ==> journal.value == old(journal.value).(owned := Without(old(journal.value.owned), route))
                          && route !in machine.host
      ensures o.Done? && (old(machine.disk == journal) || route in old(journal.value.owned)) ==> machine.disk == journal
      ensures machine.disk == old(machine.disk) || machine.disk == journal
      ensures Quiet(schedule, old(clock)) ==> machine.foreign == old(machine.foreign)
      ensures LinkStays(old(machine.link), machine.link)
      ensures Keeps(old(machine), machine, iset{route})
      ensures o.Threw? ==> SomeBad(schedule, old(clock), clock)
      ensures Steady(schedule, old(clock)) ==> o.Done? && machine.link == old(machine.link)
    {
      hide Safe, Follows, AllSafe;
      if route !in journal.value.owned {
        WithoutAbsent(journal.value.owned, route);
        OwnedOnly(machine, journal.value, route);
        return Done;
      }
      var table;
      o, table := ListRoutes(from, except);
      if !o.Done? { return; }
      if route in table {
        o := DeleteRoute(route, from, except);
        if !o.Done? { return; }
      }
      o, table := ListRoutes(from, except);
      if !o.Done? { return; }
      if route in table { return Threw; }
      UnclaimIsSafe(machine, journal.value, route);
      journal := Some(journal.value.(owned := Without(journal.value.owned, route)));
      Record(from, except);
      o := Save(from, except);
    }

    // ------------------------------------------------------ resolver

    /** The settings of the overlay link, as `ResolvedLink.ReadAsync` reports them. */
    method ReadLink(ghost from: View, ghost except: iset<RouteEntry>) returns (o: Outcome, l: Link)
      requires Since(from, except)
      modifies this`clock, this`machine, this`trace
      ensures Since(from, except)
      ensures Drifts(old(machine), machine, journal) && clock == old(clock) + 1
      ensures Quiet(schedule, old(clock)) ==>
                machine.foreign == old(machine.foreign) && machine.routes == old(machine.routes)
      ensures machine.link == if schedule(old(clock)).linkLost then Absent else old(machine.link)
      ensures l == machine.link
      ensures o.Done? ==> l.Present?
      ensures Verdict(schedule(old(clock)).fault).Done? && l.Present? ==> o.Done?
    {
      hide *;
      var t := Await(from, except);
      o, l := Verdict(t.fault), machine.link;
      if o.Done? && l.Absent? { o := Threw; }
    }

    method RunCommand(command: Command, ghost from: View, ghost except: iset<RouteEntry>) returns (o: Outcome)
      requires Since(from, except) && Flagged(journal) && Tame(command)
      requires machine.base.Some? && (machine.link.Present? ==> SameLink(machine.link, machine.base.value))
      requires Flagged(machine.disk) || command in RestoreScript(machine.base.value)
      modifies this`clock, this`machine, this`trace
      ensures Since(from, except)
      ensures machine.disk == old(machine.disk) && machine.base == old(machine.base)
      ensures Quiet(schedule, old(clock)) ==>
                machine.foreign == old(machine.foreign) && machine.routes == old(machine.routes)
      ensures Keeps(old(machine), machine, iset{})
      ensures machine.host <= old(machine.host) && clock == old(clock) + 1
      ensures LinkOnlyLost(old(machine.link), machine.link)
      ensures o.Done? && machine.link.Present? ==> machine.link == Run(old(machine.link), command)
      ensures Steady(schedule, old(clock)) && old(machine.link).Present? ==> o.Done? && machine.link.Present?
      ensures o.Threw? && old(machine.link).Present? ==> Bad(schedule(old(clock)))
      ensures old(machine.link).Present? && machine.link.Absent? ==> Bad(schedule(old(clock)))
    {
      hide Safe, Follows, AllSafe, Tame, RestoreScript, Run;
      var t := Await(from, except);
      o := Verdict(t.fault);
      if machine.link.Absent? {
        if o.Done? && !command.FlushCaches? { o := Threw; }
      } else if Happens(t.fault) {
        CommandIsSafe(machine, journal, command);
        CommandKeepsIdentity(machine.link, command);
        FollowsStep(schedule, from, Seen(), machine.(link := Run(machine.link, command)), journal, except);
        machine := machine.(link := Run(machine.link, command));
        AllSafeGrows(trace, machine, journal);
        trace := trace + [Moment(machine, journal)];
      }
    }

    method RunScript(script: seq<Command>, ghost from: View, ghost except: iset<RouteEntry>) returns (o: Outcome)
      requires Since(from, except) && Flagged(journal)
      requires forall c :: c in script ==> Tame(c)
      requires machine.base.Some? && (machine.link.Present? ==> SameLink(machine.link, machine.base.value))
      requires Flagged(machine.disk) || forall c :: c in script ==> c in RestoreScript(machine.base.value)
      modifies this`clock, this`machine, this`trace
      ensures Since(from, except)
      ensures machine.disk == old(machine.disk) && machine.base == old(machine.base)
      ensures Quiet(schedule, old(clock)) ==>
                machine.foreign == old(machine.foreign) && machine.routes == old(machine.routes)
      ensures Keeps(old(machine), machine, iset{})
      ensures machine.host <= old(machine.host) && old(clock) <= clock
      ensures LinkOnlyLost(old(machine.link), machine.link)
      ensures o.Done? && machine.link.Present? ==> machine.link == RunAll(old(machine.link), script)
      ensures Steady(schedule, old(clock)) && old(machine.link).Present? ==> o.Done?
      ensures o.Threw? && old(machine.link).Present? ==> SomeBad(schedule, old(clock), clock)
      ensures o.Done? ==> clock == old(clock) + |script|
    {
      hide Safe, Follows, AllSafe, Tame, RestoreScript, Run, Bad;
      var i := 0;
      while i < |script|
        invariant 0 <= i <= |script| && clock == old(clock) + i
        invariant old(machine.link).Present? && machine.link.Absent? ==> SomeBad(schedule, old(clock), clock)
        invariant Since(from, except)
        invariant machine.disk == old(machine.disk) && machine.base == old(machine.base)
        invariant machine.host <= old(machine.host)
        invariant LinkOnlyLost(old(machine.link), machine.link)
        invariant machine.link.Present? ==> RunAll(machine.link, script[i..]) == RunAll(old(machine.link), script)
        invariant Steady(schedule, old(clock)) && old(machine.link).Present? ==> machine.link.Present?
        invariant Keeps(old(machine), machine, iset{})
        invariant Quiet(schedule, old(clock)) ==>
                    machine.foreign == old(machine.foreign) && machine.routes == old(machine.routes)
      {
        assert script[i] in script;
        assert script[i..][0] == script[i] && script[i..][1..] == script[i + 1..];
        ghost var at := clock;
        o := RunCommand(script[i], from, except);
        SomeBadGrows(schedule, old(clock), old(clock), at, clock);
        if !o.Done? { return; }
        i := i + 1;
      }
      assert script[i..] == [];
      o := Done;
    }

    /** Capture an unused resolver; anything else is refused. */
    method CaptureDns(ghost from: View, ghost except: iset<RouteEntry>) returns (o: Outcome, dns: DnsSnapshot)
      requires Since(from, except)
      modifies this`clock, this`machine, this`trace
      ensures Since(from, except)
      ensures Drifts(old(machine), machine, journal) && old(clock) <= clock
      ensures Quiet(schedule, old(clock)) ==>
                machine.foreign == old(machine.foreign) && machine.routes == old(machine.routes)
      ensures o.Done? ==> Pristine(dns) && machine.link == Original(dns) && machine.link == old(machine.link)
      ensures Steady(schedule, old(clock)) && Unused(old(machine.link)) ==> o.Done? && machine.link == old(machine.link)
    {
      hide Safe, Follows, AllSafe;
      dns := DnsSnapshot(0, [], [], false);
      if machine.link.Absent? { return Threw, dns; }
      var l;
      o, l := ReadLink(from, except);
      if !o.Done? { return; }
      if l.servers != [] || l.domains != [] { return Threw, dns; }
      dns := DnsSnapshot(l.identity, l.servers, l.domains, l.defaultRoute);
    }

    method ApplyDns(dns: DnsSnapshot, ghost from: View, ghost except: iset<RouteEntry>) returns (o: Outcome)
      requires Since(from, except) && Flagged(journal) && Flagged(machine.disk) && machine.base == Some(dns)
      modifies this`clock, this`machine, this`trace
      ensures Since(from, except)
      ensures machine.disk == old(machine.disk) && machine.base == old(machine.base)
      ensures Quiet(schedule, old(clock)) ==>
                machine.foreign == old(machine.foreign) && machine.routes == old(machine.routes)
      ensures Keeps(old(machine), machine, iset{})
      ensures machine.host <= old(machine.host) && old(clock) <= clock
      ensures o.Done? ==>
                machine.link.Absent? || machine.link == Switched(dns)
      ensures o.Done? ==> clock == old(clock) + 5 && SameLink(old(machine.link), dns) && Unused(old(machine.link))
      ensures Steady(schedule, old(clock)) && SameLink(old(machine.link), dns) && Unused(old(machine.link)) ==> o.Done?
    {
      hide Safe, Follows, AllSafe, ApplyScript, RestoreScript, Tame;
      if !SameLink(machine.link, dns) { return Threw; }
      var l;
      o, l := ReadLink(from, except);
      if !o.Done? { return; }
      if l.servers != [] || l.domains != [] { return Threw; }
      ScriptsAreTame(dns);
      ApplyScriptApplies(machine.link);
      o := RunScript(ApplyScript(), from, except);
    }

    /** Undo the resolver change. A link that is not the captured one, or that somebody else has
        configured since, is refused and left alone. */
    method RestoreDns(ghost from: View, ghost except: iset<RouteEntry>) returns (o: Outcome)
      requires Since(from, except) && Flagged(journal)
      modifies this`clock, this`machine, this`trace
      ensures Since(from, except)
      ensures machine.disk == old(machine.disk) && machine.base == old(machine.base)
      ensures machine.host <= old(machine.host) && old(clock) <= clock
      ensures o.Done? ==> machine.link.Absent? || machine.link == Original(journal.value.snapshot.dns)
      ensures o.Done? ==> !Changed(machine)
      ensures o.Done? && old(machine.link).Present? ==> clock == old(clock) + 5
      ensures o.Done? ==> Restorable(old(machine.link), journal.value.snapshot.dns)
      ensures o.Threw? && Restorable(old(machine.link), journal.value.snapshot.dns) ==>
                SomeBad(schedule, old(clock), clock)
      ensures Steady(schedule, old(clock)) ==>
                !o.Crashed? && (o.Done? <==> Restorable(old(machine.link), journal.value.snapshot.dns))
      ensures !Restorable(old(machine.link), journal.value.snapshot.dns) ==> LinkStays(old(machine.link), machine.link)
      ensures Steady(schedule, old(clock)) && o.Threw? ==> machine.link == old(machine.link)
    {
      hide Safe, Follows, AllSafe, RestoreScript, Tame, Accepts;
      var dns := journal.value.snapshot.dns;
      JournalMatches(machine, journal.value);
      if machine.link.Absent? { return Done; }
      if !SameLink(machine.link, dns) { return Threw; }
      var l;
      o, l := ReadLink(from, except);
      if !o.Done? { return; }
      JournalMatches(machine, journal.value);
      if !Accepts(l) { return Threw; }
      ScriptsAreTame(dns);
      RestoreScriptRestores(machine.link, dns);
      o := RunScript(RestoreScript(dns), from, except);
    }

    // ------------------------------------------------------ rollback and recovery

    /** `File.Delete` of the journal, allowed once it lists nothing. */
    method DeleteFile(ghost from: View, ghost except: iset<RouteEntry>) returns (o: Outcome)
      requires Since(from, except) && journal.Some? && journal.value.owned == [] && !journal.value.dnsMayHaveChanged
      modifies this`clock, this`machine, this`trace
      ensures Since(from, except)
      ensures o == Verdict(schedule(old(clock)).fault) && clock == old(clock) + 1
      ensures machine.host <= old(machine.host) && machine.base == old(machine.base)
      ensures Clean(machine) && LinkStays(old(machine.link), machine.link)
      ensures o.Done? ==> machine.disk.None?
    {
      hide Safe, Follows, AllSafe, Clean;
      var t := Await(from, except);
      CloseIsSafe(machine, journal.value);
      if Happens(t.fault) {
        FollowsStep(schedule, from, Seen(), machine.(disk := None), journal, except);
        machine := machine.(disk := None);
        NoFileMeansClean(machine, journal);
        AllSafeGrows(trace, machine, journal);
        trace := trace + [Moment(machine, journal)];
      }
      o := Verdict(t.fault);
    }

    /** Remove one owned route; a failure is noted. */
    method RemoveOrReport(
        route: RouteEntry, errors: seq<Target>, ghost from: View) returns (o: Outcome, noted: seq<Target>)
      requires Since(from, ALL) && journal.Some? && machine.disk.Some?
      modifies this`journal, this`clock, this`machine, this`trace
      ensures Since(from, ALL) && old(clock) <= clock
      ensures journal.Some? && machine.disk.Some? && machine.base == old(machine.base)
      ensures machine.host <= old(machine.host)
      ensures journal.value.snapshot == old(journal.value.snapshot)
      ensures journal.value.dnsMayHaveChanged == old(journal.value.dnsMayHaveChanged)
      ensures o.Done? || o.Crashed?
      ensures noted == errors || (noted == errors + [OnRoute(route)] && BadCount(schedule, old(clock), clock) > 0)
      ensures forall r :: r in journal.value.owned ==> r in old(journal.value.owned)
      ensures o.Done? && route in journal.value.owned ==> noted == errors + [OnRoute(route)]
      ensures old(Flagged(journal) && Flagged(machine.disk)) ==> Flagged(machine.disk)
      ensures LinkStays(old(machine.link), machine.link)
      ensures Steady(schedule, old(clock)) ==> o.Done? && noted == errors && machine.link == old(machine.link)
    {
      hide Safe, Follows, AllSafe, Steady, Without, Keeps;
      WithoutMembers(journal.value.owned, route);
      noted := errors;
      o := RemoveOwned(route, from, ALL);
      if o.Threw? {
        BadIsCounted(schedule, old(clock), clock);
        o, noted := Done, errors + [OnRoute(route)];
      }
    }

    /** Try to remove every owned route, newest first, whatever fails on the way. */
    method RemoveAllOwned(ghost from: View) returns (o: Outcome, errors: seq<Target>, ghost attempted: seq<Target>)
      requires Since(from, ALL) && journal.Some?
      modifies this`journal, this`clock, this`machine, this`trace
      ensures Since(from, ALL) && old(clock) <= clock
      ensures journal.Some? && machine.base == old(machine.base) && machine.host <= old(machine.host)
      ensures journal.value.snapshot == old(journal.value.snapshot)
              && journal.value.dnsMayHaveChanged == old(journal.value.dnsMayHaveChanged)
      ensures o.Done? || o.Crashed?
      ensures o.Done? ==> attempted == OnRoutes(Reversed(old(journal.value.owned)))
      ensures o.Done? ==> forall r :: r in journal.value.owned ==> OnRoute(r) in errors
      ensures OnDns !in errors && |errors| <= BadCount(schedule, old(clock), clock)
      ensures errors != [] ==> machine.disk.Some?
      ensures old(Flagged(journal) && Flagged(machine.disk)) ==> Flagged(machine.disk)
      ensures LinkStays(old(machine.link), machine.link)
      ensures Steady(schedule, old(clock)) ==> o.Done? && errors == [] && machine.link == old(machine.link)
    {
      hide Safe, Follows, AllSafe, Steady, Keeps, OnRoutes, BadCount;
      var todo := Reversed(journal.value.owned);
      if todo != [] { WorkNeedsFile(machine, journal.value); }
      errors, attempted := [], [];
      OnNoRoutes(todo);
      var i := 0;
      while i < |todo|
        invariant 0 <= i <= |todo| && old(clock) <= clock
        invariant Since(from, ALL)
        invariant journal.Some? && machine.base == old(machine.base) && machine.host <= old(machine.host)
        invariant journal.value.snapshot == old(journal.value.snapshot)
                  && journal.value.dnsMayHaveChanged == old(journal.value.dnsMayHaveChanged)
        invariant todo != [] ==> machine.disk.Some?
        invariant attempted == OnRoutes(todo[..i])
        invariant forall r :: r in journal.value.owned ==> r in todo[i..] || OnRoute(r) in errors
        invariant OnDns !in errors && (errors != [] ==> todo != []) && |errors| <= BadCount(schedule, old(clock), clock)
        invariant old(Flagged(journal) && Flagged(machine.disk)) ==> Flagged(machine.disk)
        invariant LinkStays(old(machine.link), machine.link)
        invariant Steady(schedule, old(clock)) ==> errors == [] && machine.link == old(machine.link)
      {
        SteadyLater(schedule, old(clock), clock);
        OnRoutesGrows(todo, i);
        attempted := attempted + [OnRoute(todo[i])];
        ghost var at := clock;
        o, errors := RemoveOrReport(todo[i], errors, from);
        BadSum(schedule, old(clock), at, clock);
        if o.Crashed? { return; }
        i := i + 1;
      }
      o := Done;
    }

    /** Restore the resolver if it may have changed, and drop the flag. */
    method RollBackDns(ghost from: View) returns (o: Outcome, errors: seq<Target>)
      requires Since(from, ALL) && journal.Some?
      modifies this`journal, this`clock, this`machine, this`trace
      ensures Since(from, ALL) && old(clock) <= clock
      ensures journal.Some? && machine.base == old(machine.base) && machine.host <= old(machine.host)
      ensures journal.value.owned == old(journal.value.owned) && (old(machine.disk.Some?) ==> machine.disk.Some?)
      ensures o.Done? || o.Crashed?
      ensures o.Done? ==> (Changed(machine) ==> errors == [OnDns])
      ensures o.Done? && errors == [] ==> !journal.value.dnsMayHaveChanged
      ensures errors != [] ==> machine.disk.Some?
      ensures o.Done? && errors == [] && old(Flagged(journal)) ==>
                Settled(machine.link, old(journal.value.snapshot.dns))
      ensures o.Done? && errors == [] && old(Flagged(journal)) ==> machine.disk == journal
      ensures o.Done? && errors == [] ==> old(CanRestore(machine.link, journal))
      ensures old(!Flagged(journal)) ==> machine.link == old(machine.link)
      ensures errors == [] || errors == [OnDns]
      ensures errors != [] && old(CanRestore(machine.link, journal)) ==> BadCount(schedule, old(clock), clock) > 0
      ensures Steady(schedule, old(clock)) ==> o.Done? && (errors == [] <==> old(CanRestore(machine.link, journal)))
      ensures Steady(schedule, old(clock)) && errors != [] ==>
                machine.link == old(machine.link) && journal == old(journal) && machine.disk == old(machine.disk)
    {
      hide Safe, Follows, AllSafe, Steady, Changed, Keeps, BadCount;
      errors := [];
      JournalMatches(machine, journal.value);
      if !journal.value.dnsMayHaveChanged { return Done, []; }
      WorkNeedsFile(machine, journal.value);
      SteadyVerdicts(schedule, old(clock));
      o := RestoreDns(from, ALL);
      if o.Crashed? { return; }
      if o.Done? {
        UnflagIsSafe(machine, journal.value);
        journal := Some(journal.value.(dnsMayHaveChanged := false));
        Record(from, ALL);
        o := Save(from, ALL);
        JournalMatches(machine, journal.value);
        if o.Crashed? { return; }
      }
      if o.Threw? {
        if SomeBad(schedule, old(clock), clock) { BadIsCounted(schedule, old(clock), clock); }
        errors := [OnDns];
      }
      o := Done;
    }

    /** Undo everything the journal in memory lists. It goes on after a failure, never
        enlarges what is installed, and ends in one of three ways: clean; `Faulted`, with
        a file that still accounts for whatever is left and every leftover having an error
        of its own; or with nothing left but the file, whose deletion failed. Each error has a
        failing call of its own, but for a resolver that is refused. */
    method RollbackInternal(ghost from: View) returns (o: Outcome, errors: seq<Target>, ghost attempted: seq<Target>)
      requires Since(from, ALL)
      modifies this`journal, this`state, this`clock, this`machine, this`trace
      ensures Since(from, ALL) && old(clock) <= clock
      ensures machine.base == old(machine.base) && machine.host <= old(machine.host)
      ensures old(journal.None?) ==> o.Done? && journal.None? && state == old(state) && machine == old(machine)
      ensures old(journal.Some?) ==> state != GatewayActive
      ensures o.Done? && old(journal.Some?) ==>
                journal.None? && machine.disk.None? && Clean(machine) && state == PhysicalOnly
      ensures o.Threw? ==> Unfinished()
      ensures o.Threw? && state == Faulted ==>
                && (forall r :: r in machine.host ==> OnRoute(r) in errors)
                && (Changed(machine) ==> OnDns in errors)
      ensures !o.Crashed? && old(journal.Some?) ==> attempted == Targets(old(journal.value))
      ensures !o.Crashed? ==>
                |errors| <= BadCount(schedule, old(clock), clock)
                            + if old(CanRestore(machine.link, journal)) then 0 else 1
      ensures o.Done? && old(Flagged(journal)) ==> Settled(machine.link, old(journal.value.snapshot.dns))
      ensures old(!Flagged(journal)) ==> LinkStays(old(machine.link), machine.link)
      ensures Steady(schedule, old(clock)) ==> !o.Crashed? && (o.Done? <==> old(CanRestore(machine.link, journal)))
      ensures Steady(schedule, old(clock)) && o.Threw? && old(Flagged(machine.disk)) ==>
                Flagged(machine.disk) && machine.link == old(machine.link)
    {
      hide Safe, Follows, AllSafe, Steady, Changed, Clean, Keeps, Reversed, Restorable, BadCount;
      errors, attempted := [], [];
      if journal.None? { return Done, [], []; }
      state := RollingBack;
      SteadyVerdicts(schedule, old(clock));
      o, errors, attempted := RemoveAllOwned(from);
      if o.Crashed? { return; }
      var dnsErrors;
      SteadyLater(schedule, old(clock), clock);
      attempted := attempted + if journal.value.dnsMayHaveChanged then [OnDns] else [];
      ghost var at := clock;
      if old(CanRestore(machine.link, journal)) {
        CanRestoreStays(old(machine.link), old(journal), machine.link, journal);
      }
      o, dnsErrors := RollBackDns(from);
      if o.Crashed? { return; }
      BadSum(schedule, old(clock), at, clock);
      ghost var tried := clock;
      errors := errors + dnsErrors;
      HostIsOwned(machine, journal.value);
      if errors != [] {
        state := Faulted;
        return Threw, errors, attempted;
      }
      SteadyLater(schedule, old(clock), clock);
      NoneOwned(journal.value.owned);
      o := DeleteFile(from, ALL);
      BadSum(schedule, old(clock), tried, clock);
      if !o.Done? { return; }
      CrashIsSafe(machine, journal);
      journal := None;
      Record(from, ALL);
      state := PhysicalOnly;
    }

    /** After a failed rollback: the journal is kept in memory, and either the file still
        accounts for what is left, or only the file is left. */
    ghost predicate Unfinished()
      reads this
    {
      && journal.Some?
      && ((state == Faulted && machine.disk.Some?)
          || (state == RollingBack && journal.value.owned == [] && !journal.value.dnsMayHaveChanged && Clean(machine)))
    }

    /** Start counting what other programs do from here. */
    method Begin(ghost except: iset<RouteEntry>)
      requires Valid()
      modifies this`machine
      ensures Seen() == Opening(old(Seen())) && Since(Seen(), except)
    {
      hide Safe, Follows, AllSafe;
      OpeningIsSafe(machine, journal);
      machine := machine.(vanished := {}, arrived := {});
      FollowsItself(schedule, Seen(), except);
    }

    method Rollback() returns (o: Outcome, errors: seq<Target>)
      requires Valid() && Ready()
      modifies this
      ensures Since(Opening(old(Seen())), ALL) && Ready()
      ensures machine.host <= old(machine.host)
      ensures o.Done? ==> journal.None?
      ensures o.Done? && old(journal.Some?) ==> machine.disk.None? && Clean(machine) && state == PhysicalOnly
      ensures o.Done? && old(journal.None?) ==> state == old(state) && machine.disk == old(machine.disk)
      ensures o.Threw? ==> Unfinished()
      ensures !o.Crashed? ==>
                |errors| <= BadCount(schedule, old(clock), clock)
                            + if old(CanRestore(machine.link, journal)) then 0 else 1
      ensures Steady(schedule, old(clock)) ==> !o.Crashed? && (o.Done? <==> old(CanRestore(machine.link, journal)))
      ensures old(journal.None?) ==> o.Done?
    {
      hide Safe, Follows, AllSafe, Clean, Steady, Unfinished, BadCount;
      Begin(ALL);
      ghost var attempted;
      o, errors, attempted := RollbackInternal(Seen());
    }

    /** Undo what a journal file lists. Whatever happened before, a recovery that returns
        normally leaves a clean machine without a file. Once calls stop failing, it returns
        normally if and only if the file has no flag, or the captured link is gone or still has
        nothing but the host's settings; otherwise the file and the flag stay. */
    method Recover() returns (o: Outcome)
      requires Valid() && Ready()
      modifies this
      ensures Since(Opening(old(Seen())), ALL) && Ready()
      ensures machine.host <= old(machine.host) && machine.base == old(machine.base)
      ensures o.Done? ==> machine.disk.None? && Clean(machine)
      ensures o.Done? && old(machine.disk.Some?) ==> journal.None? && state == PhysicalOnly
      ensures old(machine.disk.None?) ==>
                o.Done? && journal == old(journal) && state == old(state) && Seen() == Opening(old(Seen()))
      ensures o.Done? && old(Flagged(machine.disk)) ==> Settled(machine.link, old(machine.disk.value.snapshot.dns))
      ensures old(!Flagged(machine.disk)) ==> LinkStays(old(machine.link), machine.link)
      ensures Steady(schedule, old(clock)) ==> !o.Crashed? && (o.Done? <==> old(CanRestore(machine.link, machine.disk)))
      ensures Steady(schedule, old(clock)) && o.Threw? ==> Flagged(machine.disk) && machine.link == old(machine.link)
      ensures state == GatewayActive ==> old(state) == GatewayActive
    {
      hide Safe, Follows, AllSafe, Clean;
      Begin(ALL);
      ghost var from := Seen();
      if machine.disk.None? {
        NoFileMeansClean(machine, journal);
        return Done;
      }
      var t := Await(from, ALL);
      o := Verdict(t.fault);
      if !o.Done? { return; }
      CrashIsSafe(machine, journal);
      journal := machine.disk;
      Record(from, ALL);
      SteadyLater(schedule, old(clock), clock);
      var errors;
      ghost var attempted;
      o, errors, attempted := RollbackInternal(from);
    }

    // ------------------------------------------------------ activation

    method AddAllOwned(todo: seq<RouteEntry>, ghost from: View) returns (o: Outcome)
      requires Since(from, ALL) && journal.Some? && machine.disk.Some?
      modifies this`journal, this`clock, this`machine, this`trace
      ensures Since(from, ALL)
      ensures journal.Some? && machine.disk.Some? && old(clock) <= clock
      ensures o.Done? ==> journal.value == old(journal.value).(owned := old(journal.value.owned) + todo)
      ensures o.Done? && old(machine.disk == journal) ==> machine.disk == journal
      ensures LinkStays(old(machine.link), machine.link)
      ensures Keeps(old(machine), machine, iset{})
      ensures o.Done? ==> Installed(machine, todo)
      ensures Quiet(schedule, old(clock)) ==> machine.foreign == old(machine.foreign)
      ensures o.Done? && Quiet(schedule, old(clock)) ==> NoRival(machine.foreign, todo)
      ensures o.Done? && Quiet(schedule, old(clock)) ==>
                Room(old(machine.routes), todo) && machine.routes == old(machine.routes) + AsSet(todo)
      ensures Calm(schedule, old(clock)) && Room(old(machine.routes), todo) ==>
                o.Done? && machine.routes == old(machine.routes) + AsSet(todo) && machine.link == old(machine.link)
    {
      hide Safe, Follows, AllSafe, Quiet, Calm, Room, AsSet;
      RoomForNone(machine.routes);
      CalmNow(schedule, clock);
      var i := 0;
      while i < |todo|
        invariant 0 <= i <= |todo| && old(clock) <= clock
        invariant Since(from, ALL)
        invariant journal.Some? && machine.disk.Some?
        invariant journal.value == old(journal.value).(owned := old(journal.value.owned) + todo[..i])
        invariant old(machine.disk == journal) ==> machine.disk == journal
        invariant Keeps(old(machine), machine, iset{}) && LinkStays(old(machine.link), machine.link)
        invariant Installed(machine, todo[..i])
        invariant Quiet(schedule, old(clock)) ==> machine.foreign == old(machine.foreign)
        invariant Quiet(schedule, old(clock)) ==> NoRival(machine.foreign, todo[..i])
        invariant Quiet(schedule, old(clock)) ==>
                    Room(old(machine.routes), todo[..i]) && machine.routes == old(machine.routes) + AsSet(todo[..i])
        invariant Calm(schedule, old(clock)) && Room(old(machine.routes), todo) ==> machine.link == old(machine.link)
      {
        QuietLater(schedule, old(clock), clock);
        CalmLater(schedule, old(clock), clock);
        ghost var room := Room(old(machine.routes), todo);
        if room { RoomForNext(old(machine.routes), todo, i); }
        assert todo[..i + 1] == todo[..i] + [todo[i]];
        assert old(journal.value.owned) + todo[..i + 1] == old(journal.value.owned) + todo[..i] + [todo[i]];
        AsSetGrows(todo[..i], todo[i]);
        CalmNow(schedule, clock);
        o := AddOwned(todo[i], from, ALL);
        if !o.Done? { return; }
        if Quiet(schedule, old(clock)) { RoomComposes(old(machine.routes), todo[..i], [todo[i]]); }
        i := i + 1;
      }
      assert todo[..i] == todo;
      o := Done;
    }

    /** The guards of `ActivateAsync` on its context. */
    predicate Welcome(context: GatewayContext) {
      IsClient(context.overlayIp) && context.underlayProtectionVerified
      && context.overlayInterfaceIndex > 0 && context.endpoints != []
    }

    /** The guards of an activation, the two captures and the first save. */
    method OpenTransaction(context: GatewayContext, ghost from: View) returns (o: Outcome)
      requires Since(from, ALL)
      modifies this`journal, this`state, this`clock, this`machine, this`trace
      ensures Since(from, ALL) && old(clock) <= clock
      ensures old(journal.Some? || machine.disk.Some?) ==>
                o.Threw? && journal == old(journal) && machine == old(machine)
      ensures journal.None? ==> machine.disk == old(machine.disk)
      ensures o.Done? ==>
                && journal.Some? && machine.disk == journal
                && journal.value.owned == [] && !journal.value.dnsMayHaveChanged
      ensures o.Done? ==> journal.value.snapshot.physical == schedule(old(clock)).physical
      ensures o.Done? ==> journal.value.snapshot.physical.interfaceIndex != context.overlayInterfaceIndex
      ensures o.Done? ==>
                && context.overlayIp.V4? && 0x0a0a_000b <= context.overlayIp.number <= 0x0a0a_fffe
                && context.underlayProtectionVerified && context.overlayInterfaceIndex > 0 && context.endpoints != []
      ensures o.Done? ==> Unused(old(machine.link)) && machine.host == {}
      ensures Quiet(schedule, old(clock)) ==>
                machine.foreign == old(machine.foreign) && machine.routes == old(machine.routes)
      ensures && Calm(schedule, old(clock))
              && old(journal.None? && machine.disk.None? && Unused(machine.link)) && Welcome(context)
              && schedule(old(clock)).physical.interfaceIndex != context.overlayInterfaceIndex
              ==>
                o.Done? && machine.link == old(machine.link) && SameLink(machine.link, journal.value.snapshot.dns)
      ensures state == GatewayActive ==> old(state) == GatewayActive
      ensures !Welcome(context) ==> o.Threw? && journal == old(journal)
    {
      hide Safe, Follows, AllSafe, Quiet, Calm, Steady;
      CalmNow(schedule, clock);
      ClientIsRange(context.overlayIp);
      if journal.Some? || machine.disk.Some? { return Threw; }
      if !IsClient(context.overlayIp) { return Threw; }
      if !context.underlayProtectionVerified { return Threw; }
      if context.overlayInterfaceIndex <= 0 || context.endpoints == [] { return Threw; }
      state := Capturing;
      var t := Await(from, ALL);
      o := Verdict(t.fault);
      if !o.Done? { return; }
      if t.physical.interfaceIndex == context.overlayInterfaceIndex { return Threw; }
      var dns;
      QuietLater(schedule, old(clock), clock);
      CalmLater(schedule, old(clock), clock);
      CalmNow(schedule, clock);
      o, dns := CaptureDns(from, ALL);
      if !o.Done? { return; }
      var snapshot := RouteSnapshot(t.physical, dns);
      NoFileMeansClean(machine, journal);
      OpenIsSafe(machine, snapshot);
      OpenFollows(schedule, from, Seen(), dns, ALL);
      journal, machine := Some(RouteJournal(snapshot, [], false)), Open(machine, dns);
      Record(from, ALL);
      QuietLater(schedule, old(clock), clock);
      CalmLater(schedule, old(clock), clock);
      CalmNow(schedule, clock);
      o := Save(from, ALL);
    }

    /** Pin the underlay, then try the gateway with the two probe routes. */
    method ProtectAndProbe(context: GatewayContext, ghost from: View) returns (o: Outcome)
      requires Since(from, ALL) && journal.Some? && machine.disk == journal && journal.value.owned == []
      modifies this`journal, this`state, this`clock, this`machine, this`trace
      ensures Since(from, ALL) && old(clock) <= clock
      ensures journal.Some? && machine.disk.Some?
      ensures Quiet(schedule, old(clock)) ==> machine.foreign == old(machine.foreign)
      ensures o.Done? ==> machine.disk == journal
      ensures o.Done? ==> Protect(journal.value.snapshot.physical, context.endpoints).Some?
                          && journal.value == old(journal.value).(owned :=
                               Protect(journal.value.snapshot.physical, context.endpoints).value + Probe(context))
      ensures o.Done? ==> Installed(machine, Protect(journal.value.snapshot.physical, context.endpoints).value)
      ensures o.Done? && Quiet(schedule, old(clock)) ==>
                NoRival(machine.foreign, Protect(journal.value.snapshot.physical, context.endpoints).value)
      ensures o.Done? ==> old(clock) < clock && schedule(clock - 1).answer
      ensures o.Done? ==> V4(0x0101_0101) !in context.endpoints && V4(0x0808_0808) !in context.endpoints
      ensures o.Done? && Quiet(schedule, old(clock)) ==>
                var protect := Protect(journal.value.snapshot.physical, context.endpoints).value;
                && Room(old(machine.routes), protect + Probe(context))
                && machine.routes == old(machine.routes) + AsSet(protect + Probe(context))
                && ProbeRouted(machine.routes, context)
      ensures && Calm(schedule, old(clock)) && Assenting(schedule, old(clock))
              && Protect(old(journal.value.snapshot.physical), context.endpoints).Some?
              && Room(old(machine.routes),
                      Protect(old(journal.value.snapshot.physical), context.endpoints).value + Probe(context))
              ==>
                o.Done? && machine.link == old(machine.link)
      ensures state == GatewayActive ==> old(state) == GatewayActive
    {
      hide Safe, Follows, AllSafe, Quiet, Calm, Steady, Assenting, Room, Protect, Probe, Keeps, AsSet, ProbeRouted;
      var protect := Protect(journal.value.snapshot.physical, context.endpoints);
      if protect.None? { return Threw; }
      ghost var room := Room(machine.routes, protect.value + Probe(context));
      if room {
        NoProbeTarget(machine.routes, journal.value.snapshot.physical, context);
        RoomGrows(machine.routes, protect.value, Probe(context));
      }
      o := AddAllOwned(protect.value, from);
      if !o.Done? { return; }
      state := UnderlayProtected;
      ghost var before := machine;
      QuietLater(schedule, old(clock), clock);
      CalmLater(schedule, old(clock), clock);
      AssentingLater(schedule, old(clock), clock);
      assert [] + protect.value == protect.value;
      o := ProbeGateway(context, from);
      if !o.Done? { return; }
      KeepsInstalled(before, machine, protect.value, iset{});
      if Quiet(schedule, old(clock)) {
        RoomComposes(old(machine.routes), protect.value, Probe(context));
        AsSetSum(protect.value, Probe(context));
      }
    }

    /** Add the two probe routes and ask the probe. */
    method ProbeGateway(context: GatewayContext, ghost from: View) returns (o: Outcome)
      requires Since(from, ALL) && journal.Some? && machine.disk == journal
      modifies this`journal, this`state, this`clock, this`machine, this`trace
      ensures Since(from, ALL) && old(clock) <= clock
      ensures journal.Some? && machine.disk.Some?
      ensures Quiet(schedule, old(clock)) ==> machine.foreign == old(machine.foreign)
      ensures o.Done? ==> machine.disk == journal
      ensures o.Done? ==> journal.value == old(journal.value).(owned := old(journal.value.owned) + Probe(context))
      ensures Keeps(old(machine), machine, iset{})
      ensures o.Done? ==> old(clock) < clock && schedule(clock - 1).answer
      ensures o.Done? ==> V4(0x0101_0101) !in context.endpoints && V4(0x0808_0808) !in context.endpoints
      ensures o.Done? && Quiet(schedule, old(clock)) ==>
                && Room(old(machine.routes), Probe(context))
                && machine.routes == old(machine.routes) + AsSet(Probe(context))
                && ProbeRouted(machine.routes, context)
      ensures && Calm(schedule, old(clock)) && Assenting(schedule, old(clock))
              && Room(old(machine.routes), Probe(context))
              && V4(0x0101_0101) !in context.endpoints && V4(0x0808_0808) !in context.endpoints
              ==> o.Done? && machine.link == old(machine.link)
      ensures state == GatewayActive ==> old(state) == GatewayActive
    {
      hide Safe, Follows, AllSafe, Quiet, Calm, Steady, Assenting, Room, Probe, Keeps, AsSet, ProbeRouted;
      var probes := Probe(context);
      ProbeConflict(context);
      KeepsItself(machine);
      if exists ip, r :: ip in context.endpoints && r in probes && ip.V4? && r.destination == Prefix(ip.number, 32) {
        return Threw;
      }
      o := AddAllOwned(probes, from);
      if !o.Done? { return; }
      if Quiet(schedule, old(clock)) { ProbeIsRouted(machine, context, old(machine.routes)); }
      ghost var before := machine;
      state := Probing;
      QuietLater(schedule, old(clock), clock);
      CalmLater(schedule, old(clock), clock);
      CalmNow(schedule, clock);
      AssentingLater(schedule, old(clock), clock);
      var t := Await(from, ALL);
      o := Verdict(t.fault);
      DriftKeeps(old(machine), before, machine, journal);
      if o.Done? && !t.answer { o := Threw; }
    }

    /** Take over the resolver and the default route, then drop the probe routes. */
    method Commit(context: GatewayContext, ghost protect: seq<RouteEntry>, ghost from: View) returns (o: Outcome)
      requires Since(from, ALL) && journal.Some? && machine.disk == journal
      requires journal.value.owned == protect + Probe(context)
      requires Installed(machine, protect) && forall r :: r in protect ==> r !in Probe(context)
      modifies this`journal, this`state, this`clock, this`machine, this`trace
      ensures Since(from, ALL) && old(clock) <= clock
      ensures journal.Some? && machine.disk.Some?
      ensures Quiet(schedule, old(clock)) ==> machine.foreign == old(machine.foreign)
      ensures o.Done? ==> machine.disk == journal
      ensures o.Done? ==>
                journal.value == old(journal.value).(owned := protect + Default(context), dnsMayHaveChanged := true)
      ensures o.Done? ==> Installed(machine, protect + Default(context))
      ensures o.Done? ==> machine.link.Absent?
                          || machine.link == Switched(journal.value.snapshot.dns)
      ensures o.Done? && Quiet(schedule, old(clock)) ==> NoRival(machine.foreign, Default(context))
      ensures o.Done? && Quiet(schedule, old(clock)) ==> Room(old(machine.routes), Default(context))
      ensures o.Done? ==> state == GatewayActive
      ensures && Calm(schedule, old(clock))
              && old(SameLink(machine.link, journal.value.snapshot.dns) && Unused(machine.link))
              && old(Room(machine.routes, Default(context)))
              ==> o.Done?
      ensures state == GatewayActive ==> o.Done? || old(state) == GatewayActive
    {
      hide Safe, Follows, AllSafe, Quiet, Calm, Steady, Room, Keeps, Probe, Default, Without, Installed, NoRival;
      CommittedRoutes(protect, context);
      ghost var m0 := machine;
      FlagIsSafe(machine, journal.value);
      journal := Some(journal.value.(dnsMayHaveChanged := true));
      Record(from, ALL);
      CalmNow(schedule, clock);
      o := Save(from, ALL);
      if !o.Done? { return; }
      KeepsInstalled(m0, machine, protect, iset{});
      ghost var m1 := machine;
      QuietLater(schedule, old(clock), clock);
      CalmLater(schedule, old(clock), clock);
      CalmNow(schedule, clock);
      JournalMatches(machine, journal.value);
      o := ApplyDns(journal.value.snapshot.dns, from, ALL);
      if !o.Done? { return; }
      KeepsInstalled(m1, machine, protect, iset{});
      ghost var m2 := machine;
      QuietLater(schedule, old(clock), clock);
      CalmLater(schedule, old(clock), clock);
      CalmNow(schedule, clock);
      o := AddAllOwned(Default(context), from);
      if !o.Done? { return; }
      KeepsInstalled(m2, machine, protect, iset{});
      BothInstalled(machine, protect, Default(context));
      ghost var m3 := machine;
      QuietLater(schedule, old(clock), clock);
      CalmLater(schedule, old(clock), clock);
      CalmNow(schedule, clock);
      o := DropProbes(context, from);
      if !o.Done? { return; }
      KeepsInstalled(m3, machine, protect + Default(context), iset{Probe(context)[0], Probe(context)[1]});
      state := GatewayActive;
    }

    /** Remove the two probe routes. */
    method DropProbes(context: GatewayContext, ghost from: View) returns (o: Outcome)
      requires Since(from, ALL) && journal.Some? && machine.disk == journal
      modifies this`journal, this`clock, this`machine, this`trace
      ensures Since(from, ALL) && old(clock) <= clock
      ensures journal.Some? && machine.disk.Some? && |Probe(context)| == 2
      ensures o.Done? ==>
                && machine.disk == journal
                && journal.value == old(journal.value).(owned :=
                     Without(Without(old(journal.value.owned), Probe(context)[0]), Probe(context)[1]))
      ensures Keeps(old(machine), machine, iset{Probe(context)[0], Probe(context)[1]})
      ensures LinkStays(old(machine.link), machine.link)
      ensures Quiet(schedule, old(clock)) ==> machine.foreign == old(machine.foreign)
      ensures Steady(schedule, old(clock)) ==> o.Done?
    {
      hide Safe, Follows, AllSafe, Quiet, Steady, Keeps, Without;
      var probes := Probe(context);
      ghost var before := machine;
      o := RemoveOwned(probes[0], from, ALL);
      KeepsBoth(before, machine, machine, probes[0], probes[1]);
      if !o.Done? { return; }
      QuietLater(schedule, old(clock), clock);
      SteadyLater(schedule, old(clock), clock);
      ghost var between := machine;
      o := RemoveOwned(probes[1], from, ALL);
      KeepsBoth(before, between, machine, probes[0], probes[1]);
    }

    /** What a successful activation has achieved: the owned routes are exactly the plan,
        they are in place, both journals list them, and the resolver is switched. */
    ghost predicate Activated(context: GatewayContext)
      reads this
    {
      && state == GatewayActive
      && Flagged(journal) && machine.disk == journal
      && Plan(journal.value.snapshot.physical, context) == Some(journal.value.owned)
      && Installed(machine, journal.value.owned)
      && (machine.link.Absent?
          || machine.link == Switched(journal.value.snapshot.dns))
    }

    /** The contexts that are accepted: a client address from 10.10.0.11 to 10.10.255.254, verified
        protection, an overlay interface, and endpoints, none of which is 1.1.1.1 or 8.8.8.8. */
    predicate Accepted(context: GatewayContext) {
      && context.overlayIp.V4? && 0x0a0a_000b <= context.overlayIp.number <= 0x0a0a_fffe
      && context.underlayProtectionVerified && context.overlayInterfaceIndex > 0 && context.endpoints != []
      && V4(0x0101_0101) !in context.endpoints && V4(0x0808_0808) !in context.endpoints
    }

    /** Nothing stands in the way of an activation: no transaction is open, the context is
        acceptable, the resolver is unused, and there is room in the table for every
        protection, probe and default route. */
    ghost predicate CanActivate(context: GatewayContext)
      reads this
    {
      CanActivateOn(context, machine.link)
    }

    /** The same, were the overlay link this one. */
    ghost predicate CanActivateOn(context: GatewayContext, link: Link)
      reads this
    {
      var physical := schedule(clock).physical;
      && journal.None? && machine.disk.None?
      && Welcome(context)
      && Unused(link)
      && physical.interfaceIndex != context.overlayInterfaceIndex
      && Protect(physical, context.endpoints).Some?
      && Room(machine.routes, Protect(physical, context.endpoints).value + Probe(context) + Default(context))
    }

    /** The guarded part of `ActivateAsync`. */
    method TryActivate(context: GatewayContext, ghost from: View) returns (o: Outcome)
      requires Since(from, ALL)
      modifies this`journal, this`state, this`clock, this`machine, this`trace
      ensures Since(from, ALL)
      ensures journal.None? ==> machine.disk == old(machine.disk)
      ensures state == GatewayActive ==> o.Done? || old(state) == GatewayActive
      ensures o.Done? ==> old(machine.disk.None? && journal.None?) && Activated(context)
      ensures o.Done? && Quiet(schedule, old(clock)) ==> NoRival(machine.foreign, journal.value.owned)
      ensures o.Done? ==> Answered(schedule, old(clock), clock) && Accepted(context)
      ensures o.Done? ==> |trace| > |from.trace| && trace[|trace| - 1] == Moment(machine, journal)
      ensures o.Done? ==> journal.value.snapshot.physical == schedule(old(clock)).physical
      ensures o.Done? && Quiet(schedule, old(clock)) ==> old(CanActivate(context))
      ensures Calm(schedule, old(clock)) && Assenting(schedule, old(clock)) && old(CanActivate(context)) ==> o.Done?
      ensures !Welcome(context) ==> o.Threw? && journal == old(journal)
    {
      hide Safe, Follows, AllSafe, Quiet, Calm, Assenting, Room, Keeps, Probe, Default, Protect, Installed, NoRival;
      ghost var can := CanActivate(context);
      if can {
        ghost var planned := Protect(schedule(clock).physical, context.endpoints).value;
        RoomGrows(machine.routes, planned + Probe(context), Default(context));
        AsSetSum(planned, Probe(context));
        assert machine.routes + AsSet(planned + Probe(context))
            == machine.routes + AsSet(planned) + AsSet(Probe(context));
      }
      CalmNow(schedule, clock);
      o := OpenTransaction(context, from);
      if !o.Done? { return; }
      QuietLater(schedule, old(clock), clock);
      CalmLater(schedule, old(clock), clock);
      AssentingLater(schedule, old(clock), clock);
      ghost var table := machine.routes;
      o := ProtectAndProbe(context, from);
      if !o.Done? { return; }
      ghost var answered := clock - 1;
      QuietLater(schedule, old(clock), clock);
      CalmLater(schedule, old(clock), clock);
      ghost var physical := journal.value.snapshot.physical;
      ghost var protect := Protect(physical, context.endpoints).value;
      NoProbeProtected(physical, context);
      o := Commit(context, protect, from);
      if !o.Done? { return; }
      NoRivals(machine.foreign, protect, Default(context));
      AnsweredLater(schedule, old(clock), answered, clock);
      if Quiet(schedule, old(clock)) {
        RoomComposes(table, protect + Probe(context), Default(context));
        assert table == old(machine.routes);
      }
      FollowsClock(schedule, from, Seen(), ALL);
      Record(from, ALL);
    }

    /** `ActivateAsync`. On success the gateway is active as planned; if moreover no other
        program interfered, every original route is still there and longest-prefix lookup
        does what the plan intends for every address. On failure everything is rolled
        back, or a rollback is pending that the journal still accounts for. */
    method Activate(context: GatewayContext) returns (o: Outcome)
      requires Valid() && Ready()
      modifies this
      ensures Since(Opening(old(Seen())), ALL) && Ready()
      ensures o.Done? ==> state == GatewayActive
      ensures o.Done? && old(state) == GatewayActive ==> journal == old(journal) && Seen() == Opening(old(Seen()))
      ensures o.Done? && old(state) != GatewayActive ==> old(journal.None? && machine.disk.None?) && Activated(context)
      ensures o.Done? && old(state) != GatewayActive && Quiet(schedule, old(clock)) ==>
                && machine.routes == old(machine.routes) + AsSet(journal.value.owned)
                && Planned(machine, journal, context)
                && Routed(machine.routes, journal.value.snapshot.physical, context)
      ensures o.Done? && old(state) != GatewayActive ==> Answered(schedule, old(clock), clock) && Accepted(context)
      ensures o.Done? && old(state) != GatewayActive ==>
                journal.value.snapshot.physical == schedule(old(clock)).physical
      ensures o.Done? && old(state) != GatewayActive ==>
                |trace| > old(|trace|) && trace[|trace| - 1] == Moment(machine, journal)
      ensures o.Done? && old(state) != GatewayActive && Quiet(schedule, old(clock)) ==> old(CanActivate(context))
      ensures Calm(schedule, old(clock)) && Assenting(schedule, old(clock)) && old(CanActivate(context)) ==> o.Done?
      ensures o.Threw? ==> Unfinished() || (journal.None? && state == PhysicalOnly
                                            && (machine.disk.None? || machine.disk == old(machine.disk)))
      ensures old(state != GatewayActive && journal.None?) && !Welcome(context) ==> o.Threw? && journal.None?
    {
      hide Safe, Follows, AllSafe, Quiet, Calm, Assenting, Room, Protect, Keeps, Installed, NoRival, Unfinished,
           Routed, Clean;
      Begin(ALL);
      ghost var from := Seen();
      if state == GatewayActive { return Done; }
      NoFileOpening(machine, journal);
      o := TryActivate(context, from);
      if o.Threw? {
        if journal.Some? {
          var rolledBack;
          var errors;
          ghost var attempted;
          rolledBack, errors, attempted := RollbackInternal(from);
          if rolledBack.Crashed? { return Crashed; }
        } else {
          state := PhysicalOnly;
        }
      } else if o.Done? && Quiet(schedule, from.clock) {
        QuietSame(schedule, from, Seen(), ALL);
        TableOfOwned(machine, journal.value);
        PlannedIsRouted(machine, journal.value, context);
      }
    }

    // ------------------------------------------------------ refresh and reconciliation

    /** Add the routes of `desired` that are not yet in `current`. */
    method AddMissing(
        desired: seq<RouteEntry>, current: seq<RouteEntry>, ghost from: View, ghost except: iset<RouteEntry>)
      returns (o: Outcome)
      requires Since(from, except) && journal.Some? && machine.disk.Some?
      modifies this`journal, this`clock, this`machine, this`trace
      ensures Since(from, except)
      ensures journal.Some? && machine.disk.Some? && old(clock) <= clock
      ensures o.Done? ==> journal.value == old(journal.value).(owned := journal.value.owned)
      ensures o.Done? ==> forall r :: r in journal.value.owned <==>
                            r in old(journal.value.owned) || (r in desired && r !in current)
      ensures o.Done? ==> Installed(machine, Missing(desired, current))
      ensures Quiet(schedule, old(clock)) ==> machine.foreign == old(machine.foreign)
      ensures o.Done? && Quiet(schedule, old(clock)) ==> NoRival(machine.foreign, Missing(desired, current))
      ensures o.Done? && Quiet(schedule, old(clock)) ==> Room(old(machine.routes), Missing(desired, current))
      ensures Calm(schedule, old(clock)) && Room(old(machine.routes), Missing(desired, current)) ==>
                o.Done? && machine.link == old(machine.link)
    {
      hide Safe, Follows, AllSafe, Quiet, Calm, Room, Keeps, Missing, AsSet;
      MissingNone(current);
      RoomForNone(machine.routes);
      CalmNow(schedule, clock);
      var i := 0;
      while i < |desired|
        invariant 0 <= i <= |desired| && old(clock) <= clock
        invariant Since(from, except)
        invariant journal.Some? && machine.disk.Some?
        invariant journal.value == old(journal.value).(owned := journal.value.owned)
        invariant forall r :: r in journal.value.owned <==>
                    r in old(journal.value.owned) || (r in desired[..i] && r !in current)
        invariant Installed(machine, Missing(desired[..i], current))
        invariant Quiet(schedule, old(clock)) ==>
                    machine.foreign == old(machine.foreign) && NoRival(machine.foreign, Missing(desired[..i], current))
        invariant Quiet(schedule, old(clock)) ==>
                    && Room(old(machine.routes), Missing(desired[..i], current))
                    && machine.routes == old(machine.routes) + AsSet(Missing(desired[..i], current))
        invariant Calm(schedule, old(clock)) && Room(old(machine.routes), Missing(desired, current)) ==>
                    machine.link == old(machine.link)
      {
        CalmLater(schedule, old(clock), clock);
        CalmNow(schedule, old(clock));
        QuietLater(schedule, old(clock), clock);
        assert desired[..i + 1] == desired[..i] + [desired[i]];
        MissingSplit(desired, current, i);
        if desired[i] !in current {
          ghost var room := Room(old(machine.routes), Missing(desired, current));
          if room { RoomForMissing(old(machine.routes), desired, current, i); }
          ghost var before := machine;
          o := AddOwned(desired[i], from, except);
          if !o.Done? { return; }
          KeepsInstalled(before, machine, Missing(desired[..i], current), iset{});
          AsSetGrows(Missing(desired[..i], current), desired[i]);
          if Quiet(schedule, old(clock)) {
            RoomComposes(old(machine.routes), Missing(desired[..i], current), [desired[i]]);
          }
        } else {
          assert Missing(desired[..i], current) + [] == Missing(desired[..i], current);
        }
        i := i + 1;
      }
      assert desired[..i] == desired;
      o := Done;
    }

    /** Remove the routes of `current` that are not in `desired`. */
    method RemoveStale(
        desired: seq<RouteEntry>, current: seq<RouteEntry>, ghost from: View, ghost except: iset<RouteEntry>)
      returns (o: Outcome)
      requires Since(from, except) && journal.Some? && machine.disk.Some?
      requires forall r :: r in current && r !in desired ==> r in except
      modifies this`journal, this`clock, this`machine, this`trace
      ensures Since(from, except)
      ensures journal.Some? && machine.disk.Some?
      ensures o.Done? ==> journal.value == old(journal.value).(owned := journal.value.owned)
      ensures o.Done? ==> forall r :: r in journal.value.owned <==>
                            r in old(journal.value.owned) && !(r in current && r !in desired)
      ensures Keeps(old(machine), machine, iset r | r in current && r !in desired)
      ensures Quiet(schedule, old(clock)) ==> machine.foreign == old(machine.foreign)
      ensures Steady(schedule, old(clock)) ==> o.Done?
    {
      hide Safe, Follows, AllSafe, Quiet, Steady, Without;
      var i := 0;
      while i < |current|
        invariant 0 <= i <= |current| && old(clock) <= clock
        invariant Since(from, except)
        invariant journal.Some? && machine.disk.Some?
        invariant journal.value == old(journal.value).(owned := journal.value.owned)
        invariant forall r :: r in journal.value.owned <==>
                    r in old(journal.value.owned) && !(r in current[..i] && r !in desired)
        invariant Keeps(old(machine), machine, iset r | r in current && r !in desired)
        invariant Quiet(schedule, old(clock)) ==> machine.foreign == old(machine.foreign)
      {
        SteadyLater(schedule, old(clock), clock);
        QuietLater(schedule, old(clock), clock);
        assert current[..i + 1] == current[..i] + [current[i]];
        assert current[i] in current;
        if current[i] !in desired {
          WithoutMembers(journal.value.owned, current[i]);
          o := RemoveOwned(current[i], from, except);
          if !o.Done? { return; }
        }
        i := i + 1;
      }
      assert current[..i] == current;
      o := Done;
    }

    method TryUpdate(endpoints: seq<IpAddress>, ghost from: View) returns (o: Outcome)
      requires journal.Some? && machine.disk.Some?
      requires Since(from, Stale(Protect(journal.value.snapshot.physical, endpoints)))
      modifies this`journal, this`clock, this`machine, this`trace
      ensures Since(from, Stale(Protect(old(journal.value.snapshot.physical), endpoints)))
      ensures journal.Some? && machine.disk.Some?
      ensures o.Done? ==> Refreshed(old(journal.value), journal.value, endpoints)
      ensures o.Done? ==> Installed(machine, Lacking(old(journal.value), endpoints))
      ensures o.Done? && Quiet(schedule, old(clock)) ==>
                NoRival(machine.foreign, Lacking(old(journal.value), endpoints))
      ensures o.Done? ==> V4(0x0101_0101) !in endpoints && V4(0x0808_0808) !in endpoints
      ensures o.Done? && Quiet(schedule, old(clock)) ==> old(CanRefresh(machine.routes, journal.value, endpoints))
      ensures Calm(schedule, old(clock)) && old(CanRefresh(machine.routes, journal.value, endpoints)) ==> o.Done?
    {
      hide Safe, Follows, AllSafe, Quiet, Calm, Steady, Room, Protect, Missing, Installed, Keeps, HostRoutes;
      ghost var except := Stale(Protect(journal.value.snapshot.physical, endpoints));
      var desired := Protect(journal.value.snapshot.physical, endpoints);
      if desired.None? { return Threw; }
      if exists r :: r in desired.value && r.destination.length == 32 && r.destination.address in PROBE_TARGETS {
        return Threw;
      }
      ProtectIsExact(journal.value.snapshot.physical, endpoints);
      var current := HostRoutes(journal.value.owned);
      o := AddMissing(desired.value, current, from, except);
      if !o.Done? { return; }
      CalmLater(schedule, old(clock), clock);
      QuietLater(schedule, old(clock), clock);
      CalmNow(schedule, clock);
      ghost var before := machine;
      o := RemoveStale(desired.value, current, from, except);
      KeepsInstalled(before, machine, Missing(desired.value, current), iset r | r in current && r !in desired.value);
    }

    /** `UpdateProtectionAsync`. While the gateway is active, a normal return means that the
        owned /32 routes are exactly the protection of the new endpoints and that nothing
        else changed hands; and at every moment on the way, a route that belongs to both the
        old and the new protection, and every other owned route, stayed in place. */
    method UpdateProtection(endpoints: seq<IpAddress>) returns (o: Outcome)
      requires Valid() && Ready()
      modifies this
      ensures Since(Opening(old(Seen())), ALL) && Ready()
      ensures old(state != GatewayActive) ==>
                o.Done? && journal == old(journal) && state == old(state) && Seen() == Opening(old(Seen()))
      ensures o.Done? && old(state == GatewayActive) ==>
                && state == GatewayActive && journal.Some?
                && Refreshed(old(journal.value), journal.value, endpoints)
                && Installed(machine, Lacking(old(journal.value), endpoints))
                && V4(0x0101_0101) !in endpoints && V4(0x0808_0808) !in endpoints
                && Since(Opening(old(Seen())), Stale(Protect(old(journal.value.snapshot.physical), endpoints)))
      ensures Quiet(schedule, old(clock)) && o.Done? && old(state == GatewayActive) ==>
                forall context :: old(Planned(machine, journal, context)) ==>
                  Planned(machine, journal, context.(endpoints := endpoints))
      ensures o.Threw? ==>
                Unfinished() || (journal.None? && state == PhysicalOnly && machine.disk.None? && Clean(machine))
      ensures Quiet(schedule, old(clock)) && o.Done? && old(state == GatewayActive) ==>
                old(CanRefresh(machine.routes, journal.value, endpoints))
      ensures && Calm(schedule, old(clock))
              && old(state == GatewayActive && CanRefresh(machine.routes, journal.value, endpoints))
              ==> o.Done?
    {
      hide Safe, Follows, AllSafe, Protect, Calm, Unfinished, Clean, CanRefresh, Missing, Installed;
      if state != GatewayActive || journal.None? {
        Begin(ALL);
        return Done;
      }
      Begin(Stale(Protect(journal.value.snapshot.physical, endpoints)));
      ghost var from := Seen();
      ghost var except := Stale(Protect(journal.value.snapshot.physical, endpoints));
      o := TryUpdate(endpoints, from);
      if o.Done? && Quiet(schedule, old(clock)) {
        forall context | Planned(from.machine, old(journal), context)
          ensures Planned(machine, journal, context.(endpoints := endpoints))
        {
          QuietSame(schedule, from, Seen(), except);
          FollowsCarries(schedule, from, Seen(), except);
          RefreshKeepsPlan(from.machine, old(journal.value), machine, journal.value, context, endpoints);
        }
      }
      FollowsWeaker(schedule, from, Seen(), except);
      if o.Threw? {
        var rolledBack;
        var errors;
        ghost var attempted;
        rolledBack, errors, attempted := RollbackInternal(from);
        if rolledBack.Crashed? { return Crashed; }
      }
    }

    /** `ReconcileAsync`. It leaves the transaction alone only if the physical side is the
        captured one and every owned route is in the table, and if nothing fails and nobody
        interferes, exactly then. */
    method Reconcile() returns (o: Outcome)
      requires Valid() && Ready()
      modifies this
      ensures Since(Opening(old(Seen())), ALL) && Ready()
      ensures machine.host <= old(machine.host)
      ensures old(state != GatewayActive) ==>
                o.Done? && journal == old(journal) && state == old(state) && machine.disk == old(machine.disk)
      ensures o.Done? && state == GatewayActive ==>
                journal == old(journal) && forall r :: r in journal.value.owned ==> r in machine.routes
      ensures o.Done? && old(state == GatewayActive) && state != GatewayActive ==>
                journal.None? && state == PhysicalOnly && machine.disk.None? && Clean(machine)
      ensures o.Threw? ==> Unfinished() || (state == old(state) && journal == old(journal))
      ensures Steady(schedule, old(clock)) ==> !o.Crashed? && (o.Threw? ==> Unfinished())
      ensures Calm(schedule, old(clock)) && old(state == GatewayActive) ==>
                (o.Done? && state == GatewayActive <==>
                  && schedule(old(clock)).physical == old(journal.value.snapshot.physical)
                  && forall r :: r in old(journal.value.owned) ==> r in old(machine.routes))
    {
      hide Safe, Follows, AllSafe, Clean, Unfinished;
      Begin(ALL);
      ghost var from := Seen();
      if state != GatewayActive || journal.None? { return Done; }
      var t := Await(from, ALL);
      o := Verdict(t.fault);
      if !o.Done? { return; }
      var errors;
      ghost var attempted;
      if t.physical != journal.value.snapshot.physical {
        o, errors, attempted := RollbackInternal(from);
        return;
      }
      var actual;
      o, actual := ListRoutes(from, ALL);
      if !o.Done? { return; }
      if exists r :: r in journal.value.owned && r !in actual {
        o, errors, attempted := RollbackInternal(from);
      }
    }

    // ------------------------------------------------------ between operations

    /** The process dies and a new one starts: memory is lost, the machine stays. */
    method Restart()
      requires Valid()
      modifies this`journal, this`state
      ensures Valid() && Ready()
      ensures journal.None? && state == PhysicalOnly
    {
      CrashIsSafe(machine, journal);
      journal, state := None, PhysicalOnly;
    }

    /** Between operations others set the overlay link, in any way. */
    method OthersSetLink(link: Link)
      requires Valid() && Ready()
      modifies this`machine
      ensures Valid() && Ready() && machine == SetLink(old(machine), link)
    {
      SetLinkIsSafe(machine, journal, link);
      machine := SetLink(machine, link);
    }
  }
}
