/** `GatewayBootstrapper` with the machine it works on, and the steps of the two NAT
    managers (src/EasyTierHost.Gateway/GatewayBootstrapper.cs, WindowsNatManager.cs,
    LinuxNatManager.cs). */
module GatewayBootstrapper {
  import opened Options
  import Addresses
  import opened AwaitedCalls
  import opened GatewayTransaction

  /** What a rollback works on, and what an error of it is about. */
  datatype Part = OnDnsRuntime | OnNat | OnForwarding

  /** The overlay adapter as the coordinator found it. */
  datatype GatewayAdapter = GatewayAdapter(index: int, address: Addresses.IpAddress)

  class GatewayBootstrapper {
    // What happens to the machine, call by call.
    const schedule: GatewaySchedule
    const platform: Platform

    // The process: lost in a crash.
    var journal: Option<GatewayJournal>
    var state: GatewayServerState
    var dnsRunning: bool

    // The machine: survives a crash.
    var machine: GatewayMachine
    var clock: nat

    // Every instant so far.
    ghost var trace: seq<GatewayMoment>

    ghost function Seen(): GatewayView
      reads this
    {
      ViewOf(machine, clock, trace)
    }

    /** The write-ahead rule holds now and held at every recorded moment. */
    ghost predicate Valid()
      reads this
    {
      && GatewaySafe(machine, journal) && GatewayAllSafe(trace)
      && (machine.base.Some? ==> machine.base.value.platform == platform)
      && (Honest() ==> machine.orphans == {})
    }

    /** Where queries swallow their errors, they can always tell. Then nothing is ever forgotten. */
    ghost predicate Honest() {
      !platform.Nftables? ==> Truthful(schedule)
    }

    /** No journal file is left over from an earlier process. */
    ghost predicate Recovered()
      reads this
    {
      journal.Some? || machine.disk.None?
    }

    ghost predicate Since(from: GatewayView)
      reads this
    {
      Valid() && Comes(schedule, from, Seen())
    }

    /** A machine the host has never touched; on Linux it has the global switch. */
    constructor (schedule: GatewaySchedule, platform: Platform, objects: set<NatObject>, forwarding: map<nat, bool>)
      requires forall o :: o in objects ==> o.name.Other?
      ensures Valid() && this.schedule == schedule && this.platform == platform
      ensures machine == GatewayMachine(objects, forwarding, None, objects, {}, {}, None, forwarding) && clock == 0
      ensures trace == []
      ensures journal.None? && state == Stopped && !dnsRunning
    {
      this.schedule, this.platform := schedule, platform;
      machine, clock, trace := GatewayMachine(objects, forwarding, None, objects, {}, {}, None, forwarding), 0, [];
      journal, state, dnsRunning := None, Stopped, false;
    }

    // ------------------------------------------------------ awaited calls

    method Await(ghost from: GatewayView) returns (t: GatewayTick)
      requires Since(from)
      modifies this`clock, this`machine, this`trace
      ensures Since(from)
      ensures t == schedule(old(clock)) && clock == old(clock) + 1
      ensures Shifts(old(machine), machine) && machine.host == old(machine.host) - t.removed
      ensures old(machine.objects) - t.removed <= machine.objects
      ensures old(machine.forwarding.Keys) - t.lost <= machine.forwarding.Keys
      ensures GatewayQuiet(schedule, old(clock)) ==> machine == old(machine)
      ensures trace == old(trace) + [GatewayMoment(machine, journal)]
    {
      hide GatewaySafe, GatewayAllSafe, Comes, Disturb;
      t := schedule(clock);
      DisturbIsSafe(machine, journal, t);
      DisturbShifts(machine, t);
      ComesTick(schedule, from, Seen(), machine, journal);
      clock, machine := clock + 1, Disturb(machine, t);
      GatewayAllSafeGrows(trace, machine, journal);
      trace := trace + [GatewayMoment(machine, journal)];
    }

    /** Record a change of memory, of bookkeeping, or of the machine. */
    ghost method Record(from: GatewayView)
      requires GatewayAllSafe(trace) && GatewaySafe(machine, journal) && Comes(schedule, from, Seen())
      requires machine.base.Some? ==> machine.base.value.platform == platform
      requires Honest() ==> machine.orphans == {}
      modifies this`trace
      ensures Since(from)
      ensures trace == old(trace) + [GatewayMoment(machine, journal)]
    {
      hide GatewaySafe, GatewayAllSafe, Comes;
      ComesStep(schedule, from, Seen(), machine, journal);
      GatewayAllSafeGrows(trace, machine, journal);
      trace := trace + [GatewayMoment(machine, journal)];
    }

    method Save(ghost from: GatewayView) returns (o: Outcome)
      requires Since(from) && journal.Some?
      modifies this`clock, this`machine, this`trace
      ensures Since(from)
      ensures o == Verdict(schedule(old(clock)).fault) && clock == old(clock) + 1
      ensures machine.disk == if Happens(schedule(old(clock)).fault) then journal else old(machine.disk)
      ensures Shifts(old(machine), machine.(disk := old(machine.disk)))
      ensures GatewayQuiet(schedule, old(clock)) ==> machine.(disk := None) == old(machine).(disk := None)
    {
      hide GatewaySafe, GatewayAllSafe, Comes;
      var t := Await(from);
      if Happens(t.fault) {
        GatewaySaveIsSafe(machine, journal.value);
        machine := machine.(disk := journal);
        Record(from);
      }
      o := Verdict(t.fault);
    }

    // ------------------------------------------------------ forwarding

    /** Flip one switch. If the interface is not there, that is a failure, unless nothing had
        to be done for a missing one. */
    method SetForwarding(identity: nat, on: bool, missingIsFine: bool, ghost from: GatewayView) returns (o: Outcome)
      requires Since(from) && journal.Some?
      requires Entry(identity, false) in journal.value.snapshot.entries
      requires on ==> journal.value.forwardingMayHaveChanged
      requires on ==> machine.disk.Some? && machine.disk.value.forwardingMayHaveChanged
      modifies this`clock, this`machine, this`trace
      ensures Since(from)
      ensures clock == old(clock) + 1
      ensures machine.disk == old(machine.disk) && machine.base == old(machine.base)
      ensures machine.host <= old(machine.host)
      ensures forall i :: i in machine.forwarding ==>
                i in old(machine.forwarding) && (i != identity ==> machine.forwarding[i] == old(machine.forwarding)[i])
      ensures o.Done? && identity in machine.forwarding && (on || !schedule(old(clock)).ignored) ==>
                machine.forwarding[identity] == on
      ensures !on ==> forall i :: On(machine, i) ==> On(old(machine), i)
      ensures o.Threw? && (missingIsFine || identity in old(machine.forwarding)) ==> GatewayBad(schedule(old(clock)))
      ensures identity in old(machine.forwarding) && identity !in machine.forwarding ==>
                GatewayBad(schedule(old(clock)))
      ensures GatewayQuiet(schedule, old(clock)) ==>
                machine.objects == old(machine.objects) && machine.forwarding.Keys == old(machine.forwarding).Keys
      ensures GatewaySteady(schedule, old(clock)) && (missingIsFine || identity in machine.forwarding) ==> o.Done?
    {
      hide GatewaySafe, GatewayAllSafe, Comes;
      var t := Await(from);
      o := Verdict(t.fault);
      if identity !in machine.forwarding {
        if o.Done? && !missingIsFine { o := Threw; }
      } else if Happens(t.fault) && (on || !t.ignored) {
        if on {
          SwitchOnIsSafe(machine, journal.value, identity);
        } else {
          SwitchOffIsSafe(machine, journal.value, identity);
        }
        machine := Switch(machine, identity, on);
        Record(from);
      }
    }

    /** `EnableForwardingAsync`: turn on what was captured off; other switches stay. */
    method EnableForwarding(ghost from: GatewayView) returns (o: Outcome)
      requires Since(from) && journal.Some? && machine.disk == journal && journal.value.forwardingMayHaveChanged
      modifies this`clock, this`machine, this`trace
      ensures Since(from) && old(clock) <= clock
      ensures machine.disk == old(machine.disk) && machine.base == old(machine.base)
      ensures machine.host <= old(machine.host)
      ensures OnlyCaptured(old(machine), machine, journal.value.snapshot)
      ensures o.Done? ==>
                forall e :: e in journal.value.snapshot.entries && !e.enabled && e.identity in machine.forwarding ==>
                            machine.forwarding[e.identity]
      ensures GatewayQuiet(schedule, old(clock)) ==>
                machine.objects == old(machine.objects) && machine.forwarding.Keys == old(machine.forwarding).Keys
      ensures && GatewayCalm(schedule, old(clock))
              && (forall e :: e in journal.value.snapshot.entries ==> e.identity in old(machine.forwarding))
              ==> o.Done?
    {
      hide GatewaySafe, GatewayAllSafe, Comes, GatewayCalm;
      var entries := journal.value.snapshot.entries;
      for k := 0 to |entries|
        invariant Since(from) && old(clock) <= clock
        invariant machine.disk == old(machine.disk) && machine.base == old(machine.base)
        invariant machine.host <= old(machine.host)
        invariant OnlyCaptured(old(machine), machine, journal.value.snapshot)
        invariant forall e :: e in entries[..k] && !e.enabled && e.identity in machine.forwarding ==>
                    machine.forwarding[e.identity]
        invariant GatewayQuiet(schedule, old(clock)) ==>
                    machine.objects == old(machine.objects) && machine.forwarding.Keys == old(machine.forwarding).Keys
      {
        assert entries[..k + 1] == entries[..k] + [entries[k]];
        assert entries[k] in entries;
        GatewayQuietLater(schedule, old(clock), clock);
        GatewayCalmLater(schedule, old(clock), old(clock));
        GatewayCalmLater(schedule, old(clock), clock);
        if !entries[k].enabled {
          o := SetForwarding(entries[k].identity, true, false, from);
          if !o.Done? { return; }
        }
      }
      assert entries[..|entries|] == entries;
      o := Done;
    }

    /** `RestoreForwardingAsync`: turn off again what was captured off, going on after a
        failure; an interface that is gone needs nothing. Linux checks its one switch by
        reading it back. */
    method RestoreForwarding(ghost from: GatewayView) returns (o: Outcome)
      requires Since(from) && journal.Some?
      modifies this`clock, this`machine, this`trace
      ensures Since(from) && old(clock) <= clock
      ensures machine.disk == old(machine.disk) && machine.base == old(machine.base)
      ensures machine.host <= old(machine.host)
      ensures OnlyCaptured(old(machine), machine, journal.value.snapshot)
      ensures o.Done? ==>
                forall e :: e in journal.value.snapshot.entries && !e.enabled && e.identity in machine.forwarding ==>
                            !machine.forwarding[e.identity]
      ensures GatewayQuiet(schedule, old(clock)) ==> machine.objects == old(machine.objects)
      ensures o.Threw? ==> GatewaySomeBad(schedule, old(clock), clock)
      ensures !o.Crashed? ==>
                LeftOn(machine, journal.value.snapshot.entries) <= GatewayBadCount(schedule, old(clock), clock)
      ensures GatewayCalm(schedule, old(clock)) ==> o.Done?
    {
      hide GatewaySafe, GatewayAllSafe, Comes, GatewayCalm, GatewaySomeBad, GatewayBadCount, LeftOn;
      var entries := journal.value.snapshot.entries;
      var failed := false;
      GatewayJournalMatches(machine, journal.value);
      LeftOnNone(machine, entries);
      for k := 0 to |entries|
        invariant Since(from) && old(clock) <= clock
        invariant machine.disk == old(machine.disk) && machine.base == old(machine.base)
        invariant machine.host <= old(machine.host)
        invariant OnlyCaptured(old(machine), machine, journal.value.snapshot)
        invariant !failed ==> forall e :: e in entries[..k] && !e.enabled && e.identity in machine.forwarding ==>
                    !machine.forwarding[e.identity]
        invariant GatewayQuiet(schedule, old(clock)) ==> machine.objects == old(machine.objects)
        invariant failed ==> GatewaySomeBad(schedule, old(clock), clock)
        invariant LeftOn(machine, entries[..k]) <= GatewayBadCount(schedule, old(clock), clock)
        invariant GatewayCalm(schedule, old(clock)) ==>
                    !failed && machine.forwarding.Keys == old(machine.forwarding).Keys
      {
        assert entries[..k + 1] == entries[..k] + [entries[k]];
        assert entries[k] in entries;
        GatewayQuietLater(schedule, old(clock), clock);
        GatewayCalmLater(schedule, old(clock), clock);
        LeftOnStep(machine, entries, k);
        if !entries[k].enabled {
          GatewayJournalMatches(machine, journal.value);
          ghost var at, before := clock, machine;
          o := RestoreOne(entries[k].identity, journal.value.snapshot.platform.Windows?, from);
          GatewaySomeBadGrows(schedule, old(clock), old(clock), at, clock);
          GatewaySomeBadGrows(schedule, old(clock), at, clock, clock);
          GatewayBadSum(schedule, old(clock), at, clock);
          GatewayBadIsCounted(schedule, at, clock);
          LeftOnShrinks(before, machine, entries[..k]);
          LeftOnStep(machine, entries, k);
          if o.Crashed? { return; }
          if o.Threw? { failed := true; }
        }
      }
      assert entries[..|entries|] == entries;
      o := if failed then Threw else Done;
    }

    method RestoreOne(identity: nat, missingIsFine: bool, ghost from: GatewayView) returns (o: Outcome)
      requires Since(from) && journal.Some? && Entry(identity, false) in journal.value.snapshot.entries
      modifies this`clock, this`machine, this`trace
      ensures Since(from) && old(clock) <= clock
      ensures machine.disk == old(machine.disk) && machine.base == old(machine.base)
      ensures machine.host <= old(machine.host)
      ensures forall i :: i in machine.forwarding ==>
                i in old(machine.forwarding) && (i != identity ==> machine.forwarding[i] == old(machine.forwarding)[i])
      ensures forall i :: On(machine, i) ==> On(old(machine), i)
      ensures o.Done? && identity in machine.forwarding ==> !machine.forwarding[identity]
      ensures GatewayQuiet(schedule, old(clock)) ==>
                machine.objects == old(machine.objects) && machine.forwarding.Keys == old(machine.forwarding).Keys
      ensures o.Threw? && (missingIsFine || identity in old(machine.forwarding)) ==>
                GatewaySomeBad(schedule, old(clock), clock)
      ensures GatewayCalm(schedule, old(clock)) && (missingIsFine || identity in old(machine.forwarding)) ==> o.Done?
    {
      hide GatewaySafe, GatewayAllSafe, Comes;
      o := SetForwarding(identity, false, missingIsFine, from);
      if !o.Done? { return; }
      if !missingIsFine {
        var t := Await(from);
        o := Verdict(t.fault);
      }
      if o.Done? && On(machine, identity) { o := Threw; }
    }

    // ------------------------------------------------------ NAT

    /** Create one object of the host; WinNAT refuses if there is any other NAT. */
    method AddObject(item: NatObject, ghost from: GatewayView) returns (o: Outcome)
      requires Since(from) && journal.Some? && machine.disk == journal && journal.value.natMayExist
      requires item in ObjectsOf(journal.value.snapshot)
      modifies this`clock, this`machine, this`trace
      ensures Since(from) && clock == old(clock) + 1
      ensures machine.disk == old(machine.disk) && machine.base == old(machine.base)
      ensures o.Done? ==> item in machine.objects
      ensures o.Done? && item.kind.WinNat? && GatewayQuiet(schedule, old(clock)) ==> !AnyNat(old(machine.objects))
      ensures GatewayQuiet(schedule, old(clock)) ==>
                && machine.forwarding == old(machine.forwarding)
                && old(machine.objects) <= machine.objects <= old(machine.objects) + {item}
      ensures GatewayCalm(schedule, old(clock)) && (item.kind.WinNat? ==> !AnyNat(old(machine.objects))) ==> o.Done?
    {
      hide GatewaySafe, GatewayAllSafe, Comes, ObjectsOf;
      var t := Await(from);
      o := Verdict(t.fault);
      if item.kind.WinNat? && AnyNat(machine.objects) {
        if o.Done? { o := Threw; }
      } else if Happens(t.fault) {
        PutObjectIsSafe(machine, journal.value, item);
        machine := PutObject(machine, item);
        Record(from);
      }
    }

    predicate AnyNat(objects: set<NatObject>) {
      exists q :: q in objects && q.kind.WinNat?
    }

    /** Ask whether an object of the host is there. A query that cannot tell and swallows its error
        says no. */
    method Sees(item: NatObject, ghost from: GatewayView) returns (o: Outcome, there: bool)
      requires Since(from)
      modifies this`clock, this`machine, this`trace
      ensures Since(from) && clock == old(clock) + 1
      ensures Shifts(old(machine), machine) && machine.host == old(machine.host) - schedule(old(clock)).removed
      ensures old(machine.objects) - schedule(old(clock)).removed <= machine.objects
      ensures o == Verdict(schedule(old(clock)).fault)
      ensures there <==> item in machine.objects && !(Elusive(item.kind) && schedule(old(clock)).lie)
      ensures GatewayQuiet(schedule, old(clock)) ==> machine == old(machine)
      ensures trace == old(trace) + [GatewayMoment(machine, journal)]
    {
      hide *;
      var t := Await(from);
      o, there := Verdict(t.fault), item in machine.objects && !(Elusive(item.kind) && t.lie);
    }

    /** `CreateNatAsync`. */
    method CreateNat(ghost from: GatewayView) returns (o: Outcome)
      requires Since(from) && journal.Some? && machine.disk == journal && journal.value.natMayExist
      modifies this`clock, this`machine, this`trace
      ensures Since(from) && old(clock) <= clock
      ensures machine.disk == old(machine.disk) && machine.base == old(machine.base)
      ensures GatewayQuiet(schedule, old(clock)) ==> machine.forwarding == old(machine.forwarding)
      ensures GatewayQuiet(schedule, old(clock)) && o.Done? ==> forall q :: q in ObjectsOf(journal.value.snapshot) ==>
                q in machine.objects
      ensures GatewayQuiet(schedule, old(clock)) && o.Done? && platform.Windows? ==> !AnyNat(old(machine.objects))
      ensures GatewayQuiet(schedule, old(clock)) && o.Done? && !platform.Windows? && Truthful(schedule) ==>
                !old(Remains(machine, journal.value.snapshot))
      ensures && GatewayCalm(schedule, old(clock))
              && old(!Remains(machine, journal.value.snapshot)) && (platform.Windows? ==> !AnyNat(old(machine.objects)))
              ==> o.Done?
    {
      hide GatewaySafe, GatewayAllSafe, Comes, GatewayQuiet, GatewayCalm, Truthful;
      var objects := ObjectsOf(journal.value.snapshot);
      GatewayJournalMatches(machine, journal.value);
      GatewayCalmLater(schedule, old(clock), clock);
      if !journal.value.snapshot.platform.Windows? {
        var there;
        TruthfulNow(schedule, clock);
        o, there := Sees(objects[0], from);
        if !o.Done? { return; }
        if there { return Threw; }
      }
      GatewayQuietLater(schedule, old(clock), clock);
      GatewayCalmLater(schedule, old(clock), clock);
      o := AddObject(objects[0], from);
      if !o.Done? || !journal.value.snapshot.platform.Windows? { return; }
      GatewayQuietLater(schedule, old(clock), clock);
      GatewayCalmLater(schedule, old(clock), clock);
      o := AddObject(objects[1], from);
      if !o.Done? { return; }
      GatewayQuietLater(schedule, old(clock), clock);
      GatewayCalmLater(schedule, old(clock), clock);
      o := AddObject(objects[2], from);
    }

    /** Remove one object, if it is the host's. On Windows the script looks first whether it is
        there, and for a firewall rule it swallows the error of that query; the Linux commands
        fail if the object is not there. */
    method RemoveObject(item: NatObject, ghost from: GatewayView) returns (o: Outcome)
      requires Since(from) && journal.Some? && item in ObjectsOf(journal.value.snapshot)
      modifies this`clock, this`machine, this`trace
      ensures Since(from) && clock == old(clock) + 1
      ensures machine.disk == old(machine.disk) && machine.base == old(machine.base)
      ensures machine.host <= old(machine.host) && machine.orphans <= old(machine.orphans)
      ensures o.Done? ==>
                machine.host == old(machine.host) - schedule(old(clock)).removed - Taken(item, old(clock))
      ensures o.Done? && GatewayQuiet(schedule, old(clock)) ==>
                machine.objects == old(machine.objects) - Taken(item, old(clock))
      ensures GatewayQuiet(schedule, old(clock)) ==> machine.forwarding == old(machine.forwarding)
      ensures o.Threw? && (platform.Windows? || item in old(machine.objects)) ==> GatewayBad(schedule(old(clock)))
      ensures GatewayCalm(schedule, old(clock)) && (platform.Windows? || item in old(machine.objects)) ==> o.Done?
    {
      hide GatewaySafe, GatewayAllSafe, Comes, ObjectsOf, Usurped, Elusive;
      var t := Await(from);
      o := Verdict(t.fault);
      NeverUsurped(machine, journal.value, item);
      if platform.Windows? && Elusive(item.kind) && t.lie {
        return;
      }
      if Usurped(machine.objects, item) || (!platform.Windows? && item !in machine.objects) {
        if o.Done? { o := Threw; }
      } else if Happens(t.fault) {
        TakeObjectIsSafe(machine, journal.value, item);
        machine := TakeObject(machine, item);
        Record(from);
      }
    }

    /** What a removal at this tick takes away if it returns normally. */
    function Taken(item: NatObject, tick: nat): set<NatObject> {
      if platform.Windows? && Elusive(item.kind) && schedule(tick).lie then {} else {item}
    }

    /** Nobody else removes the object during a removal that begins at this tick and overlooks it. */
    ghost predicate Undisturbed(item: NatObject, tick: nat) {
      && item !in schedule(tick).removed
      && (platform.Windows? ==> item !in schedule(tick + 1).removed && item !in schedule(tick + 2).removed)
    }

    /** `RemoveNatAsync`. If it returns normally, exactly those objects of the host are left whose
        query could not tell, and which nobody else removed. */
    method RemoveNat(ghost from: GatewayView) returns (o: Outcome)
      requires Since(from) && journal.Some?
      modifies this`clock, this`machine, this`trace
      ensures Since(from) && old(clock) <= clock
      ensures machine.disk == old(machine.disk) && machine.base == old(machine.base)
      ensures machine.host <= old(machine.host) && machine.orphans <= old(machine.orphans)
      ensures o.Done? ==>
                forall q :: q in machine.host <==>
                  q in old(machine.host) && Overlooked(schedule, q, old(clock)) && Undisturbed(q, old(clock))
      ensures o.Done? && GatewayQuiet(schedule, old(clock)) ==>
                LeavesOnly(schedule, journal.value.snapshot, old(machine.objects), machine.objects, old(clock))
      ensures GatewayQuiet(schedule, old(clock)) ==> machine.forwarding == old(machine.forwarding)
      ensures o.Threw? ==> GatewaySomeBad(schedule, old(clock), clock)
      ensures GatewayCalm(schedule, old(clock)) ==> o.Done?
    {
      hide GatewaySafe, GatewayAllSafe, Comes, GatewayQuiet, GatewayCalm, GatewaySteady;
      var s := journal.value.snapshot;
      var objects := ObjectsOf(s);
      GatewayJournalMatches(machine, journal.value);
      GatewayCalmLater(schedule, old(clock), clock);
      if s.platform.Windows? {
        o := RemoveWindowsNat(from);
        return;
      }
      var there;
      o, there := Sees(objects[0], from);
      if !o.Done? { return; }
      GatewayJournalMatches(machine, journal.value);
      if !there { return Done; }
      GatewayQuietLater(schedule, old(clock), clock);
      GatewayCalmLater(schedule, old(clock), clock);
      if s.platform.Nftables? {
        o, there := Sees(objects[0], from);
        if !o.Done? { return; }
        NeverUsurped(machine, journal.value, objects[0]);
        if !there || Usurped(machine.objects, objects[0]) { return Threw; }
        GatewayQuietLater(schedule, old(clock), clock);
        GatewayCalmLater(schedule, old(clock), clock);
      }
      o := RemoveObject(objects[0], from);
      GatewayJournalMatches(machine, journal.value);
    }

    /** Both firewall rules and then the NAT, going on after a failure: an object is gone if its own
        call goes well. A normal return leaves exactly the rules whose query could not tell, and
        which nobody else removed. */
    method RemoveWindowsNat(ghost from: GatewayView) returns (o: Outcome)
      requires Since(from) && journal.Some? && journal.value.snapshot.platform.Windows?
      modifies this`clock, this`machine, this`trace
      ensures Since(from) && old(clock) <= clock
      ensures machine.disk == old(machine.disk) && machine.base == old(machine.base)
      ensures machine.host <= old(machine.host) && machine.orphans <= old(machine.orphans)
      ensures o.Done? ==>
                forall q :: q in machine.host <==>
                  q in old(machine.host) && Overlooked(schedule, q, old(clock)) && Undisturbed(q, old(clock))
      ensures o.Done? && GatewayQuiet(schedule, old(clock)) ==>
                LeavesOnly(schedule, journal.value.snapshot, old(machine.objects), machine.objects, old(clock))
      ensures GatewayQuiet(schedule, old(clock)) ==> machine.forwarding == old(machine.forwarding)
      ensures o.Threw? ==> GatewaySomeBad(schedule, old(clock), clock)
      ensures GatewayCalm(schedule, old(clock)) ==> o.Done?
      ensures !o.Crashed? ==>
                var objects := ObjectsOf(journal.value.snapshot);
                && (!GatewayBad(schedule(old(clock))) && !schedule(old(clock)).lie ==> objects[1] !in machine.host)
                && (!GatewayBad(schedule(old(clock) + 1)) && !schedule(old(clock) + 1).lie ==>
                      objects[2] !in machine.host)
                && (!GatewayBad(schedule(old(clock) + 2)) ==> objects[0] !in machine.host)
    {
      hide GatewaySafe, GatewayAllSafe, Comes, GatewayQuiet, GatewayCalm, GatewaySteady;
      var objects := ObjectsOf(journal.value.snapshot);
      GatewayJournalMatches(machine, journal.value);
      var failed := false;
      GatewayCalmLater(schedule, old(clock), clock);
      o := RemoveObject(objects[1], from);
      if o.Crashed? { return; }
      failed := failed || o.Threw?;
      GatewayQuietLater(schedule, old(clock), clock);
      GatewayCalmLater(schedule, old(clock), clock);
      o := RemoveObject(objects[2], from);
      if o.Crashed? { return; }
      failed := failed || o.Threw?;
      GatewayQuietLater(schedule, old(clock), clock);
      GatewayCalmLater(schedule, old(clock), clock);
      o := RemoveObject(objects[0], from);
      if o.Crashed? { return; }
      failed := failed || o.Threw?;
      o := if failed then Threw else Done;
    }

    /** One query after the other, until an object is not there; from `firm` on, where the object was
        there before, that is a failure. */
    method SeesAll(queries: seq<NatObject>, firm: nat, ghost from: GatewayView) returns (o: Outcome, all: bool)
      requires Since(from) && firm > 0 && forall k :: firm <= k < |queries| ==> queries[k] == queries[0]
      modifies this`clock, this`machine, this`trace
      ensures Since(from) && old(clock) <= clock
      ensures Shifts(old(machine), machine)
      ensures old(trace) <= trace
      ensures o.Done? && all ==> |trace| == old(|trace|) + |queries|
      ensures o.Done? && all ==> forall q :: q in queries ==> SeenObject(trace, old(|trace|), q)
      ensures GatewayQuiet(schedule, old(clock)) ==> machine == old(machine)
      ensures GatewayCalm(schedule, old(clock)) && Truthful(schedule) ==>
                o.Done? && (all <==> forall q :: q in queries ==> q in old(machine.objects))
    {
      hide GatewaySafe, GatewayAllSafe, Comes, GatewayQuiet, GatewayCalm, GatewaySteady, Truthful, SeenObject;
      all := false;
      for k := 0 to |queries|
        invariant Since(from) && old(clock) <= clock
        invariant Shifts(old(machine), machine)
        invariant old(trace) <= trace && |trace| == old(|trace|) + k
        invariant forall q :: q in queries[..k] ==> SeenObject(trace, old(|trace|), q)
        invariant GatewayQuiet(schedule, old(clock)) ==> machine == old(machine)
        invariant GatewayCalm(schedule, old(clock)) && Truthful(schedule) ==>
                    forall q :: q in queries[..k] ==> q in old(machine.objects)
      {
        assert queries[..k + 1] == queries[..k] + [queries[k]];
        assert queries[k] in queries && (k > 0 ==> queries[0] in queries[..k]);
        GatewayCalmLater(schedule, old(clock), old(clock));
        GatewayQuietLater(schedule, old(clock), clock);
        GatewayCalmLater(schedule, old(clock), clock);
        TruthfulNow(schedule, clock);
        var there;
        ghost var before := trace;
        o, there := Sees(queries[k], from);
        SeenStays(before, trace, old(|trace|));
        if o.Done? && !there && k >= firm { o := Threw; }
        if !o.Done? || !there { return; }
        LastSeenObject(trace, old(|trace|), queries[k]);
      }
      assert queries[..|queries|] == queries;
      o, all := Done, true;
    }

    /** `VerifyAsync`: switches and objects, query by query. */
    method Verify(ghost from: GatewayView) returns (o: Outcome, ok: bool)
      requires Since(from) && journal.Some?
      modifies this`clock, this`machine, this`trace
      ensures Since(from) && old(clock) <= clock
      ensures Shifts(old(machine), machine)
      ensures old(trace) <= trace
      ensures o.Done? && ok ==> Applied(trace, old(|trace|), journal.value.snapshot)
      ensures o.Done? && ok ==> |trace| == old(|trace|) + CheckLength(platform) - 1
      ensures Verdict(schedule(old(clock)).fault).Threw? ==> o.Threw?
      ensures GatewayQuiet(schedule, old(clock)) ==> machine == old(machine)
      ensures GatewayCalm(schedule, old(clock)) && Truthful(schedule) ==>
                o.Done? && (ok <==> AllOn(old(machine), journal.value.snapshot)
                                    && forall q :: q in ObjectsOf(journal.value.snapshot) ==> q in old(machine.objects))
    {
      hide GatewaySafe, GatewayAllSafe, Comes, GatewayQuiet, GatewayCalm, GatewaySteady, Truthful, SeenOn, SeenObject,
           On, ObjectsOf, Queries;
      var s := journal.value.snapshot;
      GatewayJournalMatches(machine, journal.value);
      QueriesMeanObjects(s);
      ok := false;
      GatewayCalmLater(schedule, old(clock), clock);
      var t := Await(from);
      o := Verdict(t.fault);
      if !o.Done? { return; }
      if exists e :: e in s.entries && !On(machine, e.identity) { return; }
      LastSeenOn(trace, old(|trace|), s);
      GatewayQuietLater(schedule, old(clock), clock);
      GatewayCalmLater(schedule, old(clock), clock);
      ghost var before, n := trace, |trace|;
      o, ok := SeesAll(Queries(s), |ObjectsOf(s)|, from);
      SeenStays(before, trace, old(|trace|));
      SeenEarlier(trace, old(|trace|), n);
    }

    // ------------------------------------------------------ rollback and recovery

    /** Remove the NAT if there may be one, and drop the flag; an object that is still there is
        forgotten. */
    method RollBackNat(ghost from: GatewayView) returns (o: Outcome, errors: seq<Part>)
      requires Since(from) && journal.Some?
      modifies this`journal, this`clock, this`machine, this`trace
      ensures Since(from) && old(clock) <= clock && journal.Some?
      ensures machine.base == old(machine.base) && machine.host <= old(machine.host)
      ensures forall q :: q in machine.orphans ==>
                q in old(machine.orphans) || (q in old(machine.host) && Overlooked(schedule, q, old(clock)))
      ensures journal.value == old(journal.value).(natMayExist := journal.value.natMayExist)
      ensures o.Done? || o.Crashed?
      ensures old(machine.disk.Some?) ==> machine.disk.Some?
      ensures o.Done? ==> (errors == [] && !journal.value.natMayExist) || (errors == [OnNat] && machine.disk.Some?)
      ensures o.Done? && errors == [] && old(journal.value.natMayExist) && GatewayQuiet(schedule, old(clock)) ==>
                LeavesOnly(schedule, journal.value.snapshot, old(machine.objects), machine.objects, old(clock))
      ensures GatewayQuiet(schedule, old(clock)) ==> machine.forwarding == old(machine.forwarding)
      ensures o.Done? && errors == [] && old(journal.value.natMayExist) ==> machine.disk == journal
      ensures errors == [] || (errors == [OnNat] && GatewayBadCount(schedule, old(clock), clock) > 0)
      ensures GatewayCalm(schedule, old(clock)) ==> o.Done? && errors == []
    {
      hide GatewaySafe, GatewayAllSafe, Comes, GatewayQuiet, GatewayCalm, GatewaySteady, Truthful, ObjectsOf;
      errors := [];
      GatewayJournalMatches(machine, journal.value);
      if !journal.value.natMayExist { return Done, []; }
      GatewayWorkNeedsFile(machine, journal.value);
      o := RemoveNat(from);
      NoneOverlooked(schedule, journal.value.snapshot, old(clock));
      if o.Crashed? { return; }
      if o.Done? {
        ForgetIsSafe(machine, journal.value);
        journal, machine := Some(journal.value.(natMayExist := false)), Forget(machine);
        Record(from);
        GatewayQuietLater(schedule, old(clock), clock);
        GatewayCalmLater(schedule, old(clock), clock);
        o := Save(from);
        if o.Crashed? { return; }
      }
      if o.Threw? {
        GatewayBadIsCounted(schedule, old(clock), clock);
        errors := [OnNat];
      }
      o := Done;
    }

    method RollBackForwarding(ghost from: GatewayView) returns (o: Outcome, errors: seq<Part>)
      requires Since(from) && journal.Some?
      modifies this`journal, this`clock, this`machine, this`trace
      ensures Since(from) && old(clock) <= clock && journal.Some?
      ensures machine.base == old(machine.base) && machine.host <= old(machine.host)
      ensures journal.value == old(journal.value).(forwardingMayHaveChanged := journal.value.forwardingMayHaveChanged)
      ensures o.Done? || o.Crashed?
      ensures old(machine.disk.Some?) ==> machine.disk.Some?
      ensures o.Done? ==>
                || (errors == [] && !journal.value.forwardingMayHaveChanged)
                || (errors == [OnForwarding] && machine.disk.Some?)
      ensures GatewayQuiet(schedule, old(clock)) ==> machine.objects == old(machine.objects)
      ensures o.Done? && errors == [] && old(journal.value.forwardingMayHaveChanged) ==> machine.disk == journal
      ensures errors == [] || (errors == [OnForwarding] && GatewayBadCount(schedule, old(clock), clock) > 0)
      ensures GatewayCalm(schedule, old(clock)) ==> o.Done? && errors == []
    {
      hide GatewaySafe, GatewayAllSafe, Comes, GatewayQuiet, GatewayCalm, GatewaySteady;
      errors := [];
      GatewayJournalMatches(machine, journal.value);
      if !journal.value.forwardingMayHaveChanged { return Done, []; }
      GatewayWorkNeedsFile(machine, journal.value);
      o := RestoreForwarding(from);
      if o.Crashed? { return; }
      if o.Done? {
        GatewayJournalMatches(machine, journal.value);
        NoSwitchLeft(machine, journal.value);
        journal := Some(journal.value.(forwardingMayHaveChanged := false));
        Record(from);
        GatewayQuietLater(schedule, old(clock), clock);
        GatewayCalmLater(schedule, old(clock), clock);
        o := Save(from);
        if o.Crashed? { return; }
      }
      if o.Threw? {
        GatewayBadIsCounted(schedule, old(clock), clock);
        errors := [OnForwarding];
      }
      o := Done;
    }

    /** The NAT and then forwarding, the second in spite of a failure of the first. */
    method RollBackParts(ghost from: GatewayView) returns (o: Outcome, errors: seq<Part>)
      requires Since(from) && journal.Some?
      modifies this`journal, this`clock, this`machine, this`trace
      ensures Since(from) && old(clock) <= clock && journal.Some?
      ensures machine.base == old(machine.base) && machine.host <= old(machine.host)
      ensures o.Done? || o.Crashed?
      ensures o.Done? ==> (machine.host != {} ==> OnNat in errors && machine.disk.Some?)
      ensures o.Done? ==> (!Restored(machine) ==> OnForwarding in errors && machine.disk.Some?)
      ensures o.Done? && errors == [] ==> !journal.value.natMayExist && !journal.value.forwardingMayHaveChanged
      ensures o.Done? && errors == [] && old(journal.value.natMayExist) && GatewayQuiet(schedule, old(clock)) ==>
                LeavesOnly(schedule, old(journal.value.snapshot), old(machine.objects), machine.objects, old(clock))
      ensures |errors| <= GatewayBadCount(schedule, old(clock), clock)
      ensures GatewayCalm(schedule, old(clock)) ==> o.Done? && errors == []
    {
      hide GatewaySafe, GatewayAllSafe, Comes, GatewayQuiet, GatewayCalm, GatewaySteady, Truthful, Restored,
           ObjectsOf, GatewayBadCount;
      GatewayCalmLater(schedule, old(clock), clock);
      o, errors := RollBackNat(from);
      if o.Crashed? { return; }
      GatewayQuietLater(schedule, old(clock), clock);
      GatewayCalmLater(schedule, old(clock), clock);
      var more;
      ghost var at := clock;
      o, more := RollBackForwarding(from);
      GatewayBadSum(schedule, old(clock), at, clock);
      if o.Crashed? { return; }
      errors := errors + more;
      GatewayJournalMatches(machine, journal.value);
    }

    /** `if (File.Exists) File.Delete`, with whatever is in memory. */
    method DeleteFile(ghost from: GatewayView) returns (o: Outcome)
      requires Since(from)
      requires journal.Some? ==> !journal.value.natMayExist && !journal.value.forwardingMayHaveChanged
      modifies this`clock, this`machine, this`trace
      ensures clock == old(clock) + 1 && o == Verdict(schedule(old(clock)).fault)
      ensures old(Recovered()) ==> Since(from) && GatewayClean(machine) && GatewaySafe(machine, None)
      ensures o.Done? ==> machine.disk.None?
      ensures machine.disk.None? || machine.disk == old(machine.disk)
      ensures machine.base == old(machine.base) && machine.host <= old(machine.host)
      ensures GatewayQuiet(schedule, old(clock)) ==> machine.(disk := None) == old(machine).(disk := None)
      ensures GatewayCoherent(machine)
    {
      hide GatewaySafe, GatewayAllSafe, Comes, GatewayClean, GatewayCoherent;
      var t := Await(from);
      if Recovered() { GatewayCloseIsSafe(machine, journal); }
      SafeIsCoherent(machine, journal);
      if Happens(t.fault) {
        ComesStep(schedule, from, Seen(), machine.(disk := None), journal);
        if Recovered() { GatewayAllSafeGrows(trace, machine.(disk := None), journal); }
        machine := machine.(disk := None);
        trace := trace + [GatewayMoment(machine, journal)];
        CleanWithoutFile(machine);
      } else if Recovered() {
        GatewayCrashIsSafe(machine, journal);
      }
      o := Verdict(t.fault);
    }

    /** After a failed rollback of a recovered process: `Faulted`, with an error for every
        part that is left and a file that still accounts for it; or clean but for the file. */
    ghost predicate Unfinished(errors: seq<Part>)
      reads this
    {
      || (&& state == Faulted && errors != []
          && (machine.host != {} ==> OnNat in errors && machine.disk.Some?)
          && (!Restored(machine) ==> OnForwarding in errors && machine.disk.Some?))
      || (state == RollingBack && GatewayClean(machine))
    }

    method StopDns(ghost from: GatewayView) returns (o: Outcome)
      requires Since(from)
      modifies this`dnsRunning, this`clock, this`machine, this`trace
      ensures Since(from) && clock == old(clock) + 1 && o == Verdict(schedule(old(clock)).fault)
      ensures machine.disk == old(machine.disk) && machine.base == old(machine.base)
      ensures machine.host <= old(machine.host)
      ensures GatewayQuiet(schedule, old(clock)) ==> machine == old(machine)
      ensures o.Done? ==> !dnsRunning
    {
      hide GatewaySafe, GatewayAllSafe, Comes;
      var t := Await(from);
      o := Verdict(t.fault);
      if Happens(t.fault) { dnsRunning := false; }
    }

    /** `RollbackInternalAsync`: stop DNS, remove the NAT, restore forwarding, each in spite
        of failures before it, and delete the file. The file goes even if there is no journal
        in memory: over an unrecovered file the write-ahead rule survives exactly if nothing
        was left to undo. */
    method RollbackInternal(ghost from: GatewayView) returns (o: Outcome, errors: seq<Part>)
      requires Since(from)
      modifies this`journal, this`state, this`dnsRunning, this`clock, this`machine, this`trace
      ensures old(clock) <= clock && machine.base == old(machine.base) && machine.host <= old(machine.host)
      ensures old(journal.Some?) && !o.Done? ==> journal.Some?
      ensures old(Recovered()) ==> Since(from)
      ensures old(Recovered()) && o.Done? ==> GatewayClean(machine)
      ensures o.Done? ==> machine.disk.None? && journal.None? && state == Stopped && !dnsRunning
      ensures old(Recovered()) && o.Threw? ==> Unfinished(errors)
      ensures old(Recovered()) && !o.Crashed? ==> Recovered()
      ensures old(!Recovered()) && o.Done? ==> (GatewaySafe(machine, None) <==> GatewayClean(machine))
      ensures old(!Recovered()) && o.Done? && GatewayQuiet(schedule, old(clock)) ==>
                (GatewaySafe(machine, None) <==> old(GatewayClean(machine)))
      ensures old(!Recovered()) && GatewayQuiet(schedule, old(clock)) ==>
                machine.(disk := None) == old(machine).(disk := None)
      ensures o.Done? && old(journal.Some? && journal.value.natMayExist) && GatewayQuiet(schedule, old(clock)) ==>
                LeavesOnly(schedule, old(journal.value.snapshot), old(machine.objects), machine.objects, old(clock) + 1)
      ensures |errors| <= GatewayBadCount(schedule, old(clock), clock)
      ensures GatewayCalm(schedule, old(clock)) ==> o.Done?
    {
      hide GatewaySafe, GatewayAllSafe, Comes, GatewayQuiet, GatewayCalm, GatewaySteady, GatewayClean, Truthful,
           GatewayCoherent, Restored, ObjectsOf, LeavesOnly, GatewayBadCount;
      state, errors := RollingBack, [];
      GatewayCalmLater(schedule, old(clock), clock);
      o := StopDns(from);
      GatewayBadIsCounted(schedule, old(clock), clock);
      ghost var stopped := clock;
      if o.Crashed? { return; }
      if o.Threw? { errors := [OnDnsRuntime]; }
      GatewayQuietLater(schedule, old(clock), clock);
      GatewayCalmLater(schedule, old(clock), clock);
      if journal.Some? {
        var partErrors;
        o, partErrors := RollBackParts(from);
        GatewayBadSum(schedule, old(clock), stopped, clock);
        if o.Crashed? { return; }
        errors := errors + partErrors;
      } else if machine.disk.None? {
        GatewayNoFileMeansClean(machine, journal);
        CleanMeans(machine);
      }
      if errors != [] {
        state := Faulted;
        return Threw, errors;
      }
      GatewayQuietLater(schedule, old(clock), clock);
      GatewayCalmLater(schedule, old(clock), clock);
      o := FinishRollback(from);
    }

    /** Delete the file and forget the journal. */
    method FinishRollback(ghost from: GatewayView) returns (o: Outcome)
      requires Since(from) && state == RollingBack
      requires journal.Some? ==> !journal.value.natMayExist && !journal.value.forwardingMayHaveChanged
      modifies this`journal, this`state, this`clock, this`machine, this`trace
      ensures clock == old(clock) + 1 && o == Verdict(schedule(old(clock)).fault)
      ensures machine.base == old(machine.base) && machine.host <= old(machine.host)
      ensures !o.Done? ==> journal == old(journal) && state == RollingBack
      ensures old(Recovered()) ==> Since(from) && GatewayClean(machine)
      ensures o.Done? ==> machine.disk.None? && journal.None? && state == Stopped
      ensures old(Recovered()) ==> Recovered()
      ensures old(!Recovered()) && o.Done? ==> (GatewaySafe(machine, None) <==> GatewayClean(machine))
      ensures GatewayQuiet(schedule, old(clock)) ==> machine.(disk := None) == old(machine).(disk := None)
      ensures GatewayQuiet(schedule, old(clock)) ==> (GatewayClean(machine) <==> old(GatewayClean(machine)))
    {
      hide GatewaySafe, GatewayAllSafe, Comes, GatewayQuiet, GatewayClean, GatewayCoherent;
      o := DeleteFile(from);
      CleanWithoutFile(machine);
      CleanWithoutFile(old(machine));
      if !o.Done? { return; }
      SafeWithoutFile(machine);
      journal, state := None, Stopped;
    }

    /** `StopAsync`. */
    method Stop() returns (o: Outcome, errors: seq<Part>)
      requires Valid()
      modifies this
      ensures machine.host <= old(machine.host)
      ensures old(Recovered()) ==> Since(old(Seen()))
      ensures old(Recovered()) && o.Done? ==> GatewayClean(machine)
      ensures o.Done? ==> machine.disk.None? && journal.None? && state == Stopped && !dnsRunning
      ensures old(Recovered()) && o.Threw? ==> Unfinished(errors)
      ensures old(Recovered()) && !o.Crashed? ==> Recovered()
      ensures old(!Recovered()) && o.Done? && GatewayQuiet(schedule, old(clock)) ==>
                (GatewaySafe(machine, None) <==> old(GatewayClean(machine)))
      ensures old(!Recovered()) && GatewayQuiet(schedule, old(clock)) ==>
                machine.(disk := None) == old(machine).(disk := None)
      ensures o.Done? && old(journal.Some? && journal.value.natMayExist) && GatewayQuiet(schedule, old(clock)) ==>
                LeavesOnly(schedule, old(journal.value.snapshot), old(machine.objects), machine.objects, old(clock) + 1)
      ensures |errors| <= GatewayBadCount(schedule, old(clock), clock)
      ensures GatewayCalm(schedule, old(clock)) ==> o.Done?
      ensures |errors| <= GatewayBadCount(schedule, old(clock), clock)
    {
      hide GatewaySafe, GatewayAllSafe, Comes, GatewayQuiet, GatewayCalm, GatewayClean, Truthful, Unfinished;
      ComesItself(schedule, Seen());
      o, errors := RollbackInternal(Seen());
    }

    /** `RecoverAsync`: undo what the file lists. A normal return leaves a clean machine and
        no file. */
    method Recover() returns (o: Outcome)
      requires Valid()
      modifies this
      ensures Since(old(Seen())) && machine.base == old(machine.base) && machine.host <= old(machine.host)
      ensures o.Done? ==> machine.disk.None? && GatewayClean(machine)
      ensures o.Done? ==> journal == if old(machine.disk.None?) then old(journal) else None
      ensures o.Done? && old(machine.disk.None?) ==> machine == old(machine) && state == old(state)
      ensures && o.Done? && old(machine.disk.Some? && machine.disk.value.natMayExist)
              && GatewayQuiet(schedule, old(clock))
              ==>
                LeavesOnly(schedule, old(machine.disk.value.snapshot), old(machine.objects), machine.objects,
                           old(clock) + 2)
      ensures GatewayCalm(schedule, old(clock)) ==> o.Done?
    {
      hide GatewaySafe, GatewayAllSafe, Comes, GatewayQuiet, GatewayCalm, GatewaySteady, GatewayClean, Truthful,
           Unfinished;
      ghost var from := Seen();
      ComesItself(schedule, from);
      if machine.disk.None? {
        GatewayNoFileMeansClean(machine, journal);
        return Done;
      }
      GatewayCalmLater(schedule, old(clock), clock);
      var t := Await(from);
      o := Verdict(t.fault);
      if !o.Done? { return; }
      GatewayCrashIsSafe(machine, journal);
      journal := machine.disk;
      Record(from);
      GatewayJournalMatches(machine, journal.value);
      if journal.value.snapshot.platform.Windows? != platform.Windows? { return Threw; }
      GatewayQuietLater(schedule, old(clock), clock);
      GatewayCalmLater(schedule, old(clock), clock);
      var errors;
      o, errors := RollbackInternal(from);
    }

    // ------------------------------------------------------ start

    /** `CaptureAsync`: the switches as they are, and a token of the host's own. Windows
        refuses if any NAT exists, and wants two different interfaces. */
    method Capture(ghost from: GatewayView) returns (o: Outcome, snapshot: GatewaySnapshot)
      requires Since(from)
      modifies this`clock, this`machine, this`trace
      ensures Since(from) && clock == old(clock) + 1
      ensures Shifts(old(machine), machine)
      ensures snapshot.platform == platform
      ensures o.Done? ==> forall e :: e in snapshot.entries ==>
                e.identity in machine.forwarding && machine.forwarding[e.identity] == e.enabled
      ensures !platform.Windows? ==> forall e :: e in snapshot.entries ==> e.identity == GLOBAL
      ensures o.Done? ==> AboutSwitches(snapshot, old(clock))
      ensures o.Done? && GatewayQuiet(schedule, old(clock)) ==> old(CanCapture())
      ensures GatewayQuiet(schedule, old(clock)) ==> machine == old(machine)
      ensures GatewayCalm(schedule, old(clock)) && old(CanCapture()) ==> o.Done?
    {
      hide GatewaySafe, GatewayAllSafe, Comes;
      snapshot := GatewaySnapshot(platform, clock, []);
      var t := Await(from);
      o := Verdict(t.fault);
      if !o.Done? { return; }
      var ids := if platform.Windows? then t.adapters else [GLOBAL];
      if platform.Windows? && (AnyNat(machine.objects) || |ids| != 2 || ids[0] == ids[1]) { return Threw, snapshot; }
      if exists k :: 0 <= k < |ids| && ids[k] !in machine.forwarding { return Threw, snapshot; }
      assert ids[0] in machine.forwarding && (platform.Windows? ==> ids[1] in machine.forwarding);
      var m := machine;
      var entries := seq(|ids|, k requires 0 <= k < |ids| => Entry(ids[k], On(m, ids[k])));
      forall e | e in entries
        ensures e.identity in machine.forwarding && machine.forwarding[e.identity] == e.enabled
      {
        var k :| 0 <= k < |entries| && entries[k] == e;
      }
      snapshot := snapshot.(entries := entries);
      assert Identities(snapshot) == ids;
    }

    /** The snapshot of a capture at this tick: on Windows it is about the two adapters that were
        given, on Linux about the one global switch. */
    ghost predicate AboutSwitches(snapshot: GatewaySnapshot, tick: nat) {
      && snapshot.platform == platform && snapshot.token == tick
      && Identities(snapshot) == (if platform.Windows? then schedule(tick).adapters else [GLOBAL])
      && (platform.Windows? ==> |schedule(tick).adapters| == 2)
    }

    /** A capture would be accepted. */
    ghost predicate CanCapture()
      reads this`machine, this`clock
    {
      CanCaptureFrom(machine.forwarding)
    }

    ghost predicate CanCaptureFrom(forwarding: map<nat, bool>)
      reads this`machine, this`clock
    {
      var ids := schedule(clock).adapters;
      if platform.Windows? then
        && !AnyNat(machine.objects)
        && |ids| == 2 && ids[0] != ids[1] && ids[0] in forwarding && ids[1] in forwarding
      else GLOBAL in forwarding
    }

    /** Capture, first save, and forwarding. */
    method PrepareForwarding(ghost from: GatewayView) returns (o: Outcome)
      requires Since(from) && journal.None? && machine.disk.None?
      modifies this`journal, this`clock, this`machine, this`trace
      ensures Since(from) && old(clock) <= clock
      ensures journal.None? ==> machine.disk.None?
      ensures o.Done? ==> journal.Some? && machine.disk == journal && machine.host == {}
      ensures o.Done? ==> journal.value == GatewayJournal(journal.value.snapshot, true, false)
      ensures o.Done? ==> AboutSwitches(journal.value.snapshot, old(clock))
      ensures o.Done? && GatewayQuiet(schedule, old(clock)) ==>
                AllOn(machine, journal.value.snapshot) && machine.objects == old(machine.objects) && old(CanCapture())
      ensures GatewayCalm(schedule, old(clock)) && old(CanCapture()) ==> o.Done?
    {
      hide GatewaySafe, GatewayAllSafe, Comes, GatewayQuiet, GatewayCalm, GatewaySteady, CanCapture, OnlyCaptured,
           AboutSwitches;
      GatewayCalmLater(schedule, old(clock), clock);
      var snapshot;
      o, snapshot := Capture(from);
      if !o.Done? { return; }
      GatewayQuietLater(schedule, old(clock), clock);
      GatewayCalmLater(schedule, old(clock), clock);
      GatewayOpenIsSafe(machine, snapshot);
      GatewayNoFileMeansClean(machine, journal);
      journal, machine := Some(GatewayJournal(snapshot, false, false)), machine.(base := Some(snapshot));
      Record(from);
      o := Save(from);
      if !o.Done? { return; }
      GatewayQuietLater(schedule, old(clock), clock);
      GatewayCalmLater(schedule, old(clock), clock);
      GatewayFlagIsSafe(machine, journal.value);
      journal := Some(journal.value.(forwardingMayHaveChanged := true));
      Record(from);
      o := Save(from);
      if !o.Done? { return; }
      GatewayQuietLater(schedule, old(clock), clock);
      GatewayCalmLater(schedule, old(clock), clock);
      ghost var before := machine;
      o := EnableForwarding(from);
      EnabledAll(before, machine, snapshot);
    }

    /** What a successful start has achieved: both journals carry both flags, and during the health
        check, which is the last thing recorded, every switch has been seen on and every NAT
        object seen in place. */
    ghost predicate Started(since: nat)
      reads this
    {
      && state == Ready && dnsRunning
      && journal.Some? && machine.disk == journal
      && journal.value.forwardingMayHaveChanged && journal.value.natMayExist
      && since + CheckLength(platform) <= |trace|
      && Applied(trace, |trace| - CheckLength(platform), journal.value.snapshot)
    }

    /** Every switch is on and every NAT object in place now. */
    ghost predicate InPlace()
      reads this
    {
      && journal.Some? && AllOn(machine, journal.value.snapshot)
      && forall q :: q in ObjectsOf(journal.value.snapshot) ==> q in machine.objects
    }

    /** The NAT, and the DNS runtime. */
    method CreateAndServe(ghost from: GatewayView) returns (o: Outcome)
      requires Since(from) && journal.Some? && machine.disk == journal && machine.host == {}
      requires journal.value == GatewayJournal(journal.value.snapshot, true, false)
      modifies this`journal, this`state, this`dnsRunning, this`clock, this`machine, this`trace
      ensures Since(from) && old(clock) <= clock && journal.Some? && machine.disk.Some?
      ensures o.Done? ==>
                machine.disk == journal && journal.value == GatewayJournal(old(journal.value.snapshot), true, true)
      ensures o.Done? ==> dnsRunning
      ensures state == Ready ==> old(state) == Ready
      ensures o.Done? && GatewayQuiet(schedule, old(clock)) ==>
                && machine.forwarding == old(machine.forwarding)
                && forall q :: q in ObjectsOf(journal.value.snapshot) ==> q in machine.objects
      ensures && GatewayCalm(schedule, old(clock))
              && old(!Remains(machine, journal.value.snapshot)) && (platform.Windows? ==> !AnyNat(old(machine.objects)))
              ==> o.Done?
    {
      hide GatewaySafe, GatewayAllSafe, Comes, GatewayQuiet, GatewayCalm, GatewaySteady, ObjectsOf;
      GatewayFlagIsSafe(machine, journal.value);
      journal := Some(journal.value.(natMayExist := true));
      Record(from);
      GatewayCalmLater(schedule, old(clock), clock);
      o := Save(from);
      if !o.Done? { return; }
      GatewayQuietLater(schedule, old(clock), clock);
      GatewayCalmLater(schedule, old(clock), clock);
      o := CreateNat(from);
      if !o.Done? { return; }
      state := DnsStarting;
      GatewayQuietLater(schedule, old(clock), clock);
      GatewayCalmLater(schedule, old(clock), clock);
      var t := Await(from);
      o := Verdict(t.fault);
      if Happens(t.fault) { dnsRunning := true; }
    }

    /** The health checks of platform and DNS. */
    method CheckHealth(ghost from: GatewayView) returns (o: Outcome, healthy: bool)
      requires Since(from) && journal.Some?
      modifies this`clock, this`machine, this`trace
      ensures Since(from) && old(clock) <= clock
      ensures machine.disk == old(machine.disk)
      ensures old(trace) <= trace
      ensures Verdict(schedule(old(clock)).fault).Threw? ==> o.Threw?
      ensures o.Done? && healthy ==>
                |trace| == old(|trace|) + CheckLength(platform) && Applied(trace, old(|trace|), journal.value.snapshot)
      ensures o.Done? && healthy ==>
                && old(clock) < clock && schedule(clock - 1).answer
                && trace[|trace| - 1] == GatewayMoment(machine, journal)
      ensures GatewayQuiet(schedule, old(clock)) ==> machine == old(machine)
      ensures GatewayCalm(schedule, old(clock)) && Truthful(schedule) && GatewayAssents(schedule) ==>
                o.Done? && (healthy <==> old(InPlace()))
    {
      hide GatewaySafe, GatewayAllSafe, Comes, GatewayQuiet, GatewayCalm, GatewaySteady, Truthful, GatewayAssents,
           Applied, AllOn, ObjectsOf;
      healthy := false;
      ghost var n := |trace|;
      GatewayCalmLater(schedule, old(clock), clock);
      o, healthy := Verify(from);
      if !o.Done? || !healthy { return; }
      GatewayQuietLater(schedule, old(clock), clock);
      GatewayCalmLater(schedule, old(clock), clock);
      GatewayAssentsNow(schedule, clock);
      ghost var before := trace;
      var t := Await(from);
      o, healthy := Verdict(t.fault), t.answer;
      AppliedStays(before, trace, n, n, journal.value.snapshot);
    }

    lemma CaptureNeedsNoNat()
      ensures platform.Windows? && CanCapture() ==> !AnyNat(machine.objects)
    {
    }

    /** The overlay adapter is up with 10.10.0.1, on an interface of its own. */
    predicate Separate(physicalIndex: int, overlay: GatewayAdapter) {
      overlay.address == Addresses.V4(0x0a0a_0001) && overlay.index > 0 && overlay.index != physicalIndex
    }

    /** Everything a start needs: no transaction is open, the adapter is right, and the capture is
        accepted. */
    ghost predicate CanStart(physicalIndex: int, overlay: GatewayAdapter)
      reads this`machine, this`clock, this`journal
    {
      journal.None? && CanStartWith(physicalIndex, overlay, machine.forwarding)
    }

    /** The same for a new process, were these the switches. */
    ghost predicate CanStartWith(physicalIndex: int, overlay: GatewayAdapter, forwarding: map<nat, bool>)
      reads this`machine, this`clock
    {
      Separate(physicalIndex, overlay) && machine.disk.None? && CanCaptureFrom(forwarding)
    }

    /** The guarded part of `StartAsync`. */
    method TryStart(physicalIndex: int, overlay: GatewayAdapter, ghost from: GatewayView) returns (o: Outcome)
      requires Since(from)
      modifies this`journal, this`state, this`dnsRunning, this`clock, this`machine, this`trace
      ensures Since(from)
      ensures old(journal.Some? || machine.disk.Some?) ==>
                o.Threw? && journal == old(journal) && machine == old(machine)
      ensures old(machine.disk.None?) && journal.None? ==> machine.disk.None?
      ensures o.Done? ==> Started(|from.trace|)
      ensures state == Ready ==> o.Done? || old(state) == Ready
      ensures o.Done? ==> AboutSwitches(journal.value.snapshot, old(clock)) && Separate(physicalIndex, overlay)
      ensures o.Done? ==>
                GatewayAnswered(schedule, old(clock), clock) && trace[|trace| - 1] == GatewayMoment(machine, journal)
      ensures o.Done? && GatewayQuiet(schedule, old(clock)) ==> old(CanStart(physicalIndex, overlay)) && InPlace()
      ensures && GatewayCalm(schedule, old(clock)) && Truthful(schedule) && GatewayAssents(schedule)
              && old(CanStart(physicalIndex, overlay))
              ==> o.Done?
      ensures !Separate(physicalIndex, overlay) ==> o.Threw? && journal == old(journal)
    {
      hide GatewaySafe, GatewayAllSafe, Comes, GatewayQuiet, GatewayCalm, GatewaySteady, Truthful, GatewayAssents,
           Applied, AllOn, CanCaptureFrom, AnyNat, ObjectsOf, AboutSwitches, GatewayAnswered;
      if journal.Some? || machine.disk.Some? { return Threw; }
      if overlay.address != Addresses.V4(Addresses.OVERLAY_GATEWAY) { return Threw; }
      if overlay.index <= 0 || overlay.index == physicalIndex { return Threw; }
      state := Preparing;
      CaptureNeedsNoNat();
      GatewayCalmLater(schedule, old(clock), clock);
      o := PrepareForwarding(from);
      if !o.Done? { return; }
      GatewayQuietLater(schedule, old(clock), clock);
      GatewayCalmLater(schedule, old(clock), clock);
      GatewayJournalMatches(machine, journal.value);
      ghost var prepared := machine;
      o := CreateAndServe(from);
      if !o.Done? { return; }
      GatewayQuietLater(schedule, old(clock), clock);
      GatewayCalmLater(schedule, old(clock), clock);
      AllOnSame(prepared, machine, journal.value.snapshot);
      ComesTrace(schedule, from, Seen());
      var healthy;
      o, healthy := CheckHealth(from);
      if !o.Done? { return; }
      if !healthy { return Threw; }
      GatewayAnsweredLater(schedule, old(clock), clock - 1, clock);
      state := Ready;
    }

    /** `StartAsync`. `Ready` is reached only with forwarding and NAT applied and verified.
        If it throws and no file was left over, everything is rolled back or a rollback is
        pending. Over a left-over file it throws and changes nothing. */
    method Start(physicalIndex: int, overlay: GatewayAdapter) returns (o: Outcome)
      requires Valid()
      modifies this
      ensures Since(old(Seen()))
      ensures o.Done? ==> state == Ready
      ensures o.Done? && old(state) == Ready ==> journal == old(journal) && machine == old(machine)
      ensures o.Done? && old(state) != Ready ==> Started(old(|trace|))
      ensures old(Recovered()) && !o.Crashed? ==> Recovered()
      ensures old(!Recovered()) && old(state) != Ready ==> o.Threw? && journal.None? && machine == old(machine)
      ensures o.Threw? && old(Recovered()) ==>
                || (journal.Some? && exists errors :: Unfinished(errors))
                || (journal.None? && machine.disk.None? && GatewayClean(machine) && state == Stopped)
      ensures o.Done? && old(state) != Ready ==>
                && overlay.address == Addresses.V4(0x0a0a_0001) && overlay.index > 0 && overlay.index != physicalIndex
                && AboutSwitches(journal.value.snapshot, old(clock)) && GatewayAnswered(schedule, old(clock), clock)
                && old(|trace|) < |trace| && trace[|trace| - 1] == GatewayMoment(machine, journal)
      ensures o.Done? && old(state) != Ready && GatewayQuiet(schedule, old(clock)) ==>
                && old(CanStart(physicalIndex, overlay)) && InPlace()
                && NatInPlace(platform, machine.objects, Made(old(clock)))
                && (if platform.Windows? then
                      var ids := schedule(old(clock)).adapters;
                      |ids| == 2 && On(machine, ids[0]) && On(machine, ids[1])
                    else On(machine, GLOBAL))
      ensures && GatewayCalm(schedule, old(clock)) && Truthful(schedule) && GatewayAssents(schedule)
              && old(state != Ready && CanStart(physicalIndex, overlay))
              ==> o.Done?
      ensures old(state != Ready && journal.None?) && !Separate(physicalIndex, overlay) ==> o.Threw? && journal.None?
    {
      hide GatewaySafe, GatewayAllSafe, Comes, GatewayQuiet, GatewayCalm, GatewaySteady, GatewayClean, Truthful,
           GatewayAssents, Applied, AllOn, CanStart, Unfinished;
      ghost var from := Seen();
      ComesItself(schedule, from);
      if state == Ready { return Done; }
      o := TryStart(physicalIndex, overlay, from);
      if o.Done? {
        AllOnMeans(machine, journal.value.snapshot);
        ObjectsAreNat(journal.value.snapshot, machine.objects);
        assert !platform.Windows? ==> Identities(journal.value.snapshot)[0] == GLOBAL;
      }
      if o.Threw? {
        if journal.Some? {
          var rolledBack, errors := RollbackInternal(from);
          if rolledBack.Crashed? { return Crashed; }
        } else {
          if machine.disk.None? { GatewayNoFileMeansClean(machine, journal); }
          state := Stopped;
        }
      }
    }

    /** `CheckAsync`. */
    method Check() returns (o: Outcome, healthy: bool)
      requires Valid()
      modifies this`clock, this`machine, this`trace
      ensures Since(old(Seen())) && machine.disk == old(machine.disk)
      ensures state == Ready && journal.Some? && Verdict(schedule(old(clock)).fault).Threw? ==> o.Threw?
      ensures o.Done? && healthy ==>
                && state == Ready && journal.Some? && Applied(trace, old(|trace|), journal.value.snapshot)
                && GatewayAnswered(schedule, old(clock), clock)
      ensures GatewayCalm(schedule, old(clock)) && Truthful(schedule) && GatewayAssents(schedule) ==>
                o.Done? && (healthy <==> state == Ready && old(InPlace()))
      ensures GatewayQuiet(schedule, old(clock)) ==> machine == old(machine)
    {
      hide GatewaySafe, GatewayAllSafe, Comes, Applied;
      ComesItself(schedule, Seen());
      if state != Ready || journal.None? { return Done, false; }
      o, healthy := CheckHealth(Seen());
      if o.Done? && healthy { GatewayAnsweredLater(schedule, old(clock), clock - 1, clock); }
    }

    /** A new process, or a new bootstrapper: memory is lost, the machine stays. */
    method Restart()
      requires Valid()
      modifies this`journal, this`state, this`dnsRunning
      ensures Valid() && journal.None? && state == Stopped && !dnsRunning
    {
      GatewayCrashIsSafe(machine, journal);
      journal, state, dnsRunning := None, Stopped, false;
    }

    /** Between transactions: other programs have set the switches to any other values. */
    method OthersSwitch(forwarding: map<nat, bool>)
      requires Valid() && journal.None? && machine.disk.None?
      modifies this`machine
      ensures Valid() && machine == old(machine).(forwarding := forwarding, base := None, home := forwarding)
    {
      OthersMaySwitch(machine, forwarding);
      machine := machine.(forwarding := forwarding, base := None, home := forwarding);
    }
  }

  /** How many of the entries that were captured off are on. */
  ghost function LeftOn(m: GatewayMachine, entries: seq<Entry>): nat {
    if entries == [] then 0
    else
      var last := entries[|entries| - 1];
      LeftOn(m, entries[..|entries| - 1]) + if !last.enabled && On(m, last.identity) then 1 else 0
  }

  lemma LeftOnNone(m: GatewayMachine, entries: seq<Entry>)
    ensures LeftOn(m, entries[..0]) == 0
  {
  }

  lemma LeftOnStep(m: GatewayMachine, entries: seq<Entry>, k: nat)
    requires k < |entries|
    ensures LeftOn(m, entries[..k + 1])
            == LeftOn(m, entries[..k]) + if !entries[k].enabled && On(m, entries[k].identity) then 1 else 0
  {
    assert entries[..k + 1][..k] == entries[..k];
  }

  lemma {:induction false} LeftOnShrinks(a: GatewayMachine, b: GatewayMachine, entries: seq<Entry>)
    requires forall i :: On(b, i) ==> On(a, i)
    ensures LeftOn(b, entries) <= LeftOn(a, entries)
  {
    if entries != [] {
      LeftOnShrinks(a, b, entries[..|entries| - 1]);
    }
  }

  /** If the switches captured on stay on, and those captured off are now on, all are. */
  lemma EnabledAll(a: GatewayMachine, b: GatewayMachine, s: GatewaySnapshot)
    requires OnlyCaptured(a, b, s)
    ensures && (forall e :: e in s.entries ==> e.identity in b.forwarding)
            && (forall e :: e in s.entries && e.enabled ==> On(a, e.identity))
            && (forall e :: e in s.entries && !e.enabled ==> On(b, e.identity))
            ==> AllOn(b, s)
  {
  }

  /** Only switches that were captured off have changed. */
  ghost predicate OnlyCaptured(a: GatewayMachine, b: GatewayMachine, s: GatewaySnapshot) {
    forall i :: i in b.forwarding ==>
      i in a.forwarding && (b.forwarding[i] == a.forwarding[i] || Entry(i, false) in s.entries)
  }
}
