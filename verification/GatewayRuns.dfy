/** Whole lives of a gateway machine: any operations in any order, with any faults and
    crashes. */
module GatewayRuns {
  import opened Options
  import Addresses
  import opened AwaitedCalls
  import opened GatewayTransaction
  import opened GatewayBootstrapper

  datatype Operation =
    | Start(physicalIndex: int, overlay: GatewayAdapter)
    | Check
    | Stop
    | Recover
    | Kill
    | OthersSwitch(forwarding: map<nat, bool>)

  /** The objects of others have changed only as the schedule says. */
  ghost predicate ObjectsFrom(b: GatewayBootstrapper, foreign: set<NatObject>, clock: nat)
    reads b
  {
    NatOutside(b.schedule, foreign, {}, clock, b.machine.foreign, {}, b.clock)
  }

  /** So have the switches, and the host has not become the one who left them. */
  ghost predicate SwitchesFrom(
      b: GatewayBootstrapper, foreign: set<NatObject>, switches: set<nat>, home: map<nat, bool>, clock: nat)
    reads b
  {
    && NatOutside(b.schedule, foreign, switches, clock, b.machine.foreign, b.machine.forwarding.Keys, b.clock)
    && b.machine.home == home
  }

  /** What an operation that ended like this has come to, at least. */
  ghost predicate Performed(b: GatewayBootstrapper, operation: Operation, o: Outcome)
    reads b
  {
    if o.Crashed? then b.journal.None? && b.state == Stopped
    else
      match operation
      case Start(_, _) => o.Done? ==> b.state == Ready
      case Check => true
      case Stop => o.Done? ==> b.machine.disk.None? || b.journal.None?
      case Recover => o.Done? ==> b.machine.disk.None?
      case Kill => false
      case OthersSwitch(forwarding) => b.journal.None? && b.machine.disk.None? ==> b.machine.forwarding == forwarding
  }

  /** One operation; if the process dies in it, the next one starts with empty memory. A
      bootstrapper is stopped only if no file is left over from an earlier process, and
      others flip switches only between transactions. */
  method Perform(b: GatewayBootstrapper, operation: Operation) returns (o: Outcome)
    requires b.Valid()
    modifies b
    ensures b.Valid() && Performed(b, operation, o)
    ensures old(b.trace) <= b.trace
    ensures ObjectsFrom(b, old(b.machine.foreign), old(b.clock))
    ensures !operation.OthersSwitch? ==>
              SwitchesFrom(b, old(b.machine.foreign), old(b.machine.forwarding.Keys), old(b.machine.home), old(b.clock))
  {
    hide GatewaySafe, GatewayAllSafe, NatOutside;
    o := Done;
    ghost var foreign, switches, clock := b.machine.foreign, b.machine.forwarding.Keys, b.clock;
    NatOutsideItself(b.schedule, foreign, switches, clock);
    NatOutsideItself(b.schedule, foreign, {}, clock);
    match operation {
      case Start(physicalIndex, overlay) => o := b.Start(physicalIndex, overlay);
      case Check => var healthy; o, healthy := b.Check();
      case Stop => if b.journal.Some? || b.machine.disk.None? { var errors; o, errors := b.Stop(); }
      case Recover => o := b.Recover();
      case Kill => o := Crashed;
      case OthersSwitch(forwarding) => if b.journal.None? && b.machine.disk.None? { b.OthersSwitch(forwarding); }
    }
    if o.Crashed? {
      b.Restart();
    }
    if !operation.OthersSwitch? {
      NatOutsideObjects(b.schedule, foreign, switches, clock, b.machine.foreign, b.machine.forwarding.Keys, b.clock);
    }
  }

  ghost predicate OthersIdle(operations: seq<Operation>) {
    forall i :: 0 <= i < |operations| ==> !operations[i].OthersSwitch?
  }

  /** The write-ahead rule over a whole run: every recorded moment is safe. */
  method Run(b: GatewayBootstrapper, operations: seq<Operation>) returns (o: Outcome)
    requires b.Valid()
    modifies b
    ensures b.Valid()
    ensures operations != [] ==> Performed(b, operations[|operations| - 1], o)
    ensures old(b.trace) <= b.trace
    ensures ObjectsFrom(b, old(b.machine.foreign), old(b.clock))
    ensures OthersIdle(operations) ==>
              SwitchesFrom(b, old(b.machine.foreign), old(b.machine.forwarding.Keys), old(b.machine.home), old(b.clock))
  {
    hide GatewaySafe, GatewayAllSafe, NatOutside, Performed;
    ghost var foreign, switches, clock := b.machine.foreign, b.machine.forwarding.Keys, b.clock;
    NatOutsideItself(b.schedule, foreign, switches, clock);
    NatOutsideItself(b.schedule, foreign, {}, clock);
    o := Done;
    for i := 0 to |operations|
      invariant b.Valid()
      invariant i > 0 ==> Performed(b, operations[i - 1], o)
      invariant old(b.trace) <= b.trace
      invariant ObjectsFrom(b, foreign, clock)
      invariant OthersIdle(operations) ==> SwitchesFrom(b, foreign, switches, old(b.machine.home), clock)
    {
      ghost var x, a, k := b.machine.foreign, b.machine.forwarding.Keys, b.clock;
      o := Perform(b, operations[i]);
      NatOutsideTransitive(b.schedule, foreign, {}, clock, x, {}, k, b.machine.foreign, {}, b.clock);
      if OthersIdle(operations) {
        NatOutsideTransitive(b.schedule, foreign, switches, clock, x, a, k,
                             b.machine.foreign, b.machine.forwarding.Keys, b.clock);
      }
    }
  }

  /** The process dies and a new one recovers. A normal return leaves no file, no object that the
      host has not forgotten, and every captured switch that is still there at its captured
      value. Without interference an object of the transaction is left if and only if it was
      there and the query for it could not tell. If nothing fails and nobody interferes, it
      does return normally. */
  method CrashAndRecover(b: GatewayBootstrapper) returns (o: Outcome)
    requires b.Valid()
    modifies b
    ensures b.Valid() && old(b.trace) <= b.trace
    ensures SwitchesFrom(b, old(b.machine.foreign), old(b.machine.forwarding.Keys), old(b.machine.home), old(b.clock))
    ensures o.Done? ==> b.machine.disk.None? && GatewayClean(b.machine)
    ensures o.Done? && old(b.machine.disk.Some?) ==>
              forall e :: e in old(b.machine.disk.value.snapshot.entries) && e.identity in b.machine.forwarding ==>
                b.machine.forwarding[e.identity] == e.enabled
    ensures && o.Done? && old(b.machine.disk.Some? && b.machine.disk.value.natMayExist)
            && GatewayQuiet(b.schedule, old(b.clock))
            ==>
              LeavesOnly(b.schedule, old(b.machine.disk.value.snapshot), old(b.machine.objects), b.machine.objects,
                         old(b.clock) + 2)
    ensures GatewayCalm(b.schedule, old(b.clock)) ==> o.Done?
  {
    hide GatewayAllSafe, NatOutside, GatewayCalm, GatewayQuiet, GatewayCoherent;
    b.Restart();
    assert b.machine.disk.Some? ==> b.machine.base == Some(b.machine.disk.value.snapshot);
    o := b.Recover();
  }

  /** Crash recovery. After any history and one more crash, a recovery that returns normally
      leaves no journal file and the machine as it was found: but for forgotten ones, a NAT
      or firewall object is there only if it was there at first or another program added it,
      and missing only if another program removed it; and a switch, if others set none, is
      as it was, or was taken away. If every query can tell, nothing is forgotten. */
  method RecoverAfterAnyHistory(
      schedule: GatewaySchedule, platform: Platform, objects: set<NatObject>, forwarding: map<nat, bool>,
      operations: seq<Operation>)
    returns (b: GatewayBootstrapper, o: Outcome)
    requires forall q :: q in objects ==> q.name.Other?
    ensures fresh(b) && b.schedule == schedule && b.platform == platform
    ensures GatewayAllSafe(b.trace)
    ensures o.Done? ==> b.machine.disk.None? && b.machine.host == {}
    ensures o.Done? ==> NatOutside(schedule, objects, {}, 0, b.machine.objects - b.machine.orphans, {}, b.clock)
    ensures b.Honest() ==> b.machine.orphans == {}
    ensures o.Done? && OthersIdle(operations) ==>
              && (forall i :: i in b.machine.forwarding ==> i in forwarding && b.machine.forwarding[i] == forwarding[i])
              && (forall i :: i in forwarding ==> i in b.machine.forwarding || SwitchLost(schedule, 0, b.clock, i))
    ensures o.Done? && b.Honest() && GatewayQuiet(schedule, 0) ==> b.machine.objects == objects
    ensures o.Done? && OthersIdle(operations) && GatewayQuiet(schedule, 0) ==> b.machine.forwarding == forwarding
  {
    hide GatewaySafe, GatewayAllSafe, GatewayClean;
    b := new GatewayBootstrapper(schedule, platform, objects, forwarding);
    var last := Run(b, operations);
    ghost var x, a, k := b.machine.foreign, b.machine.forwarding.Keys, b.clock;
    o := CrashAndRecover(b);
    var m := b.machine;
    NatOutsideObjects(schedule, x, a, k, m.foreign, m.forwarding.Keys, b.clock);
    NatOutsideTransitive(schedule, objects, {}, 0, x, {}, k, m.foreign, {}, b.clock);
    if OthersIdle(operations) {
      NatOutsideTransitive(schedule, objects, forwarding.Keys, 0, x, a, k, m.foreign, m.forwarding.Keys, b.clock);
    }
    if o.Done? {
      CleanMeans(m);
      GatewayCleanObjects(m, b.journal);
      GatewayCleanMeansHome(m, b.journal);
      if GatewayQuiet(schedule, 0) {
        NatOutsideQuiet(schedule, objects, {}, 0, m.foreign, {}, b.clock);
        if OthersIdle(operations) {
          NatOutsideQuiet(schedule, objects, forwarding.Keys, 0, m.foreign, m.forwarding.Keys, b.clock);
        }
      }
    }
  }

  // --------------------------------------------- where the hypotheses matter

  /** Nothing fails and nobody interferes; `lie` says that queries which swallow their errors
      cannot tell. */
  ghost function Unharmed(lie: bool): GatewaySchedule {
    (k: nat) => GatewayTick(Fine, {}, {}, {}, lie, false, [1, 2], true)
  }

  /** A process is killed while the gateway is ready, and a new bootstrapper is stopped without
      having recovered: it deletes the file and leaves the NAT in place. */
  method StopOverFileFails(schedule: GatewaySchedule) returns (b: GatewayBootstrapper, o: Outcome)
    requires schedule == Unharmed(false)
    ensures fresh(b) && o.Done? && b.machine.disk.None?
    ensures b.machine.host != {} && !GatewaySafe(b.machine, None)
  {
    hide GatewaySafe, GatewayAllSafe, Comes;
    b := ReadyThenKilled(schedule);
    assert !GatewayClean(b.machine) && GatewayCalm(schedule, b.clock);
    var errors;
    o, errors := b.Stop();
    assert b.machine.(disk := None).host != {};
  }

  method ReadyThenKilled(schedule: GatewaySchedule) returns (b: GatewayBootstrapper)
    requires schedule == Unharmed(false)
    ensures fresh(b) && b.schedule == schedule && b.Valid() && !b.Recovered() && b.machine.host != {}
  {
    hide GatewaySafe, GatewayAllSafe, Comes;
    b := new GatewayBootstrapper(schedule, Nftables, {}, map[GLOBAL := false]);
    assert GatewayCalm(schedule, b.clock) && Truthful(schedule) && GatewayAssents(schedule);
    var o := b.Start(2, GatewayAdapter(3, Addresses.V4(0x0a0a_0001)));
    GatewayJournalMatches(b.machine, b.journal.value);
    var first := ObjectsOf(b.journal.value.snapshot)[0];
    assert first in ObjectsOf(b.journal.value.snapshot) && first in b.machine.host;
    b.Restart();
  }

  /** A process dies in its start, after it has created the rule, and `iptables -C` cannot tell:
      the recovery returns normally and deletes the file, but the rule is still there. */
  method BlindQueryFails(schedule: GatewaySchedule) returns (b: GatewayBootstrapper, o: Outcome, rule: NatObject)
    requires schedule == Unharmed(true)
    ensures fresh(b) && o.Done? && b.machine.disk.None?
    ensures rule.kind == IptablesRule && rule in b.machine.objects && rule !in b.machine.foreign
  {
    hide GatewaySafe, GatewayAllSafe, Comes;
    var s;
    b, s := CreatedThenKilled(schedule, Iptables, map[GLOBAL := false]);
    rule := NatObject(IptablesRule, Made(s.token), Made(s.token));
    assert rule == ObjectsOf(s)[0];
    o := CrashAndRecover(b);
    SafeIsCoherent(b.machine, b.journal);
  }

  /** So it is on Windows when the query for a firewall rule fails silently. */
  method SilentQueryFails(schedule: GatewaySchedule) returns (b: GatewayBootstrapper, o: Outcome, rule: NatObject)
    requires schedule == Unharmed(true)
    ensures fresh(b) && o.Done? && b.machine.disk.None?
    ensures rule.kind == FirewallTcp && rule in b.machine.objects && rule !in b.machine.foreign
  {
    hide GatewaySafe, GatewayAllSafe, Comes;
    var s;
    b, s := CreatedThenKilled(schedule, Windows, map[1 := false, 2 := false]);
    rule := NatObject(FirewallTcp, Made(s.token), Made(s.token));
    assert rule == ObjectsOf(s)[1];
    o := CrashAndRecover(b);
    SafeIsCoherent(b.machine, b.journal);
  }

  method CreatedThenKilled(schedule: GatewaySchedule, platform: Platform, forwarding: map<nat, bool>)
    returns (b: GatewayBootstrapper, s: GatewaySnapshot)
    requires schedule == Unharmed(true)
    requires if platform.Windows? then 1 in forwarding && 2 in forwarding else GLOBAL in forwarding
    ensures fresh(b) && b.schedule == schedule && b.platform == platform && b.Valid() && s.platform == platform
    ensures b.machine.disk == Some(GatewayJournal(s, true, true))
    ensures forall q :: q in ObjectsOf(s) ==> q in b.machine.objects
  {
    hide GatewaySafe, GatewayAllSafe, Comes;
    b := new GatewayBootstrapper(schedule, platform, {}, forwarding);
    ghost var from := b.Seen();
    ComesItself(schedule, from);
    assert GatewayCalm(schedule, 0) && b.CanCapture();
    var o := b.PrepareForwarding(from);
    s := b.journal.value.snapshot;
    GatewayJournalMatches(b.machine, b.journal.value);
    o := b.CreateAndServe(from);
    GatewayJournalMatches(b.machine, b.journal.value);
    b.Restart();
  }
}
