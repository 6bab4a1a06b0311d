/** The journaled gateway transaction: forwarding, NAT objects and the journal file, and
    what has to hold of them at every moment
    (src/EasyTierHost.Gateway/GatewayBootstrapper.cs and GatewayModels.cs). */
module GatewayTransaction {
  import opened Options
  import opened AwaitedCalls

  datatype Platform = Windows | Nftables | Iptables

  datatype Kind = WinNat | FirewallTcp | FirewallUdp | NftTable | IptablesRule

  /** Names the host makes carry a token of its own; other programs use other names. */
  datatype ObjectName = Made(token: nat) | Other(id: nat)

  datatype NatObject = NatObject(kind: Kind, name: ObjectName, mark: ObjectName)

  /** The forwarding switch of one interface, or the global one, as captured. */
  datatype Entry = Entry(identity: nat, enabled: bool)

  datatype GatewaySnapshot = GatewaySnapshot(platform: Platform, token: nat, entries: seq<Entry>)

  datatype GatewayJournal = GatewayJournal(
    snapshot: GatewaySnapshot,
    forwardingMayHaveChanged: bool,
    natMayExist: bool)

  datatype GatewayServerState = Stopped | Preparing | DnsStarting | Ready | RollingBack | Faulted

  /** What `CreateNatAsync` creates, in its order. */
  function ObjectsOf(s: GatewaySnapshot): seq<NatObject> {
    var own := Made(s.token);
    match s.platform
    case Windows => [NatObject(WinNat, own, own), NatObject(FirewallTcp, own, own), NatObject(FirewallUdp, own, own)]
    case Nftables => [NatObject(NftTable, own, own)]
    case Iptables => [NatObject(IptablesRule, own, own)]
  }

  /** One awaited call: its fault; what other programs do to NAT objects and interfaces
      meanwhile; whether a query that swallows its errors is unable to tell; whether a command
      to turn a switch off does nothing and says nothing; which interfaces a capture is about;
      and what a health query answers. */
  datatype GatewayTick = GatewayTick(
    fault: Fault,
    added: set<NatObject>,
    removed: set<NatObject>,
    lost: set<nat>,
    lie: bool,
    ignored: bool,
    adapters: seq<nat>,
    answer: bool)

  type GatewaySchedule = nat -> GatewayTick

  /** The global switch of Linux is no interface and does not go away. */
  const GLOBAL: nat := 0

  /** The machine, as far as the transaction is concerned. `objects`, `forwarding` and `disk` are
      what is really there. The rest is history: `foreign` and `host` hold the objects that
      other programs and this one put there, `orphans` those that this one has forgotten,
      `base` what was captured, and `home` the switches as others last left them. */
  datatype GatewayMachine = GatewayMachine(
    objects: set<NatObject>,
    forwarding: map<nat, bool>,
    disk: Option<GatewayJournal>,
    foreign: set<NatObject>,
    host: set<NatObject>,
    orphans: set<NatObject>,
    base: Option<GatewaySnapshot>,
    home: map<nat, bool>)

  datatype GatewayMoment = GatewayMoment(machine: GatewayMachine, memory: Option<GatewayJournal>)

  /** Every captured switch that is still there has its captured value. */
  ghost predicate Restored(m: GatewayMachine) {
    m.base.Some? ==>
      forall e :: e in m.base.value.entries && e.identity in m.forwarding ==> m.forwarding[e.identity] == e.enabled
  }

  predicate On(m: GatewayMachine, identity: nat) {
    identity in m.forwarding && m.forwarding[identity]
  }

  /** Nothing is left that the host has not forgotten. */
  ghost predicate GatewayClean(m: GatewayMachine) {
    m.host == {} && m.objects == m.foreign + m.orphans && Restored(m)
  }

  /** The journal accounts for what the host has done. */
  ghost predicate GatewayAccounts(j: GatewayJournal, m: GatewayMachine) {
    && m.base == Some(j.snapshot)
    && (m.host != {} ==> j.natMayExist)
    && (!Restored(m) ==> j.forwardingMayHaveChanged)
  }

  /** The switches that were not captured off are as others left them, the captured ones were
      captured as others left them, and on Linux that is the global one, which stays. */
  ghost predicate SwitchesMatch(m: GatewayMachine) {
    && (forall i :: i in m.forwarding ==>
          i in m.home && (m.forwarding[i] == m.home[i] || (m.base.Some? && Entry(i, false) in m.base.value.entries)))
    && (m.base.Some? ==>
          forall e :: e in m.base.value.entries ==> e.identity in m.home && m.home[e.identity] == e.enabled)
    && (m.base.Some? && !m.base.value.platform.Windows? ==>
          forall e :: e in m.base.value.entries ==> e.identity == GLOBAL && GLOBAL in m.forwarding)
  }

  /** The objects are what the two sides put there, under names of their own, and so are the
      switches. */
  ghost predicate GatewayCoherent(m: GatewayMachine) {
    && m.objects == m.foreign + m.host + m.orphans
    && (forall o :: o in m.foreign ==> o.name.Other?)
    && (forall o :: o in m.host ==> o.name.Made? && m.base.Some? && o in ObjectsOf(m.base.value))
    && (forall o :: o in m.orphans ==> o.name.Made? && o.mark == o.name)
    && SwitchesMatch(m)
  }

  /** The write-ahead rule for the gateway. */
  ghost predicate GatewaySafe(m: GatewayMachine, memory: Option<GatewayJournal>) {
    && GatewayCoherent(m)
    && (if m.disk.Some? then GatewayAccounts(m.disk.value, m) else GatewayClean(m))
    && (memory.Some? ==> GatewayAccounts(memory.value, m))
    && (m.disk.None? && memory.Some? ==> !memory.value.natMayExist && !memory.value.forwardingMayHaveChanged)
  }

  ghost predicate GatewayAllSafe(trace: seq<GatewayMoment>) {
    forall i :: 0 <= i < |trace| ==> GatewaySafe(trace[i].machine, trace[i].memory)
  }

  lemma GatewayAllSafeGrows(trace: seq<GatewayMoment>, m: GatewayMachine, memory: Option<GatewayJournal>)
    requires GatewayAllSafe(trace) && GatewaySafe(m, memory)
    ensures GatewayAllSafe(trace + [GatewayMoment(m, memory)])
  {
  }

  // ------------------------------------------------------ effects of one call

  /** Other programs add and remove objects under names of their own, may remove the host's
      objects, and interfaces may disappear. Nobody else flips a captured switch. */
  function Disturb(m: GatewayMachine, t: GatewayTick): GatewayMachine {
    var added := set o | o in t.added && o.name.Other?;
    m.(objects := m.objects - t.removed + added,
       foreign := m.foreign - t.removed + added,
       host := m.host - t.removed,
       orphans := m.orphans - t.removed,
       forwarding := m.forwarding - (t.lost - {GLOBAL}))
  }

  lemma DisturbIsSafe(m: GatewayMachine, memory: Option<GatewayJournal>, t: GatewayTick)
    requires GatewaySafe(m, memory)
    ensures GatewaySafe(Disturb(m, t), memory)
  {
  }

  /** What the host relies on while others act. */
  ghost predicate Shifts(a: GatewayMachine, b: GatewayMachine) {
    && b.disk == a.disk && b.base == a.base && b.home == a.home
    && b.host <= a.host && b.orphans <= a.orphans
    && (forall o :: o in b.objects && o.name.Made? ==> o in a.objects)
    && (forall i :: i in b.forwarding ==> i in a.forwarding && b.forwarding[i] == a.forwarding[i])
    && (GLOBAL in a.forwarding ==> GLOBAL in b.forwarding)
  }

  lemma DisturbShifts(m: GatewayMachine, t: GatewayTick)
    ensures Shifts(m, Disturb(m, t)) && Disturb(m, t).host == m.host - t.removed
    ensures m.objects - t.removed <= Disturb(m, t).objects
    ensures m.forwarding.Keys - t.lost <= Disturb(m, t).forwarding.Keys
    ensures t.added == {} && t.removed == {} && t.lost == {} ==> Disturb(m, t) == m
  {
  }

  function PutObject(m: GatewayMachine, o: NatObject): GatewayMachine {
    m.(objects := m.objects + {o}, host := m.host + {o})
  }

  lemma PutObjectIsSafe(m: GatewayMachine, j: GatewayJournal, o: NatObject)
    requires GatewaySafe(m, Some(j)) && m.disk.Some? && m.disk.value.natMayExist && j.natMayExist
    requires o in ObjectsOf(j.snapshot)
    ensures GatewaySafe(PutObject(m, o), Some(j))
  {
  }

  function TakeObject(m: GatewayMachine, o: NatObject): GatewayMachine {
    m.(objects := m.objects - {o}, host := m.host - {o}, orphans := m.orphans - {o})
  }

  lemma TakeObjectIsSafe(m: GatewayMachine, j: GatewayJournal, o: NatObject)
    requires GatewaySafe(m, Some(j)) && o in ObjectsOf(j.snapshot)
    ensures GatewaySafe(TakeObject(m, o), Some(j))
  {
    assert o.name.Made?;
  }

  function Switch(m: GatewayMachine, identity: nat, on: bool): (n: GatewayMachine)
    requires identity in m.forwarding
    ensures n.forwarding.Keys == m.forwarding.Keys
  {
    m.(forwarding := m.forwarding[identity := on])
  }

  lemma SwitchOnIsSafe(m: GatewayMachine, j: GatewayJournal, identity: nat)
    requires GatewaySafe(m, Some(j)) && identity in m.forwarding && Entry(identity, false) in j.snapshot.entries
    requires m.disk.Some? && m.disk.value.forwardingMayHaveChanged && j.forwardingMayHaveChanged
    ensures GatewaySafe(Switch(m, identity, true), Some(j))
  {
  }

  lemma SwitchOffIsSafe(m: GatewayMachine, j: GatewayJournal, identity: nat)
    requires GatewaySafe(m, Some(j)) && identity in m.forwarding && Entry(identity, false) in j.snapshot.entries
    ensures GatewaySafe(Switch(m, identity, false), Some(j))
  {
    var n := Switch(m, identity, false);
    assert forall e :: e in j.snapshot.entries && e.identity == identity ==> e == Entry(identity, false);
    assert Restored(m) ==> Restored(n);
  }

  lemma GatewaySaveIsSafe(m: GatewayMachine, j: GatewayJournal)
    requires GatewaySafe(m, Some(j))
    ensures GatewaySafe(m.(disk := Some(j)), Some(j))
  {
  }

  /** Opening a transaction on a machine without a journal file. */
  lemma GatewayOpenIsSafe(m: GatewayMachine, s: GatewaySnapshot)
    requires GatewaySafe(m, None) && m.disk.None?
    requires forall e :: e in s.entries ==> e.identity in m.forwarding && m.forwarding[e.identity] == e.enabled
    requires !s.platform.Windows? ==> forall e :: e in s.entries ==> e.identity == GLOBAL
    ensures GatewaySafe(m.(base := Some(s)), Some(GatewayJournal(s, false, false)))
  {
  }

  /** The host drops its claim on whatever object is left. */
  function Forget(m: GatewayMachine): GatewayMachine {
    m.(host := {}, orphans := m.orphans + m.host)
  }

  lemma ForgetIsSafe(m: GatewayMachine, j: GatewayJournal)
    requires GatewaySafe(m, Some(j)) && m.disk.Some?
    ensures GatewaySafe(Forget(m), Some(j.(natMayExist := false)))
  {
  }

  lemma NoSwitchLeft(m: GatewayMachine, j: GatewayJournal)
    requires GatewaySafe(m, Some(j)) && m.disk.Some? && Restored(m)
    ensures GatewaySafe(m, Some(j.(forwardingMayHaveChanged := false)))
  {
  }

  lemma GatewayFlagIsSafe(m: GatewayMachine, j: GatewayJournal)
    requires GatewaySafe(m, Some(j)) && m.disk.Some?
    ensures GatewaySafe(m, Some(j.(forwardingMayHaveChanged := true)))
    ensures GatewaySafe(m, Some(j.(natMayExist := true)))
  {
  }

  lemma GatewayWorkNeedsFile(m: GatewayMachine, j: GatewayJournal)
    requires GatewaySafe(m, Some(j)) && (j.natMayExist || j.forwardingMayHaveChanged)
    ensures m.disk.Some?
  {
  }

  lemma GatewayJournalMatches(m: GatewayMachine, j: GatewayJournal)
    requires GatewaySafe(m, Some(j))
    ensures m.base == Some(j.snapshot)
    ensures m.host != {} ==> j.natMayExist
    ensures !Restored(m) ==> j.forwardingMayHaveChanged
    ensures forall e :: e in j.snapshot.entries && e.enabled && e.identity in m.forwarding ==> m.forwarding[e.identity]
    ensures !j.snapshot.platform.Windows? ==> forall e :: e in j.snapshot.entries ==> e.identity in m.forwarding
    ensures forall o :: o in m.host ==> o in ObjectsOf(j.snapshot) && o in m.objects
    ensures forall o :: o in ObjectsOf(j.snapshot) && o in m.objects ==> o in m.host || o in m.orphans
  {
  }

  lemma GatewayCloseIsSafe(m: GatewayMachine, memory: Option<GatewayJournal>)
    requires GatewaySafe(m, memory)
    requires memory.Some? ==> !memory.value.natMayExist && !memory.value.forwardingMayHaveChanged
    requires memory.None? ==> m.disk.None?
    ensures GatewaySafe(m.(disk := None), memory) && GatewaySafe(m.(disk := None), None) && GatewayClean(m)
  {
  }

  lemma GatewayCrashIsSafe(m: GatewayMachine, memory: Option<GatewayJournal>)
    requires GatewaySafe(m, memory)
    ensures GatewaySafe(m, None)
    ensures m.disk.Some? ==> GatewaySafe(m, m.disk)
  {
  }

  lemma GatewayNoFileMeansClean(m: GatewayMachine, memory: Option<GatewayJournal>)
    requires GatewaySafe(m, memory) && m.disk.None?
    ensures GatewayClean(m)
  {
  }

  /** Between transactions other programs may flip any switch, and interfaces may come and go. */
  lemma OthersMaySwitch(m: GatewayMachine, forwarding: map<nat, bool>)
    requires GatewaySafe(m, None) && m.disk.None?
    ensures GatewaySafe(m.(forwarding := forwarding, base := None, home := forwarding), None)
  {
  }

  lemma GatewayCleanObjects(m: GatewayMachine, memory: Option<GatewayJournal>)
    requires GatewaySafe(m, memory) && GatewayClean(m)
    ensures m.objects - m.orphans == m.foreign
  {
  }

  /** On a clean machine every switch that is still there is as others left it. */
  lemma GatewayCleanMeansHome(m: GatewayMachine, memory: Option<GatewayJournal>)
    requires GatewaySafe(m, memory) && GatewayClean(m)
    ensures forall i :: i in m.forwarding ==> i in m.home && m.forwarding[i] == m.home[i]
  {
  }

  /** A point of a run, as far as a later point is compared with it. */
  datatype GatewayView = GatewayView(
    foreign: set<NatObject>,
    switches: set<nat>,
    home: map<nat, bool>,
    clock: nat,
    trace: seq<GatewayMoment>)

  ghost predicate ObjectAdded(s: GatewaySchedule, from: nat, to: nat, o: NatObject) {
    exists k: nat :: from <= k < to && o in s(k).added
  }

  ghost predicate ObjectRemoved(s: GatewaySchedule, from: nat, to: nat, o: NatObject) {
    exists k: nat :: from <= k < to && o in s(k).removed
  }

  ghost predicate SwitchLost(s: GatewaySchedule, from: nat, to: nat, i: nat) {
    exists k: nat :: from <= k < to && i in s(k).lost
  }

  /** Between two points foreign objects are new only if a tick added them and missing only if a
      tick removed them, and switches are missing only if a tick took them. */
  ghost predicate NatOutside(
    s: GatewaySchedule, x: set<NatObject>, a: set<nat>, from: nat, y: set<NatObject>, b: set<nat>, to: nat)
  {
    && from <= to
    && (forall o :: o in y ==> o in x || ObjectAdded(s, from, to, o))
    && (forall o :: o in x ==> o in y || ObjectRemoved(s, from, to, o))
    && b <= a
    && (forall i :: i in a ==> i in b || SwitchLost(s, from, to, i))
  }

  lemma NatOutsideItself(s: GatewaySchedule, x: set<NatObject>, a: set<nat>, i: nat)
    ensures NatOutside(s, x, a, i, x, a, i)
  {
  }

  lemma NatOutsideObjects(
      s: GatewaySchedule, x: set<NatObject>, a: set<nat>, i: nat, y: set<NatObject>, b: set<nat>, j: nat)
    requires NatOutside(s, x, a, i, y, b, j)
    ensures NatOutside(s, x, {}, i, y, {}, j)
  {
  }

  lemma NatOutsideTransitive(
    s: GatewaySchedule, x: set<NatObject>, a: set<nat>, i: nat, y: set<NatObject>, b: set<nat>, j: nat,
    z: set<NatObject>, c: set<nat>, k: nat)
    requires NatOutside(s, x, a, i, y, b, j) && NatOutside(s, y, b, j, z, c, k)
    ensures NatOutside(s, x, a, i, z, c, k)
  {
    forall o | o in z && o !in x
      ensures ObjectAdded(s, i, k, o)
    {
      var n: nat :| i <= n < k && o in s(n).added;
    }
    forall o | o in x && o !in z
      ensures ObjectRemoved(s, i, k, o)
    {
      var n: nat :| i <= n < k && o in s(n).removed;
    }
    forall e | e in a && e !in c
      ensures SwitchLost(s, i, k, e)
    {
      var n: nat :| i <= n < k && e in s(n).lost;
    }
  }

  lemma NatOutsideTick(m: GatewayMachine, s: GatewaySchedule, k: nat)
    ensures var n := Disturb(m, s(k));
            NatOutside(s, m.foreign, m.forwarding.Keys, k, n.foreign, n.forwarding.Keys, k + 1)
  {
    var n := Disturb(m, s(k));
    forall o | o in n.foreign && o !in m.foreign
      ensures ObjectAdded(s, k, k + 1, o)
    {
      assert o in s(k).added;
    }
    forall o | o in m.foreign && o !in n.foreign
      ensures ObjectRemoved(s, k, k + 1, o)
    {
      assert o in s(k).removed;
    }
    forall i | i in m.forwarding && i !in n.forwarding
      ensures SwitchLost(s, k, k + 1, i)
    {
      assert i in s(k).lost;
    }
  }

  /** If nobody interferes, nothing is new and nothing is missing. */
  lemma NatOutsideQuiet(
      s: GatewaySchedule, x: set<NatObject>, a: set<nat>, from: nat, y: set<NatObject>, b: set<nat>, to: nat)
    requires NatOutside(s, x, a, from, y, b, to) && GatewayQuiet(s, from)
    ensures y == x && b == a
  {
  }

  /** `b` comes after `a`: what was recorded stays recorded, and what is of others has changed
      only at the hands of others. */
  ghost predicate Comes(s: GatewaySchedule, a: GatewayView, b: GatewayView) {
    && a.trace <= b.trace
    && NatOutside(s, a.foreign, a.switches, a.clock, b.foreign, b.switches, b.clock)
    && b.home == a.home
  }

  lemma ComesTrace(s: GatewaySchedule, a: GatewayView, b: GatewayView)
    requires Comes(s, a, b)
    ensures |a.trace| <= |b.trace|
  {
  }

  lemma ComesClock(s: GatewaySchedule, a: GatewayView, b: GatewayView)
    ensures Comes(s, a, b) ==> a.clock <= b.clock && a.trace <= b.trace
  {
  }

  lemma ComesItself(s: GatewaySchedule, a: GatewayView)
    ensures Comes(s, a, a)
  {
  }

  function ViewOf(m: GatewayMachine, clock: nat, trace: seq<GatewayMoment>): GatewayView {
    GatewayView(m.foreign, m.forwarding.Keys, m.home, clock, trace)
  }

  lemma ComesStep(s: GatewaySchedule, a: GatewayView, b: GatewayView, m: GatewayMachine, memory: Option<GatewayJournal>)
    requires Comes(s, a, b) && ViewOf(m, b.clock, b.trace) == b
    ensures Comes(s, a, ViewOf(m, b.clock, b.trace + [GatewayMoment(m, memory)]))
  {
  }

  lemma ComesTick(s: GatewaySchedule, a: GatewayView, b: GatewayView, m: GatewayMachine, memory: Option<GatewayJournal>)
    requires Comes(s, a, b) && ViewOf(m, b.clock, b.trace) == b
    ensures var n := Disturb(m, s(b.clock));
            Comes(s, a, ViewOf(n, b.clock + 1, b.trace + [GatewayMoment(n, memory)]))
  {
    hide NatOutside;
    var n := Disturb(m, s(b.clock));
    NatOutsideTick(m, s, b.clock);
    NatOutsideTransitive(s, a.foreign, a.switches, a.clock, b.foreign, b.switches, b.clock,
                         n.foreign, n.forwarding.Keys, b.clock + 1);
  }

  // ---------------------------------------------------------------- schedules

  ghost predicate GatewayQuiet(s: GatewaySchedule, from: nat) {
    forall k: nat :: from <= k ==> s(k).added == {} && s(k).removed == {} && s(k).lost == {}
  }

  ghost predicate GatewaySteady(s: GatewaySchedule, from: nat) {
    forall k: nat :: from <= k ==> s(k).fault == Fine && !s(k).ignored
  }

  /** From here on nothing fails and nobody else acts. */
  ghost predicate GatewayCalm(s: GatewaySchedule, from: nat) {
    GatewaySteady(s, from) && GatewayQuiet(s, from)
  }

  /** A call that goes wrong by itself, or because others take something away. */
  predicate GatewayBad(t: GatewayTick) {
    t.fault != Fine || t.ignored || t.removed != {} || t.lost != {}
  }

  /** How many calls between two points go wrong. */
  ghost function GatewayBadCount(s: GatewaySchedule, from: nat, to: nat): nat
    decreases to - from
  {
    if from >= to then 0 else GatewayBadCount(s, from, to - 1) + if GatewayBad(s(to - 1)) then 1 else 0
  }

  lemma {:induction false} GatewayBadSum(s: GatewaySchedule, a: nat, b: nat, c: nat)
    requires a <= b <= c
    ensures GatewayBadCount(s, a, c) == GatewayBadCount(s, a, b) + GatewayBadCount(s, b, c)
    decreases c - b
  {
    if b < c { GatewayBadSum(s, a, b, c - 1); }
  }

  ghost predicate GatewaySomeBad(s: GatewaySchedule, from: nat, to: nat) {
    exists k: nat :: from <= k < to && GatewayBad(s(k))
  }

  lemma GatewayBadIsCounted(s: GatewaySchedule, from: nat, to: nat)
    ensures GatewaySomeBad(s, from, to) ==> GatewayBadCount(s, from, to) > 0
  {
    if GatewaySomeBad(s, from, to) {
      var k: nat :| from <= k < to && GatewayBad(s(k));
      GatewayBadSum(s, from, k, to);
      GatewayBadSum(s, k, k + 1, to);
      assert GatewayBadCount(s, k, k + 1) == GatewayBadCount(s, k, k) + 1;
    }
  }

  lemma GatewaySomeBadGrows(s: GatewaySchedule, a: nat, b: nat, c: nat, d: nat)
    requires a <= b && c <= d
    ensures GatewaySomeBad(s, b, c) ==> GatewaySomeBad(s, a, d)
  {
  }

  /** Some health query between the two points answered yes. */
  ghost predicate GatewayAnswered(s: GatewaySchedule, from: nat, to: nat) {
    exists k: nat :: from <= k < to && s(k).answer
  }

  lemma AnsweredGrows(s: GatewaySchedule, a: nat, b: nat, c: nat)
    requires a <= b <= c
    ensures GatewayAnswered(s, a, b) || GatewayAnswered(s, b, c) ==> GatewayAnswered(s, a, c)
  {
  }

  lemma GatewayAnsweredLater(s: GatewaySchedule, from: nat, at: nat, to: nat)
    requires from <= at < to && s(at).answer
    ensures GatewayAnswered(s, from, to)
  {
  }

  lemma GatewayCalmLater(s: GatewaySchedule, from: nat, to: nat)
    requires from <= to
    ensures GatewayCalm(s, from) ==>
              GatewayCalm(s, to) && GatewayQuiet(s, to) && GatewaySteady(s, to) && s(to).fault == Fine && !s(to).ignored
  {
  }

  /** Every query can tell. */
  ghost predicate Truthful(s: GatewaySchedule) {
    forall k: nat :: !s(k).lie
  }

  lemma GatewayQuietLater(s: GatewaySchedule, from: nat, to: nat)
    requires from <= to
    ensures GatewayQuiet(s, from) ==> GatewayQuiet(s, to)
  {
  }

  // ------------------------------------------------------------- NAT objects

  /** Another object goes by the name of `o`. */
  predicate Usurped(objects: set<NatObject>, o: NatObject) {
    exists q :: q in objects && q.kind == o.kind && q.name == o.name && q != o
  }

  /** Nobody else uses the host's names. */
  lemma NeverUsurped(m: GatewayMachine, j: GatewayJournal, o: NatObject)
    requires GatewaySafe(m, Some(j)) && o in ObjectsOf(j.snapshot)
    ensures !Usurped(m.objects, o)
  {
  }

  /** All captured switches are on. */
  ghost predicate AllOn(m: GatewayMachine, s: GatewaySnapshot) {
    forall e :: e in s.entries ==> On(m, e.identity)
  }

  ghost predicate SeenOn(trace: seq<GatewayMoment>, from: nat, s: GatewaySnapshot) {
    exists i :: from <= i < |trace| && AllOn(trace[i].machine, s)
  }

  ghost predicate SeenObject(trace: seq<GatewayMoment>, from: nat, o: NatObject) {
    exists i :: from <= i < |trace| && o in trace[i].machine.objects
  }

  /** At recorded moments from `from` on, every captured switch was on and every NAT object
      of the host was there. */
  ghost predicate Applied(trace: seq<GatewayMoment>, from: nat, s: GatewaySnapshot) {
    SeenOn(trace, from, s) && forall o :: o in ObjectsOf(s) ==> SeenObject(trace, from, o)
  }

  lemma SeenStays(a: seq<GatewayMoment>, b: seq<GatewayMoment>, from: nat)
    requires a <= b
    ensures forall s :: SeenOn(a, from, s) ==> SeenOn(b, from, s)
    ensures forall o :: SeenObject(a, from, o) ==> SeenObject(b, from, o)
  {
    forall s | SeenOn(a, from, s)
      ensures SeenOn(b, from, s)
    {
      var i :| from <= i < |a| && AllOn(a[i].machine, s);
      assert b[i] == a[i];
    }
    forall o | SeenObject(a, from, o)
      ensures SeenObject(b, from, o)
    {
      var i :| from <= i < |a| && o in a[i].machine.objects;
      assert b[i] == a[i];
    }
  }

  lemma SeenEarlier(trace: seq<GatewayMoment>, from: nat, later: nat)
    requires from <= later
    ensures forall o :: SeenObject(trace, later, o) ==> SeenObject(trace, from, o)
  {
  }

  lemma LastSeenOn(trace: seq<GatewayMoment>, from: nat, s: GatewaySnapshot)
    requires from < |trace| && AllOn(trace[|trace| - 1].machine, s)
    ensures SeenOn(trace, from, s)
  {
  }

  lemma LastSeenObject(trace: seq<GatewayMoment>, from: nat, o: NatObject)
    requires from < |trace| && o in trace[|trace| - 1].machine.objects
    ensures SeenObject(trace, from, o)
  {
  }

  lemma TruthfulNow(s: GatewaySchedule, k: nat)
    ensures Truthful(s) ==> !s(k).lie
  {
  }

  lemma SafeIsCoherent(m: GatewayMachine, memory: Option<GatewayJournal>)
    requires GatewaySafe(m, memory)
    ensures GatewayCoherent(m) && GatewayCoherent(m.(disk := None))
  {
  }

  /** Cleanliness is not about the file. */
  lemma CleanWithoutFile(m: GatewayMachine)
    ensures forall d :: GatewayClean(m.(disk := d)) <==> GatewayClean(m)
  {
    forall d
      ensures GatewayClean(m.(disk := d)) <==> GatewayClean(m)
    {
      assert forall i :: On(m.(disk := d), i) <==> On(m, i);
    }
  }

  lemma CleanMeans(m: GatewayMachine)
    requires GatewayClean(m)
    ensures m.host == {} && Restored(m)
  {
  }

  /** Without a file the rule says that there is nothing to undo. */
  lemma SafeWithoutFile(m: GatewayMachine)
    requires GatewayCoherent(m) && m.disk.None?
    ensures GatewaySafe(m, None) <==> GatewayClean(m)
  {
  }

  /** Health queries of the DNS runtime answer yes. */
  ghost predicate GatewayAssents(s: GatewaySchedule) {
    forall k: nat :: s(k).answer
  }

  lemma GatewayAssentsNow(s: GatewaySchedule, k: nat)
    ensures GatewayAssents(s) ==> s(k).answer
  {
  }

  lemma AppliedStays(a: seq<GatewayMoment>, b: seq<GatewayMoment>, later: nat, from: nat, s: GatewaySnapshot)
    requires a <= b && from <= later && Applied(a, later, s)
    ensures Applied(b, from, s)
  {
    SeenStays(a, b, later);
    SeenEarlier(b, from, later);
    var i :| later <= i < |b| && AllOn(b[i].machine, s);
    assert SeenOn(b, from, s);
  }

  lemma AllOnSame(a: GatewayMachine, b: GatewayMachine, s: GatewaySnapshot)
    ensures AllOn(a, s) && b.forwarding == a.forwarding ==> AllOn(b, s)
  {
  }

  /** An object of the transaction is there. */
  ghost predicate Remains(m: GatewayMachine, s: GatewaySnapshot) {
    exists o :: o in ObjectsOf(s) && o in m.objects
  }

  /** The objects a gateway needs, by kind, under one name. */
  predicate NatInPlace(platform: Platform, objects: set<NatObject>, own: ObjectName) {
    match platform
    case Windows =>
      && NatObject(WinNat, own, own) in objects
      && NatObject(FirewallTcp, own, own) in objects && NatObject(FirewallUdp, own, own) in objects
    case Nftables => NatObject(NftTable, own, own) in objects
    case Iptables => NatObject(IptablesRule, own, own) in objects
  }

  lemma ObjectsAreNat(s: GatewaySnapshot, objects: set<NatObject>)
    ensures (forall q :: q in ObjectsOf(s) ==> q in objects) <==> NatInPlace(s.platform, objects, Made(s.token))
  {
    var o := ObjectsOf(s);
    assert forall k :: 0 <= k < |o| ==> o[k] in o;
    assert s.platform.Windows? ==> o[0].kind.WinNat? && o[1].kind.FirewallTcp? && o[2].kind.FirewallUdp?;
    assert !s.platform.Windows? ==> |o| == 1 && o[0].name == Made(s.token);
  }

  /** The switches a snapshot is about, in order. */
  function Identities(s: GatewaySnapshot): seq<nat> {
    seq(|s.entries|, k requires 0 <= k < |s.entries| => s.entries[k].identity)
  }

  lemma AllOnMeans(m: GatewayMachine, s: GatewaySnapshot)
    ensures AllOn(m, s) <==> forall k :: 0 <= k < |Identities(s)| ==> On(m, Identities(s)[k])
  {
    if AllOn(m, s) {
      forall k | 0 <= k < |Identities(s)|
        ensures On(m, Identities(s)[k])
      {
        assert s.entries[k] in s.entries;
      }
    }
    if forall k :: 0 <= k < |Identities(s)| ==> On(m, Identities(s)[k]) {
      forall e | e in s.entries
        ensures On(m, e.identity)
      {
        var k :| 0 <= k < |s.entries| && s.entries[k] == e;
        assert Identities(s)[k] == e.identity;
      }
    }
  }

  /** The query for such an object swallows its errors: an `iptables -C`, or a
      `Get-NetFirewallRule` that is told to go on silently. */
  predicate Elusive(kind: Kind) {
    kind.IptablesRule? || kind.FirewallTcp? || kind.FirewallUdp?
  }

  /** In a removal that begins at this tick, the query for the object cannot tell. */
  predicate Overlooked(s: GatewaySchedule, o: NatObject, tick: nat) {
    match o.kind
    case IptablesRule => s(tick).lie
    case FirewallTcp => s(tick).lie
    case FirewallUdp => s(tick + 1).lie
    case _ => false
  }

  /** Of the objects of the transaction, exactly those are left that were there and whose query
      could not tell. */
  ghost predicate LeavesOnly(
    schedule: GatewaySchedule, s: GatewaySnapshot, before: set<NatObject>, after: set<NatObject>, tick: nat)
  {
    forall o :: o in ObjectsOf(s) ==> (o in after <==> o in before && Overlooked(schedule, o, tick))
  }

  lemma NoneOverlooked(schedule: GatewaySchedule, s: GatewaySnapshot, tick: nat)
    ensures s.platform.Nftables? || Truthful(schedule) ==>
              forall o :: o in ObjectsOf(s) ==> !Overlooked(schedule, o, tick)
  {
  }

  /** What a health check asks for: each object once, but an nft table three times. */
  function Queries(s: GatewaySnapshot): seq<NatObject> {
    if s.platform.Nftables? then ObjectsOf(s) + ObjectsOf(s) + ObjectsOf(s) else ObjectsOf(s)
  }

  lemma QueriesMeanObjects(s: GatewaySnapshot)
    ensures |ObjectsOf(s)| > 0 && |Queries(s)| == CheckLength(s.platform) - 2
    ensures forall k :: |ObjectsOf(s)| <= k < |Queries(s)| ==> Queries(s)[k] == Queries(s)[0]
    ensures forall o :: o in Queries(s) <==> o in ObjectsOf(s)
  {
  }

  /** How many moments a health check records if it succeeds: one for the switches, one for each
      query for an object, and one for the DNS runtime. */
  function CheckLength(platform: Platform): nat {
    if platform.Iptables? then 3 else 5
  }
}
