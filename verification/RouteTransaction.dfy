/** The journaled route transaction as seen from outside: what one awaited call may meet,
    and what has to hold of disk, memory, route table and resolver at every moment. */
module RouteTransaction {
  import opened Options
  import opened Addresses
  import opened AwaitedCalls
  import opened ResolvedLink
  import opened RoutePlanner

  datatype RouteSnapshot = RouteSnapshot(physical: Physical, dns: DnsSnapshot)

  datatype RouteJournal = RouteJournal(snapshot: RouteSnapshot, owned: seq<RouteEntry>, dnsMayHaveChanged: bool)

  /** One awaited call: its fault, what other programs do to the route table while it is
      pending, whether the overlay interface disappears, whether a delete finds nothing and says
      nothing, and what a query answers. */
  datatype Tick = Tick(
    fault: Fault,
    added: set<RouteEntry>,
    removed: set<RouteEntry>,
    linkLost: bool,
    ignored: bool,
    physical: Physical,
    answer: bool)

  type Schedule = nat -> Tick

  /** From here on no other program touches routes or the overlay interface. */
  ghost predicate Quiet(s: Schedule, from: nat) {
    forall k: nat :: from <= k ==> s(k).added == {} && s(k).removed == {} && !s(k).linkLost
  }

  /** From here on no call fails, the process lives, and the overlay interface stays. */
  ghost predicate Steady(s: Schedule, from: nat) {
    forall k: nat :: from <= k ==> s(k).fault == Fine && !s(k).linkLost && !s(k).ignored
  }

  /** A call that goes wrong by itself. */
  predicate Bad(t: Tick) {
    t.fault != Fine || t.linkLost || t.ignored
  }

  /** How many calls between two points go wrong by themselves. */
  ghost function BadCount(s: Schedule, from: nat, to: nat): nat
    decreases to - from
  {
    if from >= to then 0 else BadCount(s, from, to - 1) + if Bad(s(to - 1)) then 1 else 0
  }

  lemma {:induction false} BadSum(s: Schedule, a: nat, b: nat, c: nat)
    requires a <= b <= c
    ensures BadCount(s, a, c) == BadCount(s, a, b) + BadCount(s, b, c)
    decreases c - b
  {
    if b < c { BadSum(s, a, b, c - 1); }
  }

  ghost predicate SomeBad(s: Schedule, from: nat, to: nat) {
    exists k: nat :: from <= k < to && Bad(s(k))
  }

  lemma BadIsCounted(s: Schedule, from: nat, to: nat)
    requires SomeBad(s, from, to)
    ensures BadCount(s, from, to) > 0
  {
    var k: nat :| from <= k < to && Bad(s(k));
    BadSum(s, from, k, to);
    BadSum(s, k, k + 1, to);
    assert BadCount(s, k, k + 1) == BadCount(s, k, k) + 1;
  }

  lemma SomeBadGrows(s: Schedule, a: nat, b: nat, c: nat, d: nat)
    requires a <= b && c <= d
    ensures SomeBad(s, b, c) ==> SomeBad(s, a, d)
  {
  }

  lemma SteadyLater(s: Schedule, from: nat, to: nat)
    requires from <= to
    ensures Steady(s, from) ==> Steady(s, to)
  {
  }

  /** From here on nothing goes wrong and nobody else acts. */
  ghost predicate Calm(s: Schedule, from: nat) {
    Steady(s, from) && Quiet(s, from)
  }

  lemma CalmLater(s: Schedule, from: nat, to: nat)
    requires from <= to
    ensures Calm(s, from) ==> Calm(s, to)
  {
  }

  lemma CalmNow(s: Schedule, from: nat)
    ensures Calm(s, from) ==> Quiet(s, from) && Steady(s, from) && s(from).fault == Fine && !s(from).linkLost
  {
  }

  /** From here on every query answers yes. */
  ghost predicate Assenting(s: Schedule, from: nat) {
    forall k: nat :: from <= k ==> s(k).answer
  }

  /** Some query between the two points answered yes. */
  ghost predicate Answered(s: Schedule, from: nat, to: nat) {
    exists k: nat :: from <= k < to && s(k).answer
  }

  lemma AnsweredLater(s: Schedule, from: nat, at: nat, to: nat)
    requires from <= at < to && s(at).answer
    ensures Answered(s, from, to)
  {
  }

  lemma AssentingLater(s: Schedule, from: nat, to: nat)
    requires from <= to
    ensures Assenting(s, from) ==> Assenting(s, to) && s(to).answer
  {
  }

  lemma SteadyVerdicts(s: Schedule, from: nat)
    ensures Steady(s, from) ==> forall k: nat :: from <= k ==> s(k).fault == Fine && !s(k).linkLost
  {
  }

  lemma QuietLater(s: Schedule, from: nat, to: nat)
    requires from <= to
    ensures Quiet(s, from) ==> Quiet(s, to)
  {
  }

  /** The machine, as far as the transaction is concerned. `routes`, `link` and `disk` are
      what is really there. The rest is history: `foreign` holds the routes other programs
      put into the table, `host` those this program put there and that are still there,
      `vanished` and `arrived` the routes that other programs removed and added since the
      current operation began, `base` the captured resolver settings, `home` the overlay link
      as others last left it, and `meddled` says that others have set the captured link since
      it was captured. */
  datatype Machine = Machine(
    routes: set<RouteEntry>,
    link: Link,
    disk: Option<RouteJournal>,
    foreign: set<RouteEntry>,
    host: set<RouteEntry>,
    vanished: set<RouteEntry>,
    arrived: set<RouteEntry>,
    base: Option<DnsSnapshot>,
    home: Link,
    meddled: bool)

  /** One instant of a run: the machine and the journal in memory. */
  datatype Moment = Moment(machine: Machine, memory: Option<RouteJournal>)

  function Claims(j: Option<RouteJournal>): set<RouteEntry> {
    if j.None? then {} else set r | r in j.value.owned
  }

  predicate Flagged(j: Option<RouteJournal>) {
    j.Some? && j.value.dnsMayHaveChanged
  }

  /** The host has changed the captured link. */
  predicate Changed(m: Machine) {
    m.base.Some? && !m.meddled && Touched(m.link, m.base.value)
  }

  /** The captured link was captured as others left it and is in a state that a restore
      accepts; any other link is as others left it. */
  ghost predicate AtHome(m: Machine) {
    if m.base.Some? && SameLink(m.link, m.base.value) then Accepts(m.link) && Original(m.base.value) == m.home
    else m.link.Absent? || m.link == m.home
  }

  /** The journal accounts for the machine: every host route is listed, no foreign route is, a
      changed resolver is flagged, and the captured settings are the right ones. */
  ghost predicate Accounts(j: RouteJournal, m: Machine) {
    && (forall r :: r in m.host ==> r in j.owned)
    && (forall r :: r in j.owned ==> r !in m.foreign)
    && m.base == Some(j.snapshot.dns)
    && (Changed(m) ==> j.dnsMayHaveChanged)
  }

  /** Nothing of the host is left on the machine. */
  ghost predicate Clean(m: Machine) {
    m.host == {} && m.routes == m.foreign && !Changed(m)
  }

  /** The table is what the two sides put there, and unless others have set the captured link,
      so is the link. */
  ghost predicate Coherent(m: Machine) {
    && m.routes == m.foreign + m.host
    && (forall r :: r in m.host ==> r !in m.foreign)
    && (m.base.Some? ==> Pristine(m.base.value))
    && (!m.meddled ==> AtHome(m))
  }

  /** The write-ahead rule: whatever the host has done and not undone is covered by the
      journal on disk, and by the one in memory if there is one. */
  ghost predicate Safe(m: Machine, memory: Option<RouteJournal>) {
    && Coherent(m)
    && (if m.disk.Some? then Accounts(m.disk.value, m) else Clean(m))
    && (memory.Some? ==> Accounts(memory.value, m))
    && (m.disk.None? && memory.Some? ==> memory.value.owned == [] && !memory.value.dnsMayHaveChanged)
  }

  /** From `a` to `b` nothing got lost but at the hands of others: the host routes of `a`
      are there in `b`, but for `except`, and so are the foreign ones; and foreign routes
      are new only because others added them. */
  ghost predicate Carries(a: Machine, b: Machine, except: iset<RouteEntry>) {
    && a.vanished <= b.vanished
    && a.arrived <= b.arrived
    && (forall r :: r in a.host && r !in except ==> r in b.host || r in b.vanished)
    && (forall r :: r in a.foreign ==> r in b.foreign || r in b.vanished)
    && (forall r :: r in b.foreign ==> r in a.foreign || r in b.arrived)
  }

  /** Host routes stay, but for `except` and for those that others removed. */
  ghost predicate Keeps(a: Machine, b: Machine, except: iset<RouteEntry>) {
    forall r :: r in a.host + a.vanished && r !in except ==> r in b.host + b.vanished
  }

  /** Every route of the list is in the table, or another program has removed it. */
  ghost predicate Installed(m: Machine, s: seq<RouteEntry>) {
    forall r :: r in s ==> r in m.host + m.vanished
  }

  /** The listed routes could all be added: no two, and none with the table, share a
      destination. */
  ghost predicate Room(table: set<RouteEntry>, s: seq<RouteEntry>) {
    && (forall q, r :: q in table && r in s ==> q.destination != r.destination)
    && (forall i, j :: 0 <= i < j < |s| ==> s[i].destination != s[j].destination)
  }

  /** No foreign route is for the destination of a listed one. */
  ghost predicate NoRival(foreign: set<RouteEntry>, s: seq<RouteEntry>) {
    forall q, r :: q in foreign && r in s ==> q.destination != r.destination
  }

  lemma RoomGrows(table: set<RouteEntry>, s: seq<RouteEntry>, t: seq<RouteEntry>)
    requires Room(table, s + t)
    ensures Room(table, s) && Room(table + AsSet(s), t)
  {
    forall q, r | q in table + AsSet(s) && r in t
      ensures q.destination != r.destination
    {
      if q in s {
        var i :| 0 <= i < |s| && s[i] == q;
        var j :| 0 <= j < |t| && t[j] == r;
        assert (s + t)[i] == q && (s + t)[|s| + j] == r;
      }
    }
    forall i, j | 0 <= i < j < |s|
      ensures s[i].destination != s[j].destination
    {
      assert (s + t)[i] == s[i] && (s + t)[j] == s[j];
    }
    forall i, j | 0 <= i < j < |t|
      ensures t[i].destination != t[j].destination
    {
      assert (s + t)[|s| + i] == t[i] && (s + t)[|s| + j] == t[j];
    }
  }

  lemma RoomComposes(table: set<RouteEntry>, s: seq<RouteEntry>, t: seq<RouteEntry>)
    requires Room(table, s) && Room(table + AsSet(s), t)
    ensures Room(table, s + t)
  {
    var all := s + t;
    forall i, j | 0 <= i < j < |all|
      ensures all[i].destination != all[j].destination
    {
      if i < |s| <= j {
        assert s[i] in table + AsSet(s) && t[j - |s|] in t;
      }
    }
  }

  lemma RoomForNone(table: set<RouteEntry>)
    ensures Room(table, []) && AsSet([]) == {}
  {
  }

  lemma AsSetGrows(s: seq<RouteEntry>, r: RouteEntry)
    ensures AsSet(s + [r]) == AsSet(s) + {r} == AsSet(s) + AsSet([r])
  {
  }

  lemma RoomForNext(table: set<RouteEntry>, s: seq<RouteEntry>, i: nat)
    requires Room(table, s) && i < |s|
    ensures Room(table + AsSet(s[..i]), [s[i]])
  {
    assert s == s[..i] + s[i..];
    RoomGrows(table, s[..i], s[i..]);
    assert s[i] == s[i..][0];
  }

  /** The probe routes are those for 1.1.1.1 and 8.8.8.8. */
  lemma ProbeTargets(context: GatewayContext)
    ensures forall ip: Ipv4 :: (exists r :: r in Probe(context) && r.destination == Prefix(ip, 32)) <==>
              ip == 0x0101_0101 || ip == 0x0808_0808
  {
    assert Probe(context)[0] in Probe(context) && Probe(context)[1] in Probe(context);
  }

  lemma ProbeConflict(context: GatewayContext)
    ensures (exists ip, r ::
               ip in context.endpoints && r in Probe(context) && ip.V4? && r.destination == Prefix(ip.number, 32))
            <==> V4(0x0101_0101) in context.endpoints || V4(0x0808_0808) in context.endpoints
  {
    var p := Probe(context);
    assert p[0] in p && p[1] in p;
    assert p[0].destination == Prefix(V4(0x0101_0101).number, 32);
    assert p[1].destination == Prefix(V4(0x0808_0808).number, 32);
  }

  /** With room for the protection and the probe routes no endpoint is a probe target. */
  lemma NoProbeTarget(table: set<RouteEntry>, physical: Physical, context: GatewayContext)
    requires Protect(physical, context.endpoints).Some?
    requires Room(table, Protect(physical, context.endpoints).value + Probe(context))
    ensures V4(0x0101_0101) !in context.endpoints && V4(0x0808_0808) !in context.endpoints
  {
    var protect := Protect(physical, context.endpoints).value;
    RoomGrows(table, protect, Probe(context));
    ProtectIsExact(physical, context.endpoints);
    forall ip: Ipv4 | V4(ip) in context.endpoints
      ensures ip != 0x0101_0101 && ip != 0x0808_0808
    {
      var q :| q in protect && q.destination == Prefix(ip, 32);
      ProbeTargets(context);
    }
  }

  predicate Protectable(physical: Physical, endpoints: seq<IpAddress>) {
    && IsUnderlay(V4(physical.gateway)) && physical.gateway !in PROBE_TARGETS
    && forall i :: 0 <= i < |endpoints| ==> IsUnderlay(endpoints[i]) && endpoints[i].number !in PROBE_TARGETS
  }

  /** In an empty table there is room for the whole plan. */
  lemma PlanHasRoom(physical: Physical, context: GatewayContext)
    requires Protectable(physical, context.endpoints)
    ensures Protect(physical, context.endpoints).Some?
    ensures Room({}, Protect(physical, context.endpoints).value + Probe(context) + Default(context))
  {
    hide Protect, IsUnderlay;
    ProtectIsExact(physical, context.endpoints);
    var protect, rest := Protect(physical, context.endpoints).value, Probe(context) + Default(context);
    assert forall r :: r in rest && r.destination.length == 32 ==> r.destination.address in PROBE_TARGETS;
    forall r | r in protect
      ensures r.destination.length == 32 && r.destination.address !in PROBE_TARGETS
    {
      assert r.destination == Prefix(r.destination.address, 32);
    }
    var all := protect + Probe(context) + Default(context);
    assert all == protect + rest;
    forall i, j | 0 <= i < j < |all|
      ensures all[i].destination != all[j].destination
    {
      if i < |protect| && j >= |protect| {
        assert all[i] in protect && all[j] in rest;
      } else if i >= |protect| {
        assert all[i] == rest[i - |protect|] && all[j] == rest[j - |protect|];
      }
    }
  }

  lemma AsSetSum(s: seq<RouteEntry>, t: seq<RouteEntry>)
    ensures AsSet(s + t) == AsSet(s) + AsSet(t)
  {
  }

  /** The routes of `desired` that are not in `current`, in order. */
  function Missing(desired: seq<RouteEntry>, current: seq<RouteEntry>): (r: seq<RouteEntry>)
    ensures forall q :: q in r <==> q in desired && q !in current
  {
    if desired == [] then []
    else
      var n := |desired| - 1;
      var rest := Missing(desired[..n], current);
      assert desired == desired[..n] + [desired[n]];
      if desired[n] in current then rest else rest + [desired[n]]
  }

  lemma MissingNone(current: seq<RouteEntry>)
    ensures Missing([], current) == []
  {
  }

  lemma MissingSplit(desired: seq<RouteEntry>, current: seq<RouteEntry>, i: nat)
    requires i < |desired|
    ensures Missing(desired[..i + 1], current)
            == Missing(desired[..i], current) + if desired[i] in current then [] else [desired[i]]
  {
    assert desired[..i + 1][..i] == desired[..i];
  }

  lemma {:induction false} MissingPrefix(desired: seq<RouteEntry>, current: seq<RouteEntry>, i: nat)
    requires i <= |desired|
    ensures Missing(desired[..i], current) <= Missing(desired, current)
    decreases |desired| - i
  {
    if i < |desired| {
      MissingSplit(desired, current, i);
      MissingPrefix(desired, current, i + 1);
    } else {
      assert desired[..i] == desired;
    }
  }

  lemma RoomForMissing(table: set<RouteEntry>, desired: seq<RouteEntry>, current: seq<RouteEntry>, i: nat)
    requires i < |desired| && desired[i] !in current && Room(table, Missing(desired, current))
    ensures Room(table + AsSet(Missing(desired[..i], current)), [desired[i]])
  {
    hide Missing, Room, AsSet;
    MissingSplit(desired, current, i);
    MissingPrefix(desired, current, i + 1);
    var all, n := Missing(desired, current), |Missing(desired[..i], current)|;
    assert all[..n] == Missing(desired[..i], current) && all[n] == desired[i];
    RoomForNext(table, all, n);
  }

  lemma KeepsInstalled(a: Machine, b: Machine, s: seq<RouteEntry>, except: iset<RouteEntry>)
    requires Keeps(a, b, except) && Installed(a, s)
    requires forall r :: r in s ==> r !in except
    ensures Installed(b, s)
  {
  }

  lemma KeepsBoth(a: Machine, b: Machine, c: Machine, q: RouteEntry, r: RouteEntry)
    requires Keeps(a, b, iset{q}) && (b == c || Keeps(b, c, iset{r}))
    ensures Keeps(a, c, iset{q, r})
  {
  }

  lemma BothInstalled(m: Machine, s: seq<RouteEntry>, t: seq<RouteEntry>)
    requires Installed(m, s) && Installed(m, t)
    ensures Installed(m, s + t)
  {
  }

  ghost predicate AllSafe(trace: seq<Moment>) {
    forall i :: 0 <= i < |trace| ==> Safe(trace[i].machine, trace[i].memory)
  }

  /** What other programs own has not changed. */
  ghost predicate SameOutside(a: Machine, b: Machine) {
    a.foreign == b.foreign && a.vanished == b.vanished && a.arrived == b.arrived && (b.link.Absent? ==> a.link.Absent?)
  }

  /** The overlay interface may disappear during an operation but is not replaced. */
  ghost predicate LinkOnlyLost(a: Link, b: Link) {
    b.Present? ==> a.Present? && a.identity == b.identity
  }

  /** The part of a run that a later point can be compared with. */
  datatype View = View(machine: Machine, clock: nat, trace: seq<Moment>)

  ghost predicate AddedBetween(s: Schedule, from: nat, to: nat, r: RouteEntry) {
    exists k: nat :: from <= k < to && r in s(k).added
  }

  ghost predicate RemovedBetween(s: Schedule, from: nat, to: nat, r: RouteEntry) {
    exists k: nat :: from <= k < to && r in s(k).removed
  }

  /** Between two points foreign routes are new only if a tick added them, and missing only if
      a tick removed them. */
  ghost predicate Outside(s: Schedule, before: set<RouteEntry>, from: nat, after: set<RouteEntry>, to: nat) {
    && from <= to
    && (forall r :: r in after ==> r in before || AddedBetween(s, from, to, r))
    && (forall r :: r in before ==> r in after || RemovedBetween(s, from, to, r))
  }

  lemma OutsideTransitive(
      s: Schedule, x: set<RouteEntry>, i: nat, y: set<RouteEntry>, j: nat, z: set<RouteEntry>, k: nat)
    requires Outside(s, x, i, y, j) && Outside(s, y, j, z, k)
    ensures Outside(s, x, i, z, k)
  {
    forall r | r in z && r !in x
      ensures AddedBetween(s, i, k, r)
    {
      var n: nat :| i <= n < k && r in s(n).added;
    }
    forall r | r in x && r !in z
      ensures RemovedBetween(s, i, k, r)
    {
      var n: nat :| i <= n < k && r in s(n).removed;
    }
  }

  lemma OutsideItself(s: Schedule, x: set<RouteEntry>, i: nat)
    ensures Outside(s, x, i, x, i)
  {
  }

  /** If nobody interferes, nothing is new and nothing is missing. */
  lemma OutsideQuiet(s: Schedule, before: set<RouteEntry>, from: nat, after: set<RouteEntry>, to: nat)
    requires Outside(s, before, from, after, to) && Quiet(s, from)
    ensures after == before
  {
  }

  lemma OutsideTick(m: Machine, memory: Option<RouteJournal>, s: Schedule, k: nat)
    ensures Outside(s, m.foreign, k, Interfere(m, memory, s(k)).foreign, k + 1)
  {
    forall r | r in m.foreign && r !in Interfere(m, memory, s(k)).foreign
      ensures RemovedBetween(s, k, k + 1, r)
    {
      assert r in s(k).removed;
    }
    forall r | r in Interfere(m, memory, s(k)).foreign && r !in m.foreign
      ensures AddedBetween(s, k, k + 1, r)
    {
      assert r in s(k).added;
    }
  }

  /** Point `b` of a run comes after point `a`: nothing got lost in between but at the
      hands of others, or in `except`. */
  ghost predicate Follows(s: Schedule, a: View, b: View, except: iset<RouteEntry>) {
    && a.clock <= b.clock
    && a.trace <= b.trace
    && Carries(a.machine, b.machine, except)
    && (forall i :: |a.trace| <= i < |b.trace| ==> Carries(a.machine, b.trace[i].machine, except))
    && (Quiet(s, a.clock) ==> SameOutside(a.machine, b.machine))
    && LinkOnlyLost(a.machine.link, b.machine.link)
    && Outside(s, a.machine.foreign, a.clock, b.machine.foreign, b.clock)
    && (a.machine.meddled || (!b.machine.meddled && b.machine.home == a.machine.home))
  }

  /** The start of an operation: what others do is counted from here. */
  function Opening(v: View): View {
    v.(machine := v.machine.(vanished := {}, arrived := {}))
  }

  lemma OpeningIsSafe(m: Machine, memory: Option<RouteJournal>)
    requires Safe(m, memory)
    ensures Safe(m.(vanished := {}, arrived := {}), memory)
  {
  }

  /** No restriction: any host route may go. */
  ghost const ALL: iset<RouteEntry> := iset r: RouteEntry | true

  lemma FollowsWeaker(s: Schedule, a: View, b: View, except: iset<RouteEntry>)
    requires Follows(s, a, b, except)
    ensures Follows(s, a, b, ALL)
  {
  }

  lemma FollowsItself(s: Schedule, a: View, except: iset<RouteEntry>)
    ensures Follows(s, a, a, except)
  {
  }

  lemma CarriesTransitive(a: Machine, b: Machine, c: Machine, except: iset<RouteEntry>)
    requires Carries(a, b, except) && Carries(b, c, except)
    ensures Carries(a, c, except)
  {
  }

  lemma FollowsTransitive(s: Schedule, a: View, b: View, c: View, except: iset<RouteEntry>)
    requires Follows(s, a, b, except) && Follows(s, b, c, except)
    ensures Follows(s, a, c, except)
  {
    CarriesTransitive(a.machine, b.machine, c.machine, except);
    OutsideTransitive(s, a.machine.foreign, a.clock, b.machine.foreign, b.clock, c.machine.foreign, c.clock);
    forall i | |a.trace| <= i < |c.trace|
      ensures Carries(a.machine, c.trace[i].machine, except)
    {
      if i < |b.trace| {
        assert c.trace[i] == b.trace[i];
      } else {
        CarriesTransitive(a.machine, b.machine, c.trace[i].machine, except);
      }
    }
  }

  /** One recorded change of the machine that loses nothing but `except`. */
  lemma FollowsStep(
      s: Schedule, a: View, b: View, machine: Machine, memory: Option<RouteJournal>, except: iset<RouteEntry>)
    requires Follows(s, a, b, except)
    requires Carries(b.machine, machine, except) && SameOutside(b.machine, machine)
    requires LinkOnlyLost(b.machine.link, machine.link)
    requires machine.home == b.machine.home && machine.meddled == b.machine.meddled
    ensures Follows(s, a, View(machine, b.clock, b.trace + [Moment(machine, memory)]), except)
  {
    var c := View(machine, b.clock, b.trace + [Moment(machine, memory)]);
    assert Follows(s, b, c, except);
    FollowsTransitive(s, a, b, c, except);
  }

  /** A transaction begins with what is there: the link is as others left it. */
  function Open(m: Machine, dns: DnsSnapshot): Machine {
    m.(base := Some(dns), home := if m.meddled then m.link else m.home, meddled := false)
  }

  lemma OpenFollows(s: Schedule, a: View, b: View, dns: DnsSnapshot, except: iset<RouteEntry>)
    requires Follows(s, a, b, except)
    ensures Follows(s, a, b.(machine := Open(b.machine, dns)), except)
  {
    hide Carries, Outside;
    CarriesOpened(a.machine, b.machine, dns, except);
  }

  lemma CarriesOpened(a: Machine, b: Machine, dns: DnsSnapshot, except: iset<RouteEntry>)
    ensures Carries(a, b, except) ==> Carries(a, Open(b, dns), except)
  {
  }

  lemma AllSafeGrows(trace: seq<Moment>, machine: Machine, memory: Option<RouteJournal>)
    requires AllSafe(trace) && Safe(machine, memory)
    ensures AllSafe(trace + [Moment(machine, memory)])
  {
  }

  ghost predicate LinkStays(a: Link, b: Link) {
    b.Absent? || b == a
  }

  // ------------------------------------------------------ effects of one call

  /** Other programs act while a call is pending. They do not create a route that the
      host has found absent and journaled. */
  function Interfere(m: Machine, memory: Option<RouteJournal>, t: Tick): Machine {
    var added := t.added - Claims(m.disk) - Claims(memory);
    m.(routes := m.routes - t.removed + added,
       link := if t.linkLost then Absent else m.link,
       foreign := m.foreign - t.removed + added,
       host := m.host - t.removed,
       vanished := m.vanished + t.removed,
       arrived := m.arrived + added)
  }

  lemma InterfereIsSafe(m: Machine, memory: Option<RouteJournal>, t: Tick)
    requires Safe(m, memory)
    ensures Safe(Interfere(m, memory, t), memory)
    ensures Carries(m, Interfere(m, memory, t), iset{})
  {
    assert forall r :: r in m.host ==> r in Claims(m.disk);
  }

  lemma FollowsInterference(s: Schedule, a: View, b: View, memory: Option<RouteJournal>, except: iset<RouteEntry>)
    requires Follows(s, a, b, except) && Safe(b.machine, memory)
    ensures var m := Interfere(b.machine, memory, s(b.clock));
            Follows(s, a, View(m, b.clock + 1, b.trace + [Moment(m, memory)]), except)
  {
    var m := Interfere(b.machine, memory, s(b.clock));
    var c := View(m, b.clock + 1, b.trace + [Moment(m, memory)]);
    InterfereIsSafe(b.machine, memory, s(b.clock));
    OutsideTick(b.machine, memory, s, b.clock);
    assert Quiet(s, b.clock) ==> SameOutside(b.machine, m);
    assert Follows(s, b, c, except);
    FollowsTransitive(s, a, b, c, except);
  }

  /** The effect of interference, as far as the host relies on it. */
  ghost predicate Drifts(a: Machine, b: Machine, memory: Option<RouteJournal>) {
    && b.disk == a.disk && b.base == a.base
    && b.host <= a.host
    && Keeps(a, b, iset{})
    && (memory.Some? ==> forall r :: r in memory.value.owned && r !in a.routes ==> r !in b.routes)
  }

  lemma InterferenceDrifts(m: Machine, memory: Option<RouteJournal>, t: Tick)
    ensures Drifts(m, Interfere(m, memory, t), memory)
    ensures Interfere(m, memory, t).link == (if t.linkLost then Absent else m.link)
    ensures t.added == {} && t.removed == {} ==>
              Interfere(m, memory, t).foreign == m.foreign && Interfere(m, memory, t).routes == m.routes
  {
  }

  lemma DriftKeeps(a: Machine, b: Machine, c: Machine, memory: Option<RouteJournal>)
    requires Keeps(a, b, iset{}) && Drifts(b, c, memory)
    ensures Keeps(a, c, iset{})
  {
  }

  lemma KeepsItself(m: Machine)
    ensures Keeps(m, m, iset{})
  {
  }

  function Put(m: Machine, r: RouteEntry): Machine {
    m.(routes := m.routes + {r}, host := m.host + {r})
  }

  lemma PutIsSafe(m: Machine, memory: Option<RouteJournal>, r: RouteEntry)
    requires Safe(m, memory) && memory.Some? && m.disk.Some?
    requires r in memory.value.owned && r in m.disk.value.owned
    ensures Safe(Put(m, r), memory)
    ensures Carries(m, Put(m, r), iset{}) && SameOutside(m, Put(m, r))
  {
  }

  function Take(m: Machine, r: RouteEntry): Machine {
    m.(routes := m.routes - {r}, host := m.host - {r})
  }

  lemma TakeIsSafe(m: Machine, memory: Option<RouteJournal>, r: RouteEntry)
    requires Safe(m, memory) && memory.Some? && r in memory.value.owned
    ensures Safe(Take(m, r), memory)
    ensures Carries(m, Take(m, r), iset{r}) && SameOutside(m, Take(m, r))
  {
  }

  lemma SaveIsSafe(m: Machine, memory: Option<RouteJournal>)
    requires Safe(m, memory) && memory.Some?
    ensures Safe(m.(disk := memory), memory)
  {
  }

  /** A resolver command is safe once both journals carry the flag. A restore command is
      safe even if the flag has not reached the disk, because then it changes nothing. */
  lemma CommandIsSafe(m: Machine, memory: Option<RouteJournal>, c: Command)
    requires Safe(m, memory) && Flagged(memory) && m.base.Some? && SameLink(m.link, m.base.value) && Tame(c)
    requires Flagged(m.disk) || c in RestoreScript(m.base.value)
    ensures Safe(m.(link := Run(m.link, c)), memory)
  {
    if !Flagged(m.disk) && !m.meddled {
      assert Run(m.link, c) == m.link;
    }
  }

  /** Opening a transaction on a machine without a journal file. */
  lemma OpenIsSafe(m: Machine, snapshot: RouteSnapshot)
    requires Safe(m, None) && m.disk.None?
    requires m.link == Original(snapshot.dns) && Pristine(snapshot.dns)
    ensures Safe(Open(m, snapshot.dns), Some(RouteJournal(snapshot, [], false)))
  {
  }

  /** Claiming a route whose destination is not in the table. */
  lemma ClaimIsSafe(m: Machine, j: RouteJournal, r: RouteEntry)
    requires Safe(m, Some(j)) && m.disk.Some?
    requires forall q :: q in m.routes ==> q.destination != r.destination
    ensures Safe(m, Some(j.(owned := j.owned + [r])))
    ensures forall q :: q in m.foreign ==> q.destination != r.destination
  {
    assert r !in m.foreign;
  }

  /** Dropping the claim on a route that is not there. */
  lemma UnclaimIsSafe(m: Machine, j: RouteJournal, r: RouteEntry)
    requires Safe(m, Some(j)) && m.disk.Some? && r !in m.routes
    ensures Safe(m, Some(j.(owned := Without(j.owned, r)))) && r !in m.host
  {
  }

  lemma WorkNeedsFile(m: Machine, j: RouteJournal)
    requires Safe(m, Some(j)) && (j.owned != [] || j.dnsMayHaveChanged)
    ensures m.disk.Some?
  {
  }

  /** The journal in memory knows the captured settings. */
  lemma JournalMatches(m: Machine, j: RouteJournal)
    requires Safe(m, Some(j))
    ensures m.base == Some(j.snapshot.dns) && Pristine(j.snapshot.dns)
    ensures Changed(m) ==> j.dnsMayHaveChanged
  {
  }

  lemma HostIsOwned(m: Machine, j: RouteJournal)
    requires Safe(m, Some(j))
    ensures forall r :: r in m.host ==> r in j.owned
    ensures Changed(m) ==> j.dnsMayHaveChanged
  {
  }

  lemma NoneOwned(s: seq<RouteEntry>)
    ensures s != [] ==> exists r :: r in s
  {
    if s != [] { assert s[0] in s; }
  }

  lemma FollowsCarries(s: Schedule, a: View, b: View, except: iset<RouteEntry>)
    requires Follows(s, a, b, except)
    ensures Carries(a.machine, b.machine, except)
  {
  }

  lemma FollowsClock(s: Schedule, a: View, b: View, except: iset<RouteEntry>)
    requires Follows(s, a, b, except)
    ensures a.clock <= b.clock && a.trace <= b.trace
  {
  }

  /** The probe routes are alone at their destinations. */
  lemma ProbeIsRouted(m: Machine, context: GatewayContext, before: set<RouteEntry>)
    requires m.routes == before + AsSet(Probe(context)) && Room(before, Probe(context))
    ensures ProbeRouted(m.routes, context)
  {
    forall r | r in Probe(context)
      ensures Exclusive(m.routes, r)
    {
      forall q | q in m.routes && q.destination == r.destination
        ensures q == r
      {
        assert q in Probe(context);
      }
    }
    ProbeMeaning(m.routes, context);
  }

  lemma QuietSame(s: Schedule, a: View, b: View, except: iset<RouteEntry>)
    requires Follows(s, a, b, except) && Quiet(s, a.clock)
    ensures b.machine.foreign == a.machine.foreign && b.machine.vanished == a.machine.vanished
  {
  }

  /** If others removed nothing, the table is the foreign routes and the owned ones. */
  lemma TableOfOwned(m: Machine, j: RouteJournal)
    requires Safe(m, Some(j)) && Installed(m, j.owned) && m.vanished == {}
    ensures m.routes == m.foreign + AsSet(j.owned)
  {
  }

  lemma NoFileOpening(m: Machine, memory: Option<RouteJournal>)
    requires Safe(m, memory)
    ensures m.disk.None? ==> m.routes == m.foreign
  {
  }

  lemma NoRivals(foreign: set<RouteEntry>, s: seq<RouteEntry>, t: seq<RouteEntry>)
    ensures NoRival(foreign, s) && NoRival(foreign, t) ==> NoRival(foreign, s + t)
  {
  }

  /** Protection routes leave by the physical interface and are no probe routes. */
  lemma NoProbeProtected(physical: Physical, context: GatewayContext)
    requires Protect(physical, context.endpoints).Some?
    requires physical.interfaceIndex != context.overlayInterfaceIndex
    ensures forall r :: r in Protect(physical, context.endpoints).value ==> r !in Probe(context)
  {
    ProtectIsExact(physical, context.endpoints);
  }

  /** The table is the foreign routes and the plan, which is what the journal lists, and no foreign
      route is for a planned destination. */
  ghost predicate Planned(m: Machine, j: Option<RouteJournal>, context: GatewayContext) {
    && j.Some?
    && Plan(j.value.snapshot.physical, context).Some?
    && AsSet(j.value.owned) == AsSet(Plan(j.value.snapshot.physical, context).value)
    && m.routes == m.foreign + AsSet(j.value.owned)
    && NoRival(m.foreign, j.value.owned)
  }

  lemma PlannedIsRouted(m: Machine, j: RouteJournal, context: GatewayContext)
    requires Planned(m, Some(j), context)
    ensures Routed(m.routes, j.snapshot.physical, context)
  {
    hide Plan, Routed;
    var plan := Plan(j.snapshot.physical, context).value;
    assert forall r :: r in plan <==> r in AsSet(plan);
    assert forall r :: r in AsSet(j.owned) <==> r in j.owned;
    PlanIsRouted(m.foreign, j.snapshot.physical, context);
  }

  /** A refresh keeps the table planned, for the new endpoints. */
  lemma RefreshKeepsPlan(
      a: Machine, j: RouteJournal, b: Machine, k: RouteJournal, context: GatewayContext, endpoints: seq<IpAddress>)
    requires Safe(a, Some(j)) && Safe(b, Some(k)) && Planned(a, Some(j), context) && Refreshed(j, k, endpoints)
    requires Carries(a, b, Stale(Protect(j.snapshot.physical, endpoints))) && b.vanished == {} && b.foreign == a.foreign
    requires Installed(b, Lacking(j, endpoints)) && NoRival(b.foreign, Lacking(j, endpoints))
    ensures Planned(b, Some(k), context.(endpoints := endpoints))
  {
    hide Missing, HostRoutes, Protect;
    var desired := Protect(j.snapshot.physical, endpoints).value;
    var missing := Missing(desired, HostRoutes(j.owned));
    var next := context.(endpoints := endpoints);
    assert Default(next) == Default(context);
    ProtectIsExact(j.snapshot.physical, context.endpoints);
    assert forall r :: r in j.owned <==> r in AsSet(j.owned);
    assert forall r: RouteEntry :: r.destination.length != 32 ==> (r in j.owned <==> r in Default(context)) by {
      var plan := Plan(j.snapshot.physical, context).value;
      assert forall r :: r in plan <==> r in AsSet(plan);
    }
    assert AsSet(k.owned) == AsSet(Plan(k.snapshot.physical, next).value);
    forall r | r in k.owned
      ensures r in b.host + b.vanished
      ensures forall q :: q in b.foreign ==> q.destination != r.destination
    {
      if r !in missing {
        assert r in j.owned;
        assert r in a.routes && r !in a.foreign;
      }
    }
    TableOfOwned(b, k);
  }

  lemma OwnedOnly(m: Machine, j: RouteJournal, r: RouteEntry)
    requires Safe(m, Some(j)) && r !in j.owned
    ensures r !in m.host
  {
  }

  lemma FlagIsSafe(m: Machine, j: RouteJournal)
    requires Safe(m, Some(j)) && m.disk.Some?
    ensures Safe(m, Some(j.(dnsMayHaveChanged := true)))
  {
  }

  lemma UnflagIsSafe(m: Machine, j: RouteJournal)
    requires Safe(m, Some(j)) && m.disk.Some? && !Changed(m)
    ensures Safe(m, Some(j.(dnsMayHaveChanged := false)))
  {
  }

  /** With nothing owned and no flag the journal file may go, and so may the memory. */
  lemma CloseIsSafe(m: Machine, j: RouteJournal)
    requires Safe(m, Some(j)) && j.owned == [] && !j.dnsMayHaveChanged
    ensures Safe(m.(disk := None), Some(j)) && Safe(m.(disk := None), None) && Clean(m)
  {
    assert m.host == {};
  }

  /** A crash loses memory and nothing else, and what is left is still covered; a new
      process that reads the file covers it too. */
  lemma CrashIsSafe(m: Machine, memory: Option<RouteJournal>)
    requires Safe(m, memory)
    ensures Safe(m, None)
    ensures m.disk.Some? ==> Safe(m, m.disk)
  {
  }

  /** Others set the overlay link: a new interface comes up, an old one goes, or the resolver
      of the one that is there is configured. */
  function SetLink(m: Machine, link: Link): Machine {
    m.(link := link, home := link, meddled := m.base.Some? && SameLink(link, m.base.value))
  }

  lemma SetLinkIsSafe(m: Machine, memory: Option<RouteJournal>, link: Link)
    requires Safe(m, memory)
    ensures Safe(SetLink(m, link), memory)
  {
  }

  /** On a clean machine the link is as others left it, unless others have set it during the
      last transaction. */
  lemma CleanMeansHome(m: Machine, memory: Option<RouteJournal>)
    requires Safe(m, memory) && Clean(m) && !m.meddled
    ensures m.link.Absent? || m.link == m.home
  {
  }

  /** With no journal on disk there is nothing to undo. */
  lemma NoFileMeansClean(m: Machine, memory: Option<RouteJournal>)
    requires Safe(m, memory) && m.disk.None?
    ensures Clean(m)
  {
  }

  /** `List.RemoveAll` with identity. */
  function Without(s: seq<RouteEntry>, r: RouteEntry): (t: seq<RouteEntry>)
    ensures forall q :: q in t <==> q in s && q != r
  {
    if s == [] then []
    else if s[0] == r then Without(s[1..], r)
    else [s[0]] + Without(s[1..], r)
  }

  lemma WithoutMembers(s: seq<RouteEntry>, r: RouteEntry)
    ensures forall q :: q in Without(s, r) <==> q in s && q != r
  {
  }

  lemma {:induction false} WithoutSplit(a: seq<RouteEntry>, b: seq<RouteEntry>, r: RouteEntry)
    ensures Without(a + b, r) == Without(a, r) + Without(b, r)
  {
    if a == [] {
      assert a + b == b;
    } else {
      assert (a + b)[1..] == a[1..] + b;
      WithoutSplit(a[1..], b, r);
    }
  }

  lemma {:induction false} WithoutAbsent(s: seq<RouteEntry>, r: RouteEntry)
    requires r !in s
    ensures Without(s, r) == s
  {
    if s != [] {
      WithoutAbsent(s[1..], r);
    }
  }

  /** Once both probe routes are dropped, the plan is what is owned. */
  lemma CommittedRoutes(protect: seq<RouteEntry>, context: GatewayContext)
    requires forall r :: r in protect ==> r !in Probe(context)
    ensures |Probe(context)| == 2
    ensures Without(Without(protect + Probe(context) + Default(context), Probe(context)[0]), Probe(context)[1])
            == protect + Default(context)
    ensures forall r :: r in protect + Default(context) ==>
              r !in Probe(context) && r != Probe(context)[0] && r != Probe(context)[1]
  {
    var p, d := Probe(context), Default(context);
    var p0, p1 := p[0], p[1];
    assert p0 in p && p1 in p && p0 != p1;
    WithoutSplit(protect + p, d, p0);
    WithoutSplit(protect, p, p0);
    WithoutAbsent(protect, p0);
    WithoutAbsent(d, p0);
    assert Without(p, p0) == [p1] by { assert p[1..] == [p1] && Without([p1], p0) == [p1]; }
    WithoutSplit(protect + [p1], d, p1);
    WithoutSplit(protect, [p1], p1);
    WithoutAbsent(protect, p1);
    WithoutAbsent(d, p1);
    assert Without([p1], p1) == [];
  }

  /** The owned /32 routes. */
  function HostRoutes(s: seq<RouteEntry>): (t: seq<RouteEntry>)
    ensures forall r :: r in t <==> r in s && r.destination.length == 32
  {
    if s == [] then []
    else if s[0].destination.length == 32 then [s[0]] + HostRoutes(s[1..])
    else HostRoutes(s[1..])
  }

  /** The /32 routes that a refresh may drop. */
  ghost function Stale(desired: Option<seq<RouteEntry>>): iset<RouteEntry> {
    iset r: RouteEntry | r.destination.length == 32 && (desired.Some? ==> r !in desired.value)
  }

  /** A refresh took effect: the owned /32 routes protect exactly the new endpoints, and the
      rest of the journal is as before. */
  ghost predicate Refreshed(a: RouteJournal, b: RouteJournal, endpoints: seq<IpAddress>) {
    var desired := Protect(a.snapshot.physical, endpoints);
    && desired.Some?
    && b.snapshot == a.snapshot && b.dnsMayHaveChanged == a.dnsMayHaveChanged
    && (forall r :: r in b.owned && r.destination.length == 32 <==> r in desired.value)
    && (forall r: RouteEntry :: r.destination.length != 32 ==> (r in b.owned <==> r in a.owned))
  }

  /** The owned /32 routes protect exactly these endpoints. */
  ghost predicate Protects(j: Option<RouteJournal>, endpoints: seq<IpAddress>) {
    && j.Some?
    && var desired := Protect(j.value.snapshot.physical, endpoints);
    && desired.Some?
    && forall r :: r in j.value.owned && r.destination.length == 32 <==> r in desired.value
  }

  /** The protection that a refresh has to add. */
  function Lacking(j: RouteJournal, endpoints: seq<IpAddress>): seq<RouteEntry> {
    match Protect(j.snapshot.physical, endpoints)
    case None => []
    case Some(desired) => Missing(desired, HostRoutes(j.owned))
  }

  /** Nothing stands in the way of a refresh. */
  ghost predicate CanRefresh(table: set<RouteEntry>, j: RouteJournal, endpoints: seq<IpAddress>) {
    var desired := Protect(j.snapshot.physical, endpoints);
    && desired.Some?
    && (forall r :: r in desired.value ==> r.destination.address !in PROBE_TARGETS)
    && Room(table, Lacking(j, endpoints))
  }

  /** A rollback of this journal would not be refused the resolver. */
  predicate CanRestore(link: Link, j: Option<RouteJournal>) {
    Flagged(j) ==> Restorable(link, j.value.snapshot.dns)
  }

  lemma CanRestoreStays(a: Link, j: Option<RouteJournal>, b: Link, k: Option<RouteJournal>)
    requires CanRestore(a, j) && LinkStays(a, b) && Flagged(j) == Flagged(k)
    requires Flagged(j) ==> j.value.snapshot == k.value.snapshot
    ensures CanRestore(b, k)
  {
  }

  /** The link is gone or has its captured settings. */
  predicate Settled(link: Link, dns: DnsSnapshot) {
    link.Absent? || link == Original(dns)
  }

  /** What a rollback works on, and what an error of it is about. */
  datatype Target = OnRoute(route: RouteEntry) | OnDns

  function OnRoutes(s: seq<RouteEntry>): seq<Target> {
    seq(|s|, i requires 0 <= i < |s| => OnRoute(s[i]))
  }

  lemma OnRoutesGrows(s: seq<RouteEntry>, i: nat)
    requires i < |s|
    ensures OnRoutes(s[..i + 1]) == OnRoutes(s[..i]) + [OnRoute(s[i])]
    ensures forall r :: r in s[i..] ==> r == s[i] || r in s[i + 1..]
  {
    assert s[..i + 1] == s[..i] + [s[i]] && s[i..] == [s[i]] + s[i + 1..];
  }

  lemma OnNoRoutes(s: seq<RouteEntry>)
    ensures OnRoutes(s[..0]) == [] && s[0..] == s && s[..|s|] == s
  {
  }

  /** Everything a journal lists, in the order a rollback takes it. */
  function Targets(j: RouteJournal): seq<Target> {
    OnRoutes(Reversed(j.owned)) + if j.dnsMayHaveChanged then [OnDns] else []
  }

  function Reversed(s: seq<RouteEntry>): (t: seq<RouteEntry>)
    ensures |t| == |s| && forall i :: 0 <= i < |s| ==> t[i] == s[|s| - 1 - i]
    ensures forall q :: q in t <==> q in s
  {
    if s == [] then [] else Reversed(s[1..]) + [s[0]]
  }
}
