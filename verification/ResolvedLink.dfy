/** The per-link resolver that `LinuxDnsController` drives through `resolvectl`
    (src/EasyTierHost.Network/LinuxDnsController.cs). */
module ResolvedLink {
  import opened Addresses

  datatype Domain = Domain(name: string, routingOnly: bool)

  /** The resolver settings of the overlay interface; `Absent` once the interface is gone. */
  datatype Link =
    | Absent
    | Present(identity: nat, servers: seq<IpAddress>, domains: seq<Domain>, defaultRoute: bool)

  datatype DnsSnapshot = DnsSnapshot(identity: nat, servers: seq<IpAddress>, domains: seq<Domain>, defaultRoute: bool)

  datatype Command =
    | SetServers(servers: seq<IpAddress>)
    | SetDomains(domains: seq<Domain>)
    | SetDefaultRoute(yes: bool)
    | FlushCaches

  const OVERLAY_RESOLVER := V4(OVERLAY_GATEWAY)
  const EVERYTHING := Domain(".", true)

  function Original(s: DnsSnapshot): Link {
    Present(s.identity, s.servers, s.domains, s.defaultRoute)
  }

  /** The captured link with the host's settings. */
  function Switched(s: DnsSnapshot): Link {
    Present(s.identity, [V4(0x0a0a_0001)], [Domain(".", true)], true)
  }

  /** What `CaptureAsync` insists on: it only ever owns an unused resolver. */
  predicate Pristine(s: DnsSnapshot) {
    s.servers == [] && s.domains == []
  }

  /** A resolver that nobody has configured. */
  predicate Unused(link: Link) {
    link.Present? && link.servers == [] && link.domains == []
  }

  predicate SameLink(link: Link, s: DnsSnapshot) {
    link.Present? && link.identity == s.identity
  }

  predicate Touched(link: Link, s: DnsSnapshot) {
    SameLink(link, s) && link != Original(s)
  }

  /** The guard of `RestoreAsync`: nothing but the host's own settings is there. */
  predicate Accepts(link: Link)
    requires link.Present?
  {
    && (forall ip :: ip in link.servers ==> ip == OVERLAY_RESOLVER)
    && (forall d :: d in link.domains ==> d == EVERYTHING)
  }

  /** `RestoreAsync` does not refuse: the link is gone, or it is still the captured one and
      nothing but the host's own settings is there. */
  predicate Restorable(link: Link, s: DnsSnapshot) {
    link.Absent? || (link.identity == s.identity && Accepts(link))
  }

  function Run(link: Link, command: Command): Link
    requires link.Present?
  {
    match command
    case SetServers(servers) => link.(servers := servers)
    case SetDomains(domains) => link.(domains := domains)
    case SetDefaultRoute(yes) => link.(defaultRoute := yes)
    case FlushCaches => link
  }

  function RunAll(link: Link, commands: seq<Command>): (r: Link)
    requires link.Present?
    ensures r.Present? && r.identity == link.identity
    decreases |commands|
  {
    if commands == [] then link else RunAll(Run(link, commands[0]), commands[1..])
  }

  function ApplyScript(): seq<Command> {
    [SetServers([OVERLAY_RESOLVER]), SetDomains([EVERYTHING]), SetDefaultRoute(true), FlushCaches]
  }

  function RestoreScript(s: DnsSnapshot): seq<Command> {
    [SetDomains([]), SetServers([]), SetDefaultRoute(s.defaultRoute), FlushCaches]
  }

  /** A command of either script leaves the resolver in a state the restore guard accepts. */
  predicate Tame(command: Command) {
    match command
    case SetServers(servers) => forall ip :: ip in servers ==> ip == OVERLAY_RESOLVER
    case SetDomains(domains) => forall d :: d in domains ==> d == EVERYTHING
    case _ => true
  }

  lemma {:induction false} TameKeepsAccepted(link: Link, commands: seq<Command>)
    requires link.Present? && Accepts(link)
    requires forall c :: c in commands ==> Tame(c)
    ensures Accepts(RunAll(link, commands))
    decreases |commands|
  {
    if commands != [] {
      assert commands[0] in commands;
      TameKeepsAccepted(Run(link, commands[0]), commands[1..]);
    }
  }

  lemma CommandKeepsIdentity(link: Link, command: Command)
    requires link.Present?
    ensures Run(link, command).Present? && Run(link, command).identity == link.identity
  {
  }

  lemma ScriptsAreTame(s: DnsSnapshot)
    ensures forall c :: c in ApplyScript() ==> Tame(c)
    ensures forall c :: c in RestoreScript(s) ==> Tame(c)
    ensures |ApplyScript()| == 4 && |RestoreScript(s)| == 4
  {
  }

  /** One earlier, possibly interrupted, run of a script: its first `steps` commands. */
  datatype Episode = Episode(restoring: bool, steps: nat)

  function AfterEpisode(link: Link, s: DnsSnapshot, e: Episode): (r: Link)
    requires link.Present?
    ensures r.Present? && r.identity == link.identity
  {
    var script := if e.restoring then RestoreScript(s) else ApplyScript();
    RunAll(link, script[..if e.steps < |script| then e.steps else |script|])
  }

  function AfterHistory(s: DnsSnapshot, history: seq<Episode>): (r: Link)
    ensures r.Present? && r.identity == s.identity
  {
    if history == [] then Original(s)
    else AfterEpisode(AfterHistory(s, history[..|history| - 1]), s, history[|history| - 1])
  }

  lemma {:induction false} HistoryIsAccepted(s: DnsSnapshot, history: seq<Episode>)
    requires Pristine(s)
    ensures Accepts(AfterHistory(s, history))
  {
    if history != [] {
      HistoryIsAccepted(s, history[..|history| - 1]);
      var e := history[|history| - 1];
      ScriptsAreTame(s);
      var script := if e.restoring then RestoreScript(s) else ApplyScript();
      var prefix := script[..if e.steps < |script| then e.steps else |script|];
      assert forall c :: c in prefix ==> c in script;
      TameKeepsAccepted(AfterHistory(s, history[..|history| - 1]), prefix);
    }
  }

  /** The restore script erases whatever the earlier commands left. */
  lemma RestoreScriptRestores(link: Link, s: DnsSnapshot)
    requires SameLink(link, s) && Pristine(s)
    ensures RunAll(link, RestoreScript(s)) == Original(s)
  {
    var script := RestoreScript(s);
    var l1 := Run(link, script[0]);
    var l2 := Run(l1, script[1]);
    var l3 := Run(l2, script[2]);
    assert script[1..][1..][1..][1..] == [];
    assert script[1..][0] == script[1] && script[1..][1..][0] == script[2] && script[1..][1..][1..][0] == script[3];
    assert RunAll(link, script) == RunAll(l1, script[1..]) == RunAll(l2, script[1..][1..]);
    assert RunAll(l2, script[1..][1..]) == RunAll(l3, script[1..][1..][1..]);
    assert RunAll(l3, [FlushCaches]) == l3 by { assert [FlushCaches][1..] == []; }
    assert script[1..][1..][1..] == [FlushCaches];
  }

  lemma ApplyScriptApplies(link: Link)
    requires link.Present?
    ensures RunAll(link, ApplyScript()) == Present(link.identity, [V4(0x0a0a_0001)], [Domain(".", true)], true)
  {
    var script := ApplyScript();
    var l1 := Run(link, script[0]);
    var l2 := Run(l1, script[1]);
    var l3 := Run(l2, script[2]);
    assert script[1..][0] == script[1] && script[1..][1..][0] == script[2];
    assert RunAll(link, script) == RunAll(l1, script[1..]) == RunAll(l2, script[1..][1..]);
    assert RunAll(l2, script[1..][1..]) == RunAll(l3, script[1..][1..][1..]);
    assert RunAll(l3, [FlushCaches]) == l3 by { assert [FlushCaches][1..] == []; }
    assert script[1..][1..][1..] == [FlushCaches];
  }

  /** Whatever interrupted applies and restores came before, a restore on the same link
      is accepted by its guard and brings back exactly the captured settings. */
  lemma RestoreAfterAnyHistory(s: DnsSnapshot, history: seq<Episode>)
    requires Pristine(s)
    ensures Accepts(AfterHistory(s, history))
    ensures RunAll(AfterHistory(s, history), RestoreScript(s)) == Original(s)
  {
    HistoryIsAccepted(s, history);
    RestoreScriptRestores(AfterHistory(s, history), s);
  }
}
