# EasyTierHost: journaled network changes, DNS wire code and health counters

EasyTierHost is a service that runs beside EasyTier. On a client it takes over the
machine's default route and resolver; on a gateway it turns on forwarding, NAT and a DNS
forwarder. Both changes are transactions over state that other programs share: a journal
file is written before every change, a failure is undone from the journal, and after a
crash the next process recovers from the file. This project models that code and proves
what it is for: whatever fails and wherever the process dies, nothing of the host is left
behind without a record, nothing of others is touched, and a recovery that returns normally
leaves the machine as it was found.

## How a run is modelled

- Each awaited call is one tick of a schedule. The schedule is any function from call
  numbers to ticks, so every statement is about every schedule. A tick says how the call
  ends (`Fault`: fine; an exception before or after its effect; death before or after its
  effect), what other programs do meanwhile, and what queries answer. Timeouts and
  cancellation are exceptions.
- The machine (routes, resolver, forwarding switches, NAT objects, journal file) survives a
  crash, the fields of the controller do not. `Machine` and `GatewayMachine` also carry the
  history the statements need: which routes or objects the host put there and which others
  did.
- Every change is recorded as a moment in a ghost trace. `Safe` and `GatewaySafe` are the
  write-ahead rule: what the host did and has not undone is covered by the file, and by the
  journal in memory if there is one. The class invariants say that all moments are safe.
- `Follows` and `Comes` compare two points of a run; they say that host routes disappear
  only where they may, at every moment between the two, and that what is of others changes
  only as the ticks between them say.
- Between operations others may set the overlay link in any way (`OthersSetLink`), and between
  transactions the forwarding switches (`OthersSwitch`).

| module | what it holds |
|---|---|
| `Addresses`, `RoutePlanner` | the route plan and longest-prefix match (section 5.2.4.3 of RFC 1812) |
| `ResolvedLink` | the per-link resolver and its two command scripts |
| `RouteTransaction`, `RouteController`, `RouteRuns` | the route transaction, the controller, whole lives of a machine |
| `GatewayTransaction`, `GatewayBootstrapper`, `GatewayRuns` | the same for the gateway |
| `ServiceLoop` | the restart loop, the two role coordinators, standalone recovery |
| `DnsName`, `DnsMessage`, `DnsQuery`, `DnsAnswers`, `DnsForwarder` | DNS messages (RFC 1035) and the forwarder |
| `GracePeriod`, `HealthRing`, `TomlQuote` | protected endpoints, health counters, TOML strings |
| `AwaitedCalls`, `Options`, `TextUnits` | shared data types |

## Hypotheses

- No other program creates a route equal in all four identity fields to one the host has
  found absent and journaled (`Interfere`); others may remove any route and add any other.
- Names of NAT objects carry a random token; other programs never use such a name.
- While a gateway transaction is open nobody else sets the captured forwarding switches.
  Within one client operation the overlay interface may disappear but nobody else sets its
  resolver.
- Clocks do not run backwards.

## Where the code does less than one might expect

- `GatewayBootstrapper.RollbackInternalAsync` deletes the journal file even if it has no
  journal in memory. Over a file of an earlier process the write-ahead rule then survives
  exactly if nothing was left to undo (`RollbackInternal`; reached in `StopOverFileFails`). The
  service loop never gets there (`Service.Lives`).
- `LinuxNatManager` takes a failing `iptables -C` for an absent rule, and `WindowsNatManager` a
  failing `Get-NetFirewallRule`, whose errors it silences. So `RemoveNatAsync` can return normally
  with a rule in place, and the journal forgets it: exactly if the query for it could not tell and
  it was there (`RemoveNat`, `GatewayRuns.CrashAndRecover`; reached in `BlindQueryFails` and
  `SilentQueryFails`). Such objects are the `orphans` of the model; there are none with nftables,
  or if every query can tell (`Honest`).
- A rollback does not always complete once calls stop failing: if the journal is flagged and the
  captured interface index has been reused, or somebody else has configured a resolver there,
  the restore is refused every time, the file stays, and the service does not start again. These
  are exactly the cases (`Recover`, `RouteRuns.CrashAndRecover`, `NeverRecovers`; reached in
  `ReusedIndexFails` and `ForeignResolverFails`).
- A question name may point into the message header. If it is spelled with the transaction
  number, and only then, some number changes the question of the forwarded query
  (`IdIsNoQuestion`), and a passed-on reply need not answer (`HeaderPointerFails`,
  `PassedOnAnswers`). A SERVFAIL answers exactly if the name survives
  the cut and the overwritten header fields (`FailureSurvives`; `RunOnFails`,
  `CountedNameFails`).
- `get_counter_ring` refreshes only the first ring, so the second can be stale where the
  first is zero (`EntryAgrees` has the exact condition). An update reads the clock twice, and
  the next reading of the ring throws a count away exactly if the two readings fell into
  different buckets (`GetCounterRing`; reached in `TwoReadingsLoseACheck`). After that a ring can
  hold more healthy checks than checks (`HealthyExceedsTotal`).
- `Quote` is undone by a TOML scanner exactly for well-formed UTF-16 (`QuoteRoundTrip`).

## Model

| member | source | states |
|---|---|---|
| `RouteRuns.RecoverAfterAnyHistory` | src/EasyTierHost.Network/GatewayRouteController.cs:17-135 | after any operations in any order with any faults, crashes and interference, and one more crash: a recovery that returns normally leaves no host route, no file, and the machine as it was found: a route is there only if it was at first or another program added it, missing only if another program removed it, so without interference the table is the initial one; and the overlay link, if nobody else set it, is gone or the initial one |
| `RouteRuns.Run` | src/EasyTierHost.Network/GatewayRouteController.cs:17-150 | the write-ahead rule holds at every recorded moment of every run, and foreign routes change only as the schedule says |
| `RouteRuns.Perform` | src/EasyTierHost.Network/GatewayRouteController.cs:17-150 | each public operation, and the death of the process inside it, keeps the rule; no recorded moment is forgotten, and foreign routes change only as the schedule says |
| `RouteRuns.CrashAndRecover` | src/EasyTierHost.Network/GatewayRouteController.cs:17-29 | after a crash: a normal return leaves a clean machine, a flagged resolver gone or as captured, any other as it was; once calls stop failing it returns normally if and only if the file has no flag, or the captured link is gone or has nothing but the settings of the host |
| `RouteRuns.NeverRecovers` | src/EasyTierHost.Network/GatewayRouteController.cs:128-131 | a recovery that is refused the resolver is refused at every repetition, although no call fails, and the flagged file stays |
| `RouteRuns.ReusedIndexFails` | src/EasyTierHost.Network/LinuxDnsController.cs:32-34 | the failure is reached: activate, die, another interface under the same index, and every recovery throws |
| `RouteRuns.ForeignResolverFails` | src/EasyTierHost.Network/LinuxDnsController.cs:35-36 | it is also reached when somebody else configures a resolver on the captured interface |
| `RouteRuns.ForeignDomainFails` | src/EasyTierHost.Network/LinuxDnsController.cs:35-36 | and when somebody else sets a search domain there |
| `RouteRuns.ActivateAndRefresh` | src/EasyTierHost.Network/GatewayRouteController.cs:31-92 | after an activation and any run of refreshes without interference, longest-prefix lookup of every address does what the plan for the last endpoints intends |
| `GatewayRuns.RecoverAfterAnyHistory` | src/EasyTierHost.Gateway/GatewayBootstrapper.cs:23-117 | the same for forwarding, NAT and firewall objects: after any history and a crash, a recovery that returns normally leaves no file and, but for forgotten ones, only objects that were there at first or that others added; every switch is at its initial value or was taken away, if others set none; nothing is forgotten if every query can tell, and then without interference objects and switches are the initial ones |
| `GatewayRuns.Run` | src/EasyTierHost.Gateway/GatewayBootstrapper.cs:23-117 | the write-ahead rule of the gateway holds at every recorded moment of every run |
| `GatewayRuns.Perform` | src/EasyTierHost.Gateway/GatewayBootstrapper.cs:23-117 | each operation keeps the rule, `StopAsync` under the condition that no file of an earlier process is left |
| `GatewayRuns.CrashAndRecover` | src/EasyTierHost.Gateway/GatewayBootstrapper.cs:23-35 | after a crash: a normal return leaves no file and every surviving captured switch at its captured value; without interference each object of the transaction is left if and only if it was there and the query for it, an `iptables -C` or a silent `Get-NetFirewallRule`, could not tell; it returns normally if nothing fails and nobody interferes |
| `GatewayRuns.StopOverFileFails` | src/EasyTierHost.Gateway/GatewayBootstrapper.cs:113-115 | a process dies while the gateway is ready and a new bootstrapper is stopped: the file is gone, the NAT is still there, and the rule is broken |
| `GatewayRuns.BlindQueryFails` | src/EasyTierHost.Gateway/LinuxNatManager.cs:84-107 | a process dies in its start and no `iptables -C` can tell: the recovery returns normally and deletes the file, but the rule is still there |
| `GatewayRuns.SilentQueryFails` | src/EasyTierHost.Gateway/WindowsNatManager.cs:66-78 | the same on Windows: the query for a firewall rule fails silently, the recovery returns normally and deletes the file, but the rule is still there |
| `ServiceLoop.Service.Lives` | src/EasyTierHost.Service/Program.cs:154-246 | over any number of lives of the service, each ended by itself or by a crash: every Core launch finds no route journal, no gateway journal and nothing of the host on the machine that it has not forgotten, which is nothing at all if every query can tell; no bootstrapper is ever stopped over an unrecovered file; and if no call of the client fails and every launch works, lives that end by themselves launch Core once in each round |
| `ServiceLoop.Service.RunAsync` | src/EasyTierHost.Service/Program.cs:154-246 | both recoveries precede the loop; a loop left between rounds has stopped Core after every one and leaves no gateway file, and if no call fails and every launch works, it has launched Core once in each; the status, if Core can be stopped and it can be saved, says whether a journal is left; if a recovery fails, nothing is launched; a client whose resolver cannot be restored never gets to the loop even if no call fails |
| `ServiceLoop.Service.RunRound` | src/EasyTierHost.Service/Program.cs:174-237 | a round launches Core at most once, only after the client recovery, and exactly once if no call fails and the launch works; the loop goes on only if the gateway has no file, and after a client role only if the client has none; in the client role the client, in the gateway role the gateway has been up at some moment, if nothing stood in the way |
| `ServiceLoop.Service.RunClient` | src/EasyTierHost.Service/ClientInternetCoordinator.cs:54-161 | a client role that ends as cancelled has rolled back and left no journal file; at some moment of it the plan was owned, journaled twice, flagged and in the table, if nothing stood in the way; a failed wait or status save fails the role |
| `ServiceLoop.Service.MonitorClient` | src/EasyTierHost.Service/ClientInternetCoordinator.cs:121-154 | monitoring never leaves a file that the controller does not know of; if no call fails and the client is still active, the protection is that of the last refresh, every owned route was in the table, and the event that ended the loop decides the result |
| `ServiceLoop.Service.RefreshClient` | src/EasyTierHost.Service/ClientInternetCoordinator.cs:143-146 | a refresh that goes through leaves the /32 routes of the new endpoints, with every owned route in the table |
| `ServiceLoop.Service.ActivateClient` | src/EasyTierHost.Service/ClientInternetCoordinator.cs:108 | if nothing stands in the way, an activation ends in an active moment |
| `ServiceLoop.Service.RollBackClient` | src/EasyTierHost.Service/ClientInternetCoordinator.cs:129-130 | afterwards the client is not active, and on success it has no file |
| `ServiceLoop.Service.RecoverClient` | src/EasyTierHost.Service/ClientInternetCoordinator.cs:15-17 | a recovery without a file does nothing; once calls stop failing it succeeds exactly if the resolver is not refused |
| `ServiceLoop.Service.RunGateway` | src/EasyTierHost.Service/GatewayCoordinator.cs:71-99 | a gateway role that ends as cancelled has left no journal file; every bootstrapper that was made and did not die is stopped, over a file of its own; at some moment every switch was on and every object in place, if nothing stood in the way; a failed wait or status save fails the role |
| `ServiceLoop.Service.MonitorGateway` | src/EasyTierHost.Service/GatewayCoordinator.cs:81-92 | monitoring keeps the file and the memory of the bootstrapper together; a health check that lets the loop go on was answered; if nothing fails and everything is in place, the event that ended the loop decides the result |
| `ServiceLoop.Service.StartGateway` | src/EasyTierHost.Service/GatewayCoordinator.cs:74-78 | if nothing stands in the way, a start ends in a serving moment |
| `ServiceLoop.Service.StopGateway` | src/EasyTierHost.Service/GatewayCoordinator.cs:96 | a stop that returns normally leaves no file |
| `ServiceLoop.Service.RecoverNetwork` | src/EasyTierHost.Service/Program.cs:247-258 | both recoveries are tried whatever the first does; a normal return means that both machines are clean and no file is left |
| `RouteController.GatewayRouteController.Activate` | src/EasyTierHost.Network/GatewayRouteController.cs:31-68 | on success, which needs that no transaction is open, the context is acceptable and the probe has answered yes, the owned routes are exactly the plan for the captured physical side, in place and journaled, and the resolver is switched; without interference it succeeds only if there was room for every route, all original routes are still there and longest-prefix lookup of every address does what the plan intends; on failure all is rolled back or a covered rollback is pending; it does succeed when nothing stands in the way |
| `RouteController.GatewayRouteController.TryActivate` | src/EasyTierHost.Network/GatewayRouteController.cs:36-59 | the guarded part: it completes only from a machine without memory and file, with an acceptable context and a positive probe, and then with the plan owned and installed; without interference exactly when nothing stands in the way and the probe says yes |
| `RouteController.GatewayRouteController.OpenTransaction` | src/EasyTierHost.Network/GatewayRouteController.cs:37-46 | refused over an existing journal, which stays as it is, and for any context but a client address from 10.10.0.11 to 10.10.255.254 with verified protection, an overlay interface and endpoints; otherwise the first file lists nothing, with the physical side as captured and the resolver found unused |
| `RouteController.GatewayRouteController.ProtectAndProbe` | src/EasyTierHost.Network/GatewayRouteController.cs:47-53 | the owned routes become protection and probe routes, journaled before they are added; it completes only if the probe answered yes in the last call and no endpoint is 1.1.1.1 or 8.8.8.8; without interference these two are then looked up through the overlay gateway |
| `RouteController.GatewayRouteController.ProbeGateway` | src/EasyTierHost.Network/GatewayRouteController.cs:49-53 | adds the two probe routes and asks the probe; a negative answer fails it |
| `RouteController.GatewayRouteController.DropProbes` | src/EasyTierHost.Network/GatewayRouteController.cs:58 | the two probe routes are gone and forgotten, everything else stays |
| `RouteController.GatewayRouteController.Commit` | src/EasyTierHost.Network/GatewayRouteController.cs:54-59 | flag before resolver change, the split default added, the probe routes gone; protection stays in place throughout |
| `RouteController.GatewayRouteController.AddAllOwned` | src/EasyTierHost.Network/GatewayRouteController.cs:47-57 | all listed routes end up owned and installed, in order, and nothing else of the host gets lost; without interference exactly when no destination is taken |
| `RouteController.GatewayRouteController.UpdateProtection` | src/EasyTierHost.Network/GatewayRouteController.cs:71-92 | on success the owned /32 routes are exactly `Protect` of the new endpoints, none of which is a probe target, and the others are unchanged; at every moment on the way every route outside the stale ones is in place unless another program removed it; without interference it succeeds only if there was room, and the table stays planned, for the new endpoints; on failure all is rolled back or a covered rollback is pending |
| `RouteController.GatewayRouteController.TryUpdate` | src/EasyTierHost.Network/GatewayRouteController.cs:76-84 | the same without the handler; it succeeds when there is room for the missing routes |
| `RouteController.GatewayRouteController.AddMissing` | src/EasyTierHost.Network/GatewayRouteController.cs:81-82 | owned becomes the old owned together with the desired routes not yet there |
| `RouteController.GatewayRouteController.RemoveStale` | src/EasyTierHost.Network/GatewayRouteController.cs:83-84 | owned loses exactly the current routes that are no longer desired, and every other route stays |
| `RouteController.GatewayRouteController.AddOwned` | src/EasyTierHost.Network/GatewayRouteController.cs:94-103 | a destination somebody has is refused; otherwise the route is journaled on disk before it is added |
| `RouteController.GatewayRouteController.RemoveOwned` | src/EasyTierHost.Network/GatewayRouteController.cs:104-112 | an owned route is forgotten only when the table shows that it is gone, also if the delete did nothing; nothing else is touched |
| `RouteController.GatewayRouteController.Rollback` | src/EasyTierHost.Network/GatewayRouteController.cs:113-118 | clean, or unfinished with a journal; once calls stop failing it completes if and only if the journal has no flag, or the captured link is gone or has nothing but the settings of the host |
| `RouteController.GatewayRouteController.RollbackInternal` | src/EasyTierHost.Network/GatewayRouteController.cs:119-135 | every owned route, newest first, and then the resolver are attempted whatever fails: each error has a failing call of its own, but for a refused resolver; nothing is enlarged; it ends clean, or `Faulted` with a file that still covers everything left and an error for each leftover, or with only the file left; once calls stop failing it completes if and only if the resolver is not refused, and otherwise file, flag and link stay |
| `RouteController.GatewayRouteController.RemoveAllOwned` | src/EasyTierHost.Network/GatewayRouteController.cs:126-127 | takes the reversed list; whatever is still owned has an error, and each error a failing call of its own |
| `RouteController.GatewayRouteController.RemoveOrReport` | src/EasyTierHost.Network/GatewayRouteController.cs:127 | a route that is still owned has an error; the flag on disk and the link are not touched |
| `RouteController.GatewayRouteController.RollBackDns` | src/EasyTierHost.Network/GatewayRouteController.cs:128-130 | a resolver still changed has an error; without error the flag is dropped, on disk too, and a flagged resolver is gone or as captured; once calls stop failing there is an error exactly if the flag is set and the link is refused |
| `RouteController.GatewayRouteController.DeleteFile` | src/EasyTierHost.Network/GatewayRouteController.cs:132 | the file goes only when the machine is clean |
| `RouteController.GatewayRouteController.Recover` | src/EasyTierHost.Network/GatewayRouteController.cs:17-29 | a recovery that returns normally leaves a clean machine without a file; once calls stop failing it returns normally if and only if the file has no flag, or the captured link is gone or has nothing but the settings of the host; otherwise the flagged file stays |
| `RouteController.GatewayRouteController.Reconcile` | src/EasyTierHost.Network/GatewayRouteController.cs:136-150 | the transaction stays active only if every owned route was in the table, and if nothing fails and nobody interferes, exactly if the physical side is the captured one and every owned route was there; otherwise it is rolled back |
| `RouteController.GatewayRouteController.Save` | src/EasyTierHost.Core/Configuration.cs:93-108 | the file holds the old or the new journal, never a mixture, and the new one if the call returns |
| `RouteController.GatewayRouteController.AddRoute` | src/EasyTierHost.Network/GatewayRouteController.cs:102 | needs the route in both journals; whether it happened or not, the write-ahead rule holds |
| `RouteController.GatewayRouteController.DeleteRoute` | src/EasyTierHost.Network/GatewayRouteController.cs:107 | only an owned route is deleted; afterwards it is not in the table, unless the delete found nothing and said nothing |
| `RouteController.GatewayRouteController.ListRoutes` | src/EasyTierHost.Network/GatewayRouteController.cs:96-98 | the table as it is when the call returns |
| `RouteController.GatewayRouteController.CaptureDns` | src/EasyTierHost.Network/LinuxDnsController.cs:10-17 | accepts only an unused resolver and captures exactly its settings |
| `RouteController.GatewayRouteController.ApplyDns` | src/EasyTierHost.Network/LinuxDnsController.cs:19-29 | only the captured link, still unused, is changed; on success it has the overlay resolver, the catch-all domain and the default route, after one query and four commands |
| `RouteController.GatewayRouteController.RestoreDns` | src/EasyTierHost.Network/LinuxDnsController.cs:30-42 | on success the link is gone or back at its captured settings; a link of another identity or with foreign settings is refused and left alone; once calls stop failing it succeeds exactly if it is not refused |
| `RouteController.GatewayRouteController.RunScript` | src/EasyTierHost.Network/LinuxDnsController.cs:25-28 | commands in order; at every point the state is safe |
| `RouteController.GatewayRouteController.RunCommand` | src/EasyTierHost.Network/LinuxDnsController.cs:38-41 | one command, which may take effect and still fail |
| `RouteController.GatewayRouteController.constructor` | src/EasyTierHost.Network/GatewayRouteController.cs:10-15 | a machine the host has never touched is safe |
| `RouteController.GatewayRouteController.Restart` | src/EasyTierHost.Network/GatewayRouteController.cs:12-14 | memory is lost, the machine stays, and the rule still holds |
| `RouteController.GatewayRouteController.OthersSetLink` | src/EasyTierHost.Network/LinuxDnsController.cs:32-36 | whatever others do to the overlay link between operations, the rule still holds |
| `RouteTransaction.CommandIsSafe` | src/EasyTierHost.Network/GatewayRouteController.cs:54-56 | a resolver command keeps the rule once the flag is on disk; a restore command does even without it |
| `RouteTransaction.CrashIsSafe` | src/EasyTierHost.Network/GatewayRouteController.cs:17-25 | losing memory keeps the rule, and reading the file back gives a journal that accounts for the machine |
| `RouteTransaction.InterfereIsSafe` | src/EasyTierHost.Network/GatewayRouteController.cs:94-103 | what other programs may do keeps the rule |
| `RouteTransaction.ClaimIsSafe` | src/EasyTierHost.Network/GatewayRouteController.cs:97-100 | a claim on a free destination never covers a foreign route |
| `RouteTransaction.UnclaimIsSafe` | src/EasyTierHost.Network/GatewayRouteController.cs:108-110 | a claim may be dropped once the route is not in the table |
| `RouteTransaction.CloseIsSafe` | src/EasyTierHost.Network/GatewayRouteController.cs:131-133 | an empty journal without flag means that the machine is clean |
| `RouteTransaction.FollowsTransitive` | src/EasyTierHost.Network/GatewayRouteController.cs:71-84 | what holds between consecutive points of a run holds between its ends, at every moment in between |
| `RouteTransaction.CommittedRoutes` | src/EasyTierHost.Network/GatewayRouteController.cs:57-58 | protection, probe and default routes minus the two probe routes are exactly the plan |
| `RouteTransaction.RefreshKeepsPlan` | src/EasyTierHost.Network/GatewayRouteController.cs:77-84 | a refresh turns the planned table of the old endpoints into that of the new ones |
| `RouteTransaction.PlannedIsRouted` | src/EasyTierHost.Network/GatewayRouteController.cs:47-59 | a planned table routes every address as intended |
| `RouteTransaction.PlanHasRoom` | src/EasyTierHost.Network/GatewayRouteController.cs:47-57 | a plan without probe targets fits into an empty table |
| `RouteTransaction.OutsideTransitive` | src/EasyTierHost.Network/GatewayRouteController.cs:94-112 | bounds on what others changed add up over a run |
| `RouteTransaction.SetLinkIsSafe` | src/EasyTierHost.Network/LinuxDnsController.cs:30-36 | a link set by others breaks no rule |
| `RouteTransaction.MissingPrefix` | src/EasyTierHost.Network/GatewayRouteController.cs:81-82 | the routes added so far are a prefix of those to add |
| `RouteTransaction.NoProbeTarget` | src/EasyTierHost.Network/GatewayRouteController.cs:49-51 | with room for protection and probe routes no endpoint is a probe target |
| `RouteTransaction.Without` | src/EasyTierHost.Network/GatewayRouteController.cs:110 | removes every occurrence of the route and nothing else |
| `RouteTransaction.Reversed` | src/EasyTierHost.Network/GatewayRouteController.cs:126 | newest first |
| `RoutePlanner.ProtectIsExact` | src/EasyTierHost.Network/RoutePlanner.cs:8-15 | accepted exactly for underlay endpoints behind an underlay gateway; one /32 for each endpoint and the gateway and nothing else, on the physical interface, no two for one destination, only the gateway on-link |
| `RoutePlanner.PlanMeaning` | src/EasyTierHost.Network/RoutePlanner.cs:8-18 | under longest-prefix match an endpoint goes through the physical gateway on the physical interface, the gateway is on-link, and every other address has a best route longer than /0: a half of the split default through 10.10.0.1 on the overlay interface, or a foreign route that is more specific |
| `RoutePlanner.PlanIsRouted` | src/EasyTierHost.Network/RoutePlanner.cs:8-18 | foreign routes without rival destinations together with the plan route every address as intended |
| `RoutePlanner.ProbeMeaning` | src/EasyTierHost.Network/RoutePlanner.cs:16 | with the probe routes alone at their destinations, 1.1.1.1 and 8.8.8.8 are looked up through 10.10.0.1 on the overlay interface |
| `Addresses.UnderlayIsRange` | src/EasyTierHost.Network/RoutePlanner.cs:12 | an address is accepted exactly from 1.0.0.0 to 223.255.255.255 without 10.10.0.0/16 and 127.0.0.0/8 |
| `Addresses.ClientIsRange` | src/EasyTierHost.Abstractions/Models.cs:73-84 | a client address is one from 10.10.0.11 to 10.10.255.254 |
| `RoutePlanner.PlannedAreExclusive` | src/EasyTierHost.Network/RoutePlanner.cs:8-19 | each planned route is the only one for its destination |
| `RoutePlanner.HostRouteWins` | src/EasyTierHost.Network/RoutePlanner.cs:14 | lookup of a protected address yields its own /32 |
| `RoutePlanner.SplitDefaultCovers` | src/EasyTierHost.Network/RoutePlanner.cs:17-18 | the two halves cover every IPv4 address |
| `RoutePlanner.ChosenExists` | src/EasyTierHost.Network/RoutePlanner.cs:17-18 | a table with a covering route has a best one |
| `RoutePlanner.Distinct` | src/EasyTierHost.Network/RoutePlanner.cs:9 | same members, no repetition |
| `RoutePlanner.ProtectAll` | src/EasyTierHost.Network/RoutePlanner.cs:10-15 | succeeds exactly if all addresses are underlay, one route each, in order |
| `GracePeriod.UnderlayRouteProtector.Update` | src/EasyTierHost.Network/RoutePlanner.cs:27-33 | the result is exactly the endpoints whose last sighting over the whole history is less than the grace period old; with a positive period every active endpoint is in it |
| `GracePeriod.UnderlayRouteProtector.constructor` | src/EasyTierHost.Network/RoutePlanner.cs:22-26 | nothing seen, nothing protected |
| `ResolvedLink.RestoreAfterAnyHistory` | src/EasyTierHost.Network/LinuxDnsController.cs:19-42 | after any sequence of interrupted applies and restores the restore guard accepts, and the restore commands bring back servers, domains and default-route as captured |
| `ResolvedLink.HistoryIsAccepted` | src/EasyTierHost.Network/LinuxDnsController.cs:35-36 | whatever prefixes of either script came before, the guard of the restore holds |
| `ResolvedLink.TameKeepsAccepted` | src/EasyTierHost.Network/LinuxDnsController.cs:25-41 | no command of either script leads out of the accepted states |
| `ResolvedLink.RestoreScriptRestores` | src/EasyTierHost.Network/LinuxDnsController.cs:38-41 | the restore commands erase whatever was there |
| `ResolvedLink.ApplyScriptApplies` | src/EasyTierHost.Network/LinuxDnsController.cs:25-28 | the apply commands give the overlay settings from any state |
| `GatewayBootstrapper.GatewayBootstrapper.Start` | src/EasyTierHost.Gateway/GatewayBootstrapper.cs:37-73 | `Ready` only with an overlay adapter on 10.10.0.1 and an interface of its own, with both flags on disk, an answered health query and, during the health check that ends the start, every switch seen on and every object seen in place; without interference the global switch, or both adapters, are on, and the NAT and firewall objects are there by kind, and it succeeds only if nothing stood in the way; over a left-over file it throws and changes nothing; on failure all is rolled back, or the rollback is unfinished with an error and a file for each leftover; it does succeed when nothing stands in the way |
| `GatewayBootstrapper.GatewayBootstrapper.TryStart` | src/EasyTierHost.Gateway/GatewayBootstrapper.cs:43-64 | the guarded part of it |
| `GatewayBootstrapper.GatewayBootstrapper.PrepareForwarding` | src/EasyTierHost.Gateway/GatewayBootstrapper.cs:46-52 | flag on disk before the first switch is touched; without interference all captured switches are on afterwards |
| `GatewayBootstrapper.GatewayBootstrapper.CreateAndServe` | src/EasyTierHost.Gateway/GatewayBootstrapper.cs:53-57 | flag on disk before the first object is created |
| `GatewayBootstrapper.GatewayBootstrapper.CheckHealth` | src/EasyTierHost.Gateway/GatewayBootstrapper.cs:58-63 | a healthy answer means that during this check every switch was seen on and every object in place, and the DNS query was answered; if nothing fails and every query answers it is exact |
| `GatewayBootstrapper.GatewayBootstrapper.Check` | src/EasyTierHost.Gateway/GatewayBootstrapper.cs:75-80 | healthy only in `Ready`, with forwarding and NAT seen applied and the query answered during the check; if nothing fails and every query answers, exactly if everything is in place |
| `GatewayBootstrapper.GatewayBootstrapper.Stop` | src/EasyTierHost.Gateway/GatewayBootstrapper.cs:81-86 | from a recovered process as a rollback, with the same exact condition for each object left; over an unrecovered file the rule survives exactly if nothing was left to undo |
| `GatewayBootstrapper.GatewayBootstrapper.RollbackInternal` | src/EasyTierHost.Gateway/GatewayBootstrapper.cs:87-117 | DNS, NAT and forwarding are each attempted: each error has a failing call of its own; it ends clean without a file, or `Faulted` with an error and a file for each leftover, or clean but for the file; without interference each object is left if and only if it was there and the query for it could not tell; over an unrecovered file the rule survives exactly if the machine was clean, and nothing but the file is touched |
| `GatewayBootstrapper.GatewayBootstrapper.FinishRollback` | src/EasyTierHost.Gateway/GatewayBootstrapper.cs:114-116 | for a recovered process the machine is clean; over an unrecovered file the rule survives exactly if it was |
| `GatewayBootstrapper.GatewayBootstrapper.RollBackParts` | src/EasyTierHost.Gateway/GatewayBootstrapper.cs:93-112 | forwarding is attempted in spite of a NAT failure; what is left has an error and a file, or its query could not tell |
| `GatewayBootstrapper.GatewayBootstrapper.RollBackNat` | src/EasyTierHost.Gateway/GatewayBootstrapper.cs:95-102 | without error the flag is dropped; what is forgotten is at most what the host had and whose query could not tell, without interference exactly that |
| `GatewayBootstrapper.GatewayBootstrapper.RollBackForwarding` | src/EasyTierHost.Gateway/GatewayBootstrapper.cs:104-111 | without error the flag is dropped, and only when every switch is restored |
| `GatewayBootstrapper.GatewayBootstrapper.DeleteFile` | src/EasyTierHost.Gateway/GatewayBootstrapper.cs:114 | for a recovered process the file goes only when the machine is clean |
| `GatewayBootstrapper.GatewayBootstrapper.Recover` | src/EasyTierHost.Gateway/GatewayBootstrapper.cs:23-35 | a recovery that returns normally leaves a clean machine and no file, and without interference each object of the transaction if and only if it was there and the query for it could not tell; it returns normally if nothing fails and nobody interferes |
| `GatewayBootstrapper.GatewayBootstrapper.Save` | src/EasyTierHost.Core/Configuration.cs:93-108 | the file holds the old or the new journal |
| `GatewayBootstrapper.GatewayBootstrapper.EnableForwarding` | src/EasyTierHost.Gateway/WindowsNatManager.cs:28-32 | turns on what was captured off and touches no other switch |
| `GatewayBootstrapper.GatewayBootstrapper.RestoreForwarding` | src/EasyTierHost.Gateway/WindowsNatManager.cs:33-43 | turns off what was captured off, going on after a failure: no more switches stay on than calls go wrong; a missing interface needs nothing; no other switch is touched |
| `GatewayBootstrapper.GatewayBootstrapper.RestoreOne` | src/EasyTierHost.Gateway/LinuxNatManager.cs:42-50 | the switch is read back, so that a command without effect is an error |
| `GatewayBootstrapper.GatewayBootstrapper.SetForwarding` | src/EasyTierHost.Gateway/LinuxNatManager.cs:37-40 | one switch, no other |
| `GatewayBootstrapper.GatewayBootstrapper.CreateNat` | src/EasyTierHost.Gateway/LinuxNatManager.cs:70-82 | without interference every object of the host is there on a normal return, and none of them, on Windows no NAT at all, was there before |
| `GatewayBootstrapper.GatewayBootstrapper.AddObject` | src/EasyTierHost.Gateway/WindowsNatManager.cs:44-65 | WinNAT is refused while any NAT exists |
| `GatewayBootstrapper.GatewayBootstrapper.RemoveNat` | src/EasyTierHost.Gateway/LinuxNatManager.cs:102-114 | on a normal return exactly those objects of the host are left whose query could not tell and that nobody else removed meanwhile; without interference the same for every object of the transaction |
| `GatewayBootstrapper.GatewayBootstrapper.RemoveWindowsNat` | src/EasyTierHost.Gateway/WindowsNatManager.cs:66-78 | both firewall rules and the NAT are attempted: each is gone if its own call goes well; a normal return leaves exactly the rules whose silent query could not tell and that nobody else removed |
| `GatewayBootstrapper.GatewayBootstrapper.RemoveObject` | src/EasyTierHost.Gateway/WindowsNatManager.cs:72-75 | only the object of the host is removed; a firewall rule whose silent query cannot tell is left without an error; the Linux commands fail if the object is not there |
| `GatewayBootstrapper.GatewayBootstrapper.Verify` | src/EasyTierHost.Gateway/WindowsNatManager.cs:79-89 | a positive answer means that during the call every switch was seen on and every object in place; without interference and failures it is exact |
| `GatewayBootstrapper.GatewayBootstrapper.SeesAll` | src/EasyTierHost.Gateway/LinuxNatManager.cs:116-123 | one query after the other; positive only if each object was seen, and a failure if one goes missing between queries |
| `GatewayBootstrapper.GatewayBootstrapper.Capture` | src/EasyTierHost.Gateway/WindowsNatManager.cs:11-27 | the captured values are the actual ones, of the global switch on Linux and of the two given adapters on Windows; without interference it is accepted only if these are there and, on Windows, no NAT |
| `GatewayBootstrapper.GatewayBootstrapper.constructor` | src/EasyTierHost.Gateway/GatewayBootstrapper.cs:8-12 | a machine the host has never touched is safe |
| `GatewayTransaction.SwitchOffIsSafe` | src/EasyTierHost.Gateway/WindowsNatManager.cs:33-43 | turning off a switch captured off never breaks the rule |
| `GatewayTransaction.TakeObjectIsSafe` | src/EasyTierHost.Gateway/WindowsNatManager.cs:66-78 | removing an own object never breaks the rule |
| `GatewayTransaction.SeenStays` | src/EasyTierHost.Gateway/GatewayBootstrapper.cs:58-64 | what was seen stays seen |
| `GatewayTransaction.AppliedStays` | src/EasyTierHost.Gateway/GatewayBootstrapper.cs:58-64 | a verification stays a verification for the whole start |
| `GatewayTransaction.CleanWithoutFile` | src/EasyTierHost.Gateway/GatewayBootstrapper.cs:113-115 | whether the machine is clean does not depend on the file |
| `GatewayTransaction.ForgetIsSafe` | src/EasyTierHost.Gateway/GatewayBootstrapper.cs:98-100 | dropping the claim with the flag keeps the rule for what is not forgotten |
| `GatewayTransaction.NatOutsideTransitive` | src/EasyTierHost.Gateway/GatewayBootstrapper.cs:23-117 | bounds on what others changed add up over a run |
| `GatewayTransaction.GatewayCleanMeansHome` | src/EasyTierHost.Gateway/GatewayBootstrapper.cs:104-111 | on a clean machine every surviving switch is as others left it |
| `DnsMessage.Question` | src/EasyTierHost.Core/DnsMessage.cs:25-56 | on every byte string at most 128 rounds, no read out of range; it succeeds exactly when `Parse` does, with its end and the key of its labels, type and class |
| `DnsMessage.ParseIsGrammar` | src/EasyTierHost.Core/DnsMessage.cs:27-53 | a packet with a name is accepted exactly if one question is announced, the name has at most 128 rounds and 254 octets, and four octets follow; the labels are those of the grammar in lower case |
| `DnsMessage.ParseNeedsName` | src/EasyTierHost.Core/DnsMessage.cs:31-51 | no question without a name of the grammar |
| `DnsMessage.SameKeySameQuestion` | src/EasyTierHost.Core/DnsMessage.cs:44-55 | two returned texts are equal exactly when lower-cased labels, type and class are equal |
| `DnsMessage.KeyInjective` | src/EasyTierHost.Core/DnsMessage.cs:44-54 | the text is an injective encoding of label list, type and class |
| `DnsMessage.HexInjective` | src/EasyTierHost.Core/DnsMessage.cs:48-54 | hexadecimal text determines the bytes |
| `DnsMessage.FoldsTogether` | src/EasyTierHost.Core/DnsMessage.cs:47 | two octets fold together exactly if they are equal or the two cases of one ASCII letter |
| `DnsMessage.AppendLabel` | src/EasyTierHost.Core/DnsMessage.cs:44-50 | the text of one label, folded to lower case |
| `DnsMessage.WalkingStuck` | src/EasyTierHost.Core/DnsMessage.cs:33-43 | every rejection inside the loop is of a packet that has no name within the rounds |
| `DnsMessage.IsResponseTo` | src/EasyTierHost.Core/DnsMessage.cs:57-66 | true exactly for a response bit, the same two number bytes, the same four opcode bits and the same question |
| `DnsMessage.Failure` | src/EasyTierHost.Core/DnsMessage.cs:67-72 | the query cut after its question, with the response bit, its opcode and recursion bit, SERVFAIL with recursion available, and no records; all other bytes as in the query |
| `DnsMessage.ReplyFlags` | src/EasyTierHost.Core/DnsMessage.cs:70 | response bit set, opcode and recursion-desired bit kept, the other two bits cleared |
| `DnsMessage.ParseIsLocal` | src/EasyTierHost.Core/DnsMessage.cs:25-56 | what is asked depends only on the question count, the bytes the decoding reads, and type and class |
| `DnsName.DecodeIsExact` | src/EasyTierHost.Core/DnsMessage.cs:31-51 | decoding finds a name exactly when the grammar has one of at most that many rounds, and that one |
| `DnsName.DecodeMonotone` | src/EasyTierHost.Core/DnsMessage.cs:33 | more rounds never change a name that was found |
| `DnsName.LoopHasNoName` | src/EasyTierHost.Core/DnsMessage.cs:30-33 | the visited set only ever rejects packets that have no name at all |
| `DnsName.DecodeIsLocal` | src/EasyTierHost.Core/DnsMessage.cs:31-51 | decoding depends only on the bytes it reads |
| `DnsName.SkipIsLocal` | src/EasyTierHost.Core/DnsMessage.cs:39-52 | and so does the end of the name |
| `DnsForwarder.Resolve` | src/EasyTierHost.Gateway/DnsForwarderService.cs:91-110 | rejected exactly for a non-question; otherwise the first acceptable reply in upstream order under the number of the client, else SERVFAIL; a passed-on reply carried the number of the forwarded query and was neither SERVFAIL nor REFUSED, and a SERVFAIL means that every responding reply was one of these; if the forwarded query or the passed-on reply keeps its question under the other number, the reply responds exactly if both do; the SERVFAIL responds exactly if the name survives it |
| `DnsForwarder.PassedOnAnswers` | src/EasyTierHost.Gateway/DnsForwarderService.cs:103-105 | when a passed-on reply responds to the query: if one of the two keeps its question, exactly if both do; and a name not spelled with the number keeps it |
| `DnsForwarder.FailureAnswers` | src/EasyTierHost.Core/DnsMessage.cs:67-72 | the failure responds if and only if the name survives it; for names spelled without overwritten fields, if and only if the name does not run on behind its question |
| `DnsForwarder.IdIsNoQuestion` | src/EasyTierHost.Gateway/DnsForwarderService.cs:95-96 | the question stays the same under every transaction number if and only if the name is not spelled with it |
| `DnsForwarder.NoNameAtNumber` | src/EasyTierHost.Gateway/DnsForwarderService.cs:95-96 | a name that is spelled with the number is none under number (64, 64) |
| `DnsForwarder.FailureSurvives` | src/EasyTierHost.Core/DnsMessage.cs:67-72 | for every askable query the failure responds exactly if the walk over the name stays in the cut packet and meets no changed byte, but for a zeroed count where only a pointer to nothing stood, and a pointer with the flags as second byte that leads to the same name elsewhere |
| `DnsForwarder.SurvivesIsExact` | src/EasyTierHost.Core/DnsMessage.cs:31-51 | the same at every offset of the walk, for the decoded names |
| `DnsForwarder.PointerSurvives` | src/EasyTierHost.Core/DnsMessage.cs:36-42 | no pointer but one at offset 1 has only its second byte changed |
| `DnsForwarder.LabelSurvives` | src/EasyTierHost.Core/DnsMessage.cs:43-49 | a name that starts with a label is the same exactly if the label has no changed byte and the rest is the same |
| `DnsForwarder.RunOnFails` | src/EasyTierHost.Core/DnsMessage.cs:67-72 | a concrete query whose name runs on behind its question and whose failure does not respond |
| `DnsForwarder.CountedNameFails` | src/EasyTierHost.Core/DnsMessage.cs:67-72 | a concrete query whose name is spelled with the record counts and whose failure does not respond |
| `DnsForwarder.CutReads` | src/EasyTierHost.Core/DnsMessage.cs:67-72 | a name that is still there after the cut never reached beyond it |
| `DnsForwarder.HeaderPointerFails` | src/EasyTierHost.Gateway/DnsForwarderService.cs:95-105 | a concrete query whose name is spelled in its transaction number, and a reply that is passed on and does not answer it |
| `DnsQuery.CreateQuery` | src/EasyTierHost.Core/DnsMessage.cs:11-24 | fails exactly for an empty or overlong label; otherwise header, encoded labels, zero, A and IN; a unit that is not ASCII becomes a question mark |
| `DnsQuery.QueryRoundTrip` | src/EasyTierHost.Core/DnsMessage.cs:11-56 | a created query is read back as its lower-cased labels, A and IN, up to the packet end, exactly when the name has at most 254 octets |
| `DnsQuery.PlainQuestion` | src/EasyTierHost.Core/DnsMessage.cs:25-56 | the same for every plainly spelled question; 254 octets never reach the limit of 128 rounds |
| `DnsQuery.ManyLabelsAreLong` | src/EasyTierHost.Core/DnsMessage.cs:33-43 | n labels take at least 2n octets |
| `DnsQuery.EncodedIsName` | src/EasyTierHost.Core/DnsMessage.cs:16-22 | encoded labels and a zero are that name of the grammar, in n + 1 rounds |
| `DnsQuery.JoinSplit` | src/EasyTierHost.Core/DnsMessage.cs:16 | splitting at dots loses nothing |
| `DnsQuery.TrimEnd` | src/EasyTierHost.Core/DnsMessage.cs:16 | only trailing dots go |
| `DnsAnswers.HasAddressAnswer` | src/EasyTierHost.Core/DnsMessage.cs:73-107 | total on arbitrary bytes, every read in range; it computes `Scanned` |
| `DnsAnswers.AnswerScanIsExact` | src/EasyTierHost.Core/DnsMessage.cs:73-107 | on one question and well-formed answers with backward pointers, whatever follows: true exactly if there are at most 128 and one is an IN A record of 4 octets or an IN AAAA record of 16 |
| `DnsAnswers.ScanIsExact` | src/EasyTierHost.Core/DnsMessage.cs:80-103 | the same for the records alone, from any offset |
| `DnsAnswers.Scanned` | src/EasyTierHost.Core/DnsMessage.cs:73-107 | on arbitrary bytes a positive answer points to an address record inside the packet |
| `DnsAnswers.SkipOwnerName` | src/EasyTierHost.Core/DnsMessage.cs:82-94 | the inner loop steps over one owner name |
| `DnsAnswers.SkipsOwner` | src/EasyTierHost.Core/DnsMessage.cs:82-94 | an encoded owner name with a zero or a backward pointer is stepped over exactly; one with a pointer to itself or beyond is refused |
| `DnsAnswers.ForwardPointerEndsScan` | src/EasyTierHost.Core/DnsMessage.cs:87-90 | an owner name with such a pointer ends the scan without a result |
| `HealthRing.HealthyMemRecord.UpdateHealthStatus` | EasyTier-2.6.4/easytier-contrib/easytier-uptime/src/health_checker.rs:142-162 | both rings track the log of checks, extended by this one, and agree with it if they did; what a reading has lost stays missing while checks fall into the same bucket and is forgotten with the first check in a later one |
| `HealthRing.HealthyMemRecord.GetCounterRing` | EasyTier-2.6.4/easytier-contrib/easytier-uptime/src/health_checker.rs:214-232 | a ring in agreement with the log stays so if and only if both clock readings of the last update fell into the same bucket; entry i of the first ring is the number of checks logged i buckets ago, less what is missing, and of the second the healthy ones of the last bucket of that slot with a check; only the entry that takes the slot of the last check for an earlier bucket is zero, and all checks of the last bucket are missing from then on |
| `HealthRing.HealthyMemRecord.ReadSlot` | EasyTier-2.6.4/easytier-contrib/easytier-uptime/src/health_checker.rs:224-228 | one slot: what it yields and what is missing afterwards, in both cases |
| `HealthRing.HealthyMemRecord.constructor` | EasyTier-2.6.4/easytier-contrib/easytier-uptime/src/health_checker.rs:81-91 | empty rings agree with an empty log |
| `HealthRing.SlotCounts` | EasyTier-2.6.4/easytier-contrib/easytier-uptime/src/health_checker.rs:156-161 | counting a check in its slot keeps track of the extended log, also when the slot changes rounds or has lost its count |
| `HealthRing.OtherSlots` | EasyTier-2.6.4/easytier-contrib/easytier-uptime/src/health_checker.rs:154-161 | no other slot is affected |
| `HealthRing.SlotRead` | EasyTier-2.6.4/easytier-contrib/easytier-uptime/src/health_checker.rs:222-229 | reading a slot keeps track of the log; for a bucket behind its last check all checks of that are missing |
| `HealthRing.MissingMeansDisagreement` | EasyTier-2.6.4/easytier-contrib/easytier-uptime/src/health_checker.rs:47-54 | a slot agrees with the log exactly if nothing is missing |
| `HealthRing.EntryIsRight` | EasyTier-2.6.4/easytier-contrib/easytier-uptime/src/health_checker.rs:227-228 | with nothing missing the entry is the number of checks, and the healthy one is right exactly if there was a check or it is zero |
| `HealthRing.ReadingOutcome` | EasyTier-2.6.4/easytier-contrib/easytier-uptime/src/health_checker.rs:223-229 | after a reading something is missing exactly if the two buckets differ |
| `HealthRing.SomeOverrun` | EasyTier-2.6.4/easytier-contrib/easytier-uptime/src/health_checker.rs:223-226 | if the two buckets differ, one of the 96 entries takes the slot of the last check |
| `HealthRing.NoneLogged` | EasyTier-2.6.4/easytier-contrib/easytier-uptime/src/health_checker.rs:46-54 | a bucket without checks counts zero |
| `HealthRing.HealthyAtMostTotal` | EasyTier-2.6.4/easytier-contrib/easytier-uptime/src/health_checker.rs:156-161 | never more healthy checks than checks |
| `HealthRing.TwoReadingsLoseACheck` | EasyTier-2.6.4/easytier-contrib/easytier-uptime/src/health_checker.rs:149-155 | reached by an update with readings on either side of a bucket boundary and one reading of the ring: a logged check is counted nowhere |
| `HealthRing.HealthyExceedsTotal` | EasyTier-2.6.4/easytier-contrib/easytier-uptime/src/health_checker.rs:142-162 | one more healthy check in that bucket, and the ring holds one check of which two are healthy |
| `TomlQuote.Quote` | src/EasyTierHost.Core/Configuration.cs:35-46 | the quoted text is the escapes between quotes, and holds no control character |
| `TomlQuote.QuoteRoundTrip` | src/EasyTierHost.Core/Configuration.cs:35-46 | a TOML v1.0.0 basic-string scanner on the quoted text and any rest stops at the closing quote with the original text, if and only if the text is well-formed UTF-16 |
| `TomlQuote.BodyRoundTrip` | src/EasyTierHost.Core/Configuration.cs:38-45 | the same after the opening quote |
| `TomlQuote.UnitScans` | src/EasyTierHost.Core/Configuration.cs:39-44 | each escape is scanned back to its character |
| `TomlQuote.PairScans` | src/EasyTierHost.Core/Configuration.cs:43 | a surrogate pair stays literal |
| `TomlQuote.ControlEscape` | src/EasyTierHost.Core/Configuration.cs:42 | four hexadecimal digits read back as the control character |

## Left out

- DnsForwarder.Resolve: if both the forwarded query and the passed-on reply change their questions under the other number, whether the reply responds is left to `IsResponseTo` itself.
- HealthRing.HealthyMemRecord.GetCounterRing: times before the first day of the epoch, where the subtraction would underflow, and the widths of `u64` and `usize` are not modelled.
- ServiceLoop.Service.RunAsync: the queue of failure times and the limit of five restarts in two minutes only shorten the list of rounds and are not modelled.
- RouteController.GatewayRouteController.ApplyDns: others set the resolver only between operations, so the check for foreign settings between capture and apply never strikes.
- GatewayBootstrapper.GatewayBootstrapper.EnableForwarding: a command that turns a switch on and silently does nothing is not modelled; one that turns a switch off is.
- GatewayBootstrapper.GatewayBootstrapper.Recover: a journal file of another operating system is not modelled, so its refusal never strikes.
- Addresses and prefixes are values, so canonical text is assumed; the owner tag of a route, and snapshot fields that no decision depends on, are not modelled.
- The semaphore around each operation, and cancellation before it is entered.
- JSON encoding of journals and status files, and a file with invalid content.
- The Windows resolver controller; the client is modelled with the Linux one.
- Which of nftables and iptables a capture picks: it is fixed for a machine.
- The shape of nft, iptables and PowerShell commands; only their effect is modelled, and a PowerShell script is one step.
- The internals of the gateway probe, the DNS runtime and the status readers, which are answers of the schedule.
- The choice of active endpoints and of upstream DNS servers, which only filters lists.
- `populate_ring_from_records` and `get_health_stats`, which depend on the order of database records.
- The sockets, framing and concurrency limits of the DNS forwarder.
- EasyTier itself, process launching, configuration files beyond string quoting, secret storage, installers, command line and user interfaces.
