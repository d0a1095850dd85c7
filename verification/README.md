# GoPass: the packet path, verified

GoPass sends the TCP connections of whitelisted Windows programs through an upstream proxy. It captures
outgoing packets, rewrites those of chosen flows to a local transparent proxy on a loopback port, rewrites the
proxy's replies back, and re-injects everything else untouched. This project models that path in Dafny and
proves what the program relies on:

* the **connection tracker** (`TrackerModel`, `ConnTrack`, `TrackerProofs`): a two-way table of original flows
  and mapped ports with a circular port allocator, explicit release and a collector;
* the **flow policies and the packet loop** (`FlowPolicy`, `PacketLoop`, `LoopInvariants`, `RouteSafety`,
  `LiveFlows`, `RecordedPorts`, `Handlers`, `Handling`, `OnTheWire`, `Ages`, `RoundTrips`, `Sweeps`,
  `Counterexamples`): a state machine in which every lock-protected access of the loop is one step, and connection
  handlers, collector, sweeper, clock and configuration edits may take steps between any two of them. `OnTheWire`
  says what becomes of packets in terms of their bytes and flag bits alone, `Ages` how long things last in
  nanoseconds;
* the **packet pipeline** (`Packets`, `Cutting`, `SendQueue`, `Interceptor`, `Batch`): the handlers as methods that
  rewrite their slice of the receive buffer in place, proved to do what the state machine does when nobody
  interferes, and the loop that cuts a batch, handles it and puts it on the wire;
* the **TLS name sniffing and relay** (`Sni`, `SniGrammar`, `TProxy`, `Duplex`): the nested length-prefixed parser
  against a serializer, and conservation of the client's bytes over reading ahead, replay and both directions of
  the relay, in every interleaving;
* two **caches** (`Upstream`, `PidNames`, `Ipv6Tables`): upstream dialers built between a read lock and a write
  lock, and process names used while system socket tables are parsed.

The proofs about runs quantify over every finite sequence of steps (`History.dfy`); what the system answers
(process names, checksums, table contents, dial and write outcomes, clock readings, sizes in which bytes arrive)
is a parameter of the step or method that asks.

## Promises that carry a condition

* *The recorded port of an intercepted flow is that flow's port* is not true of every run. The hot path asks only
  whether the port is in use. `Counterexamples.RecordedPortCanBeAStrangers` is a run from the start at whose end a
  packet is about to go out over another flow's port. What is true: the recorded port was once handed to its flow,
  and is still its flow's, if in use at all, while it has not been released since or the cursor has not completed a
  lap since (`RecordedPorts.RecordedPortIsItsFlows`, `RecordedPorts.HotPathRefinesSlowPath`). A caller could ask
  the tracker whose the port is: `LiveFlows.MappedFlowKeepsPort` says that this decides the matter, and
  `TrackerProofs.ALapReassignsPort` that the lap bound is tight.
* *Sweeping an expired policy makes no difference* is true of flows that are not intercepted and send no further
  pure SYN (`Sweeps.NobodySeesSweeps`). Of any next packet, `Sweeps.SweepShowsIff` says exactly when it goes out
  differently, for every entry that a sweep removes. A flow let through for good shows it by a SYN of a program on
  the whitelist, if it is IPv6 or a port is left (`Counterexamples.SweepShowsToSyn`). An intercepted flow shows it
  by every packet but a SYN of a program on the whitelist, if it is IPv6 or a port is left, and is re-routed in
  mid-stream: with the entry an IPv6 packet is dropped and an IPv4 packet hijacked anew or lost, without it the
  packet goes out directly (`Counterexamples.SweepReroutesMidStream`). FIN and RST never show it.
* *A mapping lives while its handler serves* is true of a handler that has the mapping to itself while checksums
  can be computed (`Handlers.LoneHandlerKeepsMapping`). A client that connects anew from the same port while the
  old handler still drains is given the same mapping, and the old handler deletes it when it leaves
  (`Counterexamples.OlderHandlerTakesMapping`). `Handlers.ServedMappingHoldsIff` says exactly when a served mapping
  lasts, `Handlers.ProxiedIffHandlersStay` exactly when the flow stays proxied.
* *A cached dialer belongs to the configuration it is looked up under* needs keys that tell configurations apart.
  `UpstreamCache.FaithfulIffApart` says for which proxy types they do, for types, addresses and user names without
  NUL (the two types of the program qualify). A single configuration shares its key with no other one if and only
  if there is no NUL in its address, user name and password either (`UpstreamCache.OwnKeyIffClean`);
  `UpstreamCache.NulConfusesKeys` shows one that is given another one's dialer.
* *Each side of a relayed connection receives all the other sends* can fail although its own direction works,
  because an error in the other direction closes both connections. `Duplex.DeliveryIffSafe` says exactly when
  delivery is sure.
* *Sweeping an expired process name makes no difference* is true as long as no refresh sweeps while another one,
  which has read the clock before it, is under way (`PidNames.SweepsAreInvisible`). `PidNames.SweepShowsIff` says
  exactly when such a sweep shows to a lookup, and `PidNames.LaterSweepShows` is a run of the two refreshes in
  which it does.
* *A socket table is parsed row by row* holds unless the rows reach the offset at which 32-bit arithmetic wraps
  around; the contracts of the two parsers say exactly when that is, and that parsing then ends the program;
  `Ipv6Tables.WrappingHappens` shows a buffer for which it does.

## Where the code and its comments differ

The model follows the code.

* The comment on the policy table (internal/engine/flowpolicy.go:87) says that IPv6 block entries go only with FIN
  or RST; the sweep removes them after five minutes (lines 155-157), as the comment on the constant explains.
* The comment on undecided flows (internal/engine/flowpolicy.go:26-28) speaks of re-evaluating once; the code does
  so for every further pure SYN while the flow stays undecided.
* The parser checks the length a ClientHello claims but then parses up to the end of the record rather than of the
  message, so bytes beyond the claimed length count; a frame in the serializer therefore has a claimed length of
  its own.
* A FIN or RST of an intercepted flow deletes its policy and is itself sent on unmodified.

## Model

| member | source | states |
|---|---|---|
| ConnTrack.ConnTracker.constructor | internal/engine/conntrack.go:20-26 | a new tracker is empty, its cursor at the bottom of the range, a non-positive time to live replaced by 30 s |
| ConnTrack.ConnTracker.Set | internal/engine/conntrack.go:32-60 | the allocation loop leaves exactly the table and cursor, and returns exactly the port, of the specification that AllocationIsComplete and the lap lemmas are about |
| ConnTrack.ConnTracker.Activate | internal/engine/conntrack.go:62-67 | only a key that is mapped becomes active; nothing else changes |
| ConnTrack.ConnTracker.Get | internal/engine/conntrack.go:69-74 | finds a target exactly for mapped keys, and the one recorded |
| ConnTrack.ConnTracker.HasMapped | internal/engine/conntrack.go:78-86 | true exactly for a non-zero port mapped on 127.0.0.1 |
| ConnTrack.ConnTracker.Delete | internal/engine/conntrack.go:88-98 | forgets the key, its activity, and its flow's index entry when that points back |
| ConnTrack.ConnTracker.Collect | internal/engine/conntrack.go:107-117 | whatever the visiting order: exactly the inactive entries older than the time to live go, with their index entries |
| TrackerProofs.RunsStayBijective | internal/engine/conntrack.go:32-120 | over all runs of Set, Activate, Delete and collection the two tables are inverse to each other, active keys are mapped, and keys are non-reserved ports of the range on 127.0.0.1 |
| TrackerProofs.LiveFlowsNeverSharePort | internal/engine/conntrack.go:32-98 | on every run of a new tracker two live flows have different ports, and port and flow lead back to each other |
| TrackerProofs.TableIsBounded | internal/engine/conntrack.go:15-18 | at most as many flows are live as the range has non-reserved ports, and that many exactly when no port is usable |
| TrackerProofs.AllocationIsComplete | internal/engine/conntrack.go:44-60 | for an unmapped flow, Set fails if and only if the table is full, and then changes nothing, not even the cursor; else it gives the first usable port from the cursor on |
| TrackerProofs.SetIsStable | internal/engine/conntrack.go:28-42 | while a mapping lives, Set on its flow returns the same port at any later time and changes nothing |
| TrackerProofs.JourneyFollowsCursor | internal/engine/conntrack.go:44-48 | over all runs the cursor moves in single steps round the range; its position is its start advanced by the length of its journey |
| TrackerProofs.VisitHappened | internal/engine/conntrack.go:48-57 | each port the cursor passed was at that moment reserved, in use, or free and then handed out |
| TrackerProofs.LapBetweenVisits | internal/engine/conntrack.go:44-58 | between two visits of a port the cursor visits every other port of the range, each truthfully found reserved, in use or handed out |
| TrackerProofs.PortBelongsToLastOwner | internal/engine/conntrack.go:44-58 | a live port belongs to the flow it was last handed to in the run, or else still has its entry from the start |
| TrackerProofs.NoLapNoStranger | internal/engine/conntrack.go:44-58 | within less than a lap after a port was handed out, if it is in use it still has that entry |
| TrackerProofs.ALapReassignsPort | internal/engine/conntrack.go:44-58 | the lap bound is tight, whatever port is reserved: a run of exactly one lap after which the port belongs to another flow |
| TrackerProofs.MappedWasGiven | internal/engine/conntrack.go:51-56 | every mapping of a run that started without any was handed out during the run |
| TrackerProofs.KeptBelongs | internal/engine/conntrack.go:36-42 | a port handed to a flow and in the table ever since still belongs to that flow |
| TrackerProofs.LapBelongs | internal/engine/conntrack.go:44-58 | a port in use that was handed to a flow less than a lap of the cursor ago still belongs to that flow |
| Packets.KeysNeverCollide | internal/engine/flowpolicy.go:40-62 | two packets share a policy key exactly when version, addresses and ports agree, so IPv4 and IPv6 never collide |
| Packets.KeyMeansEndpoints | internal/engine/windivert.go:274-276 | the IPv4 key built from little-endian words determines the packet's original flow |
| OnTheWire.KeyOnTheWire | internal/engine/flowpolicy.go:40-62 | the key of a packet, byte by byte: addresses (an IPv4 one before twelve zeros), ports and version |
| Packets.RewriteIsExact | internal/engine/windivert.go:364-370 | for any header length, rewriting endpoints sets just those and touches no other byte |
| Packets.NatDuality | internal/engine/windivert.go:364-390 | hijacking a packet, answering it with any packet with endpoints swapped, and reversing that, gives the original endpoints swapped and nothing else touched but checksums |
| FlowPolicy.FlowPolicies.Set | internal/engine/flowpolicy.go:118-122 | records kind, port and time for the flow and changes no other entry |
| FlowPolicy.FlowPolicies.Delete | internal/engine/flowpolicy.go:124-128 | removes just this flow's entry |
| FlowPolicy.FlowPolicies.Sweep | internal/engine/flowpolicy.go:150-168 | whatever the visiting order, exactly the entries past their time, or intercepted over a port no longer mapped, are removed |
| PolicyModel.SweepInAnyOrder | internal/engine/flowpolicy.go:150-168 | sweeping entry by entry, as the other goroutine's steps do in the state machine, in any order amounts to the whole sweep |
| PacketLoop.RouteOf | internal/engine/windivert.go:241-272 | which packets the policy table governs: whole TCP headers, not from the proxy's port, not to the upstream address in force or a private one |
| OnTheWire.GovernedIsPoliced | internal/engine/windivert.go:241-272 | the same in bytes: exactly the packets that lie so are governed, exactly those from the proxy's port are reversed |
| OnTheWire.PrivateBlocks | internal/engine/windivert.go:431 | the private IPv4 addresses are nine blocks of consecutive addresses |
| OnTheWire.PrivateBlocks6 | internal/engine/windivert.go:436-443 | the private IPv6 addresses by their first sixteen bits, the unspecified and loopback addresses, and IPv4 addresses in IPv6 form |
| OnTheWire.OthersPassOrNot | internal/engine/windivert.go:241-272 | any bytes that are neither governed nor a reply: no table changes; dropped if no readable IP header or protocol is there, or if UDP to port 443 of an outside address by a program on the whitelist; else sent as they are |
| OnTheWire.OtherThanSynPasses | internal/engine/flowpolicy.go:20 | a governed packet of a flow without entry, with FIN and RST clear and not with SYN set and ACK clear - a SYN-ACK too - is sent as it is, maps nothing and fixes that the flow passes |
| OnTheWire.FinOrRstPasses | internal/engine/windivert.go:281-313 | a governed packet with bit 0x01 or 0x04 removes its flow's entry and is sent as it is |
| OnTheWire.PureSynDecides | internal/engine/windivert.go:94-106 | a packet with SYN set and ACK, RST, FIN clear: passes without a listed program; is dropped on IPv6; on IPv4 is mapped to a port of 32768-60999 and sent from it to the local proxy on the loopback path, unless all ports are taken (it passes) or no checksums come (it is lost) |
| OnTheWire.KnownFlowKeepsRoute | internal/engine/windivert.go:278-306 | any other packet of a flow with an entry: a flow let through passes and an IPv6 flow blocked is dropped, tables unchanged; a proxied one goes to the proxy from its recorded port while that is mapped, else is mapped anew, or passes without a port, or is lost without checksums |
| OnTheWire.OthersKeepEntries | internal/engine/windivert.go:281-329 | a TCP packet changes no policy but that of its own flow |
| OnTheWire.RepliesPassOrGoHome | internal/engine/windivert.go:390 | any packet from the proxy's port: to an unmapped destination it is sent as it is, else from the mapped flow's destination to its source by the interface recorded, loopback bits set only for a loopback client, or lost without checksums; no table changes |
| OnTheWire.InterceptedBeganWithSyn | internal/engine/flowpolicy.go:30-31 | over all runs from the start: an intercept entry implies a received packet of that flow with SYN set and ACK, RST, FIN clear |
| OnTheWire.ProxiedUntilFinOrRst | internal/engine/windivert.go:278-303 | until its handler leaves or a packet of it with bit 0x01 or 0x04 comes, a proxied flow stays so, and its packets go from its port of 127.0.0.1 to the proxy's |
| OnTheWire.OutputsOnTheWire | internal/engine/windivert.go:364-370 | over all runs from the start: a packet sent changed that is no reply goes from 127.0.0.1 to the proxy's port there, outbound and loopback bits set, interface and the rest of its address kept, nothing else changed but checksums |
| Ages.YoungMappingsStay | internal/engine/conntrack.go:107-117 | over all runs from the start: a mapping neither deleted nor released is there unchanged at every moment at which it is at most the time to live old, in nanoseconds, 30 s for a non-positive setting |
| Ages.CollectingLeaves | internal/engine/conntrack.go:107-117 | right after a collection a mapping is still there exactly if a handler has activated it or it is no older than that |
| Ages.StepKeepsMappingIff | internal/engine/conntrack.go:32-120 | for any step of anybody: the mapping stays unless deleted, released, or collected inactive and older than that |
| Ages.AgesStartAtRegistration | internal/engine/conntrack.go:50-54 | a mapping's age counts from the registration of its flow |
| Ages.SweepRemovesIff | internal/engine/flowpolicy.go:150-168 | a sweep coming to an entry removes it exactly if it lets its flow pass for 900 s, blocks it for 300 s, or has a port no longer mapped; nothing else changes |
| Ages.WholeSweepRemovesIff | internal/engine/flowpolicy.go:150-168 | the same of a sweep of the whole table |
| LoopInvariants.RunsStayWell | internal/engine/windivert.go:243-357 | over all interleavings the tracker stays a bijection; IPv4 entries have a port exactly when they intercept, IPv6 entries never; no entry is about the proxy's own or a private destination |
| LoopInvariants.RunsStayOrdered | internal/engine/windivert.go:241-407 | over all interleavings the packets sent are, in order, images of distinct packets received: byte-identical, hijacked or reversed; and at its moment each reply is reversed by the mapping the tracker then has at its destination, each hijacked packet goes to a port then mapped |
| RouteSafety.NoMidStreamHijack | internal/engine/windivert.go:278-330 | from any reachable state where a flow is not intercepted, without a further pure SYN it is never intercepted and its packets go out only unmodified, whatever whitelist edits, lookups, sweeps, collections and other flows do |
| RouteSafety.NoMidStreamBlock | internal/engine/windivert.go:334-357 | and none of the packets of such a flow, IPv4 or IPv6, is dropped: each is sent or still in hand |
| RouteSafety.InterceptionHasProvenance | internal/engine/windivert.go:94-106 | over all runs from the start, an intercept entry implies an earlier pure SYN without FIN or RST on the flow whose lookup gave a name whitelisted at that moment |
| LiveFlows.LiveFlowStaysProxied | internal/engine/windivert.go:278-303 | from Activate to Delete or FIN/RST no sweep, collection, edit or other flow removes policy or mapping, and every packet of the flow that goes out is rewritten to its port, unless bound for the upstream address |
| LiveFlows.LoopRunsTracker | internal/engine/conntrack.go:32-120 | every interleaving is, seen from the tracker, one of the runs its lemmas are about |
| LiveFlows.HotPathIsSlowPath | internal/engine/windivert.go:286-297 | when the recorded port maps to the packet's flow, hijacking with it sends the same packet and leaves the same tracker as registering anew |
| LiveFlows.LiveFlowLosesNothing | internal/engine/windivert.go:286-292 | and with checksums given every packet of such a flow is sent or still in hand |
| LiveFlows.HotPathIsRightIff | internal/engine/windivert.go:289-292 | on every run, the hot path uses the port Set would return if and only if that port was last handed to the packet's flow |
| LiveFlows.MappedFlowKeepsPort | internal/engine/windivert.go:289-292 | for a port in use: Set would return it for the flow, changing nothing, exactly when the tracker maps it to that flow |
| RecordedPorts.RecordedPortsWereGiven | internal/engine/windivert.go:295-301 | over all runs from the start, the port of every intercepted IPv4 flow, recorded or about to be, was handed to that very flow |
| RecordedPorts.RecordedPortIsItsFlows | internal/engine/windivert.go:286-292 | over all runs from the start, a recorded port has a visit of the cursor that gave it to the entry's flow, and from any such visit on, without a release or within a lap, a port in use is that flow's |
| RecordedPorts.HotPathRefinesSlowPath | internal/engine/windivert.go:286-303 | over all runs from the start, under that condition, a packet sent by the hot path, the tracker and the policies are those of registering the flow anew |
| Counterexamples.RecordedPortCanBeAStrangers | internal/engine/windivert.go:289-292 | a run from the start in which the hot path is about to use a port that belongs to another flow |
| Counterexamples.SweepShowsToSyn | internal/engine/flowpolicy.go:163-164 | two runs from the start, differing in one sweep of an expired entry, that send different packets |
| Counterexamples.SweepReroutesMidStream | internal/engine/windivert.go:278-303 | two runs from the start, differing in one sweep of the entry of an intercepted flow whose handler has left: an ACK of the flow goes out directly after the sweep, and not so without it |
| Counterexamples.OlderHandlerTakesMapping | internal/engine/tproxy.go:131-134 | a run from the start in which the second handler of a reconnecting client serves a mapping that the first one has deleted |
| Handlers.HandlersAreSteps | internal/engine/tproxy.go:131-134 | every interleaving of loop and handlers, each handler looking up, activating and deleting its mapping, is one of the runs that the other results about the loop speak of |
| Handlers.MappingHoldsIff | internal/engine/conntrack.go:62-120 | over all runs with any number of handlers: a mapping stays as it is at every moment if and only if no handler serving it leaves, the loop does not release it and no collection finds it inactive and more than the time to live old |
| Handlers.ServedMappingHoldsIff | internal/engine/tproxy.go:133-134 | over all runs, while a handler serves a mapping it activated: the mapping stays as it is at every moment if and only if no other handler of the same key leaves and the loop does not release the port; collections cannot take it |
| Handlers.ActivatedIsServed | internal/engine/tproxy.go:131-133 | what a handler activates is active if it is still mapped; if it went since the lookup, the handler serves without a mapping |
| Handlers.LoneHandlerKeepsMapping | internal/engine/tproxy.go:133-134 | a handler that has the mapping to itself keeps it until it leaves, as long as checksums can be computed |
| Handlers.ProxiedIffHandlersStay | internal/engine/tproxy.go:131-134 | over all runs of loop and handlers, without FIN or RST on it: a proxied flow stays proxied through its port at every moment if and only if no handler serving that port leaves; till then its packets go there |
| Handling.ProcessIsRun | internal/engine/windivert.go:241-357 | handling a packet without interruption is one of the interleavings, so every theorem about runs applies to it |
| Handling.FirstSynDecides | internal/engine/windivert.go:315-329 | the first SYN of a flow: no name leaves it undecided, a name off the whitelist lets it pass for good, a listed name blocks an IPv6 flow and maps, records and rewrites an IPv4 flow, lets it pass when no port is left and drops the packet without checksums |
| Handling.ClosingPacketPasses | internal/engine/windivert.go:282-313 | FIN or RST of any flow, intercepted or not, ends its policy, leaves the tracker alone and goes out unmodified |
| Handling.MidStreamPasses | internal/engine/windivert.go:89-95 | a flow first seen in mid-stream is recorded to be let through, and its packet passes unmodified |
| Handling.HijackIsAllOrNothing | internal/engine/windivert.go:372-376 | after registering and hijacking: flow mapped, port recorded and one rewritten packet sent; or flow unmapped, direct policy recorded, and the untouched packet sent once (ports exhausted) or nothing (no checksums) |
| Handling.RepliesGoHome | internal/engine/windivert.go:387-390 | for every live flow at once: a proxy reply on its port goes out from its destination to its source, through its interface, otherwise unchanged |
| RoundTrips.ThereAndBack | internal/engine/windivert.go:364-390 | in bytes: a hijacked SYN goes out from some port of 127.0.0.1 to the proxy's, outbound and loopback; through any run that does not release the mapping, a proxy reply to that port leaves from the server meant to the client, by the interface the SYN came in on, on the loopback path only for a loopback client, otherwise unchanged |
| RoundTrips.MeantServerIsDialled | internal/engine/tproxy.go:35-38 | after that SYN, as long as its mapping is not released, handlers find the mapping of the port it went out from and dial the address and port in the SYN, on port 443 the host name if one is given, and nothing exactly if that address is unspecified or that port is 0 |
| Sweeps.NobodySeesSweeps | internal/engine/flowpolicy.go:150-168 | sweeps between any two accesses of the loop, of entries of non-intercepted flows that send no further pure SYN: some run without them, the others' steps being the same, receives and sends the same packets of all flows, with the same mappings and other policies |
| Sweeps.SweepsAreInvisible | internal/engine/flowpolicy.go:71-73 | between whole packets the very same events give the same packets, mappings and other policies with and without such sweeps |
| Sweeps.SweepTimesDoNotMatter | internal/engine/flowpolicy.go:71-73 | so two runs that differ only in when, between packets, such entries are swept send the same packets |
| Sweeps.SweepShowsIff | internal/engine/flowpolicy.go:150-168 | from any reachable state between packets, for every entry the sweep removes and any next packet: the packet goes out differently without the entry exactly if it is the flow's, without FIN or RST, IPv6 or with a port left, and either the entry intercepts and the packet is no SYN of a listed program, or it lets the flow pass for good and the packet is one |
| SendQueues.SendQueue.Push | internal/engine/batch.go:45-52 | appends the packet and its address to what the queue holds, empty packets not at all; grows only when the reserved room is used up |
| SendQueues.SendQueue.WouldOverflow | internal/engine/batch.go:54-57 | true exactly when n more bytes exceed the reserved room |
| SendQueues.SendQueue.Reset | internal/engine/batch.go:61-65 | empties the queue and keeps its room |
| SendQueues.Handle.Send | internal/engine/windivert.go:52 | a non-empty packet the driver accepts is put on the wire; otherwise nothing is |
| SendQueues.CutIsSplit | internal/engine/batch.go:146-157 | the buffer handed to the batched send is the queued packets end to end |
| SendQueues.CutAt | internal/engine/batch.go:163-169 | walking the recorded lengths from the front finds each queued packet |
| SendQueues.DelimitedArrive | internal/engine/batch.go:146-169 | packets that state their own lengths come out of the batched call as they were queued, all or none; one by one, up to the first failure |
| SendQueues.Handle.SendEx | internal/engine/batch.go:146-161 | the driver is given the buffer and the addresses and cuts by the length fields; it sends all or nothing |
| SendQueues.Handle.SendBatch | internal/engine/batch.go:139-171 | what arrives on the wire is that of the batched call where the driver has one, and else of the fallback; it succeeds exactly when all of it arrives |
| SendQueues.Handle.SendOneByOne | internal/engine/batch.go:163-170 | the fallback loop sends exactly the packets pushed, with their addresses, up to the first failure |
| Interceptors.RewriteHijack | internal/engine/windivert.go:364-370 | in place: loopback, mapped port to proxy port, outbound and loopback bits set, nothing outside the slice |
| Interceptors.RewriteReverse | internal/engine/windivert.go:390 | in place: original endpoints swapped, interface restored, bits by whether the client is on loopback |
| Interceptors.Interceptor.constructor | internal/engine/windivert.go:65-79 | a new interceptor has no policies and no handle |
| Interceptors.Interceptor.SetWhitelist | internal/engine/windivert.go:107 | replaces the whitelist and nothing else |
| Interceptors.Interceptor.SetProxyAddr | internal/engine/windivert.go:109 | replaces the exempt upstream address and nothing else |
| Interceptors.Interceptor.FlushQueue | internal/engine/windivert.go:410-425 | the queue is empty afterwards, and the wire has got what of it the driver accepted, whatever that is |
| Interceptors.Interceptor.SendPass | internal/engine/windivert.go:397-407 | queues the packet as it is; if the queue is full, wire and queue together still hold everything in order |
| Interceptors.Interceptor.CalcAndSend | internal/engine/windivert.go:394 | queues the packet with new checksums, or fails and queues nothing |
| Interceptors.Interceptor.HijackWithPort | internal/engine/windivert.go:380-385 | queues exactly the hijacked packet, or nothing without checksums; touches only its slice and address |
| Interceptors.Interceptor.HijackTCP | internal/engine/windivert.go:376 | returns the port with the mapping made and one rewritten packet queued, or 0 with the packet queued unchanged (no port) or dropped and the mapping released (no checksums) |
| Interceptors.Interceptor.ReverseNAT | internal/engine/windivert.go:390 | queues the reply rewritten by its mapping, unchanged if it has none, nothing without checksums |
| Interceptors.PassedOn | internal/engine/windivert.go:405-406 | with room a packet is just appended; without, the flush keeps order and loses nothing that the driver accepts |
| Interceptors.Interceptor.HandleIPv4TCP | internal/engine/windivert.go:243-262 | tables, queue and wire end as the state machine says for this packet |
| Interceptors.Interceptor.HandleOutboundV4 | internal/engine/windivert.go:263-272 | the same for a packet that is no reply of the proxy |
| Interceptors.Interceptor.HandlePolicedV4 | internal/engine/windivert.go:274-307 | the same for a packet the policy table governs |
| Interceptors.Interceptor.InterceptedV4 | internal/engine/windivert.go:286-303 | the same for a flow recorded as intercepted |
| Interceptors.Interceptor.RegisteredV4 | internal/engine/windivert.go:319-326 | the same for a flow to be registered |
| Interceptors.Interceptor.NewFlowV4 | internal/engine/windivert.go:309-329 | the same for a flow without policy |
| Interceptors.Interceptor.HandleIPv4UDP | internal/engine/windivert.go:242 | the same for IPv4 UDP |
| Interceptors.Interceptor.HandleIPv6 | internal/engine/windivert.go:331 | the same for IPv6 |
| Interceptors.Interceptor.HandleIPv6TCP | internal/engine/windivert.go:332-333 | the same for IPv6 TCP |
| Interceptors.Interceptor.PolicedV6 | internal/engine/windivert.go:334-342 | the same for IPv6 TCP the policy table governs |
| Interceptors.Interceptor.NewFlowV6 | internal/engine/windivert.go:343-356 | the same for an IPv6 flow without policy |
| Interceptors.Interceptor.HandleIPv6UDP | internal/engine/windivert.go:358 | the same for IPv6 UDP |
| Interceptors.Interceptor.HandlePacket | internal/engine/windivert.go:241 | any bytes at all, with or without room in the queue: tables, queue and wire end as the state machine says, only the packet's slice and address are written, at most one packet of its size goes out; with room nothing is sent early |
| Cutting.DelimitedIffLaidOut | internal/engine/batch.go:70-96 | a packet states its own length exactly when it is laid out as RFC 791 section 3.1 or RFC 8200 section 3 has it |
| Cutting.SplitUndoesJoin | internal/engine/batch.go:70-96 | packets with correct length fields, put end to end, are cut apart again |
| Cutting.SplitCutsFromFront | internal/engine/windivert.go:202-223 | whatever the bytes: what is cut is a beginning of the buffer, and cutting stops only at the end or where buffer, addresses or whole packets run out |
| Cutting.SplitIffJoin | internal/engine/windivert.go:202-223 | cutting succeeds exactly when the buffer is one self-delimited packet per address end to end, and the packets are unique |
| Batches.BatchKeepsInvariants | internal/engine/windivert.go:202-223 | a whole batch keeps order, at-most-once emission and all table invariants |
| Cutting.RewrittenIsDelimited | internal/engine/windivert.go:364-390 | a packet rewritten in endpoints and checksums still states its own length |
| Batches.StartsBetweenBatches | internal/engine/windivert.go:147-152 | what the receive loop relies on and keeps from batch to batch holds at its start |
| Batches.OutputsAreDelimited | internal/engine/batch.go:139-157 | of packets that state their own lengths, whatever is sent for them does too |
| Batches.ProcessBatch | internal/engine/windivert.go:202-223 | despite rewriting in place the outcome is that of cutting the buffer as received; on error all packets before the bad place are handled; the queue takes no more bytes than were cut and no more packets than were handled, and never grows |
| Batches.PumpBatch | internal/engine/windivert.go:189-195 | for every batch that fits the receive buffer the reserved queue suffices; the driver, cutting by length fields, puts exactly the batch's outputs on the wire in order, or as many as it accepts; the queue is empty again and all invariants hold for the next batch |
| Sni.ExtractSNI | internal/engine/sni.go:10-101 | the offset-walking parser returns, on every input, the name or the error that the recursive grammar gives |
| Sni.SearchExtensions | internal/engine/sni.go:70-100 | the nested loops return what the grammar of extensions and names gives |
| SniGrammar.RoundTrip | internal/engine/sni.go:10-101 | for any session id, suites, compression methods and extensions, parsing the written record gives the first non-empty host name, or not found |
| SniGrammar.FoundIffWritten | internal/engine/sni.go:10-101 | a name is found in exactly the records that can be written with that name first, all leniencies included |
| SniGrammar.WrittenIsFound | internal/engine/sni.go:70-98 | a record written with barren extensions, skipped names and then the name parses to the name |
| SniGrammar.FoundIsWritten | internal/engine/sni.go:70-98 | every record with a name found decomposes so |
| SniGrammar.NamelessIff | internal/engine/sni.go:77-95 | a server_name body is passed over exactly when it is too short for its list or the list ends without a non-empty host name |
| SniGrammar.OnlyFirstRecord | internal/engine/sni.go:14-19 | nothing beyond the first record is looked at |
| TProxies.Conn.Read | internal/engine/tproxy.go:44-49 | reads take bytes off the front of the stream in pieces of any size; pauses fail them only under a deadline |
| TProxies.ReadFull | internal/engine/tproxy.go:49-63 | whatever the pieces, what was read followed by what is unread is the stream |
| TProxies.ReadTLSClientHello | internal/engine/tproxy.go:43-69 | on every exit the bytes returned and the unread stream make up the original; the name is the one in the first record; without pauses both depend on the bytes only |
| TProxies.WrittenNameIsDialled | internal/engine/tproxy.go:143-150 | a client whose first record, of up to 5 + 16384 bytes, is written with a host name is dialled by that name |
| TProxies.Copier.Turn | internal/engine/tproxy.go:205-213 | one read or write of the copying loop is one step of its direction in the interleaved machine; the write side is closed exactly after a clean end |
| TProxies.Relay | internal/engine/tproxy.go:205-213 | alone, one direction delivers all of the source's bytes in order, or a beginning of them if a write fails; it reports success exactly after a clean end |
| TProxies.RelayBoth | internal/engine/tproxy.go:184-194 | whatever the order of turns, with both connections closed once one direction has failed: what each side has got is that of a finished run of the interleaved machine |
| TProxies.Serve | internal/engine/tproxy.go:170-194 | replay, then a finished interleaved run: each side gets a beginning of what the other sent, replayed bytes first, and all of it if both have room and the other side's stream does not end in an error |
| TProxies.ServeFlow | internal/engine/tproxy.go:136-194 | the port dialled is the flow's; the host is that of the first record on port 443, else the flow's destination; nothing is dialled exactly for an unspecified address or port 0; nothing is written unless dialling succeeds; the dialled connection is closed at the end |
| TProxies.HandleConn | internal/engine/tproxy.go:122-195 | a found mapping is activated and afterwards deleted on every exit; what is dialled is the destination of its flow, or on port 443 the host in the first record; server and client get beginnings of each other's streams, all of them under the conditions of Serve; connections are closed |
| Duplex.BothWaysConserve | internal/engine/tproxy.go:184-194 | at every moment of every interleaving of the two copying directions, failures and closing included, each side has got a beginning of what the other sent, and all of it when the direction ended cleanly |
| Duplex.DeliveryIffSafe | internal/engine/tproxy.go:190-193 | one side gets everything in all interleavings if and only if it has room for it and the other direction cannot fail, or there is nothing to copy |
| UpstreamCache.UpstreamDialer.constructor | internal/engine/upstream.go:23 | a new dialer cache is empty |
| UpstreamCache.UpstreamDialer.Update | internal/engine/upstream.go:24 | new settings, and nothing cached |
| UpstreamCache.UpstreamDialer.SetDialer | internal/engine/upstream.go:26 | installs the dialer under the key "custom" |
| UpstreamCache.UpstreamDialer.Look | internal/engine/upstream.go:35 | the half under the read lock: the cached dialer if it is offered, else a copy of the settings |
| UpstreamCache.UpstreamDialer.BuildOnce | internal/engine/upstream.go:35 | the half under the write lock: looks again, then builds from the settings read before and stores unless building failed |
| UpstreamCache.UpstreamDialer.Get | internal/engine/upstream.go:35 | an undisturbed call returns what the cache offers from then on, and with nothing cached a dialer that suits the settings |
| UpstreamCache.FaithfulIffApart | internal/engine/upstream.go:28-33 | for types, addresses and user names free of NUL, passwords being arbitrary, equal keys mean equal settings exactly when no proxy type begins with another followed by "://" |
| UpstreamCache.KnownTypesAreFaithful | internal/engine/upstream.go:31-33 | both statements for the program's two types |
| UpstreamCache.OwnKeyIffClean | internal/engine/upstream.go:28-33 | settings share their key with no others exactly if address, user name and password are free of NUL, the proxy types being apart |
| UpstreamCache.NulConfusesKeys | internal/engine/upstream.go:31-33 | two settings with NUL in the credentials share a key, and the one is offered the dialer cached for the other |
| UpstreamCache.AnswersServe | internal/engine/upstream.go:24-35 | under any interleaving of call halves, updates and installations, a dialer not installed from outside is HTTP exactly for type "http" and SOCKS otherwise, at the address and with the credentials the call read first, SOCKS credentials only with a user name |
| UpstreamCache.UpdateTakesEffect | internal/engine/upstream.go:24-35 | calls begun after an update get dialers of exactly the new type, address and credentials, though older calls may still store theirs |
| UpstreamCache.InstalledIsUsed | internal/engine/upstream.go:26-35 | after SetDialer, in any situation and until the next update or installation, every call that ends gets the dialer installed, also calls begun before |
| PidNames.PidNameCache.Get | internal/process/pidnamecache_windows.go:38-53 | a fresh cached name, or the resolved one, which is then cached; nothing for process 0 |
| PidNames.PidNameCache.Sweep | internal/process/pidnamecache_windows.go:57-65 | whatever the visiting order, exactly the expired entries go |
| PidNames.LookupIsGet | internal/process/pidnamecache_windows.go:38-53 | undisturbed, the halves of a lookup under the read lock, outside any lock and under the write lock make the lookup of the cache |
| PidNames.LookAsksIff | internal/process/pidnamecache_windows.go:38-53 | the system is asked exactly if the process is not 0 and no name, even an empty one, was cached at a reading less than two seconds earlier |
| PidNames.SweepLeavesIff | internal/process/pidnamecache_windows.go:57-65 | a sweep leaves exactly the names cached less than two seconds earlier |
| PidNames.SweepsAreInvisible | internal/process/pidnamecache_windows.go:20-22 | over all interleavings of any number of refreshes, each with the clock reading it began with: if only refreshes with the earliest reading of those under way sweep, the names given out are those of the same run without sweeps |
| PidNames.SweepShowsIff | internal/process/pidnamecache_windows.go:57-65 | one refresh's sweep changes what another's lookup gives exactly if the entry is out of date by the reading of the first, not by that of the second, and the system answers anew |
| PidNames.LaterSweepShows | internal/process/ipv6refresh_windows.go:26-40 | a run of two overlapping refreshes in which the later one's sweep changes the name the earlier one is given |
| PidNames.NamesAreRecent | internal/process/pidnamecache_windows.go:10-18 | over all interleavings of refreshes and the halves of their lookups, every name given out is what the system said of that process id when asked less than two seconds before the refresh read the clock, or later |
| Ipv6Tables.ParseIPv6TCPRows | internal/process/ipv6_windows.go:28-41 | the flows are the listing of the rows in the buffer under the names the cache shows, unless 32-bit offsets wrap, and then it panics |
| Ipv6Tables.ParseIPv6UDPRows | internal/process/ipv6refresh_windows.go:117-141 | the same for the shorter UDP rows |
| Ipv6Tables.WrappingHappens | internal/process/ipv6_windows.go:33 | a buffer just below four gigabytes for which the offsets do wrap |
| Ipv6Tables.TableRoundTrip | internal/process/ipv6_windows.go:16-38 | a table written field by field as the system lays it out reads back as its rows, whatever follows them |
| Ipv6Tables.WrittenIsListedIff | internal/process/ipv6_windows.go:28-41 | of a table written field by field a socket is listed exactly if a row has its addresses and ports, a state other than 1 (TCP), and an owner with a name |
| Ipv6Tables.ListedIffSpoken | internal/process/ipv6_windows.go:32-39 | a socket is listed exactly when some row of it is not closed and its process has a name |
| Ipv6Tables.LastRowCounts | internal/process/ipv6_windows.go:38 | of several such rows the last one names it |
| Ipv6Tables.CachedParseIsDirect | internal/process/ipv6refresh_windows.go:84-87 | while processes keep their names, parsing a written table through the cache, as any interleaving of refreshes leaves it, gives what its rows say without a cache |
| Ipv6Tables.Ipv6TCPResolver.RefreshWith | internal/process/ipv6refresh_windows.go:63-91 | within the interval, or without a table, nothing changes and the interval does not start anew; else the published flows become those of the table under the names seen, the sweep making no difference |

## Left out

- WinDivert loading, driver service, handle opening, receiving, and the checksum arithmetic: foreign calls; checksum values and failures are parameters, and packets are compared with the checksum bytes given.
- Windows table queries, process-name system calls, their retry loops, and the IPv4 process resolver: the answer of a lookup is a parameter of the step that asks.
- Addresses as dotted strings: the tables key by the four bytes; the string and the bytes determine each other. Keys that are not IPv4 addresses are not part of this model.
- The flag word of a capture address: its outbound and loopback bits and a remainder that is carried along; the checksum-valid bits the checksum helper may set are not modelled.
- Whitelist normalisation and letter case: the whitelist is a set of names any step may replace, the looked-up name is compared as given.
- A missing send queue (the synchronous fallback used in unit tests).
- Sweeps.SweepsAreInvisible: sweeps between whole packets only, with the same events on both sides; NobodySeesSweeps has them between any two accesses, where the number of steps the loop takes over a packet may differ.
- SendQueues.Handle.SendEx: a batched send that fails is taken to put nothing on the wire; how much the driver sent before failing is not known to the program either.
- SendQueues.SendQueue.Push: the room reserved for addresses and lengths is not a field; ProcessBatch bounds their number by the packets of the batch.
- TProxies.HandleConn: runs undisturbed; handlers interleaved with the packet loop and with one another are the acts of the machine in `Handlers`, which has their lookup, activation and deletion but not the bytes they relay.
- TProxies.RelayBoth: which pieces reads come in is fixed by what arrives on the connections; `Duplex` has pieces of any size.
- TProxies.Conn.Read: a read that returns bytes together with an error is not modelled.
- UpstreamCache.UpstreamDialer.BuildOnce: what a dialer does when dialling (HTTP CONNECT, SOCKS5) is not part of this model.
- Ipv6Tables.ParseIPv6TCPRows: its lookups run undisturbed, as do those of the UDP parser; lookups of refreshes that interleave are the steps of the machine in `PidNames`.
- The refresh of the UDP table: the same gate around the other parser.
- Goroutine start and stop, tickers, closing, statistics, logging, socket tuning, buffer pools, configuration files, web interface and API.
