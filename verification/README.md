# The skywire route layer in Dafny

A model of the route layer of skywire, with proofs. A setup node turns a bidirectional path into rules
for the visors on it; each visor keeps a rule table whose entries expire; routers rewrite and forward
packets hop by hop; two route groups at the ends exchange a byte stream and close with a handshake.
Beside it are the byte formats of rules and packets, and two allocators: the ring of 16-bit IDs behind
the RPC gateway, and the VPN server's allocator of /29 blocks.

`dafny verify dfyconfig.toml` checks everything.

## How the pieces fit

- `Routing`: keys, descriptors, rules and packets as values.
- `Setup`, `RuleGeneration`, `SetupNode`: the setup node; `SetupProofs`, `FreshIds`, `Delivery`: what it
  promises.
- `RouteGroups`, `Routers`: what a group and a router do, as functions, with Write and Read in the steps
  between which other calls can come; `GroupAnswers` says what a caller sees. `RouteGroupObject` and
  `RouterObject` are the mutable objects, each method proved against its function.
- `RouteMachine`: one route as a step machine with a private queue per hop. `RouteProofs` has its
  invariant and the results on it, `EndOfStream` the meaning of EOF, `LetIn` runs that show its
  conditions are needed, `Progress` the bound on deliveries, `Drain` the way from any state to rest
  and `Usable` that an open route can be used and closed.
- `Network`: any number of routes that share visors, tables and transports, set up at any time.
  `NetworkProofs`, `NetworkSteps` and `NetworkSetup` prove that it behaves like independent copies of
  `RouteMachine`, and `NetworkTheorems`, `NetworkStreams`, `NetworkProgress`, `NetworkDrain` and
  `NetworkUsable` carry the results over. `NetworkExample` shows that their assumptions can be met.
- `Table`, `TableHistory`, `KeepAlives`, `SetupKeepAlive`: the rule table with its clock, whole histories
  of it, and the service that keeps its rules alive.
- `Bytes`, `RuleCodec`, `RuleSummaries`, `RuleBuffers`, `RuleLayout`: rule and descriptor buffers.
  `PacketCodec`, `PacketBuffers`, `PacketLayout`, `Framing`: packets and how they are read from a stream.
- `IdRing`, `Gateway`; `Subnet`, `SubnetAllocator`, `SubnetRuns`: the allocators.

## Where the code differs from what one expects

- A visor visited more than 255 times wraps its 8-bit counter, and rule generation runs out of IDs
  (`IDConservation` and `TotalIsSum` are exact about it).
- If source and destination address of a route coincide, the responder gets the wrong forward rule
  (`RespondsIff`).
- A Write that has passed its closed check when Close takes the mutex goes on after it: it succeeds, and
  its bytes are lost (`LateWriteIsLost`). A Read in the same position may report EOF although the other
  end is open (`OwnCloseIsEOF`). `EOFMeansComplete` says exactly what EOF does mean.
- `ReserveKeys` with a negative count, or one that overflows int64, panics after it has moved its
  counter, so later IDs are not fresh (`NegativeCountReissues`).
- The scan of the block x.y.z.248 wraps its bound and looks at nothing, so that block is issued
  again although it is taken (`LastBlockReissued`; `TakenIff` and `ReissuedIff` say exactly when).
- Because that block is never seen as taken, an incrementer never gets to its outer loops: of 10.0.0.0/8
  and 172.16.0.0/12 only the first /16 is ever used (`OneSixteen`), and once all its blocks are issued
  the last ones come over and over (`KthCall`).
- A connection whose wrapping fails in Dial or Accept frees its slot but is not closed
  (`FailedWrapLeaks`); `Accounting` says that nothing else is lost.
- Forwarding rebuilds a packet from its kind, so a malformed payload is changed or makes the router
  panic; `ForwardUnchangedIff` says exactly when it is not.

## Model

| member | source | states |
|---|---|---|
| `RouteProofs.ByteStream` | pkg/router/route_group.go:174-203 | in every reachable state of a route, for all path lengths, buffer sizes and interleavings, the bytes read at one end are a prefix of those written at the other; while nobody closes, written = read + buffered + in flight |
| `RouteProofs.CloseSafety` | pkg/router/route_group.go:595-638 | in every reachable state each end has sent at most one Close, no channel was closed twice, nothing was sent on a closed channel and the wait counter is not negative |
| `RouteProofs.Teardown` | pkg/router/route_group.go:595-638 | once an end has sent its Close, nothing is in flight and nobody waits, no visor of either path holds a rule and neither router knows its group, whoever closed first or timed out |
| `EndOfStream.EOFMeansComplete` | pkg/router/route_group.go:305-334 | over every run, EOF at an end that has not itself initiated a close means that the other end has and that everything it wrote before has been read; that is everything it ever wrote if and only if none of its Writes was let in before, and sent after, it initiated the close |
| `LetIn.LateWriteIsLost` | pkg/router/route_group.go:174-203 | a run of the exception: a Write that passed its closed check before Close took the mutex succeeds behind the Close packet, and the other end reports EOF without its byte |
| `LetIn.OwnCloseIsEOF` | pkg/router/route_group.go:305-334 | why the reader must not have initiated a close: a Read let in while its own end waits may report EOF although the other end has done nothing |
| `Drain.TeardownCompletes` | pkg/router/route_group.go:595-638 | once an end has sent its Close, from every reachable state a run of deliveries, reads and the end of waiting Closes alone leads to complete cleanup: the handshake cannot get stuck |
| `Drain.EverythingArrives` | pkg/router/route_group.go:336-362 | while nobody closes, from every reachable state everything written at both ends can be delivered and read |
| `Drain.NextStep` | pkg/router/route_group.go:672-689 | as long as anything is in flight, unread or waiting, some step of that kind is possible and lowers a measure, whatever holds up the others |
| `Usable.CanWrite` | pkg/router/route_group.go:174-203 | from every open reachable state with no Write in progress, up to 65535 bytes can be written |
| `Usable.AnythingArrives` | pkg/router/route_group.go:174-203 | and read at the other end, behind everything written before |
| `Usable.CanClose` | pkg/router/route_group.go:206-224 | from every reachable state an end that has sent no Close can close the route, and then have it cleaned up completely |
| `RouteProofs.Travels` | pkg/router/router.go:965-1022 | on the way a packet of any kind keeps its place in the stream of packets, and nothing but the rule behind a Close changes |
| `RouteProofs.PingEchoed` | pkg/router/route_group.go:718-729 | at the end of its way a Ping is answered, on the way back, with its own timestamp |
| `RouteProofs.StepKeeps` | pkg/router/router.go:666-725 | every enabled call and delivery keeps the invariant behind the three results: sweep position of the Close, conservation of bytes, handshake state |
| `RouteProofs.RunKeeps` | pkg/router/router.go:595-612 | the invariant holds at the end of every run |
| `Progress.DeliveryCosts` | pkg/router/router.go:965-1022 | every delivery lowers a potential (remaining hops, pending answers), so a packet cannot circulate |
| `Progress.DeliveriesEnd` | pkg/router/router.go:965-1022 | a run of deliveries is no longer than the potential it starts with |
| `NetworkTheorems.NetStep` | pkg/router/router.go:595-612 | every step of a network of routes that share visors, tables and transports moves at most one route, by a step of its own machine, and leaves every other as it was; a setup adds one route in its initial state |
| `NetworkTheorems.NetRunReachable` | pkg/router/router.go:595-612 | in every run of the network every route is in a state that its own machine can reach |
| `NetworkTheorems.RouteIsolation` | pkg/router/setupnode.go:198-243 | after any number of setups, in any order, each packet in flight belongs to exactly one hop of one route and can only match that route's rule for the next visor |
| `NetworkTheorems.NetworkByteStream` | pkg/router/route_group.go:174-203 | the byte-stream result, prefix and conservation, for every route of every reachable network |
| `NetworkTheorems.NetworkCloseSafety` | pkg/router/route_group.go:595-638 | the close-safety result for every route of every reachable network |
| `NetworkTheorems.NetworkTeardown` | pkg/router/router.go:666-725 | the teardown result for every route of every reachable network |
| `NetworkStreams.NetworkEOF` | pkg/router/route_group.go:305-334 | the end-of-stream result, with its exact condition on the steps of the run, for every route in every run of a network |
| `NetworkDrain.NetworkDrains` | pkg/router/router.go:438-460 | from every reachable network, deliveries, reads and the end of waiting Closes alone can bring all routes to rest although they hold each other up on shared transports; every route with a closing end is then cleaned up, and on every other everything written has been read |
| `NetworkDrain.NetNext` | pkg/router/router.go:438-460 | as long as a network is not at rest some such step is possible and brings it nearer |
| `NetworkUsable.NetworkAnythingArrives` | pkg/router/route_group.go:174-203 | on every open route of every reachable network anything up to 65535 bytes can be written and read, whatever other routes do |
| `NetworkUsable.NetworkCanClose` | pkg/router/route_group.go:206-224 | on every route of every reachable network an end that has sent no Close can close it and have it cleaned up at every visor |
| `NetworkExample.AnyPaths` | pkg/router/setupnode.go:113-161 | any two contiguous paths between two addresses, over existing transports and with IDs to spare, can be set up |
| `NetworkProgress.NetworkDeliveriesEnd` | pkg/router/router.go:965-1022 | in a network, any run of deliveries is bounded by the total potential of its routes |
| `NetworkSteps.DeliverStep` | pkg/router/router.go:595-612 | a delivery on a shared transport is a delivery of the one route whose hop carries the packet's ID |
| `NetworkSteps.CallStep` | pkg/router/route_group.go:156-224 | a call on a group is a call of the one route end that owns the group |
| `NetworkSetup.EstablishInitial` | pkg/router/router.go:487-593 | a route just set up is in its initial state: all rules present, nothing in flight under its IDs, both groups running |
| `NetworkSetup.EstablishOthers` | pkg/router/setupnode.go:198-243 | setting up a route changes nothing that any earlier route can observe |
| `RouteGroups.SendWrite` | pkg/router/route_group.go:336-362 | the last step of a Write, which checks nothing any more: success means exactly the given bytes were sent and joined the stream |
| `RouteGroups.Write` | pkg/router/route_group.go:174-203 | a whole Write: success means exactly the given bytes joined the stream; any other outcome, also being let in, adds none |
| `RouteGroups.LockRead` | pkg/router/route_group.go:305-314 | what the buffer gives to a Read is what the stream of read bytes grows by |
| `RouteGroups.FinishRead` | pkg/router/route_group.go:329-332 | so is what an item gives, in the buffer size of the Read |
| `RouteGroups.Read` | pkg/router/route_group.go:305-334 | a whole Read: returns at most the buffer size, and what it returns is what the stream of read bytes grows by |
| `GroupAnswers.ClosedRefuses` | pkg/router/route_group.go:156-224 | a closed group refuses Write, Read and Close and does nothing |
| `GroupAnswers.WriteAnswers` | pkg/router/route_group.go:174-203 | with the mutex free, a Write fails exactly above 65535 bytes, and else sends one Data packet with exactly its bytes and answers their number |
| `GroupAnswers.LetInWriteAnswers` | pkg/router/route_group.go:187-202 | with the mutex held it is let in, and nothing stops it later |
| `GroupAnswers.ReadAnswers` | pkg/router/route_group.go:305-334 | a Read hands out as many bytes of the first thing available as fit, buffered ones first |
| `GroupAnswers.ReadEnds` | pkg/router/route_group.go:316-327 | EOF exactly on an empty item or at the end of a closed channel; let in exactly if there is nothing yet |
| `GroupAnswers.ReadLeaves` | pkg/router/route_group.go:329-332 | what is handed out and what is left for later are what there was, in order |
| `GroupAnswers.LetInReadAnswers` | pkg/router/route_group.go:316-332 | a Read that was let in takes any ready case and hands out the item it holds, also after a close |
| `GroupAnswers.CloseAnswers` | pkg/router/route_group.go:595-638 | the first Close sends one Close packet with code 0, behind the error that was set if it fits a packet, and waits for one answer |
| `GroupAnswers.CloseAgainAnswers` | pkg/router/route_group.go:206-224 | after a remote close Close only marks the group; a second Close during the wait does nothing |
| `GroupAnswers.PacketAnswers` | pkg/router/route_group.go:640-702 | data joins what can be read and waits exactly while 1024 items are unread; a Ping gets its timestamp back; an error is kept |
| `GroupAnswers.CloseArrives` | pkg/router/route_group.go:704-716 | an initiator counts the answer; any other open group answers with the same code and ends its read channel |
| `GroupAnswers.ServiceAnswers` | pkg/router/route_group.go:514-539 | service packets go out as they are; only a keep-alive waits for the mutex |
| `RouteGroupObject.RouteGroup.EnterWrite` | pkg/router/route_group.go:174-185 | up to the mutex: closed pipe, nothing to write, or let in |
| `RouteGroupObject.RouteGroup.LockWrite` | pkg/router/route_group.go:187-200 | past the mutex, with rule and transport in hand |
| `RouteGroupObject.RouteGroup.SendWrite` | pkg/router/route_group.go:336-362 | one Data packet on the forward rule whatever has been closed since, lastSent set only on success |
| `RouteGroupObject.RouteGroup.Write` | pkg/router/route_group.go:174-203 | the object does what the function says; while Close holds the mutex the call is let in |
| `RouteGroupObject.RouteGroup.EnterRead` | pkg/router/route_group.go:156-170 | up to the mutex: closed pipe, empty buffer, or let in |
| `RouteGroupObject.RouteGroup.LockRead` | pkg/router/route_group.go:305-314 | buffered bytes first, else on to the select |
| `RouteGroupObject.RouteGroup.Select` | pkg/router/route_group.go:316-327 | either ready case of the select: closed pipe; an item, or EOF on a closed channel or an empty item |
| `RouteGroupObject.RouteGroup.FinishRead` | pkg/router/route_group.go:329-332 | an item is handed out and the rest buffered, also after a close |
| `RouteGroupObject.RouteGroup.Read` | pkg/router/route_group.go:156-170 | the object does what the function says, including draining after a remote close |
| `RouteGroupObject.RouteGroup.BufRead` | vendor/github.com/skycoin/dmsg/pkg/ioutil/buf_read.go:11-19 | what fits is returned and exactly the rest is put behind what is buffered |
| `RouteGroupObject.RouteGroup.BeginClose` | pkg/router/route_group.go:206-224 | closed pipe, the shortcut after a remote close, nothing for a second Close during the wait, or the wait counter and one Close packet behind an optional Error packet |
| `RouteGroupObject.RouteGroup.FinishClose` | pkg/router/route_group.go:622-637 | the forward rule is deleted and the channels are closed as the function says |
| `RouteGroupObject.RouteGroup.HandleClosePacket` | pkg/router/route_group.go:704-716 | an initiator counts the answer; any other group answers once and shuts |
| `RouteGroupObject.RouteGroup.HandlePacket` | pkg/router/route_group.go:640-670 | every kind of packet has the effect of the function on group, table and transport |
| `RouteGroupObject.RouteGroup.BroadcastClosePackets` | pkg/router/route_group.go:748-763 | exactly the error packet of an initiator and the Close packet are written, in this order |
| `RouteGroupObject.RouteGroup.KeepAliveServiceFn` | pkg/router/route_group.go:502-512 | a keep-alive is due exactly when no data went out within the interval; it is sent, or let in while Close holds the mutex |
| `RouteGroupObject.RouteGroup.SendKeepAlive` | pkg/router/route_group.go:514-539 | the keep-alive goes out on the transport, and lastSent stays |
| `RouteGroupObject.RouteGroup.AppendRules` | pkg/router/route_group.go:803-811 | the rule, its reverse and its transport are appended together |
| `RouterObject.Router.HandleTransportPacket` | pkg/router/router.go:595-612 | with group objects shared by reference, table, groups, registrations and written packets end up as the reaction function says; a blocked packet has no effect |
| `RouterObject.Router.HandleClosePacket` | pkg/router/router.go:666-725 | the matched rule is always deleted; a group is told unless closed, and forgotten |
| `RouterObject.Router.ForwardPacket` | pkg/router/router.go:965-1022 | the packet goes to the rule's transport with the rule's next ID |
| `RouterObject.Router.Dispatch` | pkg/router/router.go:628-645 | the group found under the descriptor handles the packet and no other group changes |
| `RouterObject.Router.SaveRouteGroupRules` | pkg/router/router.go:487-593 | one new group under a free descriptor, all others unchanged |
| `RouterObject.Router.SaveRoutingRules` | pkg/router/router.go:1150-1161 | the rules are saved in order under their keys |
| `Setup.IDReserver.constructor` | pkg/router/id_reserver.go:53-86 | total is the number of visits of all paths, and each visor's 8-bit counter is its number of visits modulo 256 |
| `Setup.CountPaths` | pkg/router/id_reserver.go:57-67 | the counting loops, over any list of paths |
| `Setup.IDReserver.ReserveIDs` | pkg/router/id_reserver.go:88-111 | succeeds exactly if every counted visor has that many IDs left; each then issues the next consecutive ones |
| `Setup.IDReserver.PopID` | pkg/router/id_reserver.go:113-125 | takes the first remaining ID of a visor, or fails and changes nothing |
| `SetupProofs.TotalIsSum` | pkg/router/id_reserver.go:127-129 | TotalIDs is the sum of the counters if and only if no visor is visited more than 255 times |
| `RuleGeneration.GenerateRules` | pkg/router/setupnode.go:193-246 | the loops compute the function Generate; ErrNoKey exactly when a stack runs out |
| `RuleGeneration.GenerateRoute` | pkg/router/setupnode.go:198-243 | one route: one ID popped per visit in order, rules filed by kind and address |
| `RuleGeneration.GenerateHop` | pkg/router/setupnode.go:213-239 | one hop: chained from the current to the next popped ID |
| `SetupProofs.GenerateKeeps` | pkg/router/setupnode.go:230-241 | every generated rule, of whatever kind, has the keep-alive of its route |
| `SetupKeepAlive.HandedOutNeverTimesOut` | pkg/router/setupnode.go:230-241 | with a keep-alive of 30 s no rule that a setup hands out times out while the keep-alive service of its sender runs |
| `SetupProofs.CheckIff` | pkg/routing/route.go:66-84 | a request passes exactly if both paths are there and lead from one end of the descriptor to the other |
| `SetupProofs.IDConservation` | pkg/router/setupnode.go:198-243 | rule generation succeeds if and only if no visor is visited more than 255 times; then every stack ends empty and the rule keys are, visor by visor and in order, exactly the reserved IDs |
| `SetupProofs.PopSucceeds` | pkg/router/id_reserver.go:113-125 | popping along a path succeeds exactly when each stack is as high as the visor's number of visits |
| `SetupProofs.PopConserves` | pkg/router/id_reserver.go:113-125 | the IDs popped on the visits to a visor followed by those left are its stack |
| `SetupProofs.GenerateIsAssign` | pkg/router/setupnode.go:198-243 | for a forward and reverse route, generation is an assignment of IDs to visits |
| `SetupProofs.DispatchAgreement` | pkg/router/setupnode.go:131-142 | for every checked route both edge lookups are in range; if the two addresses differ, each edge gets the forward rule of its own direction and the consume rule of the other, under the descriptor its consume rule carries, the inverse of its forward rule's |
| `SetupProofs.SharedAddress` | pkg/router/setupnode.go:131-142 | if the addresses coincide the responder finds the initiator's forward rule |
| `FreshIds.RespondsIff` | pkg/router/setupnode.go:131-142 | with the IDs that visors issue, the responder gets the forward rule of its own direction if and only if the two addresses differ |
| `SetupProofs.HandedOutIsChains` | pkg/router/setupnode.go:249-280 | edges and broadcast together hand out exactly the two chains of rules, each at the visor that issued its key |
| `SetupNode.CreateRouteGroup` | pkg/router/setupnode.go:113-161 | succeeds exactly on checked routes whose visors can grant the IDs, with the rules of the two chains over the issued IDs; failures may use up IDs but never reissue one |
| `FreshIds.IssuedApart` | pkg/routing/table.go:86-99 | the IDs of a new route are new at their visors and pairwise different there |
| `Delivery.ChainDelivers` | pkg/router/setupnode.go:198-243 | from any place of a chain, following the rules crosses exactly the remaining transports in order and ends at the destination's consume rule with the route's descriptor, also if visors repeat |
| `Delivery.HandedOutDelivers` | pkg/router/setupnode.go:113-161 | the rules handed out by setup deliver in both directions after exactly as many writes as hops |
| `Delivery.EstablishedDelivers` | pkg/router/setupnode.go:113-161 | whatever other routes are in place, a route just established delivers end to end |
| `Table.MemTable.ReserveKeys` | pkg/routing/table.go:72-99 | an error that changes nothing, exactly n consecutive IDs after the last one, or a panic exactly for counts that are negative or overflow int64; the 32-bit loop ends |
| `Table.LiveIff` | pkg/routing/table.go:223-229 | a rule is live exactly while the plain difference between now and its last activity is at most its keep-alive; only the largest int64 never runs out |
| `Table.MemTable.SaveRule` | pkg/routing/table.go:101-113 | both maps get the key; their key sets stay equal |
| `Table.MemTable.Rule` | pkg/routing/table.go:117-138 | finds exactly the rules whose idle time is at most their keep-alive, and refreshes only consume rules |
| `Table.MemTable.UpdateActivity` | pkg/routing/table.go:140-156 | refreshes exactly the rules whose idle time is at most their keep-alive |
| `Table.MemTable.AllRules` | pkg/routing/table.go:172-184 | lists each live rule once and nothing else |
| `Table.MemTable.DelRules` | pkg/routing/table.go:186-197 | removes the keys from both maps |
| `Table.MemTable.CollectGarbage` | pkg/routing/table.go:206-219 | removes exactly the expired rules and returns each of them once |
| `Table.CollectUnobserved` | pkg/routing/table.go:206-219 | collection changes no lookup and no listing at that instant, and keeps the activity of what stays |
| `TableHistory.FreshKeys` | pkg/routing/table.go:72-99 | over every history in which no reservation panics, each fails or gives n non-zero IDs, above all those of every earlier reservation |
| `TableHistory.ReservesIff` | pkg/routing/table.go:86-99 | a reservation succeeds if and only if it leaves the number of IDs ever issued below 4294967295 |
| `TableHistory.CounterIsIssued` | pkg/routing/table.go:86-99 | the counter stands at the number of IDs issued: none is wasted |
| `TableHistory.NegativeCountReissues` | pkg/routing/table.go:86-99 | the bound on the count is needed: a negative one makes the table issue an ID again |
| `TableHistory.NoResurrection` | pkg/routing/table.go:101-156 | over every history with a monotone clock, a rule is found if and only if an unbroken chain of refreshes, with no gap above its keep-alive, leads from its last save to the present |
| `KeepAlives.SendsAreDense` | pkg/router/route_group.go:487-512 | for every schedule of writes and other packets, consecutive sends are less than the keep-alive period apart |
| `KeepAlives.DueIff` | pkg/router/route_group.go:502-512 | a keep-alive is due exactly when the last data is an interval or more ago |
| `KeepAlives.TickSends` | pkg/router/route_group.go:487-512 | a tick sends exactly if no data went out in the last 15 s |
| `KeepAlives.NeverTimesOut` | pkg/router/route_group.go:502-512 | so neither the sender's forward rule nor, with a constant delay, any rule downstream ever times out, whatever else happens to the tables |
| `Bytes.BigEndian` | pkg/routing/rule.go:79-103 | byte i of an n-byte number is its digit n-1-i in base 256: the most significant byte comes first |
| `Bytes.FromBigEndian` | pkg/routing/rule.go:66-98 | and it is read as the most significant |
| `RuleLayout.HeadBytes` | pkg/routing/rule.go:66-104 | length, keep-alive, type and key of every constructed rule, byte by byte |
| `RuleLayout.BodyBytes` | pkg/routing/rule.go:372-422 | descriptor, next route, next transport and zeros of every constructed rule, byte by byte |
| `RuleLayout.DescBytes` | pkg/routing/route_descriptor.go:15-93 | keys and ports of a descriptor, byte by byte |
| `RuleLayout.GettersRead` | pkg/routing/rule.go:66-175 | what each getter reads from arbitrary bytes, by index |
| `RuleLayout.GettersDefined` | pkg/routing/rule.go:59-175 | for which bytes each getter and Summary answer, and for which the source panics |
| `RuleLayout.SummaryShows` | pkg/routing/rule.go:327-369 | a summary shows every field of its rule under its own name |
| `RuleCodec.RuleReads` | pkg/routing/rule.go:66-175 | every field of every constructed rule reads back, a negative keep-alive as zero; a field that the kind lacks is refused |
| `RuleCodec.DescRoundTrip` | pkg/routing/route_descriptor.go:15-93 | a descriptor is recovered from its 70 bytes |
| `RuleCodec.DescBytesRoundTrip` | pkg/routing/route_descriptor.go:15-93 | every 70 bytes are the bytes of the descriptor they decode to |
| `RuleCodec.InvertTwice` | pkg/routing/route_descriptor.go:91-93 | Invert exchanges source and destination and is its own inverse, on all byte strings |
| `RuleSummaries.ToRuleThenSummary` | pkg/routing/rule.go:293-324 | gives back the summary, if and only if its keep-alive is not negative |
| `RuleSummaries.SummaryThenToRule` | pkg/routing/rule.go:327-369 | on arbitrary bytes: never fails, and reproduces them if and only if they are canonical (exact length, zero spare bytes, keep-alive in range) |
| `RuleSummaries.ConstructedRoundTrip` | pkg/routing/rule.go:372-422 | Summary then ToRule reproduces every constructed rule byte for byte |
| `RuleBuffers.SetKeepAlive` | pkg/routing/rule.go:72-80 | writes exactly its field, clamped at zero, or panics without writing |
| `RuleBuffers.SetNextRouteID` | pkg/routing/rule.go:145-158 | writes exactly its field, at the place the rule's type gives it |
| `RuleBuffers.SetNextTransportID` | pkg/routing/rule.go:178-191 | writes exactly its field, at the place the rule's type gives it |
| `RuleBuffers.SetInDescriptor` | pkg/routing/rule.go:194-235 | the descriptor setters write exactly their bytes and only in rules with a descriptor |
| `RuleBuffers.FieldSet` | pkg/routing/rule.go:72-235 | a setter replaces its own field of the layout and no other |
| `RuleBuffers.ConsumeRule` | pkg/routing/rule.go:372-385 | the buffer filled in place is the encoding of the consume rule |
| `RuleBuffers.ForwardRule` | pkg/routing/rule.go:388-409 | the buffer filled in place is the encoding of the forward rule |
| `RuleBuffers.IntermediaryForwardRule` | pkg/routing/rule.go:412-422 | the buffer filled in place is the encoding of the intermediary rule |
| `RuleBuffers.ToRule` | pkg/routing/rule.go:293-324 | succeeds exactly on summaries with the one matching field set, and gives the bytes of the described rule |
| `RuleBuffers.NewRouteDescriptor` | pkg/routing/route_descriptor.go:15-24 | the array filled in place is the encoding of the descriptor |
| `PacketLayout.HeaderBytes` | pkg/routing/packet.go:99-194 | type, route ID and size of every kind of packet, byte by byte |
| `PacketLayout.PayloadBytes` | pkg/routing/packet.go:99-194 | payload of every kind of packet, byte by byte, times in two's complement |
| `PacketLayout.HeaderRead` | pkg/routing/packet.go:197-214 | what the getters read from arbitrary bytes, by index |
| `PacketLayout.MakeableIff` | pkg/routing/packet.go:100-102 | only data and errors can be too long for a packet, and are exactly above 65535 bytes |
| `PacketCodec.ForwardFails` | pkg/router/router.go:973-1006 | which framed packets make forwarding panic or fail |
| `PacketCodec.EncodeReads` | pkg/routing/packet.go:197-214 | type, route ID, size and payload of every constructed packet read back |
| `PacketCodec.ForwardPreserves` | pkg/router/router.go:965-1008 | every constructed packet, re-encoded by a forwarding router, is itself with the next route ID |
| `PacketCodec.ChainPreserves` | pkg/router/router.go:965-1008 | over any chain of rules only the route ID changes, to the last rule's next ID |
| `PacketCodec.ForwardUnchangedIff` | pkg/router/router.go:965-1008 | an arbitrary framed packet is forwarded unchanged but for its ID if and only if its payload is one its kind can have |
| `PacketBuffers.MakeDataPacket` | pkg/routing/packet.go:99-112 | the encoding of the Data packet, or the size error exactly above 65535 bytes |
| `PacketBuffers.MakeErrorPacket` | pkg/routing/packet.go:181-194 | the encoding of the Error packet, or the size error exactly above 65535 bytes |
| `PacketBuffers.MakeClosePacket` | pkg/routing/packet.go:115-124 | the encoding of the Close packet |
| `PacketBuffers.MakeKeepAlivePacket` | pkg/routing/packet.go:127-135 | the encoding of the keep-alive packet |
| `PacketBuffers.MakePingPacket` | pkg/routing/packet.go:138-148 | the encoding of the Ping packet, both signed times |
| `PacketBuffers.MakePongPacket` | pkg/routing/packet.go:151-160 | the encoding of the Pong packet, whose last eight bytes stay zero |
| `PacketBuffers.MakeHandshakePacket` | pkg/routing/packet.go:163-177 | the encoding of the Handshake packet |
| `Framing.Stream.ReadPacket` | pkg/transport/managed_transport.go:383-423 | the first packet of the stream however it is split into reads, as long as bytes 5 and 6 announce, or an error exactly if the stream ends within it |
| `Framing.Stream.ReadAll` | pkg/transport/managed_transport.go:126-142 | the read loop returns exactly the packets of the stream |
| `Framing.FramingInverse` | pkg/transport/managed_transport.go:383-423 | the bytes of any list of constructed packets, with less than a packet behind them, parse to exactly that list and fail on the tail |
| `Framing.TruncatedFails` | pkg/transport/managed_transport.go:383-423 | a packet cut short anywhere yields no packet |
| `Framing.ParseConserves` | pkg/transport/managed_transport.go:383-423 | on arbitrary bytes the parsed packets and the tail are the stream |
| `Framing.ReadBack` | pkg/transport/managed_transport.go:383-423 | however the network splits a list of packets, the read loop returns the list |
| `IdRing.Manager.ReserveNextID` | pkg/app/idmanager/manager.go:47-69 | the first free ID after the cursor in ring order; fails if and only if every ID but the cursor's is occupied; the wrapping search ends |
| `IdRing.Manager.Pop` | pkg/app/idmanager/manager.go:73-93 | removes and returns exactly set values |
| `IdRing.Manager.Add` | pkg/app/idmanager/manager.go:96-110 | adds exactly to unoccupied IDs |
| `IdRing.Manager.Set` | pkg/app/idmanager/manager.go:113-132 | fills exactly reserved empty slots |
| `IdRing.Manager.Get` | pkg/app/idmanager/manager.go:135-145 | answers exactly with set values |
| `IdRing.Manager.CloseAll` | pkg/app/idmanager/manager.go:168-189 | closes and removes exactly the set values and leaves reserved slots |
| `IdRing.FreeFunc.Call` | pkg/app/idmanager/manager.go:193-209 | frees the slot on the first call and does nothing afterwards |
| `IdRing.FirstFreeUnique` | pkg/app/idmanager/manager.go:47-69 | the first free ID is unique and exists only if the ring is not full |
| `IdRing.FairReuse` | pkg/app/idmanager/manager.go:47-69 | between two issues of an ID, every other ID was issued, or occupied when the cursor passed it, whatever else happened to the values |
| `Gateway.Accounting` | pkg/app/appserver/rpc_ingress_gateway.go:116-150 | in every interleaving of calls with failures at any point, empty slots are the calls in progress and filled slots open connections, one to one; they are all the open connections if and only if no call failed to wrap its connection |
| `Gateway.FailedWrapLeaks` | pkg/app/appserver/rpc_ingress_gateway.go:130-134 | the exception is real: after one such call its connection is open and no slot knows of it, so no close call reaches it |
| `Gateway.SlotStays` | pkg/app/appserver/rpc_ingress_gateway.go:186-231 | a reserved slot stays with its call, and empty, until that call ends it |
| `Gateway.SetNeverFails` | pkg/app/appserver/rpc_ingress_gateway.go:136-142 | the Set that follows a reservation fills the slot in every reachable state |
| `SubnetAllocator.Incrementer.NextIP` | internal/vpn/subnet_ip_incrementer.go:32-117 | the nested loops end and issue the block that Next specifies: the first one not blocked after the last issued, else in the /24 that follows |
| `SubnetAllocator.Incrementer.Scan` | internal/vpn/subnet_ip_incrementer.go:48-80 | one pass over a /24 with wrapping 8-bit counters finds the first block that is not blocked |
| `SubnetAllocator.Incrementer.IsReserved` | internal/vpn/subnet_ip_incrementer.go:61-68 | the scan of a block, with its wrapping bound |
| `SubnetAllocator.Incrementer.Reserve` | internal/vpn/subnet_ip_incrementer.go:119-124 | adds the address to the reserved ones |
| `Subnet.PickIsFirst` | internal/vpn/subnet_ip_incrementer.go:48-80 | a scan returns the first block not blocked, and none exactly if all are blocked |
| `Subnet.IssuedBlock` | internal/vpn/subnet_ip_incrementer.go:32-117 | every issued block is 8-aligned and in range and, up to last octet 240, holds no address issued or reserved before |
| `Subnet.ConfiguredNeverFail` | internal/vpn/ip_generator.go:22-24 | the three configured ranges never run out: the last block of a /24 is never blocked |
| `Subnet.ServerAddresses` | internal/vpn/server.go:309-321 | the server's four addresses do not wrap and stay in the issued /29 |
| `Subnet.NextRow` | internal/vpn/subnet_ip_incrementer.go:80-110 | in a range with several third octets a call stays in its /24 until the last block was issued and all others are blocked, then goes to the next third octet, from the border back to the lowest |
| `SubnetRuns.KthCall` | internal/vpn/subnet_ip_incrementer.go:32-117 | exactly which address each call on a new incrementer issues: 33 calls per /24 in turn, and after the last /24 the last blocks over and over |
| `SubnetRuns.OneSixteen` | internal/vpn/subnet_ip_incrementer.go:90-110 | over every run the first two octets never change |
| `Subnet.PrivateRanges` | internal/vpn/ip_generator.go:22-24 | the configured ranges are 10.0.0.0/8, 172.16.0.0/12 and 192.168.0.0/16 from third octet 2 on |
| `Subnet.TakenIff` | internal/vpn/subnet_ip_incrementer.go:32-117 | a call issues a block that is taken if and only if, in the /24 it gets to, every block ahead of the last is blocked and the last is taken |
| `SubnetAllocator.ReissuedIff` | internal/vpn/subnet_ip_incrementer.go:32-124 | over every run, a call issues a block with an address issued or reserved before if and only if its state before the call is such a clash |
| `SubnetAllocator.NeverReissued` | internal/vpn/subnet_ip_incrementer.go:32-124 | over every run a block with last octet at most 240 is issued at most once and contains no address reserved before |
| `SubnetAllocator.LastBlockReissued` | internal/vpn/subnet_ip_incrementer.go:61-78 | the exception is real: the 31st and the 33rd call on a new incrementer issue the same block x.y.z.248 |

## Left out

Assumptions of the route and network machines:

- RouteGroupObject.RouteGroup.BeginClose: the part of Close before its wait is one step, so a Close
  packet arrives before or after it, not between its checks; so are the rest of Close, every delivery and
  every step of a Write or Read, and an answer to a Ping goes out in the step that takes the Ping.
- RouteGroupObject.RouteGroup.Write: one writer per end, so there is one Write in progress at a time.
- RouteGroupObject.RouteGroup.Read: one reader per end, so there is one Read in progress at a time.
- Transports are lossless and FIFO between two visors; rules do not expire there (expiry is the subject
  of `TableHistory` and `KeepAlives`); there are no deadlines.
- A setup is one step that includes a successful handshake; setups that fail appear as IDs used up.
  Remote calls of the setup node are direct calls on the visors' tables. The paths are contiguous, which
  Check does not test, and run over existing transports.
- RouterObject.Router.SaveRouteGroupRules: a descriptor is used for one group only: `rgsRaw` after failed
  handshakes and the replacement of a group under a reused descriptor are not modelled.
- A group has one forward rule and one transport, as the router builds it.
- KeepAlives.NeverTimesOut: ticks are exact, a send refreshes the rule at the instant of the send, and
  the delay to each visor is constant.

Not modelled:

- Noise encryption and the agreement on it after a handshake timeout.
- Agreement of two transports after simultaneous dialing, and the rest of `ManagedTransport` but
  `readPacket`.
- `IPGenerator.Next` when a range is exhausted, and incrementers with another step or last octet range
  than the configured ones, for which the scan need not end.
- `RulesWithDesc`, `Count`, `Len` and `DoRange`: easy members.
- Slices beyond a buffer's length but within its capacity: buffers have capacity equal to length.
- Dialing, discovery, HTTP, the visor, hypervisor, launcher and user interfaces, logs and statistics.
