# Karst relay: a verified model

This project models the forwarding core of the Karst relay and the accounting
around it, and proves what the design promises about them.  It is written in
Dafny 4.11; `dafny verify dfyconfig.toml` checks all of it.

What is modelled, and how the files follow it:

* **Forwarding hub** (`bins/karst-relay/src/hub.rs`).  `Lanes` is one
  connection's bounded write queue.  `HubModel` gives each operation as a value:
  the registry it settles on and the effects on connections that follow.
  `HubObject.ForwardingHub` is the hub as the relay has it, a class whose
  methods update its tables in place and are proved equal to those values.
  `HubRuns` adds events in any order and a journal of what happened, and
  `HubInvariants`, `HubTraffic`, `HubPresence`, `HubLedger`, `HubLifecycle`,
  `HubAquifers` and `HubNetwork` prove properties of every run, the last of any
  number of meshed hubs; `HubReplica` and `HubStale` look at presence from the
  receiving end.  `HubServer.Server` drives the object as the server
  does, and keeps the run that its calls so far amount to.
* **Token buckets** (`limits.rs`) in `Limits`, and in `Accrual` against a bucket
  that loses nothing.
* **Usage accounting** (`usage.rs`) in `Usage`, `UsageRuns` (writers, queue and
  consumer interleaved), `UsageObject` (the accumulator and the consumer as
  classes), `UsageSealing` and `UsageCodec` (the stored form), with
  `ControlPlane` for the second implementation of that form, the Go reader in
  the management server, `UsageBilling` for the whole way from a delivery to
  that reader, and `UsageRoster` for the mappings a roster can give.
* **Byte credits** (`credits.rs`) in `Credits`, `CreditObject` (the controller
  as a class), `CreditRuns` (every lock-held region one step), `CreditSafety`
  and `CreditFlight`, and with the hub that asks it in `HubCredits`.
* **The HTTP upgrade** (`http.rs` and the read loop of `server.rs`) in `Upgrade`
  and `Recasing`.
* **Dates** (`karst-bedrock`) in `Calendar`, **line simplification** (the map
  tool) in `Simplify`, **base 62** in `Base62`.

Conventions.  Ids are opaque numbers; a frame is a datatype with the length its
encoding has.  Clocks, randomness, the control plane's answers, what storing a
batch comes to and the iteration order of hash tables are inputs of the model,
so a theorem holds for each of them.  64-bit saturation, 32-bit wrap-around and
division toward zero are written out where the code has them.  Structs that the
code copies freely (buckets, meters) are values, and their updating methods
return the struct after the update.

Where code and comments differ the model follows the code.  Three places:

* `limits.rs` explains that advancing the clock only on a non-zero refill avoids
  losing the fractional remainder.  A committed refill still drops the fraction
  behind its whole tokens, and a full bucket that pays before a refill is due
  keeps time it should have spilled.  `Accrual` compares the bucket with a tank
  in thousandths of a token that is credited by elapsed time alone.  In every
  run the bucket stays within one fraction of a token above the tank, and below
  it within one fraction per committed refill and one more (`DriftBound`).  The
  two decide every run within a span alike if and only if no refill saturates
  short of the cap and either a millisecond's whole tokens fill the bucket or
  the fraction of a token earned per millisecond does not add up to a token
  within the span (`AgreeExactly`); `RefusesWhatIsThere` and `GrantsWhatIsNot`
  are runs on which they differ, one each way.
* `roster.rs` and the Go reader disagree on which text a mapping may hold: the
  roster checks the deployment and the version and copies the aquifer as it is.
  In every run whose mappings come from roster rows, a stored minute is accepted
  if and only if every aquifer in it is trimmed text without control characters
  (`UsageRoster.AcceptedIffAquifersClean`), and every other aquifer that fits
  its field is stored by some run and refused (`UsageRoster.UncleanAquiferIsStored`).
* Presence gossip is to tell every relay where a node is.  What a relay sends is
  right (`HubPresence.PresenceReplication`), and with a link drained its peer
  believes a node to be there if and only if it is and that relay was the last
  heard to claim it (`HubReplica.PresenceIsSo`).  So a late claim from a relay
  that the node has left hides the one where it is
  (`HubStale.LateClaimRun`), and a link that is replaced before the end of the
  old one is noticed leaves entries that were never retracted
  (`HubStale.OverlappingRun`).

Assumptions that runs are stated under: connection ids are fresh (the server
counts them up), the queue depth is at least one (the configuration refuses
zero), and the control plane names every credit grant anew.

## Model

| member | source | states |
|---|---|---|
| Lanes.QueueOrder | bins/karst-relay/src/hub.rs:676-735 | For every history of one queue: what waits is a run of priority frames followed by ordinary frames, and the ordinary frames that left followed by those that wait are all ordinary frames ever queued, in order, each once; so drops take the oldest and nothing is reordered or duplicated. |
| Lanes.QueueBound | bins/karst-relay/src/hub.rs:676-771 | The queue never holds more than its depth plus the reasoned closes pushed, and at most its depth right after any enqueue. |
| Lanes.ReplayExplains | bins/karst-relay/src/hub.rs:676-735 | The position account used for order describes the queue that the operations really build, and its drop count is the number the bound displaced. |
| HubLedger.ConnectionOrder | bins/karst-relay/src/hub.rs:676-797 | In every reachable state each connection's queue is the one its history explains, with the order property above. |
| HubLedger.ConnectionAccounts | bins/karst-relay/src/hub.rs:676-850 | In every reachable state, per connection: frames out plus reasoned closes equals frames dropped by the bound plus frames taken plus frames waiting; and the length bound. |
| HubLedger.NewestWins | bins/karst-relay/src/hub.rs:309-355 | Over every run a node or relay id maps to a connection if and only if that connection is the last one admitted for the id and is still registered. |
| HubLedger.DisconnectReleasesOwnOnly | bins/karst-relay/src/hub.rs:807-840 | Disconnecting reports a node if and only if that node's mapping goes away, and leaves every mapping held by another connection as it was. |
| HubLifecycle.ReplacementHandsOver | bins/karst-relay/src/server.rs:894-909 | A node that reconnects, from admission to the end of its old connection, with any events in between: the old one is reported, told why behind what it still has to send, and forgotten without touching its successor; none of the three steps sends anything to another connection, so the mesh hears neither an arrival nor a departure; and no packet is queued to the old connection from the admission on. |
| HubLifecycle.ReplacedForGood | bins/karst-relay/src/hub.rs:309-355 | In every continuation of a run a connection that was replaced owns no node, and no packet is queued to it. |
| HubLedger.FoldIsSaturatedSum | bins/karst-relay/src/hub.rs:137-148 | Absorbing connections one by one with saturation gives the saturated exact sum of each counter, in whatever order they come. |
| HubLedger.TotalsOrderIndependent | bins/karst-relay/src/hub.rs:870-876 | The totals do not depend on the order in which connections are visited. |
| HubLedger.TotalsNeverDecrease | bins/karst-relay/src/hub.rs:864-876 | No counter of the totals goes down across any admission, frame, take, close, restart, probe or departure. |
| HubInvariants.RunsKeepCore | bins/karst-relay/src/hub.rs:239-273 | In every reachable state the ownership tables point at connections of the right kind and id, and every queue and outbound counter is the one the history gives. |
| HubPresence.PresenceReplication | bins/karst-relay/src/hub.rs:309-355 | In every reachable state, a mesh connection that owns its relay id and has lost nothing to its bound has been told, by the frames it took and then those waiting, exactly the nodes connected here. |
| HubPresence.GossipKeepsTold | bins/karst-relay/src/hub.rs:747-757 | Gossiping an arrival or departure brings every mesh peer's view from the old set of nodes to the new one. |
| HubPresence.MeshTellsNothing | bins/karst-relay/src/hub.rs:574-587 | A corrective departure notice to a mesh peer never contradicts what it was told: it names only nodes that are not here. |
| HubReplica.PresenceIsHeard | bins/karst-relay/src/hub.rs:450-466 | In every run a node is believed to be at a relay if and only if that relay was the last heard to claim it, and has neither been heard to retract it nor had its link severed since. |
| HubReplica.PresenceIsSo | bins/karst-relay/src/hub.rs:450-466 | For every run of a receiver and of a sender whose link is drained, lost nothing, and gave exactly what was heard since it was last severed: the receiver believes a node to be at the sender if and only if it is there and the sender was the last heard to claim it. |
| HubReplica.LateClaimHides | bins/karst-relay/src/hub.rs:450-466 | Whenever the last relay heard to claim a node is one where it is not, the receiver has no entry for it, wherever it is. |
| HubStale.LateClaimRun | bins/karst-relay/src/hub.rs:450-466 | Such runs, both links drained and nothing refused: the node has moved, the claim of where it is now is heard first, and then the old relay's claim and retraction. |
| HubStale.OverlappingRun | bins/karst-relay/src/hub.rs:807-840 | Runs on which a replaced link leaves a false entry: the retraction is lost with the old connection, which ends only after the new one is up. |
| HubTraffic.QueuesKeepRoles | bins/karst-relay/src/hub.rs:392-470 | No client queue ever holds a Forward or a presence claim, and no mesh queue a packet for delivery. |
| HubTraffic.AquiferIsolation | bins/karst-relay/src/hub.rs:474-613 | With a fixed roster and admissions that agree with it, every packet waiting for a client names a source in that client's aquifer, whether it came from a local client or from any mesh peer. |
| HubNetwork.MeshQueuesOne | bins/karst-relay/src/hub.rs:564-613 | One hop: handling a Forward queues at most one packet and never another Forward. |
| HubNetwork.DispatchQueuesOne | bins/karst-relay/src/hub.rs:392-470 | Any accepted frame queues at most one packet or Forward, a Forward only for a client's SendPacket, and a refused frame none. |
| HubNetwork.NoAmplification | bins/karst-relay/src/hub.rs:392-613 | In any run of any number of meshed hubs, with frames in flight delivered in any order to any mesh connection or lost, the packets ever queued for delivery never exceed the packets accepted from clients. |
| HubAquifers.AquiferRateBound | bins/karst-relay/src/hub.rs:512-626 | In every run, with any roster at every step: the packets ever queued on behalf of one aquifer, in payload bytes and in number, stay within its burst plus its rate over the time its meter was in use, whatever the number of nodes, reconnects and mesh peers. A packet is on behalf of the aquifer its sender was admitted to, or off the mesh of its source's aquifer in the roster of that moment. |
| HubAquifers.EveryPacketHasAnOwner | bins/karst-relay/src/hub.rs:474-613 | A step that is on behalf of no aquifer queues no packet, so the bounds above leave none out. |
| HubAquifers.BySource | bins/karst-relay/src/hub.rs:474-613 | While one roster holds and admissions agree with it, the packets whose source it puts in an aquifer are among those queued on that aquifer's behalf. |
| HubObject.ForwardingHub.MakeRoom | bins/karst-relay/src/hub.rs:688-692 | Popping from the head until one more fits leaves the newest frames, counts what went, and reports whether anything did. |
| HubObject.ForwardingHub.Enqueue | bins/karst-relay/src/hub.rs:676-708 | The new hub is the old one with the frame pushed to that queue; true exactly when there was room. |
| HubObject.ForwardingHub.EnqueuePriority | bins/karst-relay/src/hub.rs:718-735 | The new hub is the old one with the frame at the head of that queue. |
| HubObject.ForwardingHub.Gossip | bins/karst-relay/src/hub.rs:747-757 | Every mesh connection that owns its relay id gets the frame once. |
| HubObject.ForwardingHub.Admit | bins/karst-relay/src/hub.rs:309-355 | Registration, announcement and the replaced connection are those of the model's admission. |
| HubObject.ForwardingHub.Disconnect | bins/karst-relay/src/hub.rs:807-840 | The new hub and the released node are those of the model's departure. |
| HubObject.ForwardingHub.BeginClose | bins/karst-relay/src/hub.rs:760-771 | A reasoned close goes behind what waits, past the bound and uncounted. |
| HubObject.ForwardingHub.BeginRestart | bins/karst-relay/src/hub.rs:784-797 | Every client is told ahead of what waits and then closed. |
| HubObject.ForwardingHub.TakeOutbound | bins/karst-relay/src/hub.rs:848-850 | Removes and returns the head of one queue. |
| HubObject.ForwardingHub.ChargeAquifer | bins/karst-relay/src/hub.rs:618-626 | Creates the aquifer's meter full on first use and charges it, or admits when there is no budget. |
| HubObject.ForwardingHub.DeliverAttributed | bins/karst-relay/src/hub.rs:632-657 | Delivery, the spending gate and the counting of what was displaced. |
| HubObject.ForwardingHub.ForwardFromClient | bins/karst-relay/src/hub.rs:474-558 | A client's packet is refused, charged and routed as in the model, the source stamped from the connection. |
| HubObject.ForwardingHub.DeliverFromMesh | bins/karst-relay/src/hub.rs:564-613 | A Forward is delivered here, corrected or dropped as in the model. |
| HubObject.ForwardingHub.OnFrame | bins/karst-relay/src/hub.rs:392-470 | Metering, counting and dispatch of one frame by role. |
| HubObject.ForwardingHub.ProbeRtt | bins/karst-relay/src/hub.rs:919-931 | At most one outstanding probe per client, sent ahead of what waits. |
| HubObject.ForwardingHub.Totals | bins/karst-relay/src/hub.rs:870-876 | The loop over live connections computes the saturated totals. |
| HubObject.ForwardingHub.TakeDirty | bins/karst-relay/src/hub.rs:297-299 | Hands over the connections with something to write, in ascending order, and starts afresh. |
| HubServer.Server.Join | bins/karst-relay/src/server.rs:894-904 | The call is one admission event under an id never given out before, and the object is in the state that the run so far leads to. |
| HubServer.Server.Leave | bins/karst-relay/src/server.rs:999-1009 | The same for a departure, with the node it releases. |
| HubServer.Server.Hear | bins/karst-relay/src/server.rs:1027-1042 | The same for a frame, with its verdict. |
| HubServer.Server.Close | bins/karst-relay/src/server.rs:906-908 | The same for a close. |
| HubServer.Server.Restart | bins/karst-relay/src/server.rs:710-713 | The same for a restart notice to every client. |
| HubServer.Server.Take | bins/karst-relay/src/server.rs:1061-1064 | The same for taking the next frame to write. |
| HubServer.Server.Probe | bins/karst-relay/src/server.rs:985-989 | The same for a latency probe, which is sent exactly to a client that has none outstanding. |
| HubServer.Server.Collect | bins/karst-relay/src/server.rs:173-187 | The same for collecting the connections to wake, in ascending order. |
| HubServer.ServerOwnsNewest | bins/karst-relay/src/hub.rs:309-355 | After any sequence of calls the object's table names, for every node, the last connection admitted for it while that one is registered. |
| Limits.Take | bins/karst-relay/src/limits.rs:82-99 | Pays exactly when the lazily refilled amount covers the charge, and keeps the bucket within its cap. |
| Limits.Admit | bins/karst-relay/src/limits.rs:128-138 | Charges both buckets or neither. |
| Limits.RateBound | bins/karst-relay/src/limits.rs:82-138 | For every sequence of calls, even with a clock that goes backwards, bytes and frames admitted are at most the burst plus the rate over the time between the start and the latest time seen. |
| Limits.LazyRefinesTicking | bins/karst-relay/src/limits.rs:82-138 | With rates in whole tokens per millisecond, a non-decreasing clock and no harmful saturation, every decision is that of a pair of buckets topped up every millisecond. |
| Accrual.DriftBound | bins/karst-relay/src/limits.rs:82-99 | For any rate and every run of requests, paid or refused, with a non-decreasing clock and no harmful saturation: what the bucket can pay at any later time is at most one fraction of a token above what an exact tank that paid the same holds, and at most one fraction per committed refill, and one more, below it. |
| Accrual.SettlingChangesNothing | bins/karst-relay/src/limits.rs:82-99 | The exact tank decides alike whether its books are settled at every request or only when it pays. |
| Accrual.MeterIsTwoBuckets | bins/karst-relay/src/limits.rs:128-138 | Over every run each bucket of a meter is the bucket its own requests give, where a request commits only if the other bucket could pay. |
| Accrual.MeterDrift | bins/karst-relay/src/limits.rs:128-138 | The same bounds for both buckets of a meter over every run of it. |
| Accrual.AgreeExactly | bins/karst-relay/src/limits.rs:84-91 | The bucket and the exact tank, each deciding for itself, answer every run within a span alike if and only if no refill saturates short of the cap and either a millisecond's whole tokens fill the bucket or the fractions earned over the span stay below one token. |
| Accrual.MeterIsExact | bins/karst-relay/src/limits.rs:128-138 | A meter both of whose budgets meet that condition decides every call as two exact tanks behind one gate would. |
| Accrual.RefusesWhatIsThere | bins/karst-relay/src/limits.rs:84-91 | At 1500 tokens a second, emptied and then asked for 1 and 2 tokens a millisecond apart, the bucket refuses what the exact tank has. |
| Accrual.GrantsWhatIsNot | bins/karst-relay/src/limits.rs:84-91 | At 500 tokens a second, emptied after a millisecond of being full, the bucket grants a token that the exact tank does not have yet. |
| UsageRuns.GapSoundness | bins/karst-relay/src/usage.rs:231-341 | For every interleaving of reports, queue overflow, ticks, clock jumps and failed stores: if the last seal succeeded and no stored minute carries a gap, the stored totals of every mapping are exactly the bytes ever reported for it, and nothing was reported without a mapping. |
| UsageRuns.WindowsFollow | bins/karst-relay/src/usage.rs:310-341 | In every reachable state stored minutes strictly increase, and neighbours abut unless one of them is flagged. |
| UsageBilling.NeverOverbills | bins/karst-relay/src/usage.rs:231-341 | In every state of every run, whatever was lost, jumped or failed, the bytes stored for a mapping never exceed the bytes reported for it. |
| UsageBilling.BillingIsSound | bins/karst-relay/src/usage.rs:231-535 | End to end through encoding and the Go reader: the control plane never reads more bytes for a mapping than were delivered, and reads exactly those when the last seal succeeded, no gap is stored and every mapping is text it accepts. |
| UsageObject.Accumulator.New | bins/karst-relay/src/usage.rs:458-468 | Opens a minute, or refuses bounds that are misaligned or overflow. |
| UsageObject.Accumulator.Record | bins/karst-relay/src/usage.rs:473-506 | Adds the bytes or raises the gap that says why not. |
| UsageObject.Consumer.Advance | bins/karst-relay/src/usage.rs:310-341 | The loop seals minute by minute, or leaps with a clock gap, as the model's function does. |
| UsageObject.Consumer.Tick | bins/karst-relay/src/usage.rs:263-268 | A tick brings the open minute to the present as the model's advance does. |
| UsageObject.Consumer.Receive | bins/karst-relay/src/usage.rs:273-288 | One observation: advance, take the loss flag down into the window, record. |
| UsageObject.Consumer.Finish | bins/karst-relay/src/usage.rs:290-306 | The closing seal, and a clean shutdown exactly when it was stored. |
| UsageCodec.Encode | bins/karst-relay/src/usage.rs:386-444 | Succeeds exactly on windows of one minute whose rows are bounded and strictly sorted and whose bytes fit the cap, and then gives the canonical bytes. |
| UsageCodec.PayloadBound | bins/karst-relay/src/usage.rs:386-444 | Every window the encoder accepts stays below the 8 MiB cap. |
| UsageCodec.PayloadReads | bins/karst-relay/src/usage.rs:386-444 | Reading the bytes back recovers bounds, rows and gap set exactly. |
| UsageCodec.PayloadInjective | bins/karst-relay/src/usage.rs:386-444 | Distinct windows never share bytes. |
| UsageSealing.SealedEncodes | bins/karst-relay/src/usage.rs:513-535 | Every minute that opening, recording and marking can produce seals to a window the encoder accepts. |
| UsageSealing.SealedRoundTrip | bins/karst-relay/src/usage.rs:386-535 | Reading a stored minute recovers its bounds, its table of totals and its gaps. |
| UsageSealing.StoredMinutesEncode | bins/karst-relay/src/usage.rs:231-535 | Every minute that any run of the pipeline stores encodes under the cap, and minutes that differ have different bytes. |
| ControlPlane.ParsePayload | server/management/internals/karst/relayusage/batch.go:109-166 | The one-pass reader with every check in place returns what reading the bytes first and judging them afterwards would. |
| ControlPlane.JoinedOrder | server/management/internals/karst/relayusage/batch.go:151-155 | Comparing keys joined by NUL is comparing the fields one by one, so both sides agree on order. |
| ControlPlane.AcceptsExactlyClean | server/management/internals/karst/relayusage/batch.go:109-166 | A window the relay wrote is accepted if and only if it is aligned and every mapping is trimmed UTF-8 text without control characters, and then it is read exactly as written. |
| ControlPlane.AcceptedIsEncodable | server/management/internals/karst/relayusage/batch.go:109-166 | Whatever the reader accepts, from anyone, is a window the relay's encoder would accept. |
| UsageSealing.ControlPlaneReads | server/management/internals/karst/relayusage/batch.go:109-166 | A stored minute is accepted if and only if every mapping in its table is clean text, and then it is read as the relay counted it. |
| UsageRoster.OnlyAquifersVary | bins/karst-relay/src/roster.rs:93-112 | Of a mapping that a roster row gives, only the aquifer can be text that the control plane does not accept. |
| UsageRoster.AcceptedIffAquifersClean | bins/karst-relay/src/roster.rs:93-112 | In every run whose mappings come from roster rows, a stored minute is accepted if and only if every aquifer in it is clean text, and then it is read as the relay counted it. |
| UsageRoster.TidyRunsAreBilled | bins/karst-relay/src/usage.rs:231-535 | In every run over roster rows with clean aquifers that ends in a seal and stores no gap, the control plane reads exactly what was reported. |
| UsageRoster.UncleanAquiferIsStored | server/management/internals/karst/relayusage/batch.go:141-143 | For every mapping of a roster row whose aquifer fits its field and is not clean text there is a run that stores a minute for it, which the control plane refuses. |
| UsageRoster.TrailingSpaceIsRefused | server/management/internals/karst/relayusage/batch.go:141-143 | Such a row and run: an aquifer named with a trailing space, under a 64-digit version. |
| CreditObject.Controller.Enqueue | bins/karst-relay/src/credits.rs:77-90 | A mapping becomes pending exactly when its request went into the channel. |
| CreditObject.Controller.InstallUncapped | bins/karst-relay/src/credits.rs:99-105 | Replaces the allowance, discarding live grants, and clears the request. |
| CreditObject.Controller.InstallGrant | bins/karst-relay/src/credits.rs:107-130 | Appends an unexpired grant to the capped list and clears the request. |
| CreditObject.DrainSpent | bins/karst-relay/src/credits.rs:195-210 | The loop that searches, removes and sends equals a single pass: the exhausted grants leave in order while the channel has room, and the rest stay as they were. |
| CreditObject.Controller.SurrenderSpent | bins/karst-relay/src/credits.rs:195-210 | The same, on the controller's own surrender channel. |
| CreditObject.Controller.Reserve | bins/karst-relay/src/credits.rs:159-224 | The verdict and new state are those of the model's reservation, then of its request for more. |
| CreditObject.Controller.TakeSurrenderable | bins/karst-relay/src/credits.rs:132-155 | Closes the gate, empties the table and returns every grant it held. |
| CreditSafety.CappedDecision | bins/karst-relay/src/credits.rs:178-213 | A capped reservation is admitted exactly when one live grant covers it alone, and asks for more exactly when it was refused or at most a quarter of a request is left in total. |
| CreditSafety.GrantsConserve | bins/karst-relay/src/credits.rs:178-213 | In every reachable state, every held grant sits at its own mapping with remaining plus consumed equal to what was granted and consumed equal to what was admitted against it. |
| CreditSafety.CapHolds | bins/karst-relay/src/credits.rs:107-213 | Over every run, bytes admitted under a cap for a mapping never exceed the bytes installed for it. |
| CreditSafety.HandedOnce | bins/karst-relay/src/credits.rs:132-213 | Over every run each grant is handed back at most once, with exactly the bytes admitted against it, and never overspent. |
| CreditSafety.NothingAfterSnapshot | bins/karst-relay/src/credits.rs:132-171 | No byte is admitted after the closing snapshot. |
| CreditFlight.SingleFlight | bins/karst-relay/src/credits.rs:77-97 | In every reachable state no mapping has two requests in the channel and on workers, those with one are pending, at most 4096 mappings are pending and at most 32 workers hold a permit. |
| CreditFlight.PendingIsExact | bins/karst-relay/src/credits.rs:329-382 | In every reachable state, "pending if and only if a request is under way" holds of a mapping if and only if no request of that mapping was stranded by an aborted worker or by the end of the worker task. |
| CreditFlight.StrandedForGood | bins/karst-relay/src/credits.rs:77-90 | In every continuation a stranded mapping stays pending with nothing under way, so no request for it is made again. |
| CreditFlight.AbortStrands | bins/karst-relay/src/credits.rs:372-382 | After any run in which shutdown has begun, aborting a worker leaves its mapping pending with no request under way. |
| CreditFlight.DepartStrands | bins/karst-relay/src/credits.rs:329-426 | So does the end of the worker task, for every request still in the channel. |
| CreditFlight.AbandonedRequest | bins/karst-relay/src/credits.rs:329-426 | A short such run, for any mapping: a first packet asks, shutdown begins, and the worker task ends without having taken the request. |
| CreditFlight.AbortedRequest | bins/karst-relay/src/credits.rs:329-382 | Another: the worker has taken the request when shutdown begins, and is aborted at its deadline. |
| HubCredits.HubSide | bins/karst-relay/src/hub.rs:632-657 | In every joint run of hub and controller, the hub's part is a run of the hub whose gate answers are the reservations', and it is feasible if and only if every call of the joint run was possible when made, so what is proved of feasible runs of the hub holds of it. |
| HubCredits.CreditSide | bins/karst-relay/src/credits.rs:158-224 | The controller's part is a run of the controller whose reservations are what the hub asked for. |
| HubCredits.QueuedIsAdmitted | bins/karst-relay/src/hub.rs:632-657 | In every joint run, the bytes queued to clients under a mapping while the gate is installed are exactly the bytes the controller admitted for it. |
| HubCredits.QueuedWithinGrants | bins/karst-relay/src/credits.rs:107-224 | Hence they never exceed the bytes that the control plane granted for the mapping plus those admitted while it was uncapped. |
| CreditFlight.ExitClearsOwn | bins/karst-relay/src/credits.rs:485-601 | After any run, a worker's exit clears its own mapping from the pending ones and leaves nothing under way for it, and touches no other mapping. |
| Upgrade.ReadFields | bins/karst-relay/src/http.rs:137-163 | The header loop yields, for each field of interest, what the last line of that name says, and fails exactly when some line has no colon. |
| Upgrade.Parse | bins/karst-relay/src/http.rs:99-179 | The parser's verdict is the declarative one. |
| Upgrade.VerdictIsFinal | bins/karst-relay/src/http.rs:99-186 | Once a buffer is accepted or refused, every extension gets the same verdict and head length. |
| Recasing.RecasingKeepsVerdict | bins/karst-relay/src/http.rs:99-179 | Two buffers of bytes that differ only in the case of letters in field names get the same verdict, complete or not (section 5.1 of RFC 9110). |
| Upgrade.ReadMore | bins/karst-relay/src/server.rs:1088-1105 | Appends exactly the bytes that arrived. |
| Upgrade.Establish | bins/karst-relay/src/server.rs:807-829 | For every way of cutting a stream into reads: the outcome is that of the whole stream, the bytes kept followed by those unread are exactly the bytes after the head, and the buffer, counted as grown for each read, peaks at the bytes before the last read plus a chunk, which never exceeds a head plus a chunk. |
| Upgrade.CutsAgree | bins/karst-relay/src/server.rs:807-829 | Two ways of cutting one stream agree on outcome and remaining bytes. |
| Calendar.CivilIsRight | bins/karst-bedrock/src/main.rs:905-922 | Every day number gets a valid proleptic Gregorian date whose day number is the one given. |
| Calendar.CivilAdvances | bins/karst-bedrock/src/main.rs:905-922 | Day 0 is 1 January 1970, and each next day is the next calendar date under the leap rule of Appendix C of RFC 3339, in both directions without end. |
| Calendar.CivilInverts | bins/karst-bedrock/src/main.rs:905-922 | The conversion is the inverse of counting days, so no date is skipped or repeated. |
| Calendar.UtcIsRight | bins/karst-bedrock/src/main.rs:898-922 | Date and time of day are valid and together are the instant given. |
| Calendar.NoOverflow | bins/karst-bedrock/src/main.rs:898-922 | No step leaves 64 bits, for any 64-bit input. |
| Simplify.Scan | web/tools/build-noc-boundaries.py:20-29 | The inner loop finds the first of the farthest points out of tolerance, if any. |
| Simplify.KeepIndices | web/tools/build-noc-boundaries.py:14-34 | The loop over an explicit stack ends, and keeps exactly what the recursive definition keeps; an empty line fails as in the source. |
| Simplify.SimplifyLine | web/tools/build-noc-boundaries.py:14-34 | The result is the kept points in the order of the line. |
| Simplify.EndpointsKept | web/tools/build-noc-boundaries.py:16-34 | The simplified line starts and ends where the line does. |
| Simplify.DroppedWithinTolerance | web/tools/build-noc-boundaries.py:14-34 | Every dropped point lies within the tolerance of the piece between the two neighbouring kept points around it. |
| Simplify.FootIsNearest | web/tools/build-noc-boundaries.py:26-27 | The clamped projection is the nearest point of the whole segment, a degenerate one included. |
| Simplify.StraightKeepsEndpoints | web/tools/build-noc-boundaries.py:24-33 | Nothing but the endpoints is kept if and only if every point is within the tolerance of the chord. |
| Base62.Encode | server/base62/base62.go:15-33 | Writes the digits of the number, most significant first. |
| Base62.Reverse | server/base62/base62.go:52-58 | Swapping from both ends inwards reverses. |
| Base62.Decode | server/base62/base62.go:36-49 | Fails exactly on a character outside the alphabet, and otherwise returns the wrapped positional sum. |
| Base62.RoundTrip | server/base62/base62.go:15-49 | Decoding an encoded 32-bit number gives it back. |
| Base62.NoWrap | server/base62/base62.go:44 | On the way every power is one that converts exactly, and every product and partial sum fits 32 bits. |
| Base62.EncodeInjective | server/base62/base62.go:15-33 | Different numbers have different texts. |
| Base62.NoLeadingZero | server/base62/base62.go:15-33 | A positive number's text does not start with zero. |
| Base62.ReencodesExactlyCanonical | server/base62/base62.go:15-49 | Re-encoding a decoded text gives it back if and only if the text is canonical: no leading zero, at most six digits, below 2^32. |

## Left out

- Sockets, TLS, QUIC, tasks and timers: the hub, the collector and the controller are modelled at their method boundaries, and everything asynchronous as interleaved steps.
- The Ponor handshake, its signatures and the byte form of frames: a connection enters the model admitted, and a frame is a datatype with its encoded length.
- Roster contents: the roster is an input of each frame; a lemma that needs it fixed says so.
- Per-connection counters are unbounded in the model; only the totals' 64-bit saturation is written out.
- `rtt_histogram`, `has_mesh` and the other read-only queries of the hub: one-line readings of the state.
- The wire and disk form around a usage payload (envelope, digest, signature), the spool's files and the uploader: storing a minute is a step that stores it, refuses it, or stores it and reports an error.
- UsageObject.Consumer.Advance: the case where the clock is within one minute of the end of 64-bit time ends the catch-up early, as in the code; nothing more is claimed of it.
- The HTTP client of the credit workers and the parsing of grants: an answer is an event that installs an uncapped lease or a fresh grant, or nothing; requests that a shutdown abandons are events too.
- HubServer.Server.Join: the counter of connection ids does not wrap in the model; in the code it does after 2^64 connections.
- UsageCodec.Encode: the branch that refuses a payload over the cap is kept; `PayloadBound` shows that no window reaches it.
- Base62.Decode: for texts of more than six digits the source converts a float that does not fit 32 bits, which its language leaves open; that conversion is a parameter.
- Simplify.DroppedWithinTolerance: coordinates are exact reals; floating-point error and the final rounding to three digits are not modelled.
- Calendar.UtcIsRight: gives the fields of a timestamp; rendering them with padding is not modelled.
- Configuration, metrics, the mesh dialer, reflection, cloud drivers, enrolment, the web console and the Go server apart from the two files above: they neither forward, meter nor account for traffic, and no property above depends on them.
