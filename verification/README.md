# Verified model of a remote robot-teleoperation lab

Dafny 4.11 proofs about the parts of the lab that decide whether a robot arm moves, who moves it,
and what an operator is credited with. `dafny verify dfyconfig.toml` checks everything.

The program has six connected cores; each is modelled in its own form. Where the program updates
objects, there is a class whose methods are proved equal to a specification function; the theorems
are then about that function over every run, not about one call.

- **The hub** (`HubModel`, `HubServer`, `HubAuthority`, `HubMail`, `HubQueue`, `HubOrders`,
  `HubPackets`, `HubPresence`, `HubFlights`, `HubAnswers`). Browsers hold a timed lease on a rig, leader arms are bound to a browser and write
  input without renewing it, and the rig drains a consume-once mailbox and a queue with a time limit.
  Handlers are interleaved at every `await`: one step is one section between two awaits, and what a
  handler has still to do is a *flight* that lands later, in any order, with its own clock reading.
  `HubServer` has the shared objects and the handlers; `Hub.Handle` is proved to be the machine's
  step. The theorems are about every execution of that machine.
- **Leader bridges** (`Clutch`; `HubGateway`, `HubGatewayRuns`, `HubGatewayDrive`, `HubGatewayApproach`;
  `SwiftLeader`, `SwiftLeaderRuns`, `SwiftLeaderDrive`, `SwiftArrival`; `LocalGateway`, `LocalGatewayRuns`,
  `LocalGatewayDrive`): arming, relative clutching, edge continuation, filters, slew and jerk limits, over every
  interleaving of the threads' lock-held sections. `...Drive` says exactly when each bridge is armed, bound and
  sends; `HubGatewayApproach` and `SwiftArrival` say where the arm goes when the hand is held.
- **Evidence** (`Odometer`, `OdometerBrowser`, `GripperTracker`, `SaveWatch`): greedy online counters, compared with
  offline definitions of what they are meant to measure.
- **Recording** (`Recorder`, `RecorderRuns`, `RecorderCalls`): the episode loop under every interleaving with
  another thread's flag writes, each flag access being one step; then in terms of the presses themselves.
- **Kinematics** (`Kinematics`, `KinematicsBend`, `VirtualArm`): the two-link solver, its forward map, and the side
  to which the elbow bends.
- **Cookies** (`Text`, `Utf8`, `Base64`, `Percent`, `Json`, `Cookies`, `Sessions`, `SlotTokens`): signed
  session and slot values, from minting to reading back out of a Cookie header.

## Conventions

- Floating-point numbers are `real`; rounding is not modelled. Milliseconds and counters are `int`.
- Each atomic step reads the clock once, and readings never go back.
- Library results are parameters: trigonometry and square roots (`Kinematics.Trig` with the laws it
  needs), the keyed digest, lower-casing, `Number` and `JSON.parse` on texts the program does not itself
  print, whether a packet is dropped, and what `record_loop` does.
- Fields whose comment says *history* (tickets, parts of drive orders, recording passes) are read by no
  decision; they let theorems follow a packet, a command or a take through a run.
- The hub's lease ceiling is written by the market layer, which enters as the steps `SetCeiling` and
  `Revoke`.

## Where the program and its own comments differ

The model follows the code.

- `apps/web/src/hub/ws.ts:11-14` says a packet pushed over a socket never enters the mailbox. Lines
  104-118 write the mailbox in both cases. `HubModel.Design` has both handlers;
  `HubMail.DescribedHandlerDeliversOnce` and `HubMail.TwiceExactlyWhen` say what each one guarantees.
- `apps/web/src/hub/routes.ts:328-352` checks `MAX_PENDING` once and pushes two commands, so the bound is
  `MAX_PENDING + 1`, and it is reached (`HubQueue.OverflowIsReached`).
- `apps/avp-client/tools/hub_virtual_leader_gateway.py:345-348` says the filter resets with the clutches;
  a release keeps it. `HubGatewayRuns.EngagementHoldsExactlyWhenSettled` gives the exact condition under
  which engaging a clutch moves the arm, and `HubGatewayApproach.TickNoFurtherExactlyWhen` the one under which a
  tick takes the target away from the pose the hand asks for.
- Lines 608-611 and 700-702 of the same file say backing off an edge resumes with no jump and no coasting. The
  clutch is pinned there, the filter is not: `HubGatewayApproach.EdgeTickSettlesExactlyWhen` and
  `HubGatewayApproach.LeavingEdgeHoldsExactlyWhenSettled` are the exact conditions, and with the default arguments
  the joint does move on (`HubGatewayApproach.BackingOffMovesOn`).
- `apps/avp-client/AVPIsaacLeader/DirectHubLeaderClient.swift:819-821` uses a truncating remainder where
  the Python gateway floors: `Clutch.SwiftDeltaAgrees`.
- The comment at `apps/web/src/hub/store.ts:498-500` promises the dead-browser switch within 20 s of the
  browser's death. It holds (`HubAuthority.DeadBrowserStopsLeader`) for clients named after a registered
  leader; a client id with the leader prefix whose leader is not registered is an ordinary browser.
- The comment at `apps/web/src/lib/constants.ts:16-19` wants one cookie per rig. Rigs whose names differ only in
  characters the cookie name replaces share one: `SlotTokens.KeysAgreeExactlyWhen`.
- `v in table` in `apps/web/src/hub/verbs.ts:118` also finds names every object inherits; such a verb is
  relayed for the lease holder. `HubOrders.QueuedExactlyWhen` is the exact condition for any command, and
  `HubOrders.InheritedNameIsQueued` a run that does it.
- The odometer's comment at `apps/web/src/hub/store.ts:332-343` says packets that carry motion are counted.
  `odo.lastJoints[name]` (line 367) also finds inherited names: a packet that brings one, not the first
  packet and not a name set before, makes the sum NaN, so its motion and its count are lost while
  references and gripper flips go on. `Odometer.PacketLostExactlyWhen` and
  `Odometer.MotionIsWholeExactlyWhen` are the exact conditions, `Odometer.InheritedNamesLoseMotion` and
  `Odometer.FlipsWithoutEnd` inputs.
- The hub gateway does not check its speed arguments, so the slew theorems require them to be
  non-negative; the local gateway does check them, and `LocalGateway.ValidArgs` is what it accepts.

## Model

| member | source | states |
|---|---|---|
| HubAuthority.LeaseMeaning | apps/web/src/hub/store.ts:247-282 | a rig is held by b at time t if and only if the last event that took or ended its lease was b's own claim or packet and its period, 20 s cut by the ceiling of that moment, is not over |
| HubAuthority.BindingMeaning | apps/web/src/hub/routes.ts:310-368 | a leader is bound to b and a rig if and only if the last event that touched its binding was a drive order of b, accepted while b held the rig |
| HubAuthority.LeaderPassesExactlyWhen | apps/web/src/hub/store.ts:502-505 | in every interleaving, over either transport, a leader packet passes if and only if the browser of the last binding event still holds the rig by its own last claim or packet |
| HubAuthority.DeadBrowserStopsLeader | apps/web/src/hub/routes.ts:413-428 | a packet passes only if the browser the leader is bound to itself claimed or sent input on that rig less than 20 s before |
| HubAuthority.BrowserPassesExactlyWhen | apps/web/src/hub/routes.ts:413-428 | over every execution, a packet of a client that names no registered leader passes if and only if its own last claim or packet still holds the rig; otherwise it is refused, 403 or, for an unknown rig, 404 |
| HubAuthority.ClaimAnswersTruly | apps/web/src/hub/routes.ts:405-408 | a claim answers `ok` if and only if the seat was free, the claimer's own or taken by force and the ceiling has not passed, and names whoever holds the rig after it |
| HubAuthority.LeadersNeverExtendLeases | apps/web/src/hub/ws.ts:86-90 | no leader packet and no landing changes who will hold a rig at any later time |
| HubAuthority.NobodyHoldsPastTheCeiling | apps/web/src/hub/store.ts:111-118 | with the ceiling set to C at s and neither raised nor cleared, nobody holds the rig from max(C, s + 20 s) on, under any claims, forced claims and renewals |
| HubAuthority.CeilingBoundIsSharp | apps/web/src/hub/store.ts:256-268 | a run in which a ceiling already past leaves the lease running to its 20 s |
| HubAuthority.CeilingIsOnlySet | apps/web/src/hub/store.ts:111-118 | no handler writes the ceiling |
| HubAuthority.HeartbeatSettlesBinding | apps/web/src/hub/store.ts:516-535 | after a heartbeat answer the binding is gone or valid for the present holder, and `bound` is true exactly when it is valid for the rig being driven |
| HubAuthority.ClearedStaysCleared | apps/web/src/hub/routes.ts:285-358 | once cleared, a leader drives a rig again only after a new drive order from whoever then held it, whatever the old browser claims |
| HubOrders.HeartbeatCarriesExactly | apps/web/src/hub/store.ts:538-547 | a heartbeat answer carries an order if and only if it is the latest one since the previous answer and younger than 15 s |
| HubOrders.QueuedExactlyWhen | apps/web/src/hub/routes.ts:443-488 | a command is queued if and only if the rig is known, online and has room, the sender is named, the body is small enough, and the verb is of the table with its gates open or an inherited name sent by the holder without arguments; it is then the last in the queue, stamped with the holder, with the sender's arguments under the hub's own when the verb takes any and with none otherwise |
| HubOrders.InheritedNameIsQueued | apps/web/src/hub/verbs.ts:118 | a run from the empty hub that queues "toString", which no row of the table has |
| HubOrders.ReceivedCommandsAreGated | apps/web/src/hub/routes.ts:443-488 | over any run, every command a rig is handed was queued less than 15 s before by a command that passed its gates at that moment (holder, owner key or safety verb, no hub-only argument of the sender's) or by a leader's order |
| HubOrders.AnyonesStopArrives | apps/web/src/hub/verbs.ts:50-51 | over any run, a safety verb of anybody, sent to an online rig with room, is in that rig's next link reply if this comes within 15 s |
| HubOrders.StopOrderSilences | apps/web/src/hub/routes.ts:355-368 | over any run, from the landing of a stop request, however long it was suspended, no packet of the leader passes until a holder lends it a rig again, and its rig has been queued teleop_stop if there was room |
| HubMail.LinkRepliesAreAuthorizedAndFresh | apps/web/src/hub/routes.ts:243-261 | every packet a link reply carries was, on arrival, its holder's own or that of a leader the holder had lent the rig to; it landed undropped less than 500 ms before, with the joints it brought, or else its axes |
| HubMail.DeliveredTwice | apps/web/src/hub/routes.ts:245-257 | no packet is delivered twice over one transport; twice at all only over a socket first and a link reply after, with the handler as written |
| HubMail.DescribedHandlerDeliversOnce | apps/web/src/hub/ws.ts:11-14 | the handler of the header comment delivers each packet at most once over both transports |
| HubMail.TwiceExactlyWhen | apps/web/src/hub/ws.ts:93-118 | with the handler as written some continuation delivers the packet twice if and only if the rig is online with an open socket when it lands |
| HubMail.SomePacketArrivesTwice | apps/web/src/hub/ws.ts:93-118 | a run from the empty hub in which, with the handler as written, a packet is delivered twice |
| HubMail.MailOrigin | apps/web/src/hub/routes.ts:430-441 | a mailbox packet came from the holder or a leader bound to the holder and this rig, is what that request brought, and was posted, undropped, at its stamp |
| HubMail.SocketSendsAreAuthorized | apps/web/src/hub/ws.ts:86-113 | every packet sent over a socket came from a leader whose browser held that rig when it arrived, and carries the joints it brought |
| HubQueue.ReplyIsYoungSuffix | apps/web/src/hub/store.ts:229-238 | a link reply carries exactly the commands queued since the previous one that are younger than 15 s; they are the last ones, in order, with every drive's stop directly before its start |
| HubQueue.ShippedInOrderAtMostOnce | apps/web/src/hub/routes.ts:243-259 | over a run, what the rig receives is an order-preserving, at-most-once selection of what was queued, and the rest of it is still waiting |
| HubQueue.PendingIsQueuedSince | apps/web/src/hub/store.ts:229-238 | the queue is all that was queued since the last drain |
| HubQueue.QueueIsOrderly | apps/web/src/hub/routes.ts:328-352 | in every run a queue has at most MAX_PENDING + 1 commands, stamps in order, and drive pairs together |
| HubQueue.OverflowIsADrive | apps/web/src/hub/routes.ts:328-352 | the limit is passed only by a drive order that finds the queue one short of it |
| HubQueue.OverflowIsReached | apps/web/src/hub/routes.ts:328-352 | a run with MAX_PENDING + 1 commands waiting |
| HubPackets.LinkReplyCarriesExactly | apps/web/src/hub/routes.ts:245-257 | a link reply carries a packet if and only if it is the latest to land undropped since the previous reply, less than 500 ms ago |
| HubPackets.OdometerNotesTheStream | apps/web/src/hub/ws.ts:93-118 | in every run a rig's odometer has noted exactly the packets that landed undropped, except those sent over a live socket |
| HubPresence.OnlineMeaning | apps/web/src/hub/store.ts:242-243 | a rig is online if and only if a link request of its own is younger than 5 s |
| HubPresence.DriveAcceptedExactlyWhen | apps/web/src/hub/routes.ts:311-331 | a drive order that lands is accepted if and only if its sender is named and holds the rig by its own last claim or packet, the rig linked less than 5 s ago and has room, and the leader's last heartbeat said idle or this rig |
| HubPresence.SocketMeaning | apps/web/src/hub/ws.ts:54-70 | a rig's socket is the last one it opened, until that very one closes |
| HubFlights.LandsAsAsked | apps/web/src/hub/routes.ts:190-442 | a request that was told to wait lands as what was asked, whatever happened in between |
| HubFlights.OrderTakenExactlyWhen | apps/web/src/hub/routes.ts:300-304 | an order for a leader is taken if and only if the leader's last heartbeat is younger than 5 s |
| HubAnswers.CommandAnswers | apps/web/src/hub/routes.ts:443-491 | what a command is answered, cause by cause: unknown rig, unnamed sender, not entitled, too long, offline, full, or done |
| HubAnswers.OrderAnswers | apps/web/src/hub/routes.ts:309-371 | what an order that lands is answered, cause by cause; a stop is always done |
| HubAnswers.UnknownIsRefused | apps/web/src/hub/routes.ts:386-426 | requests that name nobody, or a rig or leader the hub does not know, are refused as such |
| HubAnswers.LinkNamesTheHolder | apps/web/src/hub/routes.ts:243-261 | a link reply names b as holder if and only if b's own last claim or packet still holds the rig |
| HubAnswers.RefusalChangesNothing | apps/web/src/hub/routes.ts:300-491 | whatever is refused leaves every binding, queue, mailbox, odometer and lease in force as it was |
| HubServer.Hub.Handle | apps/web/src/hub/routes.ts:190-491 | on shared objects, each handler section is exactly the machine's step |
| HubServer.Hub.SendInput | apps/web/src/hub/routes.ts:413-429 | authority check of an input packet, renewal only for a browser's own |
| HubServer.Hub.Message | apps/web/src/hub/ws.ts:72-90 | authority check of a socket packet, no renewal |
| HubServer.Hub.LandMessage | apps/web/src/hub/ws.ts:91-119 | socket delivery, odometer only without a socket, mailbox in both cases |
| HubServer.Hub.LandInput | apps/web/src/hub/routes.ts:430-441 | odometer and mailbox unless dropped |
| HubServer.Hub.LandLink | apps/web/src/hub/routes.ts:243-261 | drain, consume the mailbox with its freshness gate, report the holder |
| HubServer.Hub.LandBeat | apps/web/src/hub/routes.ts:286-293 | validity for the driven rig, pruning, and the waiting order |
| HubServer.Hub.LandDrive | apps/web/src/hub/routes.ts:311-353 | every check of a drive order in order, the binding, and the two pushes |
| HubServer.Hub.LandStop | apps/web/src/hub/routes.ts:355-368 | unbinding and the stop pushed if there is room |
| HubServer.Hub.RelayVerb | apps/web/src/hub/routes.ts:447-488 | the gates of a verb in order, and the push |
| HubServer.Hub.PruneLeaderBinding | apps/web/src/hub/store.ts:529-535 | drops a binding that can no longer authorize input |
| HubServer.Rig.ClaimLease | apps/web/src/hub/store.ts:256-268 | who may take the lease, and until when |
| HubServer.Rig.DrainCommands | apps/web/src/hub/store.ts:229-238 | empties the queue and returns the commands not yet stale |
| Odometer.CreditBounds | apps/web/src/hub/store.ts:330-388 | one joint's credit in degrees is at most its path length and more than its net displacement less 2 degrees |
| Odometer.MotionDecomposes | apps/web/src/hub/store.ts:344-388 | for every stream, ten times the motion counter is, joint by joint, that credit, plus what browser axes contributed, less the credit of packets that looked up an inherited name |
| Odometer.MotionIsWholeExactlyWhen | apps/web/src/hub/store.ts:364-385 | the credit is paid in full if and only if no packet that moved a joint looked up an inherited name nobody had set; never more than in full |
| Odometer.CleanMotionDecomposes | apps/web/src/hub/store.ts:344-388 | when no packet after the first brings a new inherited name, ten times the motion is that credit plus the axes' share |
| Odometer.PacketLostExactlyWhen | apps/web/src/hub/store.ts:364-385 | a packet's motion and its count are lost exactly when it names something inherited for the first time after the first packet; any other packet adds its credit in full |
| Odometer.InheritedNamesLoseMotion | apps/web/src/hub/store.ts:364-385 | three leader packets after which a gripper flip is counted, and neither motion nor a packet |
| Odometer.FlipsWithoutEnd | apps/web/src/hub/store.ts:364-385 | with the prototype's name, streams with any number of flips and no motion |
| Odometer.FlipsArePaid | apps/web/src/hub/store.ts:364-385 | for every leader stream, 8 degrees per flip are at most ten times the motion plus the lost credit |
| Odometer.LeaderEvidenceIsMotion | apps/web/src/hub/store.ts:344-388 | for every leader stream packets are at most five times the motion; and when no packet after the first brings a new inherited name, flips cost motion |
| Odometer.JitterIsFree | apps/web/src/hub/store.ts:310-330 | jitter within the band is worth nothing, however long |
| Odometer.StillnessLeavesNoTrace | apps/web/src/hub/store.ts:310-330 | a leader that stays within the band of its references leaves the whole odometer unchanged |
| OdometerBrowser.BrowserEvidence | apps/web/src/hub/store.ts:350-361 | for every browser stream, the packets counted are those with a deflected axis or a gripper command, and the flips are the reversals among the gripper directions commanded |
| OdometerBrowser.EffortAdds | apps/web/src/hub/store.ts:351-352 | each axis but the gripper adds its deflection to the motion |
| Odometer.GripperNames | apps/web/src/hub/store.ts:376 | a joint is the gripper if and only if its name spells it, in any case, anywhere |
| Odometer.InputOdo.NoteInputOdometer | apps/web/src/hub/store.ts:344-388 | the loop over axes or joints computes the specification's step |
| GripperTracker.CreditIsLongestChain | apps/web/src/market/sampler.ts:168-183 | for every stream the online count equals the longest chain of alternating swings of 8 degrees, short by one exactly when the first swing was missed |
| GripperTracker.SlowFallIsMissed | apps/web/src/market/sampler.ts:168-183 | the stream 8, 4, 0 is credited nothing although it swings a whole band |
| GripperTracker.ReversalsCostTravel | apps/web/src/market/sampler.ts:168-183 | eight degrees per reversal are at most the total travel |
| GripperTracker.JointGripper.TrackStream | apps/web/src/market/sampler.ts:168-183 | feeding a stream call by call computes the specification's tracker |
| SaveWatch.SavedExactlyWhenCountRises | apps/web/src/market/sampler.ts:100-108 | episodeSaved is true exactly when some later count exceeds an earlier one, through session resets |
| SaveWatch.SavedIsFinal | apps/web/src/market/sampler.ts:105-107 | once true it stays true |
| SaveWatch.BaselineIsLeast | apps/web/src/market/sampler.ts:103-104 | the baseline is the least count seen |
| SaveWatch.Sampler.Sample | apps/web/src/market/sampler.ts:100-108 | one reading computes the specification's step |
| Clutch.WrappedDeltaIsShortest | apps/avp-client/tools/hub_virtual_leader_gateway.py:61-62 | the only representative of the difference in [-pi, pi) |
| Clutch.SwiftDeltaAgrees | apps/avp-client/AVPIsaacLeader/DirectHubLeaderClient.swift:819-821 | exactly when the Swift remainder agrees with the Python one |
| Clutch.SwiftDeltaDiffers | apps/avp-client/AVPIsaacLeader/DirectHubLeaderClient.swift:819-821 | at -4 radians from 0 they differ by a whole turn |
| Clutch.ClutchStaysInRange | apps/avp-client/tools/hub_virtual_leader_gateway.py:65-83 | the relative clutch is anchored where it engaged and stays within the physical range |
| Clutch.ClutchReachesEndpoints | apps/avp-client/tools/hub_virtual_leader_gateway.py:65-83 | both ends stay reachable from wherever it engaged |
| Clutch.ClutchIsMonotone | apps/avp-client/AVPIsaacLeader/DirectHubLeaderClient.swift:823-841 | moving the virtual slider one way never moves the gripper the other way |
| HubGatewayRuns.StepIsSafe | apps/avp-client/tools/hub_virtual_leader_gateway.py:481-660 | every thread's step keeps: armed only while bound to a selected rig; no clutch base or filter survives a disarm; bases in pairs |
| HubGatewayRuns.After | apps/avp-client/tools/hub_virtual_leader_gateway.py:317-712 | every state any run of steps reaches keeps that invariant |
| HubGatewayRuns.OnlyArmArms | apps/avp-client/tools/hub_virtual_leader_gateway.py:497-507 | only an accepted press of Arm arms |
| HubGatewayRuns.PacketNeedsArming | apps/avp-client/tools/hub_virtual_leader_gateway.py:575-600 | a packet leaves only under an arming that lasted since Arm was pressed, for the selected rig, with a frame no older than the timeout |
| HubGatewayRuns.SilentUntilArmed | apps/avp-client/tools/hub_virtual_leader_gateway.py:871-948 | after any disarm nothing is sent before the next press of Arm |
| HubGatewayRuns.TickBounds | apps/avp-client/tools/hub_virtual_leader_gateway.py:674-712 | every active tick leaves each target in its lead window and moves it at most one slew step or the distance to that window |
| HubGatewayRuns.TargetsStayInRange | apps/avp-client/tools/hub_virtual_leader_gateway.py:674-712 | while telemetry stays in range, so do all targets of the run |
| HubGatewayRuns.EngagementHoldsExactlyWhenSettled | apps/avp-client/tools/hub_virtual_leader_gateway.py:591-708 | engaging moves an in-range, in-window joint if and only if the filter still holds another pose and is not pushing against a bound |
| HubGatewayRuns.ReengagementMoves | apps/avp-client/tools/hub_virtual_leader_gateway.py:591-708 | with the default arguments, a run from the start, its ticks 40 ms apart, in which a clutch released and engaged again at the same hand pose moves the gripper |
| HubGatewayRuns.FirstEngagementIsSeamless | apps/avp-client/tools/hub_virtual_leader_gateway.py:591-708 | the first engagement after Arm moves nothing |
| HubGatewayRuns.HoldingResendsTheTarget | apps/avp-client/tools/hub_virtual_leader_gateway.py:660-672 | over any stretch of a run in which nothing moves the arm, every packet carries the one target it was left at, whatever frames, telemetry and confirming heartbeats arrive |
| HubGatewayDrive.ArmedExactlyWhen | apps/avp-client/tools/hub_virtual_leader_gateway.py:481-948 | in every run the gateway is armed if and only if Arm was pressed on a bound rig and nothing since ended the drive: no expired frame at a tick, no stop, new drive or lost binding, no rig gone from the poll, no fault |
| HubGatewayDrive.SelectedExactlyWhen | apps/avp-client/tools/hub_virtual_leader_gateway.py:714-791 | the rig driven is the one of the last drive order, unless a stop or a lost binding let it go |
| HubGatewayDrive.BoundExactlyWhen | apps/avp-client/tools/hub_virtual_leader_gateway.py:714-791 | it is bound if and only if the last heartbeat answer said so and no fault or vanished rig broke the link since |
| HubGatewayDrive.LatestExactlyWhen | apps/avp-client/tools/hub_virtual_leader_gateway.py:521-573 | the frame it goes by is the last accepted one, unless a new pairing or the end of the drive dropped it |
| HubGatewayDrive.AcceptedExactlyWhenNewest | apps/avp-client/tools/hub_virtual_leader_gateway.py:521-573 | a frame is accepted if and only if it is plausible and newer than every plausible one since the last pairing |
| HubGatewayDrive.ActualIsLastReported | apps/avp-client/tools/hub_virtual_leader_gateway.py:481-495 | what it takes for the arm's pose is, joint by joint, what the driven rig last reported |
| HubGatewayDrive.SendsExactlyWhen | apps/avp-client/tools/hub_virtual_leader_gateway.py:575-590 | a tick sends if and only if armed and bound, with a frame within the timeout, to the selected rig |
| HubGatewayDrive.ArmingStartsAtTelemetry | apps/avp-client/tools/hub_virtual_leader_gateway.py:497-507 | until the first tick that moves, every packet after an accepted press of Arm carries the pose reported at the press |
| HubGatewayApproach.TickApproaches | apps/avp-client/tools/hub_virtual_leader_gateway.py:614-699 | with the hand held, each tick shrinks the filter's error to the pose the hand asks for by exactly tau / (tau + dt), and brings the target a slew step closer or as close as the filter; the pose is the arm's angle at engagement plus sign * 180 / pi * the shortest turn * scale |
| HubGatewayApproach.HeldHandIsApproached | apps/avp-client/tools/hub_virtual_leader_gateway.py:575-712 | in every run and from any filter state, the pose a held hand asks for is reached to within any distance, in a stated number of seconds, wherever telemetry goes while the pose stays in its window |
| HubGatewayApproach.TickMovesTowards | apps/avp-client/tools/hub_virtual_leader_gateway.py:614-699 | while the filter trails between target and hand, no tick moves the target away from the pose asked for or past it, and none leaves it where it is unless it has arrived or sits on the edge of its window |
| HubGatewayApproach.TickNoFurtherExactlyWhen | apps/avp-client/tools/hub_virtual_leader_gateway.py:614-699 | for any filter state, a tick takes the target no further from the pose asked for if and only if the filtered order lies on that pose's side and the step does not overshoot by more than the distance |
| HubGatewayApproach.TargetFollowsHand | apps/avp-client/tools/hub_virtual_leader_gateway.py:614-649 | from one state, a hand turned further never gives a smaller target with sign 1, and never a greater one with sign -1 |
| HubGatewayApproach.EdgePushesOn | apps/avp-client/tools/hub_virtual_leader_gateway.py:608-623 | a control held past its edge moves the joint that way, times its sign, by exactly the edge rate or the speed limit if lower |
| HubGatewayApproach.ClutchesFollowTheHand | apps/avp-client/tools/hub_virtual_leader_gateway.py:591-660 | after a tick that sends, a clutch is engaged if and only if its control is active, and newly engaged it starts at the hand's pose and the target |
| HubGatewayApproach.LeavingEdgeHoldsExactlyWhenSettled | apps/avp-client/tools/hub_virtual_leader_gateway.py:608-712 | the first tick off an edge, the hand still there, moves nothing if and only if the filter is settled |
| HubGatewayApproach.EdgeTickSettlesExactlyWhen | apps/avp-client/tools/hub_virtual_leader_gateway.py:674-712 | an edge tick leaves the filter settled if and only if the edge rate is within the speed limit, which the default arguments are not |
| HubGatewayApproach.BackingOffMovesOn | apps/avp-client/tools/hub_virtual_leader_gateway.py:700-709 | with the default arguments the first tick after an edge moves a body joint on although the hand is where it was, unless a bound holds it |
| HubGateway.HubBridgeState.StreamTick | apps/avp-client/tools/hub_virtual_leader_gateway.py:575-712 | one pass of `next_input` computes the specification's step |
| HubGateway.HubBridgeState.HandleControl | apps/avp-client/tools/hub_virtual_leader_gateway.py:521-573 | a control frame's effect on the bridge |
| HubGateway.HubBridgeState.ApplyLink | apps/avp-client/tools/hub_virtual_leader_gateway.py:714-773 | the heartbeat answer's effect on the bridge |
| HubGateway.HubBridgeState.PairAccepted | apps/avp-client/tools/hub_virtual_leader_gateway.py:453-479 | what an accepted pairing resets |
| HubGateway.HubBridgeState.ArmLeader | apps/avp-client/tools/hub_virtual_leader_gateway.py:497-507 | when arming is accepted, and what it sets |
| HubGateway.HubBridgeState.RefreshRigs | apps/avp-client/tools/hub_virtual_leader_gateway.py:481-495 | what a rig poll does to the telemetry, or to the drive when the rig is gone |
| HubGateway.HubBridgeState.Disarm | apps/avp-client/tools/hub_virtual_leader_gateway.py:775-791 | what ending a drive clears |
| HubGateway.HubBridgeState.FaultControl | apps/avp-client/tools/hub_virtual_leader_gateway.py:871-880 | what a fault of the control-plane thread clears |
| HubGateway.HubBridgeState.FaultInput | apps/avp-client/tools/hub_virtual_leader_gateway.py:941-948 | what a fault of the streaming thread clears, keeping binding and last frame |
| SwiftLeaderRuns.AdvanceBounds | apps/avp-client/AVPIsaacLeader/DirectHubLeaderClient.swift:555-614 | speed, acceleration and jerk caps, the lead window, and no crossing of the goal |
| SwiftLeaderRuns.RequestedVelocityCanStop | apps/avp-client/AVPIsaacLeader/DirectHubLeaderClient.swift:555-614 | the requested speed is one the acceleration cap can still stop at the goal |
| SwiftLeaderRuns.EveryTickIsBounded | apps/avp-client/AVPIsaacLeader/DirectHubLeaderClient.swift:456-633 | those bounds hold of every moving tick of every run, whatever was commanded and reported |
| SwiftLeaderRuns.EngagementIsSeamless | apps/avp-client/AVPIsaacLeader/DirectHubLeaderClient.swift:489-542 | engaging an unsaturated clutch leaves every in-range, in-window joint where it was |
| SwiftLeaderRuns.LeavingEdgeIsSeamless | apps/avp-client/AVPIsaacLeader/DirectHubLeaderClient.swift:498-628 | a tick at the edge, any frames, telemetry and confirming heartbeats, then the first tick off the edge with the virtual pose unchanged and a frame still live: the joint stays where the edge tick left it, at rest |
| SwiftLeaderRuns.LeavingEdgeInARun | apps/avp-client/AVPIsaacLeader/DirectHubLeaderClient.swift:456-633 | the same anywhere in any run from the start |
| SwiftLeaderRuns.PacketNeedsArming | apps/avp-client/AVPIsaacLeader/DirectHubLeaderClient.swift:193-477 | a packet leaves only under an arming that lasted since Arm was pressed, to the selected rig, with a frame no older than the timeout |
| SwiftLeaderRuns.SilentUntilArmed | apps/avp-client/AVPIsaacLeader/DirectHubLeaderClient.swift:193-477 | after any disarm nothing is sent before the next press of Arm |
| SwiftLeaderRuns.StepIsSafe | apps/avp-client/AVPIsaacLeader/DirectHubLeaderClient.swift:193-371 | every step keeps: armed only while connected, bound and on a rig; nothing of clutch or trajectory survives a disarm; motion capped |
| SwiftLeaderRuns.After | apps/avp-client/AVPIsaacLeader/DirectHubLeaderClient.swift:112-633 | every state any run of steps reaches keeps that invariant |
| SwiftArrival.HeldGoalIsReached | apps/avp-client/AVPIsaacLeader/DirectHubLeaderClient.swift:555-614 | from every capped motion, a held goal within range and window is reached, at rest, and kept from a stated number of ticks on |
| SwiftArrival.HeldHandIsReached | apps/avp-client/AVPIsaacLeader/DirectHubLeaderClient.swift:456-633 | in runs: with a clutch engaged and the frames holding one pose, or on the move to neutral, the joint is at the pose asked for (the arm's angle plus 180 / pi times the turn, mirrored for the pan) from that number of ticks on |
| SwiftArrival.SetsOutTowardsGoal | apps/avp-client/AVPIsaacLeader/DirectHubLeaderClient.swift:574-598 | from rest, a tick moves strictly towards the goal and not past it |
| SwiftArrival.EdgePushesOn | apps/avp-client/AVPIsaacLeader/DirectHubLeaderClient.swift:504-512 | a control held past its edge moves a resting joint that way, by at most the edge rate |
| SwiftLeaderDrive.ConnectedExactlyWhen | apps/avp-client/AVPIsaacLeader/DirectHubLeaderClient.swift:112-192 | connected: the operator connected and has not left since |
| SwiftLeaderDrive.ArmedExactlyWhen | apps/avp-client/AVPIsaacLeader/DirectHubLeaderClient.swift:193-477 | in every run the client is armed if and only if Arm was pressed while connected and bound, and nothing since ended the drive |
| SwiftLeaderDrive.SelectedExactlyWhen | apps/avp-client/AVPIsaacLeader/DirectHubLeaderClient.swift:320-371 | the rig driven is the one of the last drive order, unless let go since |
| SwiftLeaderDrive.BoundExactlyWhen | apps/avp-client/AVPIsaacLeader/DirectHubLeaderClient.swift:320-371 | bound: the last heartbeat answer said so and nothing broke the link since |
| SwiftLeaderDrive.LatestExactlyWhen | apps/avp-client/AVPIsaacLeader/DirectHubLeaderClient.swift:275-281 | the frame it goes by is the last one published while connected, unless the end of the drive dropped it |
| SwiftLeaderDrive.ActualIsLastReported | apps/avp-client/AVPIsaacLeader/DirectHubLeaderClient.swift:373-402 | what it takes for the arm's pose is, joint by joint, what was last reported of a selected rig |
| SwiftLeaderDrive.TelemetryMovesTheIdleTarget | apps/avp-client/AVPIsaacLeader/DirectHubLeaderClient.swift:373-402 | telemetry moves an unarmed client's target and no armed one's |
| SwiftLeaderDrive.SendsExactlyWhen | apps/avp-client/AVPIsaacLeader/DirectHubLeaderClient.swift:456-477 | a tick sends if and only if armed and bound with a frame no older than half a second, to the selected rig |
| SwiftLeaderDrive.ArmingStartsAtTelemetry | apps/avp-client/AVPIsaacLeader/DirectHubLeaderClient.swift:193-205 | until the first tick that moves, every packet after an accepted press of Arm carries the pose reported at the press |
| SwiftLeaderDrive.NeutralExactlyWhen | apps/avp-client/AVPIsaacLeader/DirectHubLeaderClient.swift:206-220 | a move to neutral is on if and only if it was asked for while armed and has since been neither reached, nor taken over by a live hand, nor ended with the drive |
| SwiftLeaderDrive.NeutralKeepsTheGripper | apps/avp-client/AVPIsaacLeader/DirectHubLeaderClient.swift:484-492 | while the arm goes home, the gripper's target stays |
| SwiftLeaderDrive.ClutchesFollowTheHand | apps/avp-client/AVPIsaacLeader/DirectHubLeaderClient.swift:477-542 | after a tick that sends, a clutch is engaged if and only if its control is active in a frame no older than 0.12 s, and newly engaged it starts at the hand's pose and the target |
| SwiftLeader.DirectHubLeaderClient.InputTick | apps/avp-client/AVPIsaacLeader/DirectHubLeaderClient.swift:456-633 | one pass of `nextInput` computes the specification's step |
| SwiftLeader.DirectHubLeaderClient.ApplyLink | apps/avp-client/AVPIsaacLeader/DirectHubLeaderClient.swift:320-371 | the heartbeat answer's effect |
| SwiftLeader.DirectHubLeaderClient.PressArm | apps/avp-client/AVPIsaacLeader/DirectHubLeaderClient.swift:193-205 | when arming is accepted, and what it sets |
| SwiftLeader.DirectHubLeaderClient.PressStop | apps/avp-client/AVPIsaacLeader/DirectHubLeaderClient.swift:222-245 | what a local stop clears |
| SwiftLeader.DirectHubLeaderClient.RefreshSelectedRig | apps/avp-client/AVPIsaacLeader/DirectHubLeaderClient.swift:373-402 | telemetry overwrites the joints it mentions, and an idle target follows it |
| SwiftLeader.DirectHubLeaderClient.LoseBinding | apps/avp-client/AVPIsaacLeader/DirectHubLeaderClient.swift:744-756 | what a lost binding clears |
| SwiftLeader.DirectHubLeaderClient.Fail | apps/avp-client/AVPIsaacLeader/DirectHubLeaderClient.swift:758-766 | what a failed link clears |
| LocalGatewayRuns.StartupNeverSnaps | apps/avp-client/tools/virtual_leader_gateway.py:579-591 | an accepted startup can hold its measured pose, keeps the soft range, and passes a hardware end by no more than the tolerance |
| LocalGatewayRuns.TickNeverLeavesLimits | apps/avp-client/tools/virtual_leader_gateway.py:324-413 | a target's distance outside its limits never grows; one tick is at most one slew step |
| LocalGatewayRuns.ArrivesExactlyOnTime | apps/avp-client/tools/virtual_leader_gateway.py:324-413 | with a held command and constant dt a driven joint is at its goal after n dry-run cycles if and only if n is at least ceil(distance / (speed dt)) |
| LocalGatewayRuns.ArrivesOnTimeInRuns | apps/avp-client/tools/virtual_leader_gateway.py:598-623 | the same in runs of the gateway's steps: from any state of any dry run armed with that pose, if the headset keeps holding it, after n turns of compute, publish pose, publish target |
| LocalGatewayRuns.CycleIsOneTick | apps/avp-client/tools/virtual_leader_gateway.py:324-413 | a cycle is what a tick and the worker's two updates do |
| LocalGatewayRuns.DryRunStaysInside | apps/avp-client/tools/virtual_leader_gateway.py:598-623 | no interleaving drives a dry run outside its limits, and disarming drops both clutches |
| LocalGatewayRuns.ArrivesWhereAsked | apps/avp-client/tools/virtual_leader_gateway.py:324-413 | where the goal of those arrival times is: the arm's angle at engagement plus sign * 180 / pi * the shortest turn * scale, or the slider's share of its rail, clamped to the limits |
| LocalGatewayRuns.LimitsAreTheCalibratedTravel | apps/avp-client/tools/virtual_leader_gateway.py:715-725 | the limits are the calibrated travel, 4095 counts to the turn, times the margin and centred on zero |
| LocalGatewayDrive.ArmedExactlyWhen | apps/avp-client/tools/virtual_leader_gateway.py:239-322 | in every run the gateway is armed if and only if Arm was pressed on a ready robot and since then nobody stopped or left, no fault came, and no frame expired under an engaged clutch |
| LocalGatewayDrive.FaultIsFinal | apps/avp-client/tools/virtual_leader_gateway.py:306-311 | after a fault nothing arms it again |
| LocalGatewayDrive.LatestExactlyWhen | apps/avp-client/tools/virtual_leader_gateway.py:255-289 | the frame it goes by is the last accepted one of this connection |
| LocalGatewayDrive.AcceptedExactlyWhenNewest | apps/avp-client/tools/virtual_leader_gateway.py:255-289 | a frame is accepted if and only if it is plausible and newer than every plausible one of this connection |
| LocalGatewayDrive.ActsExactlyWhen | apps/avp-client/tools/virtual_leader_gateway.py:324-413 | the worker acts if and only if armed with an unexpired frame that asks for motion, and then on the new target |
| LocalGatewayDrive.ClutchesFollowTheHand | apps/avp-client/tools/virtual_leader_gateway.py:239-380 | arming takes the measured pose and engages nothing; a clutch is then engaged if and only if its control is active, from the hand's pose and the measured one |
| LocalGateway.BridgeState.ComputeTarget | apps/avp-client/tools/virtual_leader_gateway.py:324-413 | `next_target` computes the specification's step |
| LocalGateway.BridgeState.HandleArm | apps/avp-client/tools/virtual_leader_gateway.py:239-253 | when arming is accepted, and what it sets |
| LocalGateway.BridgeState.HandleControl | apps/avp-client/tools/virtual_leader_gateway.py:255-289 | which frames are accepted, and what they set |
| LocalGateway.BridgeState.UnregisterClient | apps/avp-client/tools/virtual_leader_gateway.py:147-156 | what a lost connection clears |
| LocalGateway.BridgeState.SetRobotReady | apps/avp-client/tools/virtual_leader_gateway.py:291-304 | the measured pose becomes telemetry and target, under its limits |
| LocalGateway.BridgeState.SetFault | apps/avp-client/tools/virtual_leader_gateway.py:306-311 | what a fault clears |
| LocalGateway.BridgeState.UpdateActual | apps/avp-client/tools/virtual_leader_gateway.py:313-315 | telemetry replaces the measured pose |
| LocalGateway.BridgeState.UpdateSentTarget | apps/avp-client/tools/virtual_leader_gateway.py:317-322 | what was sent overwrites the target |
| RecorderRuns.EpisodesAreWholePasses | apps/driver/recorder.py:105-135 | the buffer is empty when a pass starts, each saved episode is exactly one pass, in order, and episodes are announced 0, 1, 2, ... up to the number asked for |
| RecorderRuns.TakeIsRedoneExactlyWhen | apps/driver/recorder.py:112-121 | a take is dropped if and only if a rerecord or discard write not yet consumed precedes its check |
| RecorderRuns.DiscardedTakeIsNeverSaved | apps/driver/recorder.py:112-124 | a take at any moment of which, before its check, a rerecord or discard write is unconsumed, made then or before, never becomes an episode |
| RecorderRuns.AtMostOneMoreTake | apps/driver/driver.py:430-450 | at most one recording pass starts after the stop write, and only from the loop head |
| RecorderRuns.FinishAtHeadRecordsOnce | apps/driver/recorder.py:105-110 | that one does happen: clearing exit_early at the head wipes out the early exit |
| RecorderCalls.EachWriteRaises | apps/driver/driver.py:430-450 | which write of which press raises which flag: the early exit is always the last |
| RecorderCalls.TakeIsDroppedExactlyWhenPressed | apps/driver/recorder.py:112-121 | a take is dropped if and only if, since the last drop, a redo or a discard made its first write |
| RecorderCalls.ExitComesAfterTheMark | apps/driver/driver.py:435-447 | the early exit of a redo or discard never comes before its mark |
| RecorderCalls.PressedTakeIsNeverSaved | apps/driver/recorder.py:112-124 | a take during which a redo or discard was pressed and finished writing never becomes an episode |
| RecorderCalls.DiscardEndsTheSession | apps/driver/driver.py:442-447 | a discard that finishes during a take ends the session there: nothing more is recorded or saved and no reset pass is run |
| RecorderCalls.RedoGoesOn | apps/driver/recorder.py:112-121 | without a press of finish or discard, a dropped take is followed by a reset and another take, and the session ends only with all its episodes |
| RecorderCalls.KeepAndFinishSaveEveryTake | apps/driver/recorder.py:122-135 | without a press of redo or discard, every take that is checked is saved, in order |
| RecorderCalls.FinishSavesAndEnds | apps/driver/driver.py:439-441 | a finish that finishes during a take, with no redo or discard pressed, ends the session with that take saved and no reset pass |
| RecorderCalls.ExitEarlyExactlyWhen | apps/driver/recorder.py:105-135 | the early exit is up if and only if some call made its last write and nothing lowered the flag since |
| Recorder.Session.Run | apps/driver/recorder.py:105-135 | the loop, interleaved with another thread at every operation, is a run of the machine |
| Kinematics.CosineClampIsInert | apps/avp-client/AVPIsaacLeader/VirtualLeaderView.swift:1159-1200 | the law-of-cosines clamp never acts |
| Kinematics.LinksKeepTheirLengths | apps/avp-client/AVPIsaacLeader/VirtualLeaderView.swift:1159-1200 | the elbow is one upper arm from the shoulder and the reach-clamped target one forearm from the elbow, for every request |
| Kinematics.ForwardUndoesInverse | apps/avp-client/AVPIsaacLeader/VirtualLeaderView.swift:1285-1298 | forward kinematics of the solution, inside the joint ranges, draws the solved elbow and target |
| Kinematics.SpatialRoundTrip | apps/avp-client/AVPIsaacLeader/VirtualLeaderView.swift:1159-1200 | in space the drawn wrist is the reachable target if and only if the yaw is resolved |
| Kinematics.YawIsLostNearTheAxis | apps/avp-client/AVPIsaacLeader/VirtualLeaderView.swift:1159-1169 | a request 0.05 mm off the vertical axis whose drawn wrist lies in the plane z = 0, beside the reachable target |
| Kinematics.NormalizedIsTurned | apps/avp-client/AVPIsaacLeader/VirtualLeaderView.swift:1383-1388 | normalizing removes whole turns and lands in [-pi, pi] |
| KinematicsBend.ElbowBendsToOneSide | apps/avp-client/AVPIsaacLeader/VirtualLeaderView.swift:1182-1190 | for every request the elbow lies strictly on the intended side of the line from the shoulder to the target |
| KinematicsBend.InverseUndoesForward | apps/avp-client/AVPIsaacLeader/VirtualLeaderView.swift:1159-1200 | asked for the wrist a pose draws, in range, in the shell and in front of the axis, the solver answers with that pose if and only if it bends to the intended side |
| KinematicsBend.UprightIsReached | apps/avp-client/AVPIsaacLeader/VirtualLeaderView.swift:1159-1200 | a request whose solution is inside every joint range, whatever the mathematics library behind the laws |
| VirtualArm.HandGetsWhatItAsksFor | apps/avp-client/AVPIsaacLeader/VirtualLeaderView.swift:1159-1241 | with no clipping, limit or frozen joint the drawn wrist is the reachable target, inside the shell the request |
| VirtualArm.StaysInRange | apps/avp-client/AVPIsaacLeader/VirtualLeaderView.swift:1246-1282 | no joint leaves its range |
| VirtualArm.CallIsRateLimited | apps/avp-client/AVPIsaacLeader/VirtualLeaderView.swift:1372-1381 | a call turns each joint by at most its speed times a tenth of a second, and frozen joints not at all |
| VirtualArm.HandReachesEveryPose | apps/avp-client/AVPIsaacLeader/VirtualLeaderView.swift:1159-1241 | every in-range pose that bends to the intended side is taken when the hand asks for the wrist it draws and no rate limit holds it back |
| VirtualArm.FirstCallReachesUpright | apps/avp-client/AVPIsaacLeader/VirtualLeaderView.swift:1159-1241 | from the start, one call puts the wrist at a stated point |
| VirtualArm.EdgeFlagsMeaning | apps/avp-client/AVPIsaacLeader/VirtualLeaderView.swift:1203-1232 | when each edge flag sent to the follower is up, and its sign |
| VirtualArm.CallsFollowTheClock | apps/avp-client/AVPIsaacLeader/VirtualLeaderView.swift:1246-1282 | a telemetry pose that snaps puts all five joints at it; the next call brings each closer by its speed times the time since, counted as at most a tenth of a second |
| VirtualArm.HandAtShoulderIsIgnored | apps/avp-client/AVPIsaacLeader/VirtualLeaderView.swift:1165-1171 | a hand on the shoulder itself changes nothing |
| VirtualArm.LeaderModel.MoveEndEffector | apps/avp-client/AVPIsaacLeader/VirtualLeaderView.swift:1159-1241 | the update in place computes the specification's arm |
| Sessions.SessionRoundTrip | apps/web/src/market/session.ts:33-79 | a header whose first cookie of the name is the minted, percent-encoded one reads back nullifier, lower-cased address and expiry, until expiry and nothing after (nor for an expiry too large to be finite) |
| Sessions.NullifierSurvivesExactlyWhen | apps/web/src/market/session.ts:33-40 | the nullifier comes back unchanged if and only if it has no unpaired surrogate |
| Sessions.UnboundRoundTrip | apps/web/src/market/session.ts:42-51 | three-part values from before wallets were bound still read, without an address |
| Sessions.AcceptedExactlyWhen | apps/web/src/market/session.ts:42-67 | a value is accepted if and only if it is a payload of two or three parts, its expiry finite and not past, followed by its own signature |
| Sessions.SetCookieCarries | apps/web/src/market/session.ts:83-86 | what a browser stores of the Set-Cookie text is the pair the round trip is about |
| Sessions.SetCookieLasts | apps/web/src/market/session.ts:83-86 | the attributes set: the whole site, a day in seconds, hidden from scripts, and Secure where asked for |
| SlotTokens.TokenRoundTrip | apps/web/src/market/slot-session.ts:38-96 | the same for slot tokens, for every rig and operator string, up to the slot's end |
| SlotTokens.NeverOutlivesExpiry | apps/web/src/market/slot-session.ts:55-81 | nothing is accepted after its expiry or without the signature of its payload |
| SlotTokens.SetCookieCarries | apps/web/src/market/slot-session.ts:98-107 | what a browser stores of the Set-Cookie text is the pair the round trip is about |
| SlotTokens.SetCookieLasts | apps/web/src/market/slot-session.ts:98-107 | the attributes set: the same, with the whole seconds left and never below zero |
| SlotTokens.KeysAgreeExactlyWhen | apps/web/src/lib/constants.ts:20-21 | two rigs share a cookie if and only if their names agree after every unit that may not stand in a cookie name becomes an underscore |
| Percent.ComponentRoundTrip | apps/web/src/market/session.ts:83-86 | percent-encoding fails exactly for unpaired surrogates, and decoding undoes it (section 2.1 of RFC 3986) |
| Base64.WrapRoundTrip | apps/web/src/market/session.ts:16-19 | wrapping and unwrapping gives the string with unpaired surrogates replaced (section 5 of RFC 4648) |
| Json.RecordRoundTrip | apps/web/src/market/slot-session.ts:45-70 | the printed record reads back, whatever its strings hold |

## Left out

- HTTP, WebSocket, serial, camera, JPEG and Bonjour handling; only the state they change is modelled.
- Telemetry of a rig, video frames, tasks, runs and `leaderInputDebug`: copied through, no decision here reads them.
- HubServer.Hub.LandDrive: the two `Date.now()` calls of the two pushes are one reading.
- HubModel.Body: argument values are strings and their serialized length is a given number; what the market layer adds to `dataset_push` and `attempt_start` is a given map.
- HubModel.Command: the owner key that rides along with a command is not kept.
- HubMail.TwiceExactlyWhen: a socket send counts as a delivery; whether the rig's side of a half-open socket receives it is not part of the model.
- Pairing codes and the pairing lock-out, status messages, logging and snapshots of the gateways.
- The hub gateway's and the Swift client's network threads beyond the state they write; a failed request is a step.
- HubGatewayRuns.TickBounds: assumes non-negative speeds, which the gateway itself does not check.
- SwiftLeaderRuns.EveryTickIsBounded: no claim that targets stay in the nominal range; braking can carry a target past it.
- Odometer.CreditBounds: positions and axes are finite numbers, as their declared type says; the hub does not check what a request body holds.
- SwiftArrival.HeldHandIsReached: ticks of one length, and telemetry that reports this joint where it was; the loop's own ticks vary a little around 20 ms.
- RecorderRuns.EpisodesAreWholePasses: `save_episode` either saves and empties the buffer or raises; a save that raises half-way is not modelled, and reporting an event does not raise.
- What the recorder reports after an exception: an exception with an empty message is reported as done, so no claim is made about the final state.
- Kinematics.SpatialRoundTrip: `Float` arithmetic is exact here.
- VirtualArm: dragging a link, the wrist handles, the claw and the drawing of the arm.
- Sessions.SessionRoundTrip: printed numbers are exact, which the platform guarantees below 2^53.
- SlotTokens.TokenRoundTrip: a slot's end is a whole number of seconds.
- Cookies.Platform: that a signature cannot be forged; the digest is any function.
- Chain clients, on-chain settlement, World ID, TEE calls, and the market layer apart from the ceiling it writes.
- Teleop threads of the driver: handing a loop over from one thread to the next is not claimed to be exclusive.
