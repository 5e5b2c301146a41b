# SoundPush core, modelled and proved

SoundPush streams audio between devices on a local network. This project models the parts of its Rust
core whose behaviour is hard to see from any single function, and proves what they promise over every
input, every run or every interleaving.

Each component is described by values and functions first: a state, what every operation does to it, and
runs of operations. The code that works in place is then given again as a class or a method with loops,
whose contract ties every field and every output to those functions. The theorems are about the functions,
so they hold of the classes.

| files | component | main results |
|---|---|---|
| `Jitter*.dfy` | adaptive jitter buffer | accounting in every reachable state, exactly when it wedges, when it never does and runs in which it does, order of play, refinement of a queue sample for sample, how long it waits and how its target moves, what every counter counts |
| `Node*.dfy`, `PairingRuns.dfy`, `Endings.dfy`, `Actor.dfy`, `SimultaneousDial.dfy` | connection manager of one device, and two devices dialing each other | tables consistent over every event sequence, trust is earned, and exactly when it is, QR secrets are single use, the newest connection wins, both ends keep the same one of two |
| `Routes.dfy`, `RouteLife.dfy`, `SavedRoutes.dfy`, `RouteIds.dfy`, `Reconnect.dfy` | audio routes across drops | exactly which events end this device's request for a kind of route, through any run, what a reconnect restores and what it starts from the saved routes |
| `Framing.dfy`, `Media.dfy` | stream frames and media packets | independence from chunking, round trips both ways, conservation of bytes |
| `Base32.dfy`, `QrCode.dfy`, `QrLimits.dfy` | pairing codes | round trips although the 32-bit register overflows, what exactly a scanner reads, and what it refuses |
| `Resampler.dfy`, `Drift.dfy`, `Render.dfy` | playback rate | the stream equals a direct formula, which is the cubic through its neighbours and exact on quadratics, exact counts, which sample reaches which device channel, output independent of buffer sizes, termination |
| `ResumeTokens.dfy`, `PairingLimiter.dfy`, `Windows.dfy` (flap detector), `TokenBucket.dfy`, `Health.dfy`, `AuditLog.dfy` | bounded summaries | each answers exactly as an unbounded history would |

`Common.dfy` holds the shared vocabulary.

## How it is modelled

- Samples, ratios, phases and token counts are `real`; instants are `nat` nanoseconds (seconds as `real` in
  the token bucket). Jitter-buffer timestamps are 64-bit with the source's saturating and wrapping
  arithmetic, the base32 register is 32-bit, route ids are bytes.
- Cryptography is a parameter: the device id of a key and whether a proof verifies are functions; ids are
  assumed to determine keys where a theorem says `Injective`. Random draws, clock readings, the choice among
  equally old map entries and the success of a write are parameters of the operations.
- What the engine answers about a kind of route (may it start, is it saved to run again) and the time are one
  `Policy`; every event carries its own, and its clock, in milliseconds, need not be that of the event before.
  Whether a pipeline opens and when it is ready are part of the event.
- A connection event can happen only as the transport allows (`NodeTheorems.Possible`): a connection is
  established or fails once, a pinned dial reaches the pinned device, QR secrets are fresh.
- Maps with an order (`BTreeMap`) are maps with a least key; hash maps are maps.

## Where the code does not do what one might expect

- The jitter buffer can reach a state it leaves only by a reset: not buffering and without a play position.
  `WedgesExactly` says which push leads there and `NeverWedges` when none does. `StaleRunWedges` and
  `LongFrameWedges` are runs of a new buffer that end there, one for each cause: a sender that starts over far
  in the past after an underrun, and a frame longer than the target. A frame with fewer samples than channels
  is not empty and yet has length 0.
- A locally requested route can be lost during a drop. The deadline of a request
  (35 s, or 20 s once accepted) is cleared only when the route becomes active and keeps running through a
  pause, so the tick stops a route that was paused while starting; a paused route that is not kept running is
  stopped after 120 s; and a request of the peer for the same kind, or one that reuses the id, replaces it.
  `LosesExactly` lists every event that ends a request, as an equivalence, `SurvivesFlapping` and
  `DropLosesNoKind` carry it through any run, `SweptAlone` gives the two times, and `RequestExpires` is a run
  in which a request is gone after a drop of 35 s.
- After a reconnect that finds a route of the same kind the peer asked for, the kind is still there, but no
  longer as this device's request. `PauseThenResume` states exactly that condition.
- A valid pairing proof on a connection from which no code can be derived closes that connection, uses the
  shown code up and completes a pairing the same device had under way on another one (`CodeRequestFails`).
- The pairing limiter forgets an address when 256 others are active, and whenever it does that address gets
  five more attempts, of which the history would refuse at least one (`EvictionForgetsAlways`; `EvictionForgets`
  is a run from an empty table). `FiresExactly` says when.
- A token received from a peer is refused for lack of room before expired ones are dropped. The table answers
  as the history would if and only if no 32-byte token with some lifetime, of a peer without an entry, arrives
  while 64 are stored (`HeldExact`); `ExpiredCrowdOut` is a run of 65 peers in which 64 expired tokens keep a
  good one out. Only the tick prunes the table.
- Reloading the audit log is reading back what memory shows if and only if nothing else in the file is inside
  retention, or what memory shows fills the limit (`ReloadsExactly`). While times do not go back that is so
  (`ReloadExact`); with a record dated back it may fail (`ClockBackDiffers`).

## Model

| member | source | states |
|---|---|---|
| JitterTheorems.AlwaysAccounted | sound-push-core/sp-media/src/jitter.rs:111-271 | in every state any run of push, pop, adapt, set_bounds and reset can reach: played + late + buffered frames <= received, 6 * underruns + consecutive missing <= missing, at most 1024 frames, the target inside its clamp bounds, the deviation window at most 512 long |
| JitterTheorems.SilenceIsNotLoss | sound-push-core/sp-media/src/jitter.rs:141-146 | from a DTX marker until the next audio frame plays, no run counts a missing frame or an underrun |
| JitterTheorems.SilenceLasts | sound-push-core/sp-media/src/jitter.rs:199-219 | a pop is silent exactly at a marker, or past one where no frame is stored, plays exactly a stored audio frame, and leaves the buffer in silence until one plays |
| JitterTheorems.WedgesExactly | sound-push-core/sp-media/src/jitter.rs:130-139 | a step leads into the state without play position and without buffering exactly when it is a push whose jump discards every stored frame |
| JitterTheorems.WedgedForever | sound-push-core/sp-media/src/jitter.rs:170-185 | that state answers Buffering to every pop, through any further operations short of a reset |
| JitterTheorems.NeverWedges | sound-push-core/sp-media/src/jitter.rs:111-139 | no run reaches it when pushed frames are empty or one frame size long (at most 200 ms) and the first push after a restart is not older than the newest end minus a frame |
| JitterTheorems.StaleRestartWedges | sound-push-core/sp-media/src/jitter.rs:130-139 | from any accounted state that is buffering with no frame stored and a stale newest end, one push, pop and push reach it |
| JitterWedge.StaleRunWedges | sound-push-core/sp-media/src/jitter.rs:111-246 | a new buffer reaches it: a frame with a large timestamp is played, six pops find nothing, and the sender starts over far enough in the past |
| JitterWedge.LongFrameWedges | sound-push-core/sp-media/src/jitter.rs:130-139 | a new buffer reaches it with its second frame, when that is longer than the target and the jump limit |
| JitterTheorems.JumpsForward | sound-push-core/sp-media/src/jitter.rs:130-138 | a push that is in time and further ahead than the jump limit leaves no play position, or moves it strictly forward onto the least stored frame; any other push leaves it |
| JitterTheorems.NeverBack | sound-push-core/sp-media/src/jitter.rs:111-254 | between rebuffers the play position never moves back |
| JitterTheorems.BufferingEndsWithFrame | sound-push-core/sp-media/src/jitter.rs:171-215 | the pop that ends buffering is Played or Silence |
| JitterTheorems.PlaysInOrder | sound-push-core/sp-media/src/jitter.rs:187-215 | in every run of full-length frames the timestamps played between rebuffers strictly increase, so each is played at most once |
| JitterTheorems.HoldsAtMostFive | sound-push-core/sp-media/src/jitter.rs:221-245 | at most five non-buffering pops in a row leave the play position where it was |
| JitterTheorems.CapOnce | sound-push-core/sp-media/src/jitter.rs:124-128 | storing one frame too many drops exactly the oldest and counts it late |
| JitterQueue.RefinesQueue | sound-push-core/sp-media/src/jitter.rs:111-215 | contiguous frames arriving in any order, with duplicates, each before the pop that reaches it and within the jump limit and frame bound, are popped in timestamp order, all Played after an initial run of Buffering: each output buffer holds the samples of its frame, cut or followed by zeros, and those of the Buffering pops hold zeros |
| JitterQueue.HearsWhatWasSent | sound-push-core/sp-media/src/jitter.rs:170-215 | with output buffers one frame long, the buffers of the Played pops, one after the other, are the frames sent, one after the other |
| JitterDelay.WaitsForTarget | sound-push-core/sp-media/src/jitter.rs:154-182 | until playback begins a pop answers Buffering exactly while what arrived, from the first frame to the end of the last, is shorter than the target, and never afterwards |
| JitterDelay.WaitsForFrame | sound-push-core/sp-media/src/jitter.rs:217-229 | while what is buffered and a frame do not exceed the target, five pops in a row at most wait for a missing frame, which plays if it then arrives |
| JitterDelay.PassesFrame | sound-push-core/sp-media/src/jitter.rs:230-246 | otherwise the position moves on by a frame and the missing one is late; on the sixth pop with nothing stored the buffer refills instead, towards a target two frames larger, within its bounds |
| JitterDelay.AdaptSettles | sound-push-core/sp-media/src/jitter.rs:258-271 | without new packets the target reaches twice the 98th percentile and a frame, within the delay bounds, at once when rising and by 1 ms a call when falling |
| JitterDelay.BoundsMoveTarget | sound-push-core/sp-media/src/jitter.rs:103-107 | new bounds are put in order and move the target only as far as they force it to |
| JitterDelay.ResetIsNew | sound-push-core/sp-media/src/jitter.rs:283-291 | a reset buffer is a new one but for the target, the measured deviations and the counters |
| JitterCounts.CountersCount | sound-push-core/sp-media/src/jitter.rs:111-254 | in every run from a new buffer received counts the pushes, played and silent those answers, and missing the Missing answers and the underruns |
| JitterCounts.AccountsBalance | sound-push-core/sp-media/src/jitter.rs:111-254 | in every run of audio with new timestamps and without jump or reset, received is played plus late plus stored |
| JitterWindow.WindowIsNewest | sound-push-core/sp-media/src/jitter.rs:299-314 | after any packets the round-robin window holds exactly the newest 512 transit deviations |
| JitterWindow.DeviationExact | sound-push-core/sp-media/src/jitter.rs:299-308 | unless clocks are 2^63 samples apart, a deviation is by how much one packet travelled longer or shorter than the one before, up to 32 bits |
| JitterWindow.EveryPushObserved | sound-push-core/sp-media/src/jitter.rs:111-115 | until a reset the estimate is that of all packets pushed, late ones included |
| JitterWindow.PercentileRank | sound-push-core/sp-media/src/jitter.rs:316-325 | the percentile is element round(0.98 (n - 1)) of an ascending rearrangement of the window, and 0 of an empty one |
| Jitter.WholeIsDivision | sound-push-core/sp-media/src/jitter.rs:121-121 | the frame length used throughout is integer division by the channel count |
| Jitter.FrameLenIs | sound-push-core/sp-media/src/jitter.rs:121-121 | a frame is its number of samples over its number of channels long, and no channels count as one |
| JitterBuffers.JitterBuffer.constructor | sound-push-core/sp-media/src/jitter.rs:78-96 | a new buffer is the model's initial state |
| JitterBuffers.JitterBuffer.SetDelayBounds | sound-push-core/sp-media/src/jitter.rs:103-107 | in place: bounds ordered, target clamped, nothing else changes |
| JitterBuffers.JitterBuffer.PushFrame | sound-push-core/sp-media/src/jitter.rs:111-139 | in place: the whole state after a push, late, stored, capped or jumping |
| JitterBuffers.JitterBuffer.BoundFrames | sound-push-core/sp-media/src/jitter.rs:125-128 | the loop that drops the oldest frames reaches the capped map and late count |
| JitterBuffers.JitterBuffer.JumpForward | sound-push-core/sp-media/src/jitter.rs:130-138 | in place: the frames from the new position on, and the first of them as play position |
| JitterBuffers.JitterBuffer.PushSilence | sound-push-core/sp-media/src/jitter.rs:144-146 | a DTX marker is the push of an empty frame |
| JitterBuffers.JitterBuffer.Has | sound-push-core/sp-media/src/jitter.rs:149-151 | true exactly for a buffered or already passed timestamp |
| JitterBuffers.JitterBuffer.BufferedSamples | sound-push-core/sp-media/src/jitter.rs:154-163 | samples ahead of the play position, or of the first frame |
| JitterBuffers.JitterBuffer.PopInto | sound-push-core/sp-media/src/jitter.rs:170-246 | in place: the whole state and the status; a Played pop leaves in the output, sample for sample, the frame stored at the play position, or the oldest when buffering ended, and zeros after it; Silence and Buffering leave zeros, Missing leaves the output alone |
| JitterBuffers.JitterBuffer.DropBefore | sound-push-core/sp-media/src/jitter.rs:187-197 | the loop removes exactly the frames before the position and counts the audio ones late |
| JitterBuffers.JitterBuffer.PlayFrom | sound-push-core/sp-media/src/jitter.rs:199-246 | the status decides the output: the samples of the stored frame followed by zeros, zeros, or untouched for concealment |
| JitterBuffers.JitterBuffer.Conceal | sound-push-core/sp-media/src/jitter.rs:221-246 | hold, advance or rebuffer with a larger target, with the output each implies |
| JitterBuffers.JitterBuffer.PlaySilent | sound-push-core/sp-media/src/jitter.rs:248-254 | zeros, one frame further, counted as silence |
| JitterBuffers.JitterBuffer.AdaptTarget | sound-push-core/sp-media/src/jitter.rs:258-271 | in place: the target rises to what is needed or falls by at most 1 ms, clamped |
| JitterBuffers.JitterBuffer.Clear | sound-push-core/sp-media/src/jitter.rs:283-291 | in place: what a reset clears and what it keeps |
| SimultaneousDial.BothKeepTheSame | sound-push-core/sp-engine/src/actor.rs:2147-2237 | two devices that dialed each other, both Established within 5 s at each end: in every interleaving of Established and Closed events neither end ever closes the connection dialed by the lower id, an end that established it holds it, and the other connection's late Closed changes nothing |
| SimultaneousDial.AlwaysInv | sound-push-core/sp-engine/src/actor.rs:2147-2209 | what every move of the two-device system keeps: which connection each end holds, and since when |
| SimultaneousDial.LateCloseIgnored | sound-push-core/sp-engine/src/actor.rs:2211-2237 | the Closed event of the superseded connection leaves the node exactly as it was |
| NodeRuns.AlwaysConsistent | sound-push-core/sp-engine/src/actor.rs:1144-2271 | over every possible event sequence: conn_index is the inverse of sessions, a connection is in at most one table, every session's device is trusted, unblocked and has the stored key, in_flight implies an entry in dial_targets that can still end, and no stopped route stays |
| NodeRuns.NextConsistent | sound-push-core/sp-engine/src/actor.rs:1729-2271 | one event keeps all of that |
| NodeTheorems.HandleAgree | sound-push-core/sp-engine/src/actor.rs:1892-2271 | one event keeps the tables in agreement |
| NodeTheorems.NewestWins | sound-push-core/sp-engine/src/actor.rs:2147-2209 | a trusted device that connects while it has a session takes it over and the older connection is closed, unless that is less than 5 s old, dialed by the lower id and the newer by the higher: then and only then the newer is closed and the session stays |
| NodeTheorems.TrustedConnects | sound-push-core/sp-engine/src/actor.rs:1892-1925 | without a session the connection of a trusted device becomes it, with no dial for the device left; a blocked device or another key is closed |
| PairingRuns.CodeRequest | sound-push-core/sp-engine/src/actor.rs:2507-2562 | a proof pairs at once exactly if a code is shown, has not expired and the proof verifies, and uses the code up; any other is refused and changes nothing |
| PairingRuns.CodeRequestFails | sound-push-core/sp-engine/src/actor.rs:2507-2562 | without a derived code a valid proof uses the shown code up and completes at most a pairing the device had under way on another connection |
| PairingRuns.PlainRequest | sound-push-core/sp-engine/src/actor.rs:2507-2562 | a request without proof begins a pairing, in place of one the device had, exactly while a code is shown |
| PairingRuns.Confirms | sound-push-core/sp-engine/src/actor.rs:2090-2145 | the user's yes completes the pairing if the peer has accepted and is noted otherwise; a no ends it |
| PairingRuns.PeerConfirms | sound-push-core/sp-engine/src/actor.rs:2406-2438 | the peer's yes completes the pairing if the user has confirmed or scanned the code and is noted otherwise; a no ends it |
| PairingRuns.ComparedCodesPair | sound-push-core/sp-engine/src/actor.rs:2050-2145 | two devices that compare codes are paired once both have accepted, in either order, and not before |
| PairingRuns.ScannedCodePairs | sound-push-core/sp-engine/src/actor.rs:1926-1957 | the device that scanned a code is paired when the device of the code accepts, and not before |
| PairingRuns.StrangerConnects | sound-push-core/sp-engine/src/actor.rs:1926-1957 | an unknown device that connects waits if the limiter allows it and is closed otherwise, as is one dialed for another reason |
| PairingRuns.OtherMessageCloses | sound-push-core/sp-engine/src/actor.rs:2396-2405 | any other first message closes a waiting connection |
| PairingRuns.WaitingExpires | sound-push-core/sp-engine/src/actor.rs:3428-3450 | a connection or pairing that has waited too long is closed, and nothing else changes |
| Endings.DisconnectEnds | sound-push-core/sp-engine/src/actor.rs:1144-1160 | after a disconnect nothing of the device is left but its trust, which no longer connects on its own, and nothing of another device has changed |
| Endings.ForgetEnds | sound-push-core/sp-engine/src/actor.rs:1161-1177 | the same, and the device is no longer trusted |
| Endings.BlockEnds | sound-push-core/sp-engine/src/actor.rs:1178-1193 | the same for a block, with the trust marked; lifting one changes only the mark |
| Endings.ClosedEnds | sound-push-core/sp-engine/src/actor.rs:2211-2271 | what each reason of a closing does to routes, dials and trust, and that it touches no other device |
| Endings.ClosedWaiting | sound-push-core/sp-engine/src/actor.rs:2211-2225 | a closing outside a session removes exactly the entry of that connection |
| Endings.DialStarts | sound-push-core/sp-engine/src/actor.rs:1662-1696 | a dial starts, under a fresh id and recorded with its device, exactly if the device is trusted, unblocked, without session and dial, due and reachable |
| Endings.PairingDialStarts | sound-push-core/sp-engine/src/actor.rs:1698-1725 | a pairing dial is recorded as one, with the device it is pinned to |
| Endings.DialEnds | sound-push-core/sp-engine/src/actor.rs:1760-1888 | a failed dial or handshake removes its records and frees its device |
| NodeTrust.NeverUndialable | sound-push-core/sp-engine/src/actor.rs:1652-1696 | an unconnected trusted device can be dialed now, or a recorded dial for it is still under way |
| NodeTrust.DialEndFrees | sound-push-core/sp-engine/src/actor.rs:1760-1891 | however that dial ends (failed, handshake failed, established) the device is free again, with a session in the last case |
| NodeTrust.TrustIsEarned | sound-push-core/sp-engine/src/actor.rs:2050-2145 | in any run a device enters the trust store only by local confirmation and peer acceptance on that pairing, by a verified proof of an unexpired QR secret, or by peer acceptance on a connection pinned by a scanned code |
| NodeTrust.QrSecretOnce | sound-push-core/sp-engine/src/actor.rs:2507-2562 | across any run no QR secret admits two verified proofs |
| NodeTrust.AlwaysSound | sound-push-core/sp-engine/src/actor.rs:2050-2145 | marks on pending pairings are always backed by what users and peers did |
| NodeTrust.HandleQr | sound-push-core/sp-engine/src/actor.rs:2507-2562 | exactly which events change the offered code |
| Reconnect.PauseThenResume | sound-push-core/sp-engine/src/actor.rs:3063-3155 | pausing and resuming at once leaves a route or a paused entry of every locally requested kind, and it stays this device's own request exactly when the peer had no route of that kind of its own |
| Reconnect.LosesExactly | sound-push-core/sp-engine/src/actor.rs:1144-3350 | one event of any sort: a kind this device asks a peer for is still asked for afterwards if and only if the event is not the sweep of an overdue route, a stop that finds it first under its key, a request of the peer that replaces it while paused, an accepted start that fails, a microphone feed that is replaced, a disconnect, forget or block of that peer, a goodbye, or a new session that finds a route of that kind the peer asked for |
| Reconnect.AlwaysTidy | sound-push-core/sp-engine/src/actor.rs:2578-3155 | in every run from no routes, no stopped route stays and this device asks a peer for a kind at most once |
| Reconnect.SweptAlone | sound-push-core/sp-engine/src/actor.rs:3329-3349 | the sweep ends the request exactly when its deadline has passed, or it has been paused for more than 120 s and is not kept running, when no other route has its key |
| Reconnect.RequestExpires | sound-push-core/sp-engine/src/actor.rs:2641-3349 | a run with one drop of 35 s in which a request is wanted before and during the drop and nothing of its kind is left after the reconnect |
| Reconnect.DropLosesNoKind | sound-push-core/sp-engine/src/actor.rs:2211-2271 | a session drops, any events follow, the peer connects again: the request is there throughout if and only if no event between loses it; then the new session has a route or a paused entry of the kind, whatever fails to start, and it is this device's own request if and only if the peer has no route of that kind of its own |
| Reconnect.SupersedeLosesNoKind | sound-push-core/sp-engine/src/actor.rs:2147-2209 | a newer connection that replaces the session leaves a route or a paused entry of each requested kind, and its own request under the same condition |
| Reconnect.SurvivesFlapping | sound-push-core/sp-engine/src/actor.rs:1144-3350 | through any run of events, any number of drops and reconnects among them: a request is there before, between and after them if and only if none of them loses it |
| SavedRoutes.SavedRunsAgain | sound-push-core/sp-engine/src/actor.rs:3113-3155 | a route saved to run with the peer, when its kind can start, has a route of its kind in the new session, with the saved keep choice, freshly requested with its deadline if none of the kind went on |
| SavedRoutes.OnlyWantedStart | sound-push-core/sp-engine/src/actor.rs:3113-3155 | a new session adds only routes of kinds that were paused or are saved to run again |
| RouteIds.AlwaysOwnSide | sound-push-core/sp-engine/src/actor.rs:293-300 | in every run the next route id of a session is even on the dialing side, odd on the other, and never 0 |
| RouteIds.RequestsOwnId | sound-push-core/sp-engine/src/actor.rs:2578-2643 | a request takes exactly that id, or nothing changes |
| RouteLife.OverdueAlone | sound-push-core/sp-engine/src/actor.rs:3329-3349 | a route whose key no other has is swept exactly when it is due |
| RouteLife.MineSweep | sound-push-core/sp-engine/src/actor.rs:3329-3349 | with keys that several routes share, the sweep takes this device's request exactly when more routes with its key are due than stand before it |
| RouteLife.StopKeysSpares | sound-push-core/sp-engine/src/actor.rs:3343-3349 | stopping a list of keys one by one spares, of each key, all but as many of the first routes as the list names it |
| RouteLife.MineAccept | sound-push-core/sp-engine/src/actor.rs:2915-2967 | accepting a route of the peer ends this device's request exactly when a paused entry of it is of that kind or has that id |
| RouteLife.MineStart | sound-push-core/sp-engine/src/actor.rs:2578-2643 | starting a route never doubles a request, and ends another one exactly when that is the microphone feed it replaces |
| RouteLife.ResumeExactly | sound-push-core/sp-engine/src/actor.rs:3113-3155 | after resuming, every kind this device asked for has a route or a paused entry, and is its own request exactly when no route of the peer displaces it |
| Routes.PauseKeeps | sound-push-core/sp-engine/src/actor.rs:3063-3097 | every locally requested kind is still there, resumable, after a pause |
| Routes.PauseOnlyPeer | sound-push-core/sp-engine/src/actor.rs:3063-3097 | a pause leaves the peer only paused routes and other peers' running routes untouched |
| Routes.ResumeKeeps | sound-push-core/sp-engine/src/actor.rs:3113-3155 | each paused local route ends as a fresh request, an existing route or the paused entry |
| Routes.IdsNeverCollide | sound-push-core/sp-engine/src/actor.rs:293-300 | route ids drawn by the two ends of a connection never coincide, across any number of draws and wrap-arounds |
| Actors.Actor.constructor | sound-push-core/sp-engine/src/actor.rs:511-540 | an actor starts with its trust store and empty tables |
| Actors.Actor.DialOut | sound-push-core/sp-engine/src/actor.rs:1553-1648 | a dial takes the next connection id and records its target |
| Actors.Actor.CancelDialOf | sound-push-core/sp-engine/src/actor.rs:1652-1660 | a cancelled dial frees its state and every record of it |
| Actors.Actor.TryDialTrusted | sound-push-core/sp-engine/src/actor.rs:1662-1696 | which conditions start a dial, and what is recorded |
| Actors.Actor.ConnectTo | sound-push-core/sp-engine/src/actor.rs:1135-1143 | a user's connect makes the dial due at once |
| Actors.Actor.DialToPair | sound-push-core/sp-engine/src/actor.rs:1698-1725 | a pairing dial is recorded with its pinned device |
| Actors.Actor.OnDialFailed | sound-push-core/sp-engine/src/actor.rs:1760-1778 | a failed dial is forgotten and its device freed |
| Actors.Actor.OnHandshakeFailed | sound-push-core/sp-engine/src/actor.rs:1871-1888 | the same after a failed handshake |
| Actors.Actor.PauseRoutesFor | sound-push-core/sp-engine/src/actor.rs:3063-3097 | the in-place loop pauses what the model pauses, noting the time and keeping the deadline, and drops the rest |
| Actors.Actor.RemoveRoutesFor | sound-push-core/sp-engine/src/actor.rs:3099-3111 | exactly the peer's routes go |
| Actors.Actor.StartRoute | sound-push-core/sp-engine/src/actor.rs:2578-2643 | a startable kind is requested under the next id with its deadline, in place of another device's microphone feed if asked to replace it; anything else changes nothing |
| Actors.Actor.StartRouteFor | sound-push-core/sp-engine/src/actor.rs:1224-1233 | the user's start, with ids from the session with the peer |
| Actors.Actor.FindFeed | sound-push-core/sp-engine/src/actor.rs:2648-2659 | the first running microphone feed of another device |
| Actors.Actor.FindRoute | sound-push-core/sp-engine/src/actor.rs:3011-3013 | the first route with the key, or none has it |
| Actors.Actor.StopRouteByKey | sound-push-core/sp-engine/src/actor.rs:3010-3061 | exactly the first route with the key goes |
| Actors.Actor.SweepRoutes | sound-push-core/sp-engine/src/actor.rs:3329-3349 | the tick stops what is due by key, first collected and then stopped |
| Actors.Actor.ActivateRoute | sound-push-core/sp-engine/src/actor/pipelines.rs:495-506 | a starting route becomes active and loses its deadline |
| Actors.Actor.SetKeepRunning | sound-push-core/sp-engine/src/actor.rs:1279-1296 | the first route with the key takes the flag |
| Actors.Actor.OnRouteAccept | sound-push-core/sp-engine/src/actor.rs:2970-3008 | the first waiting request with the key starts at the end of the list, or is gone when its pipeline cannot be begun |
| Actors.Actor.AcceptRouteFrom | sound-push-core/sp-engine/src/actor.rs:2915-2967 | paused entries of that kind or id go, and the route starts unless its id is taken or its pipeline cannot be begun |
| Actors.Actor.OnRouteMessage | sound-push-core/sp-engine/src/actor.rs:2440-2475 | what an accept, a reject or a stop of the peer does to the routes |
| Actors.Actor.MarkNewest | sound-push-core/sp-engine/src/actor.rs:3139-3149 | the newest route of that kind takes over the kept flag |
| Actors.Actor.ResumeRoutes | sound-push-core/sp-engine/src/actor.rs:3113-3155 | in place: the paused routes taken out and each paused and saved kind started or put back, as `SavedRoutes` and `RouteLife` characterise |
| Actors.Actor.TakeResumable | sound-push-core/sp-engine/src/actor.rs:3117-3125 | this device's paused routes of the peer are taken out, the others stay in order |
| Actors.Actor.ResumeKind | sound-push-core/sp-engine/src/actor.rs:3135-3154 | one kind: an existing route, a fresh request, or the paused entry put back |
| Actors.Actor.PromoteSession | sound-push-core/sp-engine/src/actor.rs:2147-2209 | in place: the whole state after a connection becomes the session, supersedes one, or is refused, as `NodeTheorems.NewestWins` characterises |
| Actors.Actor.OnEstablishedEvent | sound-push-core/sp-engine/src/actor.rs:1892-1957 | the whole state after an Established event, for trusted, blocked, key-changed, pairing and unknown peers |
| Actors.Actor.OnClosedEvent | sound-push-core/sp-engine/src/actor.rs:2211-2271 | the whole state after a Closed event, for every table the connection may be in |
| Actors.Actor.AfterSession | sound-push-core/sp-engine/src/actor.rs:2237-2271 | what the reason of a closing does to routes, trust and auto-connect |
| Actors.Actor.BeginPairingWith | sound-push-core/sp-engine/src/actor.rs:2050-2088 | a pairing entry, or the close when no code can be derived |
| Actors.Actor.ConfirmPairing | sound-push-core/sp-engine/src/actor.rs:2090-2109 | local consent marks, completes or ends the pairing |
| Actors.Actor.CompletePairing | sound-push-core/sp-engine/src/actor.rs:2111-2145 | the peer is stored and its connection becomes a session, unless the store fails |
| Actors.Actor.OnPairRequestFrom | sound-push-core/sp-engine/src/actor.rs:2507-2562 | a valid proof pairs and burns the code, an invalid one is refused, no proof starts a manual pairing |
| Actors.Actor.OnControlMsg | sound-push-core/sp-engine/src/actor.rs:2396-2475 | the whole state after a control message about pairing or about a route's answer or end |
| Actors.Actor.DisconnectFrom | sound-push-core/sp-engine/src/actor.rs:1144-1160 | the session, its routes and its dial go, and auto-connect is off |
| Actors.Actor.RevokeDevice | sound-push-core/sp-engine/src/actor.rs:3184-3197 | session, dial and routes of a revoked device go; a pairing under way stays |
| Actors.Actor.ForgetDevice | sound-push-core/sp-engine/src/actor.rs:1161-1177 | revoked and untrusted |
| Actors.Actor.BlockDevice | sound-push-core/sp-engine/src/actor.rs:1178-1193 | the flag is stored, and a blocked device is revoked |
| Actors.Actor.DropStaleConnection | sound-push-core/sp-engine/src/actor.rs:3428-3438 | a connection that waited too long is closed |
| Framing.ChunkingIrrelevant | sound-push-core/sp-protocol/src/framing.rs:34-66 | for every byte stream and every way to split it, draining after each chunk gives the frames, the error and the leftover of draining it whole |
| Framing.DrainAppend | sound-push-core/sp-protocol/src/framing.rs:53-67 | draining, then more bytes, is draining everything |
| Framing.ErrorSticky | sound-push-core/sp-protocol/src/framing.rs:53-67 | once a header is refused, no further bytes change the frames or the error |
| Framing.LeftoverBounded | sound-push-core/sp-protocol/src/framing.rs:145-163 | what stays buffered after draining is shorter than a header plus the largest frame |
| Framing.DecodesBack | sound-push-core/sp-protocol/src/framing.rs:18-30 | any encoded list decodes back exactly, with nothing left |
| Framing.DrainConserves | sound-push-core/sp-protocol/src/framing.rs:145-163 | the frames drained, encoded again, and the leftover are the input |
| Framing.EncodeFrame | sound-push-core/sp-protocol/src/framing.rs:18-30 | appends header and payload, or refuses a payload over the limit and leaves the output alone |
| Framing.EncodeStreamFrame | sound-push-core/sp-protocol/src/framing.rs:109-126 | the same with the kind byte and the kind's own limit |
| Framing.Decoder.Extend | sound-push-core/sp-protocol/src/framing.rs:48-50 | appends the bytes read |
| Framing.Decoder.NextFrame | sound-push-core/sp-protocol/src/framing.rs:145-163 | a frame and the rest, nothing yet, or an error with the buffer kept |
| Framing.Decoder.TakeChunk | sound-push-core/sp-protocol/src/framing.rs:48-67 | one chunk drained in place |
| BigEndian.ValueBytes | sound-push-core/sp-protocol/src/framing.rs:25-27 | a length written in big-endian bytes reads back |
| BigEndian.BytesValue | sound-push-core/sp-protocol/src/framing.rs:58-60 | and bytes read as a number write back |
| Media.DecodesBack | sound-push-core/sp-protocol/src/media.rs:112-164 | every encodable packet decodes to itself |
| Media.EncodesBack | sound-push-core/sp-protocol/src/media.rs:131-164 | every datagram that decodes encodes to the same bytes |
| Media.PacketFits | sound-push-core/sp-protocol/src/media.rs:112-129 | an encodable packet always fits a datagram frame |
| Media.RefusesExactly | sound-push-core/sp-protocol/src/media.rs:131-164 | which datagrams are accepted, and which error each other one gets |
| Media.PacketsSurviveStream | sound-push-core/sp-protocol/src/media.rs:112-164 | any list of encodable packets, framed, sent as a byte stream and split anyhow, arrives packet for packet |
| Media.EncodePacket | sound-push-core/sp-protocol/src/media.rs:112-129 | the buffer filled field by field is the packet's layout, or the refusal |
| Media.DecodePacket | sound-push-core/sp-protocol/src/media.rs:131-164 | the cursor reads exactly what the layout means, with each error case |
| Base32.RoundTrip | sound-push-core/sp-security/src/pairing.rs:203-241 | decoding an encoding gives the bytes back, for every byte string |
| Base32.CaseIrrelevant | sound-push-core/sp-security/src/pairing.rs:222-241 | lower case decodes as upper case |
| Base32.Encode | sound-push-core/sp-security/src/pairing.rs:204-220 | the loop over a 32-bit register, which loses its high bits, writes the byte string's number in base 32 (section 6 of RFC 4648, no padding) |
| Base32.Decode | sound-push-core/sp-security/src/pairing.rs:222-241 | the loop reads the number back, refusing other characters |
| Base32.RegisterReads | sound-push-core/sp-security/src/pairing.rs:204-241 | the digits and bytes read from a register that wrapped are those of the unbounded number |
| QrCode.UriRoundTrip | sound-push-core/sp-security/src/pairing.rs:71-146 | what a scanner reads from any code this device shows, errors included |
| QrCode.SharedPortRoundTrip | sound-push-core/sp-security/src/pairing.rs:71-146 | id, secret and addresses come back for 1 to 3 addresses sharing a nonzero port |
| QrLimits.BlanksIrrelevant | sound-push-core/sp-security/src/pairing.rs:102-104 | blanks around a code make no difference |
| QrLimits.LongRefused | sound-push-core/sp-security/src/pairing.rs:104-106 | a text is refused for its length exactly if it has more than 256 bytes |
| QrLimits.Utf8Fewest | sound-push-core/sp-security/src/pairing.rs:104-106 | a character counts the fewest bytes of UTF-8 that carry it |
| QrLimits.BodyExactly | sound-push-core/sp-security/src/pairing.rs:114-146 | a payload is read from its bytes and no others: more are trailing data, fewer are truncated, another first byte is another version |
| QrLimits.ShowsFirstPort | sound-push-core/sp-security/src/pairing.rs:71-84 | a code shows only addresses on the first one's port, and all of them unless it shows three |
| QrCode.ReencodeParses | sound-push-core/sp-security/src/pairing.rs:102-146 | any text that parses re-encodes to a code that parses equal |
| QrCode.KeptAddresses | sound-push-core/sp-security/src/pairing.rs:72-84 | the loop keeps the first three addresses on the first one's port |
| QrCode.AddressBytes | sound-push-core/sp-security/src/pairing.rs:85-97 | the address bytes, IPv4 and IPv6 |
| QrCode.MakeUri | sound-push-core/sp-security/src/pairing.rs:71-99 | the whole code |
| QrCode.Reader.constructor | sound-push-core/sp-security/src/pairing.rs:178-181 | nothing consumed yet |
| QrCode.Reader.Take | sound-push-core/sp-security/src/pairing.rs:183-199 | the next n bytes and the cursor past them, or nothing moved |
| QrCode.ReadIp | sound-push-core/sp-security/src/pairing.rs:130-134 | one address, or the error |
| QrCode.ReadIps | sound-push-core/sp-security/src/pairing.rs:128-136 | count addresses in order, or the error |
| QrCode.ReadKeys | sound-push-core/sp-security/src/pairing.rs:121-122 | the device id and the secret |
| QrCode.ReadBody | sound-push-core/sp-security/src/pairing.rs:114-146 | the whole payload, with each refusal |
| QrCode.ParseUri | sound-push-core/sp-security/src/pairing.rs:102-146 | length limit, trimming, prefix, base32 and payload |
| Resampler.StreamIsDirect | sound-push-core/sp-media/src/drift.rs:93-116 | for constant ratio the stream produces frame for frame a direct formula: output k interpolates the four frames around input position k * ratio |
| Resampler.StreamJoins | sound-push-core/sp-media/src/drift.rs:93-134 | each output sample lies on the cubic that runs from the second to the third of its four input samples with half the difference of their neighbours as slope at either end |
| Resampler.QuadraticsExact | sound-push-core/sp-media/src/drift.rs:93-134 | a channel that is a quadratic q of the frame number comes out as q(k * ratio + 1) |
| Resampler.UnitRatioCopies | sound-push-core/sp-media/src/drift.rs:93-134 | at ratio 1 output k is input frame k + 1 |
| Resampler.ExactCount | sound-push-core/sp-media/src/drift.rs:93-116 | exactly ceil((N - 3) / ratio) frames for N >= 3 inputs, none for fewer |
| Resampler.SplitIrrelevant | sound-push-core/sp-media/src/drift.rs:93-116 | two calls are one call on the joined input |
| Resampler.PositionConserved | sound-push-core/sp-media/src/drift.rs:93-116 | once full, a call moves the read position by exactly the ratio per frame emitted minus one per frame consumed, whatever the ratio of that call |
| Resampler.FractionalResampler.constructor | sound-push-core/sp-media/src/drift.rs:82-89 | an empty window |
| Resampler.FractionalResampler.Process | sound-push-core/sp-media/src/drift.rs:93-116 | in place: state and appended frames are those of the stream, whose samples `Resampler.StreamJoins` gives |
| Resampler.FractionalResampler.Push | sound-push-core/sp-media/src/drift.rs:97-115 | one input frame |
| Resampler.FractionalResampler.EmitFrames | sound-push-core/sp-media/src/drift.rs:107-113 | the inner loop terminates and emits the frames inside the window |
| Resampler.FractionalResampler.Reset | sound-push-core/sp-media/src/drift.rs:118-122 | back to the start |
| Drift.RatioBounded | sound-push-core/sp-media/src/drift.rs:41-53 | the ratio is within half a percent of one after any observations |
| Drift.SteersTowardsTarget | sound-push-core/sp-media/src/drift.rs:41-53 | a buffer never below its target is never played slower than one, and at exactly one only while always on target; mirrored for never above |
| Drift.SteadyResponse | sound-push-core/sp-media/src/drift.rs:41-53 | the exact ratio after n observations of a constant error, with the bounds on the sum and on the correction |
| Drift.SettlesAfterJump | sound-push-core/sp-media/src/drift.rs:41-53 | of a jump of the level, 0.98 to the power of n is missing after n observations |
| Drift.DriftController.constructor | sound-push-core/sp-media/src/drift.rs:27-35 | the controller starts at ratio one |
| Drift.DriftController.Observe | sound-push-core/sp-media/src/drift.rs:41-53 | in place: the new filter, integral and ratio |
| Drift.DriftController.Reset | sound-push-core/sp-media/src/drift.rs:64-68 | back to the start |
| Render.BufferSizesIrrelevant | sound-push-core/sp-audio-io/src/convert.rs:85-108 | two converters of one stream have written the same samples as far as both got, however their buffers were sized |
| Render.StreamGrows | sound-push-core/sp-audio-io/src/convert.rs:110-123 | pulling another block only appends to the converted stream |
| Render.BlocksYield | sound-push-core/sp-audio-io/src/convert.rs:110-123 | how many device frames k blocks give exactly, and what each one is |
| Render.DeviceSamples | sound-push-core/sp-audio-io/src/convert.rs:85-138 | sample j * d + c of everything written is, of frame j of the converted stream: channel c for equal channel counts, the one channel on every device channel, the mean of two into one, and two into more on the first two, zeros beyond |
| Render.MonoComesBack | sound-push-core/sp-audio-io/src/convert.rs:126-138 | mono to stereo and back is the identity |
| Render.EmptyMeansCloser | sound-push-core/sp-audio-io/src/convert.rs:110-123 | a block that yields no frame brings the read position closer by at least one: why filling terminates |
| Render.MapChannels | sound-push-core/sp-audio-io/src/convert.rs:126-138 | writes exactly the mapped frame into the slice, each case sample by sample, and nothing else |
| Render.Copy | sound-push-core/sp-audio-io/src/convert.rs:96-101 | the interleaved frames, one after the other |
| Render.RenderConverter.constructor | sound-push-core/sp-audio-io/src/convert.rs:70-82 | channel counts clamped, resampling only off 48 kHz |
| Render.RenderConverter.Refill | sound-push-core/sp-audio-io/src/convert.rs:110-123 | in place: the next block converted, and progress when it yields nothing |
| Render.RenderConverter.Deliver | sound-push-core/sp-audio-io/src/convert.rs:94-104 | pending frames handed over in order |
| Render.RenderConverter.Fill | sound-push-core/sp-audio-io/src/convert.rs:85-108 | terminates for every positive rate, writes every sample, everything written so far is a prefix of the mapped converted stream, and no block is pulled before it is needed |
| ResumeTokens.RedeemExact | sound-push-core/sp-engine/src/resume.rs:76-89 | redeem succeeds if and only if the token is the latest issued to that key, less than 600 s old, and neither presented, forgotten nor evicted since |
| ResumeTokens.SingleUse | sound-push-core/sp-engine/src/resume.rs:76-89 | once presented, by anyone, a token is never accepted again |
| ResumeTokens.AlwaysBounded | sound-push-core/sp-engine/src/resume.rs:49-73 | at most one token per key, 64 issued and 64 held, in every run |
| ResumeTokens.EvictsOldest | sound-push-core/sp-engine/src/resume.rs:52-62 | an eviction happens only with 64 live tokens of other keys, and drops one that expires no later than any of them |
| ResumeTokens.ResumedExact | sound-push-core/sp-engine/src/resume.rs:120-122 | resumed_recently if and only if a live token was presented less than 30 s ago and the peer was not forgotten since |
| ResumeTokens.HeldExact | sound-push-core/sp-engine/src/resume.rs:92-117 | throughout a run held_for gives the latest token each peer sent, until it expires or the peer is forgotten, if and only if no token with some lifetime was turned away because 64 others were stored |
| ResumeTokens.RefusalShows | sound-push-core/sp-engine/src/resume.rs:92-107 | a token turned away shows at once: its peer has none, though it sent one that is still good |
| ResumeTokens.ExpiredCrowdOut | sound-push-core/sp-engine/src/resume.rs:92-107 | a run of 65 peers in which 64 expired tokens keep the last one out |
| ResumeTokens.Tokens.constructor | sound-push-core/sp-engine/src/resume.rs:37-45 | empty tables |
| ResumeTokens.Tokens.IssueTo | sound-push-core/sp-engine/src/resume.rs:49-73 | in place: the tables after an issue |
| ResumeTokens.Tokens.MakeRoom | sound-push-core/sp-engine/src/resume.rs:52-62 | the eviction of a full table |
| ResumeTokens.Tokens.Oldest | sound-push-core/sp-engine/src/resume.rs:54-59 | an entry closest to expiry |
| ResumeTokens.Tokens.Present | sound-push-core/sp-engine/src/resume.rs:76-89 | the answer, and the token consumed either way |
| ResumeTokens.Tokens.Store | sound-push-core/sp-engine/src/resume.rs:92-107 | wrong length and full table refused, lifetime capped |
| ResumeTokens.Tokens.ForgetPeer | sound-push-core/sp-engine/src/resume.rs:125-130 | nothing of the peer stays |
| ResumeTokens.Tokens.PruneAt | sound-push-core/sp-engine/src/resume.rs:132-136 | only unexpired entries stay |
| PairingLimiter.AnswersExact | sound-push-core/sp-engine/src/pairing_limit.rs:40-80 | while fewer than 256 other addresses are active at each call: allowed exactly when fewer than 5 allowed attempts of that address lie in the last 60 s, and a refusal is marked first exactly when the address was not refused the time before |
| PairingLimiter.FiresExactly | sound-push-core/sp-engine/src/pairing_limit.rs:42-58 | the forced eviction fires exactly when 256 other addresses are active |
| PairingLimiter.RoomTracks | sound-push-core/sp-engine/src/pairing_limit.rs:42-48 | the expiry cleanup changes no later answer |
| PairingLimiter.FirstOnce | sound-push-core/sp-engine/src/pairing_limit.rs:71-75 | between two allowed attempts only one refusal is marked first |
| PairingLimiter.MappedIsIpv4 | sound-push-core/sp-engine/src/actor.rs:1930-1934 | an IPv4 address mapped into IPv6 is limited together with itself, and no other address is |
| PairingLimiter.EvictionForgetsAlways | sound-push-core/sp-engine/src/pairing_limit.rs:49-57 | whenever the eviction fires, on any tracked table, the evicted address gets five more allowed answers at once, and the history would refuse the last of them |
| PairingLimiter.EvictionForgets | sound-push-core/sp-engine/src/pairing_limit.rs:49-57 | a run with 257 addresses in which the evicted one gets a sixth attempt within the minute |
| PairingLimiter.Limiter.constructor | sound-push-core/sp-engine/src/pairing_limit.rs:33-36 | no sources |
| PairingLimiter.Limiter.Check | sound-push-core/sp-engine/src/pairing_limit.rs:40-80 | in place: the table and the decision |
| PairingLimiter.Limiter.Expire | sound-push-core/sp-engine/src/pairing_limit.rs:42-58 | cleanup and eviction |
| PairingLimiter.Limiter.LeastRecent | sound-push-core/sp-engine/src/pairing_limit.rs:50-55 | a source seen least recently |
| Flaps.FlapExact | sound-push-core/sp-engine/src/reconnect.rs:65-74 | six stored events answer as the full 120 s history |
| Flaps.KeepsNewest | sound-push-core/sp-engine/src/reconnect.rs:65-74 | what is stored is the newest six of the window |
| Windows.WindowMembers | sound-push-core/sp-engine/src/reconnect.rs:66-67 | an event counts while less than the width of the window has passed since |
| Flaps.FlapDetector.constructor | sound-push-core/sp-engine/src/reconnect.rs:54-57 | no events |
| Flaps.FlapDetector.RecordAt | sound-push-core/sp-engine/src/reconnect.rs:65-74 | in place, with the history's answer |
| Flaps.Retain | sound-push-core/sp-engine/src/reconnect.rs:66-67 | the events inside the window, in order |
| TokenBucket.AllowExact | sound-push-core/sp-engine/src/session.rs:85-95 | a call is allowed if and only if, from every earlier call on, the calls allowed since, this one included, fit in burst + rate * elapsed |
| TokenBucket.IntervalBound | sound-push-core/sp-engine/src/session.rs:85-95 | the calls allowed between any two calls of a run are at most burst + rate * the time between them |
| TokenBucket.RunIsLeast | sound-push-core/sp-engine/src/session.rs:85-95 | the tokens are the least any earlier call leaves |
| TokenBucket.ClockBackEarnsNothing | sound-push-core/sp-engine/src/session.rs:85-95 | a call dated before the last one earns no tokens |
| TokenBucket.RateLimit.constructor | sound-push-core/sp-engine/src/session.rs:76-83 | full at the start |
| TokenBucket.RateLimit.AllowAt | sound-push-core/sp-engine/src/session.rs:85-95 | in place: the refill, the cap and the decision |
| ControlLoop.FloodContained | sound-push-core/sp-engine/src/session.rs:196-301 | the actor hears Established, then control messages within 400 + 100 per second over any stretch, then Closed once; the 1001st dropped message ends the session |
| ControlLoop.PassesExactly | sound-push-core/sp-engine/src/session.rs:215-238 | an open session has passed on exactly the messages a bucket of 400 at 100 a second allows, and is open exactly while only messages came and at most 1000 were refused |
| ControlLoop.ClosesExactly | sound-push-core/sp-engine/src/session.rs:215-301 | a closed session passed on what it had until the first goodbye or end, or the 1001st refusal |
| ControlLoop.Serve | sound-push-core/sp-engine/src/session.rs:215-238 | the loop emits exactly those events |
| Health.ActiveIsLatched | sound-push-core/sp-engine/src/health.rs:49-112 | both detectors are active exactly when the last completed run among the bad and the good ones was the bad one |
| Health.DegradedExactly | sound-push-core/sp-engine/src/health.rs:76-112 | the link is degraded exactly since three seconds in a row with more than 3 % loss or 30 ms jitter, and until five in a row with less than 1 % and 15 ms |
| Health.FallenBackExactly | sound-push-core/sp-engine/src/health.rs:49-73 | the fallback is active exactly since five seconds in a row with more than 2 % loss, and until fifteen in a row below 0.5 % |
| Health.ClearingUnobservable | sound-push-core/sp-engine/src/health.rs:66-71 | clearing the counters on a switch changes no answer |
| Health.LinkHealth.constructor | sound-push-core/sp-engine/src/health.rs:76-81 | not degraded |
| Health.LinkHealth.Feed | sound-push-core/sp-engine/src/health.rs:90-112 | in place, with the answer of `Health.DegradedExactly` about all seconds fed |
| Health.QualityFallback.constructor | sound-push-core/sp-engine/src/health.rs:31-37 | not active |
| Health.QualityFallback.Feed | sound-push-core/sp-engine/src/health.rs:49-73 | in place, with the answer of `Health.FallenBackExactly` about all seconds since the last reset |
| Health.QualityFallback.Reset | sound-push-core/sp-engine/src/health.rs:44-46 | a new history |
| AuditLog.ReloadsExactly | sound-push-core/sp-engine/src/audit.rs:143-235 | in every run, whatever the times: reloading gives exactly the in-memory entries in retention if and only if the rest of the file has none in retention or those fill the limit; and the file has fewer than twice the limit of lines |
| AuditLog.AlwaysBacked | sound-push-core/sp-engine/src/audit.rs:143-235 | in every run, whatever the times, memory is the end of what the file says, and the line count is right |
| AuditLog.ReloadExact | sound-push-core/sp-engine/src/audit.rs:143-235 | while times do not go back the condition holds, and what is shown is the newest retained entries of the whole history |
| AuditLog.AlwaysConsistent | sound-push-core/sp-engine/src/audit.rs:143-235 | while times do not go back, through records, clearings, compactions and restarts, file and history both continue what is in memory |
| AuditLog.CoversShows | sound-push-core/sp-engine/src/audit.rs:175-188 | a bounded list shows at any later time the newest retained entries of a longer one |
| AuditLog.RecordsShown | sound-push-core/sp-engine/src/audit.rs:175-243 | recording adds, as the newest in memory, the entry with its texts cut to their first 128 visible characters |
| AuditLog.KeptThirtyDays | sound-push-core/sp-engine/src/audit.rs:175-181 | an entry is kept for thirty days, the last second included |
| AuditLog.ClockBackDiffers | sound-push-core/sp-engine/src/audit.rs:175-201 | a run with a record dated back in which the file offers an entry memory has dropped |
| AuditLog.ParsedLines | sound-push-core/sp-engine/src/audit.rs:221-235 | a compacted file reads back as the entries |
| AuditLog.AuditFile.constructor | sound-push-core/sp-engine/src/audit.rs:143-173 | what is loaded, and whether the file is rewritten |
| AuditLog.AuditFile.Append | sound-push-core/sp-engine/src/audit.rs:175-201 | in place: memory and file after a record, and memory alone when the write fails |
| AuditLog.AuditFile.Trim | sound-push-core/sp-engine/src/audit.rs:178-181 | expired entries leave from the front |
| AuditLog.AuditFile.Shrink | sound-push-core/sp-engine/src/audit.rs:186-188 | only the newest entries stay |
| AuditLog.AuditFile.Compact | sound-push-core/sp-engine/src/audit.rs:221-235 | the file rewritten from memory, or kept on failure |
| AuditLog.AuditFile.Wipe | sound-push-core/sp-engine/src/audit.rs:209-219 | one LogCleared entry is left, or nothing changed |

## Left out

- Audio device backends, FFI, Android and desktop shells, UI and packaging: calls into foreign code.
- Opus, noise suppression, TLS, QUIC, Ed25519, HMAC and ChaCha20: abstract functions or absent.
- Floating-point rounding: f32 and f64 are reals, so NaN appears only in `Health`, and the running f64 jitter estimate that feeds nothing but a statistic is absent.
- The percentile index is computed in integers; the source rounds a product of doubles.
- Counters (packets received, late and so on) are unbounded.
- Convergence of the loop of buffer and drift controller: the buffer's reaction to the ratio is not modelled.
- `CaptureConverter::process`: a fixed channel mix followed by the resampler that is proved here.
- Interleaved buffers inside the resampler and the renderer are sequences of frames; interleaving is modelled where a device buffer is written. Samples beyond the last whole frame of an input are not modelled.
- The renderer's resampler object always exists and is unused at 48 kHz, where the source has none; the pulled blocks are a function of their number.
- Framing.Decoder.NextFrame: one class with a format parameter stands for both decoders of the source.
- Of the actor: snapshots, notices, volume, settings, discovery, network tests, audit calls, resume-token calls, flap handling, shutdown and the control messages that concern neither pairing nor the answer to or end of a route.
- Deciding on a route the peer asks for (permissions, limits, prompting the user) is the AcceptRouteEv event; enforcing changed permissions, a lost audio device, a failed pipeline and a feed that is taken over are StopRouteEv events; a restart of a route is a stop and a start. Rebuilding a route's pipeline in place, which can move it to the end of the list, is not modelled.
- Saved routes are a parameter of each event: that stopping or keeping a route edits them is not modelled.
- Dial timing: whether a dial is due and whether addresses are known are parameters; backoff delays are not modelled, and `Backoff` itself only adds a bounded counter.
- Messages other than Close that the actor sends (pair results, route requests) are not recorded.
- Failure to save the trust store is modelled when a pairing completes, and ignored elsewhere, as in the source.
- Actors.Actor.OnClosedEvent: like the other methods that search pairings by connection, it asks that no two pairings share a connection, which `NodeRuns.AlwaysConsistent` establishes for every run.
- Whether a kind can start (audio capabilities of this device) is a policy parameter; the rule of one microphone feed is modelled.
- JitterQueue.RefinesQueue: pops that find the target not yet reached answer Buffering and take nothing; the theorem covers streams without DTX markers.
- SocketAddr scope ids and the choice of addresses put into a code (`select_addresses`).
- Blank lines of the audit file, partial writes and JSON itself: a line is a readable entry or not.
- Echo probes and media datagrams in the session loop.
