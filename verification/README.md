# Surf: a verified model of the streaming core

Surf streams a remote Chromium to old iOS devices. This project models, in Dafny, the parts of it
whose correctness is hardest to see, and proves what they promise, for every input and every run:

- **The video lane**, from the encoder pipeline through the hub's per-client lanes to the client's
  admission policy. Every hop may drop access units; together they must never give the decoder a
  dependent frame whose reference was lost. `AccessUnits`, `VideoSubscription`, `VideoSettings`,
  `VideoPipeline`, `VideoMachine` (every interleaving), `KeyframeRequests`, `VideoDuties`, `HubLane`
  (every interleaving), `HubDelivery`, `MediaPolicy`, `EndToEnd`.
- **The client's codec.** The JSON tokeniser against the grammar of RFC 8259 (`JsonGrammar`,
  `JsonNumbers`, `JsonParser`, `JsonExactness`, `JsonUniqueness`), the token list it leaves
  (`JsonTokens`, `JsonFields`), its loops and its workspace (`JsonTokeniser`, `JsonArena`), strings
  and UTF-8 (`Utf8`, `JsonStrings`, `JsonReading`, `JsonText`), and the H.264 repackager (`AnnexB`).
- **State machines.** Touch contacts (`TouchContacts`, `TouchGestures`, `TouchInput`), the input queues and the
  pointer lane with the client's sampler (`InputQueue`, `InputSampler`, `PointerInput`), the stream
  governor (`Governor`, `GovernorRuns`, `GovernorDuties`, `StreamGovernor`), pairing and authentication
  (`Pairing`, `PairingProvenance`, `PairingDuties`, `PairingRevocation`,
  `PairingManager`), the rate limiter (`RateLimiter`), the browser handoff (`Handoff`,
  `HandoffRequests`), and the client core's reducer with its effect ring (`EffectRing`, `ClientCore`,
  `ClientShown`).
- **Two algorithms.** The log snapshot merge (`LogMerge`) and the clock estimator (`ClockSync`).

Where the source changes things in place, a class or a method with a loop does the same, and its
postcondition ties it to a function of the old state; what the source promises is then proved about
that function: not only that nothing bad happens, but, in terms of the history, exactly when each
thing does. Steps taken under a lock are atomic; receives from Go channels are not under any lock
and interleave with everything. Times are integers, floating-point figures are reals, iteration over
a Go map takes an arbitrary order, and calls into the browser, the socket, the allocator or the file
system are parameters or arbitrary choices that say whether they succeed.

`dafny verify dfyconfig.toml` checks the whole project.

## What turned out to be false

**A drain races with its consumer.** `resetForGen` and the hub's overflow and pause paths empty a
channel with a loop of receives while the consumer, which holds no lock, may receive too. If the loop
removes a unit, the consumer takes the next one, and that one is dependent, the consumer passes on a
unit whose predecessor is lost: it is *torn*. So "every received dependent unit follows its
predecessor", "every written dependent frame has its predecessor written" and "the client never has
to ask for a keyframe" fail in some runs; `TornUnitExists`, `TornFrameExists` and
`KeyframeRequestHappens` are such runs. What holds in every run is the exact condition: a unit lacks
its predecessor if and only if the receive that took it found a dependent unit at the head of the
channel, the last removal having been a drain's (`TearsHead`); that needs a drain in progress
(`TearingNeedsADrain`); the client asks for a keyframe in an epoch if and only if some frame of it was
torn (`KeyframeRequestedIffTorn`); and the decoder is safe in every run, torn or not
(`DecoderNeverMissesAReference`).

**The tokeniser accepts an escaped NUL.** `strchr` finds the terminator of its list of escapes, so a
backslash and a NUL byte pass as an escape (`EscapedNulAccepted`). The texts of the grammar are
exactly the accepted texts without a NUL byte (`TokeniserExact`).

**The first IDR after a keyframe request may be refused.** A request resets everyone attached, but an
IDR numbered before it and offered after the reset is taken instead, and the queue may be full again
when the next one comes (`PendingIdrDefeatsRequest`); within the cooldown a request resets nobody
(`CooldownDefeatsRequest`). Both are runs from the initial state. In every reachable state a
subscriber is sure to take the first IDR broadcast after a request if and only if no IDR of the
generation is on its way to it and the request resets at once or it already waits with room
(`FirstIdrBroadcastIsTakenIff`). The first IDR *offered* after its reset it takes in every run
(`FirstIdrOfferedIsTaken`).

**A string arena below four bytes is overrun.** `surf_string_append_utf8` compares with
`string_capacity - needed`, which wraps when the capacity is the smaller one: the escape of U+1F600 is
written past the end of an arena of three bytes and accepted (`SmallArenaOverruns`). Over all inputs, a
write leaves the arena exactly when the loop meets an escape whose encoding is longer than the
arena (`InsideIffNoLongEscape`), so four bytes are what a caller has to give (`LargeEnoughIff`), and
from there on the check is exact (`ArenaExact`).

**Merging a log snapshot again may change the result.** Below the size limit it never does
(`MergeAgain`); above it the cut may remove every line the two share, and the second merge then
brings the snapshot back (`MergeAgainDiffers`). `MergeAgainIff` is the exact condition.

**A challenge can outlive a revocation.** A challenge that was taken before its device was revoked can
still pass when the device is paired again with the same key meanwhile, and only such a one can
(`RevokedChallengePassesIff`). Tickets never do (`RevokedTicketsStayOut`).

## Model

| member | source | states |
|---|---|---|
| `AccessUnits.WireFollowsIsFollows` | client/core/src/media.c:18-55 | a 32-bit sequence number one higher on the wire means the next unit, unless 2^32 units are missing |
| `VideoSubscriptions.OfferKeeps` | backend/internal/media/video.go:223-246 | an offer keeps the channel a chain: each queued unit is an IDR or follows the one before it, in the same generation |
| `VideoSubscriptions.DrainOneKeeps` | backend/internal/media/video.go:208-221 | so does one removal of a running drain |
| `VideoSubscriptions.ReceiveKeeps` | backend/internal/browser/client_video.go:127-157 | so does a receive, and the unit it hands out is torn exactly when it is dependent and did not come directly after its predecessor |
| `VideoSubscriptions.VideoSubscription.OfferUnit` | backend/internal/media/video.go:223-246 | the object does what the offer function says |
| `VideoSubscriptions.VideoSubscription.Resync` | backend/internal/media/video.go:202-206 | only an IDR is accepted next |
| `VideoSubscriptions.VideoSubscription.Reset` | backend/internal/media/video.go:208-221 | the drain loop empties the queue and the subscription waits for an IDR of the new generation |
| `VideoPipelines.LeavingAGenerationResets` | backend/internal/media/video.go:136-171 | every critical section that leaves a running generation resets or closes everyone attached; only a Subscribe that starts a stopped encoder changes the generation and leaves others alone |
| `VideoPipelines.KeyframeNeverForgotten` | backend/internal/media/video.go:358-405 | a keyframe asked for while running resets everyone at once or leaves a timer armed, through every later run, until a stop or a reset |
| `VideoPipelines.ArmedTimerStays` | backend/internal/media/video.go:433-459 | only a stop or a reset ends an armed keyframe timer |
| `VideoPipelines.VideoPipeline.ResetSubs` | backend/internal/media/video.go:492-496 | every attached subscriber is reset, in any order, and nobody else |
| `VideoPipelines.VideoPipeline.FailAll` | backend/internal/media/video.go:498-509 | everyone attached is closed and detached |
| `VideoPipelines.VideoPipeline.Stop` | backend/internal/media/video.go:433-459 | timers cancelled, generation moved on |
| `VideoPipelines.VideoPipeline.Start` | backend/internal/media/video.go:407-431 | started, failed with a retry scheduled, or unavailable with everyone closed |
| `VideoPipelines.VideoPipeline.RequestKeyframeNow` | backend/internal/media/video.go:391-405 | everyone attached is reset for the keyframe |
| `VideoPipelines.VideoPipeline.Ensure` | backend/internal/media/video.go:364-389 | at once, or with one timer within the cooldown |
| `VideoPipelines.VideoPipeline.Join` | backend/internal/media/video.go:150-171 | the new subscriber waits for an IDR; others are untouched unless a keyframe request resets them |
| `VideoPipelines.VideoPipeline.Leave` | backend/internal/media/video.go:173-200 | the subscriber is closed; the last one arms the idle timer and cancels the retry |
| `VideoPipelines.VideoPipeline.RestartEncoder` | backend/internal/media/video.go:136-148 | stop, start if anyone is attached, reset everyone |
| `VideoPipelines.VideoPipeline.Change` | backend/internal/media/video.go:287-292 | once a value has changed: a running encoder is restarted, everyone is reset |
| `VideoPipelines.VideoPipeline.SetSize` | backend/internal/media/video.go:274-293 | the captured and coded size asked for are in force; the encoder is restarted and everyone reset exactly when that changes something |
| `VideoPipelines.VideoPipeline.SetViewport` | backend/internal/media/video.go:295-321 | likewise for the captured size and the scale limit |
| `VideoPipelines.VideoPipeline.SetProfile` | backend/internal/media/video.go:330-356 | likewise for the whole profile |
| `VideoPipelines.VideoPipeline.constructor` | backend/internal/media/video.go:95-104 | the defaults of a new pipeline, its coded size computed |
| `VideoSettings.CodedSizeFits` | backend/internal/media/video.go:541-562 | the coded sides are positive and even, within the limit, and within one and a half of the captured sides times one factor, the largest up to one that fits |
| `VideoSettings.AlwaysConsistent` | backend/internal/media/video.go:274-356 | after any sequence of changes the coded size is the one of the captured size and limit in force |
| `VideoPipelines.VideoPipeline.Push` | backend/internal/media/video.go:248-272 | the unit gets the next number and is offered once to everyone attached |
| `VideoMachines.StepKeeps` | backend/internal/media/video.go:492-539 | every step of every goroutine keeps the invariant: chains in every channel, and live subscribers in step with the pusher's numbering |
| `VideoMachines.RunKeeps` | backend/internal/media/video.go:492-539 | so does every run |
| `VideoMachines.ReceivedUnitsChain` | backend/internal/media/video.go:202-246 | in every run with one pusher, a received dependent unit comes directly after the unit numbered one less, of its generation, if and only if it was not torn; numbers only grow |
| `VideoMachines.TearingNeedsADrain` | backend/internal/media/video.go:208-221 | only a receive inside a running drain can tear |
| `VideoMachines.CriticalSectionIsARun` | backend/internal/media/video.go:136-171 | what the pipeline object does in one critical section is a run of the machine |
| `VideoMachines.TornUnitExists` | backend/internal/media/video.go:208-221 | a run in which a subscriber receives a torn unit |
| `KeyframeRequests.FirstIdrOfferedIsTaken` | backend/internal/media/video.go:208-246 | in every run after a critical section that resets everyone, while generation and subscriber stay, the first IDR offered to the subscriber after its reset is alone in its queue |
| `KeyframeRequests.FirstIdrBroadcastIsTakenIff` | backend/internal/media/video.go:358-405 | in every reachable state: a subscriber takes the first IDR broadcast after a request in every continuation if and only if none is on its way and the request resets at once or it already waits with room |
| `KeyframeRequests.PendingIdrDefeatsRequest` | backend/internal/media/video.go:358-405 | a run in which a request resets everyone and its first IDR can be refused |
| `KeyframeRequests.CooldownDefeatsRequest` | backend/internal/media/video.go:364-389 | the same for a request within the cooldown |
| `VideoDuties.RetriedUntilStarted` | backend/internal/media/video.go:407-490 | after every sequence of critical sections, subscribers of an encoder that does not run have a retry timer armed; a start that then succeeds resets all of them for the new generation, one that fails arms the next |
| `VideoDuties.SubscribeServes` | backend/internal/media/video.go:150-171 | a subscriber finds the encoder running, starts it, has a retry coming, or is closed at once |
| `VideoDuties.IdleStops` | backend/internal/media/video.go:173-200 | an encoder without subscribers has its idle timer armed, which stops it; nothing else is stopped by it |
| `VideoDuties.RequestAnswered` | backend/internal/media/video.go:358-405 | a keyframe request resets everyone at once exactly when no such reset was in the last two seconds, and otherwise when the timer it leaves fires |
| `VideoDuties.RestartServes` | backend/internal/media/video.go:136-148 | everyone stays attached and is reset for the new generation, or closed when there is no encoder |
| `VideoDuties.ReconfigureServes` | backend/internal/media/video.go:274-356 | likewise for a change of size or profile, if the encoder runs |
| `VideoDuties.UnsubscribeLeaves` | backend/internal/media/video.go:173-200 | the last subscriber to leave takes the retry with it and sets the idle timer of a running encoder |
| `VideoDuties.ShutdownLeaves` | backend/internal/media/video.go:511-525 | nothing armed and nobody attached |
| `VideoDuties.StaleTimersDoNothing` | backend/internal/media/video.go:364-490 | in every run, a timer that was cancelled or armed anew does nothing however late it fires |
| `VideoDuties.OfferOutcome` | backend/internal/media/video.go:223-246 | what an offer comes to in every case |
| `VideoDuties.OfferedIsReceived` | backend/internal/media/video.go:223-246 | in every run, a unit offered to a subscriber that can take it is received after as many receives as units were queued, unless a drain takes a unit first |
| `VideoDuties.PushedIsOffered` | backend/internal/media/video.go:248-272 | in every run a unit pushed in the running generation gets the next number and is offered exactly once to everyone then attached and to nobody else; one of another generation is dropped |
| `HubLanes.StepKeeps` | backend/internal/transport/hub.go:325-391 | every step of submitter, pauser and writer keeps the lane's invariant |
| `HubLanes.WrittenFramesChain` | backend/internal/transport/hub.go:454-484 | a written dependent frame, unless it is the first of its epoch, comes directly after the frame submitted before it if and only if it was not torn; frames never overtake |
| `HubLanes.SendNeverBlocks` | backend/internal/transport/hub.go:463-484 | the send behind a drain always finds room |
| `HubLanes.PauseIsABoundary` | backend/internal/transport/hub.go:198-216 | once a pause has returned, everything written later was submitted in a later epoch, save the one frame already being written |
| `HubLanes.TornFrameExists` | backend/internal/transport/hub.go:463-484 | a run that writes a torn frame |
| `HubDeliveries.SubmitOutcome` | backend/internal/transport/hub.go:427-484 | in every run, whatever the writer does meanwhile, when the lock is released: an IDR submitted to an unpaused lane is queued and the lane takes dependent frames again; a dependent frame is queued, refused or lost exactly when it should be |
| `HubDeliveries.QueuedIsWritten` | backend/internal/transport/hub.go:325-391 | in every run, a queued frame of the current epoch is on the socket as soon as the writer has taken four steps for each frame up to it, unless a pause, a drain or the socket intervenes |
| `HubDeliveries.NothingAfterFailure` | backend/internal/transport/hub.go:325-391 | after a write that fails nothing more is written |
| `HubLanes.WriteIsARun` | backend/internal/transport/hub.go:427-484 | an undisturbed write is a run of the machine |
| `HubLanes.SetPausedIsARun` | backend/internal/transport/hub.go:198-216 | so is an undisturbed pause |
| `HubLanes.WriteNextIsARun` | backend/internal/transport/hub.go:325-391 | so is one turn of the writer |
| `HubLanes.Client.Write` | backend/internal/transport/hub.go:427-484 | the lane's new contents, whether it drops, and the answer, in every case |
| `HubLanes.Client.SetMediaPaused` | backend/internal/transport/hub.go:198-216 | the object's new state; nothing when the value does not change |
| `HubLanes.Client.WriteNext` | backend/internal/transport/hub.go:325-391 | a frame of an old epoch or under a pause is skipped, any other written |
| `MediaPolicies.AdmissionExact` | client/core/src/media.c:18-55 | for every history: a frame is refused exactly when it is not decodable, and decoded without a reset exactly when it continues a decodable one |
| `MediaPolicies.MediaPolicy.AdmitFrame` | client/core/src/media.c:18-55 | the policy object's action and new state |
| `EndToEnd.SocketOrder` | backend/internal/browser/client_video.go:159-181 | over both hops, a dependent frame on the socket directly follows its predecessor exactly when it was torn on neither |
| `EndToEnd.KeyframeRequestedIffTorn` | backend/internal/browser/client_video.go:127-181 | in every run of both machines the client asks for a keyframe in the epoch if and only if a frame of it was torn |
| `EndToEnd.DecoderNeverMissesAReference` | client/core/src/media.c:18-55 | in every run, a dependent frame is decoded only directly after its own decoded predecessor |
| `EndToEnd.KeyframeRequestHappens` | backend/internal/media/video.go:208-221 | a run in which the client has to ask |
| `EndToEnd.DecoderSafeOnAnyDelivery` | client/core/src/media.c:18-55 | the same whatever units reach the lane and in whatever order, also those of a stopped and a restarted subscription mixed |
| `AnnexB.SplitJoin` | client/core/src/h264.c:6-61 | units joined with any start codes and padding (section B.1 of ITU-T H.264) are split back into exactly those units |
| `AnnexB.NalsAreWhole` | client/core/src/h264.c:31-61 | on any input the units are non-empty and free of start codes, and only the last may end in zeros |
| `AnnexB.ResplitIsStable` | client/core/src/h264.c:31-61 | splitting, joining anew and splitting again changes nothing |
| `AnnexB.ParseAvcc` | client/core/src/h264.c:149-172 | the length-prefixed output parses back to the units without types 7, 8 and 9 |
| `AnnexB.NextStartCode` | client/core/src/h264.c:6-26 | the search finds the first start code from a position, or that there is none |
| `AnnexB.ForEachNal` | client/core/src/h264.c:31-61 | the loop visits the units of the split, in order |
| `AnnexB.ScanAnnexB` | client/core/src/h264.c:63-105 | parameter sets, IDR and VCL flags and the exact output length |
| `AnnexB.LastOfTypeIsLatest` | client/core/src/h264.c:63-95 | the parameter sets found are the last ones, and empty when there is none |
| `AnnexB.KeptInOrder` | client/core/src/h264.c:149-172 | all units but empty ones and those of types 7, 8 and 9 are kept, in their order |
| `AnnexB.WriteUnits` | client/core/src/h264.c:149-172 | the output when it fits, without touching what is behind it, else overflow |
| `AnnexB.AnnexBToAvcc` | client/core/src/h264.c:174-189 | the number of bytes written is the scanned length if it fits, else 0 |
| `JsonNumbers.CheckPrimitiveExact` | client/core/src/protocol.c:279-333 | the primitive check accepts exactly the literals and the numbers of section 6 of RFC 8259 |
| `JsonExactness.TextSound` | client/core/src/protocol.c:212-461 | an accepted text without NUL bytes has a derivation in the grammar within the depth and token limits |
| `JsonExactness.TextComplete` | client/core/src/protocol.c:212-461 | a derivable text within the limits is accepted, all of it is consumed, and the result is that derivation |
| `JsonExactness.TokeniserExact` | client/core/src/protocol.c:450-461 | the grammar's texts within the limits are exactly the accepted texts without NUL bytes |
| `JsonExactness.EscapedNulAccepted` | client/core/src/protocol.c:247-250 | a text that is accepted and not in the grammar |
| `JsonUniqueness.Unambiguous` | client/core/src/protocol.c:212-461 | a text has at most one derivation, at any depth and length |
| `JsonTokens.ValueForest` | client/core/src/protocol.c:183-199 | in the token list of a derived value parents come before children, spans nest in the parent's, and siblings are ordered and disjoint |
| `JsonTokens.MembersForest` | client/core/src/protocol.c:381-429 | so for the names and values of an object |
| `JsonTokens.TokensOfCount` | client/core/src/protocol.c:183-199 | one token per value and per name |
| `JsonFields.LookupExact` | client/core/src/protocol.c:471-498 | in the token list of an accepted text the lookup gives the value of the one member of that name, an error when there are two or a required one is missing, and never finds the list malformed |
| `JsonFields.ObjectField` | client/core/src/protocol.c:471-498 | the loop gives what the scan function gives |
| `JsonTokenisers.WalkNumber` | client/core/src/protocol.c:294-333 | the cursor's loops decide the number check |
| `JsonTokenisers.JsonTokeniser.SkipSpaces` | client/core/src/protocol.c:176-181 | the position moves to the first byte that is not whitespace |
| `JsonTokenisers.JsonTokeniser.NewToken` | client/core/src/protocol.c:183-199 | a token is appended unless the workspace is full |
| `JsonTokenisers.JsonTokeniser.StringValue` | client/core/src/protocol.c:212-254 | status, position and token as the parsing function says |
| `JsonTokenisers.JsonTokeniser.PrimitiveValue` | client/core/src/protocol.c:256-338 | likewise |
| `JsonTokenisers.JsonTokeniser.ArrayValue` | client/core/src/protocol.c:340-379 | likewise, the array's own token completed in place behind its children's |
| `JsonTokenisers.JsonTokeniser.ObjectValue` | client/core/src/protocol.c:381-429 | likewise for objects |
| `JsonTokenisers.JsonTokeniser.AnyValue` | client/core/src/protocol.c:431-448 | likewise for any value |
| `JsonTokenisers.JsonTokeniser.Run` | client/core/src/protocol.c:450-461 | the whole text is consumed and the workspace holds exactly the derivation's token list; the error code is the parsing function's |
| `Utf8.CheckUtf8` | client/core/src/protocol.c:631-673 | the check accepts exactly the syntax of section 4 of RFC 3629 |
| `Utf8.CheckChar` | client/core/src/protocol.c:633-672 | one turn of it recognises exactly one character |
| `Utf8.CodeRange` | client/core/src/protocol.c:655-670 | the range checks on the assembled code say what the syntax says of the bytes |
| `Utf8.EncodeIsOneChar` | client/core/src/protocol.c:531-556 | a code is encoded as one character of the syntax exactly when it is a scalar value |
| `JsonStrings.WriteThenRead` | client/core/src/protocol.c:1390-1421 | a written string, wherever it stands, is tokenised as one string whose body unescapes to the same bytes |
| `JsonStrings.PairRead` | client/core/src/protocol.c:593-619 | a surrogate pair unescapes to the encoding of its character |
| `JsonReadings.EscapeExact` | client/core/src/protocol.c:588-619 | an escape is read as a character exactly when section 7 of RFC 8259 has it for that character: the eight short ones, four hexadecimal digits of either case, a surrogate pair |
| `JsonReadings.ReadingExact` | client/core/src/protocol.c:558-675 | an accepted body is unescaped to a well-formed text exactly when it spells characters, as raw UTF-8 or by escapes |
| `JsonReadings.SpelledReads` | client/core/src/protocol.c:558-675 | a body that spells characters, in whatever way, is read as the encoding of those characters by the table of section 3 of RFC 3629 |
| `JsonReadings.TakenIffReadable` | client/core/src/protocol.c:531-675 | an arena of at least four bytes takes the string exactly when its body spells characters whose encoding fits, and gets that encoding |
| `JsonArenas.StringArena.TokenString` | client/core/src/protocol.c:558-675 | what is written, with the wrapping limit check, and the status; earlier strings stay |
| `JsonArenas.FillUnescapes` | client/core/src/protocol.c:558-629 | when the loop ends well it has written exactly the unescaped text, and it reports a syntax error only when there is none |
| `JsonArenas.InsideIffNoLongEscape` | client/core/src/protocol.c:531-556 | every write stays inside the arena if and only if the loop meets no escape longer than the arena |
| `JsonArenas.ArenaExact` | client/core/src/protocol.c:531-629 | from four bytes on: every write is inside, and the text is taken exactly when its escapes are complete and it fits |
| `JsonArenas.SmallArenaOverruns` | client/core/src/protocol.c:531-556 | below four bytes one escape is written past the end and accepted |
| `JsonArenas.LargeEnoughIff` | client/core/src/protocol.c:531-556 | an arena is safe for all inputs if and only if it has four bytes |
| `JsonText.Writer.WriteBytes` | client/core/src/protocol.c:1370-1380 | everything asked for is counted, and is in the buffer unless the writer failed, which it does exactly when it is too much |
| `JsonText.Writer.WriteString` | client/core/src/protocol.c:1390-1421 | the quoted, escaped string is appended |
| `JsonText.RoundTrip` | client/core/src/protocol.c:558-675 | write, tokenise, unescape gives the bytes back exactly when they are well-formed UTF-8 |
| `TouchContacts.ProcessKeeps` | backend/internal/browser/touch_input.go:286-438 | after every command: numbers injective into 0..4, numbered are exactly the active contacts, an owner exactly while there are contacts, live contacts keep their numbers, and the events sent replay to the same contacts |
| `TouchContacts.RunKeeps` | backend/internal/browser/touch_input.go:286-490 | so after every run |
| `TouchContacts.RefusedIffFull` | backend/internal/browser/touch_input.go:120-140 | a new contact is refused a number exactly when five are live |
| `TouchGestures.ProcessExactly` | backend/internal/browser/touch_input.go:286-467 | a command is dispatched, as one event that says what it says, exactly when it fits the gesture under way, which then advances by that command; otherwise the gesture is cancelled |
| `TouchGestures.OneStream` | backend/internal/browser/touch_input.go:324-438 | in every run, as long as a contact stays down, all starts, moves and lifts sent are one client's, for one session and surface, in strictly growing sequence |
| `TouchInputs.TouchInput.AddBrowserTouchId` | backend/internal/browser/touch_input.go:120-140 | the lowest free number |
| `TouchInputs.TouchInput.CancelContacts` | backend/internal/browser/touch_input.go:469-490 | the browser is told when contacts are live, then all is reset |
| `TouchInputs.TouchInput.ProcessWork` | backend/internal/browser/touch_input.go:286-438 | the object's new state and events are those of the step function |
| `InputQueues.RunKeeps` | backend/internal/browser/pointer_input.go:64-144 | in every run the worker gets entries in arrival order; a merged entry stands for a run of consecutive arrivals of one client and surface with nothing between, its wheel deltas their clamped sum; nothing but samples and refused work is missing, and at most 64 entries besides cancellations wait |
| `InputQueues.DeltasStayInRange` | backend/internal/browser/pointer_input.go:114-124 | merged wheel deltas stay within -4 and 4 |
| `InputQueues.EnqueueOutcome` | backend/internal/browser/pointer_input.go:64-124 | an arrival is merged exactly with a newest entry that is alike, else appended while fewer than 64 wait, else takes the place of the first sample, and is refused only if there is none |
| `InputQueues.InputQueue.Add` | backend/internal/browser/pointer_input.go:64-94 | merge into the newest entry, append, make room by dropping the first sample, or refuse |
| `InputQueues.InputQueue.AddCancellation` | backend/internal/browser/touch_input.go:178-196 | always appended |
| `InputSamplers.StampsIncrease` | client/core/src/input.c:16-93 | on a surface that does not come back, sequence numbers and timestamps only grow, through every sequence of calls |
| `InputSamplers.InputState.Sample` | client/core/src/input.c:16-79 | the next numbers, or an error and no change |
| `InputSamplers.InputState.NextCausal` | client/core/src/input.c:95-117 | likewise without a sequence number |
| `InputSamplers.InputState.SetSurface` | client/core/src/input.c:87-93 | a new surface starts the sequence anew |
| `PointerInputs.SamplesNeverTrip` | backend/internal/browser/pointer_input.go:226-283 | samples the clients' samplers made never trip the ordering check, however they were merged, dropped and interleaved |
| `PointerInputs.MoveKeeps` | backend/internal/browser/pointer_input.go:226-283 | what the worker remembers is always a sample it handled, of its present owner and surface |
| `PointerInputs.SampleOutcome` | backend/internal/browser/pointer_input.go:226-283 | a sample is handled exactly when it is usable, for the active surface, of a connected client, and continues the gesture in order or can begin one; anything else cancels, and only going back trips the check |
| `PointerInputs.CommandOutcome` | backend/internal/browser/pointer_input.go:285-303 | a page command cancels exactly another client's gesture or one of another session |
| `PointerInputs.PointerInput.ProcessSample` | backend/internal/browser/pointer_input.go:226-283 | the object's new state, and whether the check tripped |
| `PointerInputs.PointerInput.ProcessCommand` | backend/internal/browser/pointer_input.go:285-303 | another owner's or session's gesture is cancelled |
| `GovernorRuns.ProfileInRange` | backend/internal/browser/adaptive.go:95-236 | every profile chosen is one of the four |
| `GovernorRuns.ChangesApart` | backend/internal/browser/adaptive.go:203-236 | with a clock that does not go back, any two changes are at least four seconds apart |
| `GovernorRuns.DownshiftBacked` | backend/internal/browser/adaptive.go:113-219 | a downshift without a severe client goes one step, backed by two consecutive unhealthy reports of one client since the last change or discontinuity |
| `GovernorRuns.ChangeSizes` | backend/internal/browser/adaptive.go:206-219 | at most two steps down, and up by one or to the top, and only at a report |
| `GovernorDuties.CalmMovesUp` | backend/internal/browser/adaptive.go:206-219 | in every run, when every client has been calm for twelve seconds, and the profile is as old, the next report moves up one |
| `GovernorDuties.IdleMovesToBest` | backend/internal/browser/adaptive.go:206-219 | when every client has been idle for four seconds, the next report restores the best profile |
| `GovernorDuties.SevereMovesDown` | backend/internal/browser/adaptive.go:203-212 | a severe report moves down two, or to the last profile |
| `GovernorDuties.TwoUnhealthyMoveDown` | backend/internal/browser/adaptive.go:203-212 | two unhealthy reports of one client in a row move down one when nobody is severe |
| `GovernorDuties.UnhealthyExactly` | backend/internal/browser/adaptive.go:238-286 | a report is unhealthy exactly when one of its figures reaches its threshold |
| `StreamGovernors.StreamGovernor.JudgeClients` | backend/internal/browser/adaptive.go:175-201 | the loop over the clients, in any order, gives the same verdict |
| `StreamGovernors.StreamGovernor.ObserveReport` | backend/internal/browser/adaptive.go:95-236 | the new state is a function of the old one and the report, whatever the map's order |
| `StreamGovernors.StreamGovernor.SettleAfterDiscontinuity` | backend/internal/browser/adaptive.go:78-93 | all evidence is dropped and every client has to settle again |
| `Pairing.PerformKeeps` | backend/internal/auth/auth.go:156-319 | every operation keeps the manager's shape, brings back no used identifier and uses one up at most |
| `Pairing.RunGood` | backend/internal/auth/auth.go:156-508 | in every run: an unpaired candidate is the one the open session names, an open session has fewer than five failed attempts, a session pairs at most one device, a challenge and a ticket let in at most once, and only a device paired since its latest revocation is let in |
| `PairingProvenance.LoggedIsBacked` | backend/internal/auth/auth.go:156-508 | in every run: a pairing comes of a saved confirmation of a request with the right credential in that session, with that request's key; a passed challenge of a good signature, an issue to that device and a taking within thirty seconds under the key still registered; an admission of a ticket for that device no older than thirty seconds |
| `PairingProvenance.PairingGoesThrough` | backend/internal/auth/auth.go:248-381 | a request with the right credential in an open session and a saved confirmation do pair the device |
| `PairingProvenance.LoginGoesThrough` | backend/internal/auth/auth.go:383-441 | a challenge taken in time and finished with a good signature does let the device in, whatever happens in between, if it was not revoked before and its key is the same |
| `PairingProvenance.TicketAdmits` | backend/internal/auth/auth.go:490-508 | an unused ticket does admit its device within thirty seconds |
| `PairingDuties.FiveWrongClose` | backend/internal/auth/auth.go:248-301 | in every run a session has counted every request with a wrong credential as long as it lasts, and does not survive five |
| `PairingDuties.CompletedStays` | backend/internal/auth/auth.go:587-603 | a completed pairing can be looked up for ten minutes, whatever happens, unless it is acknowledged or a device logs in |
| `PairingDuties.PrunedLeaves` | backend/internal/auth/auth.go:587-603 | exactly what is too old goes |
| `PairingDuties.OpenLeaves` | backend/internal/auth/auth.go:156-172 | a new session, and only completed candidates |
| `PairingDuties.CloseLeaves` | backend/internal/auth/auth.go:188-199 | no session, and only completed candidates |
| `PairingDuties.WrongRequestLeaves` | backend/internal/auth/auth.go:248-273 | the attempt is counted, or the session closed with the fifth |
| `PairingDuties.RightRequestLeaves` | backend/internal/auth/auth.go:274-301 | good for the first device only, unless it is paired already |
| `PairingDuties.ConfirmLeaves` | backend/internal/auth/auth.go:355-381 | the device with its key, the completed candidate and no session; or exactly what was before |
| `PairingDuties.RejectLeaves` | backend/internal/auth/auth.go:307-319 | neither candidate nor session |
| `PairingDuties.RevokeLeaves` | backend/internal/auth/auth.go:218-246 | the challenges and tickets of every other device, and the device itself only when the registry cannot be written |
| `PairingDuties.TakeLeaves` | backend/internal/auth/auth.go:399-415 | which answer, and the challenge gone in every case |
| `PairingDuties.FinishLeaves` | backend/internal/auth/auth.go:416-441 | which answer, and the device's completed candidates gone when it logs in |
| `PairingDuties.VerifyLeaves` | backend/internal/auth/auth.go:498-508 | which answer, and the ticket gone in every case |
| `Pairing.ConfirmFollows` | backend/internal/auth/auth.go:355-381 | a confirmation pairs exactly the candidate's device, or nothing when the registry cannot be written |
| `PairingRevocations.RevokedTicketsStayOut` | backend/internal/auth/auth.go:218-246 | a ticket issued before a revocation admits the device in no later run, also when it is paired again |
| `PairingRevocations.RevokedChallengePassesIff` | backend/internal/auth/auth.go:399-441 | a challenge issued before a revocation can pass in some later run if and only if it had been taken for that device by then |
| `PairingManagers.PairingManager.Prune` | backend/internal/auth/auth.go:587-603 | completed candidates, challenges and tickets that are too old go, and nothing else |
| `PairingManagers.PairingManager.Open` | backend/internal/auth/auth.go:156-172 | a new session and no unpaired candidate |
| `PairingManagers.PairingManager.Close` | backend/internal/auth/auth.go:188-199 | the session goes with its unpaired candidate |
| `PairingManagers.PairingManager.Request` | backend/internal/auth/auth.go:248-301 | every branch of a pairing request |
| `PairingManagers.PairingManager.Confirm` | backend/internal/auth/auth.go:355-381 | every branch, the save failure rolled back |
| `PairingManagers.PairingManager.Reject` | backend/internal/auth/auth.go:307-319 | an unpaired candidate goes, and its session |
| `PairingManagers.PairingManager.RevokeDevice` | backend/internal/auth/auth.go:218-246 | the device, its challenges and its tickets go; when the registry cannot be written the device stays |
| `PairingManagers.PairingManager.Take` | backend/internal/auth/auth.go:399-415 | the challenge is gone whatever comes of it |
| `PairingManagers.PairingManager.Finish` | backend/internal/auth/auth.go:416-441 | the device has to be paired still, with the key that was checked |
| `PairingManagers.PairingManager.VerifyWSTicket` | backend/internal/auth/auth.go:498-508 | the ticket is gone; it admits a device that is paired |
| `RateLimiters.AgreesWithHistory` | backend/internal/auth/auth.go:522-550 | in every run with a clock that does not go back, each answer is that of a reference that remembers every call |
| `RateLimiters.AtMostLimit` | backend/internal/auth/auth.go:522-550 | no address gets more than the limit in the minute that ends with an accepted call |
| `RateLimiters.CallTracks` | backend/internal/auth/auth.go:522-550 | the pruned windows keep what the history says of the last minute |
| `RateLimiters.RateLimiter.Request` | backend/internal/auth/auth.go:522-550 | the loops do what the function says |
| `Handoffs.RunKeeps` | backend/internal/browser/mode.go:111-361 | in every run from a non-standalone start: with the lock free the mode says which browser is held and a failure can be forced exactly when the controller was kept; no browser is launched beside a live one; no revision begins two transitions |
| `Handoffs.RevisionsGrow` | backend/internal/browser/mode.go:87-109 | revisions never go back |
| `HandoffRequests.AcceptedRevisionsIncrease` | backend/internal/browser/mode.go:111-169 | in every run the revisions named by accepted callers strictly increase, and each was the one in force |
| `HandoffRequests.AskedExactly` | backend/internal/browser/mode.go:111-169 | after every run a request is refused exactly when the action is unknown, the lock is held, shutdown has begun, its revision is not the one in force, or the mode forbids it; otherwise what it asks for is there already or begins |
| `HandoffRequests.WatchedExactly` | backend/internal/browser/mode.go:287-361 | closed setup windows begin a resume unless the lock is held or shutdown has begun |
| `HandoffRequests.StoppedExactly` | backend/internal/browser/mode.go:72-85 | shutdown begins exactly when the revision named is in force and the lock is free |
| `HandoffRequests.WorkEnds` | backend/internal/browser/mode.go:171-252 | the mode in which a handoff ends, and whether force is offered, for every way its calls can come out |
| `Handoffs.OpenSetupLawful` | backend/internal/browser/mode.go:171-223 | however saving, closing and launching come out |
| `Handoffs.ResumeLawful` | backend/internal/browser/mode.go:225-252 | likewise for resuming |
| `Handoffs.HandoffManager.RequestChange` | backend/internal/browser/mode.go:111-169 | refused exactly for an unknown action, a held lock, a shutdown, a stale revision, a standalone session or a mode that forbids it; and the state a request starts |
| `Handoffs.HandoffManager.OpenLocal` | backend/internal/browser/mode.go:171-223 | the object's new state and what happened to browsers |
| `Handoffs.HandoffManager.ResumeRemote` | backend/internal/browser/mode.go:225-252 | likewise |
| `EffectRings.DistinctIsShort` | client/core/src/core.c:300-332 | distinct effects with at most one for the keyboard are three at most, so the ring never fills |
| `EffectRings.EffectRing.Queue` | client/core/src/core.c:300-332 | the limit error cannot happen; a keyboard effect replaces a waiting one, any other waits once |
| `EffectRings.EffectRing.Next` | client/core/src/core.c:1231-1240 | effects come out oldest first |
| `ClientCores.AfterKeepsDistinct` | client/core/src/core.c:416-627 | every event keeps the waiting effects distinct |
| `ClientCores.ClientCore.DispatchTabs` | client/core/src/core.c:416-541 | all of it or nothing, wherever the allocator refuses, and why; accepted lists have distinct identifiers and at most one active tab |
| `ClientCores.ClientCore.DispatchUrl` | client/core/src/core.c:543-592 | all or nothing |
| `ClientCores.ClientCore.DispatchEditable` | client/core/src/core.c:594-625 | all or nothing |
| `ClientCores.ClientCore.DispatchMode` | client/core/src/core.c:836-859 | all or nothing; a mode other than streaming pauses, clears the page and asks to hide the keyboard |
| `ClientCores.ClientCore.DispatchSemantic` | client/core/src/core.c:860-1058 | dialogs, choosers, suggestions, find, clipboard, reader, media, library and downloads: all or nothing, and why |
| `ClientCores.ClientCore.Dispatch` | client/core/src/core.c:714-781 | an event that goes through is added to the history, with a new revision, and what is shown is what that history leads to; otherwise nothing changes, and the reason is one of the named ones |
| `ClientCores.ClientCore.DispatchScoped` | client/core/src/core.c:793-803 | events of another connection are only counted |
| `ClientCores.ClientCore.BeginConnection` | client/core/src/core.c:783-791 | only a later generation starts over |
| `ClientCores.ClientCore.PresentFrame` | client/core/src/core.c:1087-1103 | a frame is presented exactly when the client is not paused and the frame is of this connection and of the current video generation |
| `ClientShown.ShownIsLatest` | client/core/src/core.c:334-1059 | after every sequence of calls each field shown is what the last call that concerns it said |
| `ClientShown.PausedExactly` | client/core/src/core.c:836-859 | the client is paused exactly when the last mode of this connection is not streaming; then no video generation is known until the next configuration |
| `ClientShown.WaitingIsLatest` | client/core/src/core.c:300-332 | an effect waits exactly when a call has asked for it since it was last handed out or cleared; of the keyboard effects the one asked for last |
| `LogMerges.MergedLines` | backend/internal/logstore/logstore.go:463-494 | below the limit: the snapshot's lines followed by the host's suffix |
| `LogMerges.HostSuffixIs` | backend/internal/logstore/logstore.go:467-483 | a suffix of the host's lines none of which is in the snapshot |
| `LogMerges.HostSuffixLongest` | backend/internal/logstore/logstore.go:467-483 | the longest one, and none when no line is shared |
| `LogMerges.MergeAgain` | backend/internal/logstore/logstore.go:463-494 | below the limit, merging the same snapshot again changes nothing |
| `LogMerges.MergeAgainIff` | backend/internal/logstore/logstore.go:463-505 | with any limit: it changes nothing if and only if the host added nothing or a line of the snapshot survived the cut |
| `LogMerges.MergeAgainDiffers` | backend/internal/logstore/logstore.go:490-505 | an input on which it does |
| `LogMerges.MergedTail` | backend/internal/logstore/logstore.go:490-505 | above the limit: the last whole lines of that, within the limit and less than one line short of it |
| `LogMerges.MergeDeviceSnapshot` | backend/internal/logstore/logstore.go:463-494 | the loops do what the function says |
| `LogMerges.ReadTailBytes` | backend/internal/logstore/logstore.go:496-505 | likewise |
| `ClockSyncs.SignedAverage` | client/core/src/diagnostics.c:28-30 | within one half of the mean, and no intermediate value leaves 64 bits |
| `ClockSyncs.MeasuredIsHonest` | client/core/src/diagnostics.c:69-96 | what a round trip with non-negative delays and in-range differences measures |
| `ClockSyncs.ErrorBound` | client/core/src/diagnostics.c:98-112 | if the last eight samples are honest, twice the error of the chosen estimate is at most its round trip plus one (section 8 of RFC 5905) |
| `ClockSyncs.Synchronise` | client/core/src/diagnostics.c:42-112 | that bound holds after every sequence of exchanges with one true offset, whatever the delays, with the best round trip of the last eight |
| `ClockSyncs.ClockSync.Probe` | client/core/src/diagnostics.c:42-67 | when a probe is sent, both ways |
| `ClockSyncs.ClockSync.Consume` | client/core/src/diagnostics.c:69-112 | a reply to the pending probe becomes the newest sample and the best of the last eight is chosen; anything else changes nothing |
| `ClockSyncs.ClockSync.ServerToClient` | client/core/src/diagnostics.c:114-133 | the conversion, saturating at both ends |

## Left out

- Chrome DevTools Protocol, WebSocket, HTTP and TLS plumbing, process control, tray, discovery, updater and downloads: libraries and the operating system.
- Injected JavaScript, the iOS headers and Go's `encoding/json`: foreign code.
- RSA, HMAC and SHA-256: a signature check or a credential comparison is a parameter.
- The hub's audio and control lanes, their drop counters and pings: they share no state with the video lane beyond the pause flag.
- Real time: a timer step may fire at any later moment, so the length of the retry delay is not modelled and keyframe resets by timer may be late; the clock is read once where `requestKeyframeLocked` reads it again.
- `SetScaleLimit` reads the profile and sets it in two critical sections; only `SetProfile`, which it calls, is modelled.
- AccessUnits.WireFollowsIsFollows: assumes that no 2^32 units go missing at once; the end-to-end theorems carry the same condition.
- Media epochs and revisions do not wrap at 64 bits, generations are arbitrary numbers.
- `surf_h264_build_avcc_config`, frame headers, reconnect backoff, version comparison, history paging: easy members.
- `size_t` limits: other buffer sizes are mathematical integers, and the round trip is for texts shorter than 2^64. The arena check wraps as it does in the source; a writer without a buffer, which fails at the first byte, is not modelled.
- `surf_object_fields`, the field decoders and the number conversions behind the tokeniser: they walk the same token list.
- Touch coordinates beyond their range check, event timestamps and the settle delay before a lift.
- Button releases that cancelling a pointer gesture sends, and ordered page commands themselves.
- The governor's reason strings: which of several severe clients is named depends on the map's order, the profile does not.
- Two random identifiers being equal; device names, phrases, cookies and the time a device was last seen.
- The run of a standalone setup session (its refusals are modelled), client notifications, and setup-window polling beyond its outcome in the handoff.
- The host name in a URL, which a tab without a title shows: it is given with the tab.
- What the allocator holds after a failure: observable state only.
- Log files: writing, rotation, record validation.
- `surf_diagnostics_update` counters.
