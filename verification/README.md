# Call gateway: verified model

The repository bridges SIP calls to a bot over a WebSocket, in a Go and a Node implementation. This
project models the parts whose correctness depends on interleaving, on whole runs or on all inputs,
and proves what they promise. `dafny verify dfyconfig.toml` checks everything.

| file | what it models |
|---|---|
| `PrivacyGate.dfy` | closing the bot stream before an outbound INVITE, as interleaved goroutines |
| `MediaPipe.dfy` | bot audio, marks and clears on the way to the caller |
| `CallLifecycle.dfy`, `SessionState.dfy` | state cell, terminal stamp, live index, snapshot and the lookups that race with them |
| `LegBye.dfy` | racing Terminate calls and the once-guard of each leg |
| `PortPool.dfy` | RTP ports over every exit path of onInvite and `<Dial>` |
| `RateWindow.dfy`, `DialCounter.dfy` | the 60-slot ring and the lock-free per-session counter |
| `StatusQueue.dfy` | the status-callback queue of one call, its worker and the retry loop |
| `TwimlVerbs.dfy`, `TwimlParse.dfy`, `TwimlMeaning.dfy` | the TwiML token walk against the meaning of the element tree |
| `SecretMask.dfy`, `Signer.dfy` | secret masking and the signature base string |
| `NodeCalls.dfy`, `NodeReconnect.dfy`, `RtpCodec.dfy` | the Node call manager, its reconnect loop and its RTP handler |
| `Collections.dfy` | Option, and lemmas about sequences, sets and maps |

## How the model is built

- Concurrent parts are step systems: a `Label` is one atomic load, store, compare-and-swap, channel or
  map operation of one goroutine, `Exec` runs a sequence of labels, and a disabled label does nothing.
  A statement about every label sequence is a statement about every interleaving of every run.
- Sequential parts are classes and methods with the program's own loops, proved against functions that
  the lemmas are about.
- One tick of rtpPacer is one step. Enqueue and DrainAndClose are one step each per CallSid. In Node, the
  code between two awaits is one step.
- Clock readings never decrease. CallSids are never drawn twice. Where callers are assumed to use a
  Call-ID once (section 8.1.1.4 of RFC 3261), the lemma has that as a precondition.
- Network, HTTP and lexer results, timer delays and map iteration orders are arbitrary inputs.

## What the proofs found

- The Privacy Gate rests on the top of the loop in `run`. If CloseStream looks for the WaitGroup after
  run's check of streamClosed and before run has stored the new WaitGroup (session.go:406-418, 573), it
  does not wait for the goroutines that run spawns next, and a key press or mark can reach the bot after
  the INVITE, against the ordering comment at session.go:519-524. `PrivacyGate.GateIsSafeIff` shows that
  this is the only way; `NothingReachesBotAfterInvite` holds for every run without it, in particular for
  every run in which the loop top is not interrupted (`OneStepIsNotOvertaken`).
- In the same place CloseStream can set its deadlines before the connection is stored (session.go:558-568),
  and then wait for a pacer that only the peer can release, against the comment at session.go:564-567:
  `PrivacyGate.NeverHeldUpIff` has the exact condition.
- A mark with an empty name that is queued behind audio is swallowed, because rtpPacer recognises marks
  by their non-empty name (session.go:1062, 1084): `MediaPipe.UnnamedMarkExample`,
  `MediaPipe.HandedOverIffNamed`.
- A lookup that straddles the end of a call can report a busy call as completed: Status reads the stamp
  and the state cell separately. `CallLifecycle.TornReport` is the run, `LaterReportsAgree` the exact
  condition.
- The comment at logging.go:91-93 does not hold for secrets with stars. `SecretMask.SafeIffTight` gives
  the secrets that are always masked: no star at either end and no three stars in a row.
- An Enqueue after DrainAndClose starts a second worker, and the events of the call can then overtake
  each other: `StatusQueue.OverlapCanInvert`. The order is safe at a point of a run if and only if it is
  in step so far and at most one worker has work (`OrderIsSafeIff`), and all along a run if and only if
  two workers never have work at once (`RunIsSafeIff`).
- The 30-second drain budget is certain to suffice for one pending event, not for two:
  `StatusQueue.DrainBudgetCoversOneEvent`. A callback abandoned on a status below 400 is in no failure
  counter: `StatusQueue.FailuresAreCountedOnce`. The reason "5xx" is never counted, because a server error
  is always retried and then counted as exhausted: `StatusQueue.OutcomeCounts`.
- Node's terminateSession asks whether its Call-ID is registered, not whether its session is. A
  reconnect loop that outlives its call can so take down a new call that reuses the Call-ID:
  `NodeCalls.ReusedCallIdSplitsIndices`, with the exact condition in `TerminateKeepsIndicesIff`.
- In Node, an INVITE that is cancelled while pending gets a second final response (487, then 503) if and
  only if its voice fetch or its WebSocket connect fails after the CANCEL: `NodeCalls.SecondResponseIff`,
  with `CancelledVoiceFetchAnswersTwice` as an example. Each repetition of the CANCEL while the setup is
  pending sends one more 487: `NodeCalls.EachCancelSends487`.
- In Node, a setup that has ended has left its INVITE without any final response if and only if its RTP
  socket failed before the INVITE was cancelled: `NodeCalls.EndsSilentlyIff`.
- A setup that is pending during Node's terminateAll is still answered and stored afterwards
  (`NodeCalls.LateSetupSurvivesShutdown`). No session ever follows the shutdown if and only if every
  setup pending at that time had been cancelled: `NodeCalls.ShutdownIsFinalIff`.
- Node takes the telephone-event payload type from the offer without a bound. A call can have DTMF digits
  if and only if that type is below 128 and not the audio type; an offered 200 is accepted, and no key
  press is ever heard: `RtpCodec.DigitsCanBeHeardIff`, `OfferDecidesDigits`, `OfferedTypeOutOfRange`.

## Model

| member | source | states |
|---|---|---|
| PrivacyGate.NothingReachesBotAfterInvite | go/internal/api/midcall_adapter.go:128-172 | in every interleaving in which CloseStream does not overtake run at the top of its loop, after an outbound INVITE no media, DTMF or mark event is written to the bot |
| PrivacyGate.GateIsSafeIff | go/internal/bridge/session.go:399-424 | for every run: from the moment CloseStream looks for the WaitGroup no continuation exposes anything after an INVITE, if and only if run is then not between its check of streamClosed and its store of the WaitGroup |
| PrivacyGate.OneStepIsNotOvertaken | go/internal/bridge/session.go:406-424 | if no other process moves between the check and the second spawn, CloseStream never overtakes run |
| PrivacyGate.NeverHeldUpIff | go/internal/bridge/session.go:558-575 | for every run: after CloseStream has set its deadlines no continuation makes it wait for a write without a deadline, if and only if run is then not between its check and its store of the connection |
| PrivacyGate.InviteMeansStreamIsGone | go/internal/bridge/session.go:536-596 | in every run not overtaken, once an INVITE is out, CloseStream has returned, and neither then nor in any later state does a wsPacer or wsToRTP of any connection run |
| PrivacyGate.CloseStreamIsNeverStuck | go/internal/bridge/session.go:548-579 | unless it is held up by a write without a deadline, whichever goroutine a waiting CloseStream waits for can start and leave: a pacer at its select sees the context, one blocked in a write is released by the write deadline, a reader at its loop top leaves, a blocked one is woken by the read deadline |
| PrivacyGate.CloseStreamCanGoOn | go/internal/bridge/session.go:548-579 | in every run a waiting CloseStream that is not held up is at most six steps from its stop event |
| PrivacyGate.InviteIsReached | go/internal/api/midcall_adapter.go:141-172 | for any frames and any `<Dial>`, a run, not overtaken, in which the bot hears the caller, CloseStream cuts off a blocked write, and the INVITE follows the stop event |
| PrivacyGate.ControlWritesAreExclusive | go/internal/bridge/session.go:426-462 | in every run not overtaken, start and stop are only written while no wsPacer runs |
| PrivacyGate.OnePacer | go/internal/bridge/session.go:399-424 | two wsPacers never run at once, over all reconnects |
| PrivacyGate.LogOnlyGrows | go/internal/bridge/session.go:794-865 | what has been written is never undone by a later step |
| PrivacyGate.StepWrites | go/internal/twiml/verb_dial.go:76-90 | a step writes at most one event: an exposing one only while a WebSocket goroutine runs, an INVITE only after CloseStream |
| PrivacyGate.VoiceIsRouted | go/internal/bridge/session.go:747-779 | in every run each frame of the caller has one fate, in order of arrival: to the callee if the first load finds Forwarding and the callee's queue has room, nowhere if the second finds DialingOut, else to the bot's queue while fewer than 50 frames wait there |
| PrivacyGate.WhatTheBotHears | go/internal/bridge/session.go:794-865 | in every run the bot is sent exactly what wsPacer began to write and could finish, in that order; key presses and marks are begun in the order accepted, and refused only when ten wait |
| PrivacyGate.BrokenConnectionIsReplaced | go/internal/bridge/session.go:482-530 | in every run a connection that breaks while stream and session are open can be replaced, with no goroutine of the old one left and the bot greeted anew |
| PrivacyGate.ClosedStreamIsNotRedialled | go/internal/bridge/session.go:491-495 | once the stream is closed and no reconnect is under way, the bot is not dialled and no start event written in any continuation |
| PrivacyGate.ClosedStreamParksRun | go/internal/bridge/session.go:464-480 | a run whose stream was closed under it leaves its select and parks |
| PrivacyGate.SessionEndIsAnnounced | go/internal/bridge/session.go:427-462 | in every run, when the session is over, the goroutines can leave, run can end, and the bot gets a stop event exactly if CloseStream has not begun |
| PrivacyGate.RunGivesUp | go/internal/bridge/session.go:497-524 | what a failed handshake, a failed reconnect and the end of a parked run do |
| PrivacyGate.InviteIsEarned | go/internal/twiml/verb_dial.go:76-90 | in every run a callee is only invited by a dial that has closed the stream, has got a port and a leg, and has passed the checks of Dial |
| PrivacyGate.AnswerForwards | go/internal/bridge/leg.go:370-375 | the answer makes a call that dials out a forwarded one and nothing else |
| MediaPipe.MarksKeepTheirOrder | go/internal/bridge/session.go:955-989 | marks echoed, awaiting echo and queued are in the order received, and a received mark is on its way exactly if it is not lost |
| MediaPipe.MarksWaitForAudio | go/internal/bridge/session.go:1078-1096 | a mark is only put up for echo after every frame accepted before it was sent, lost or discarded |
| MediaPipe.AudioIsConserved | go/internal/bridge/session.go:934-953 | frames accepted are those retired followed by those queued, voiced packets carry exactly the transmitted ones in order, and the pieces of a message are its payload, each 1 to 160 bytes |
| MediaPipe.NothingRefusedNothingMissing | go/internal/bridge/session.go:934-953 | with no frame refused, the queued frames are the bot's payloads byte for byte |
| MediaPipe.NothingIsRefusedIff | go/internal/bridge/session.go:945-952 | in every run no frame, mark or frame of the callee is refused if and only if at no time more than 500 entries were offered and not yet sent, lost or discarded |
| MediaPipe.BurstIsRefusedIff | go/internal/bridge/session.go:945-952 | the bound is attained: k frames sent at once all find room if and only if k is at most 500 |
| MediaPipe.ClearDiscardsBufferedAudio | go/internal/bridge/session.go:1052-1076 | the tick that serves a clear empties the queue and transmits nothing of it |
| MediaPipe.TickIsExact | go/internal/bridge/session.go:1045-1142 | in every run a tick sends one packet with the bytes of the frame at the head, or silence for an empty queue or a nameless mark; none for a named mark; a frame is lost only if its sending failed |
| MediaPipe.TickHandsOver | go/internal/bridge/session.go:1052-1096 | the tick that serves a clear hands over every named mark of the queue while fewer than ten wait, any other tick at most the one at the head; what happens to the rest |
| MediaPipe.OnlyTicksSend | go/internal/bridge/session.go:1029-1142 | no other step sends a packet, takes a frame from the queue or moves the RTP clock |
| MediaPipe.ClearIsServed | go/internal/bridge/session.go:991-1003 | after a clear message the next tick sends silence and every frame accepted before is retired |
| MediaPipe.ChunkIsExact | go/internal/bridge/session.go:934-953 | a payload is cut into pieces of 160 bytes and a shorter last one, each queued behind the others unless 500 entries wait |
| MediaPipe.MarkIsExact | go/internal/bridge/session.go:955-989 | a mark goes to the echo queue if no audio is queued and behind the audio otherwise, and is lost only where it finds no room |
| MediaPipe.EchoIsExact | go/internal/bridge/session.go:813-828 | marks are echoed oldest first, and lost only to a failed write |
| MediaPipe.CalleeFrameIsExact | go/internal/bridge/session.go:1163-1214 | a frame of the callee joins the queue unless 500 entries wait |
| MediaPipe.RtpClockNeverSlips | go/internal/bridge/session.go:1102-1141 | packets carry n mod 2^16 and 160n mod 2^32 for the n ticks counted before, and are as far apart on the RTP clock as in ticks |
| MediaPipe.HandedOverIffNamed | go/internal/bridge/session.go:1084-1091 | with room for the echo, a queued mark is handed over if and only if its name is not empty |
| MediaPipe.NamedMarksAreNotSwallowed | go/internal/bridge/session.go:1084-1096 | a named mark is lost only to a full queue, a failed write or a reader that leaves |
| MediaPipe.QueuedUnnamedMarkIsNeverEchoed | go/internal/bridge/session.go:979-989 | a mark without a name that was queued behind audio is never echoed, in any run |
| MediaPipe.UnnamedMarkExample | go/internal/bridge/session.go:1084-1100 | the concrete run in which the unnamed mark is swallowed |
| MediaPipe.CallerPipe.OnMedia | go/internal/bridge/session.go:934-953 | the chunk loop does to the queue what the chunk steps do one by one |
| MediaPipe.CallerPipe.DrainQueue | go/internal/bridge/session.go:1058-1074 | the drain loop empties the queue as specified |
| MediaPipe.CallerPipe.SendPacket | go/internal/bridge/session.go:1102-1141 | sent packet and counters for each outcome of marshalling, encryption and write |
| MediaPipe.CallerPipe.TakeMark | go/internal/bridge/session.go:1084-1091 | a sentinel leaves the queue and is recognised exactly if it has a name |
| MediaPipe.CallerPipe.RunTick | go/internal/bridge/session.go:1045-1142 | one tick of the pacer is the tick step; what it sends is the packet recorded, and with an audio frame at the head, no clear and a successful write it is that frame's bytes under the next sequence number and timestamp |
| CallLifecycle.NoLookupMissesTheCall | go/internal/bridge/manager.go:239-247 | a lookup started after registration misses only if the cleanup took no snapshot because nothing was emitted, or it ends over five minutes after the end time |
| CallLifecycle.LaterReportsAgree | go/internal/bridge/session.go:1464-1478 | after one lookup reports a terminal status every later one reports the final status and the same end time; the two reports are equal if and only if the first had found the stamp or the final status is completed |
| CallLifecycle.TornReport | go/internal/bridge/session.go:1464-1478 | the run in which an answered call is dialled out, the dial ends busy, and the call is reported completed and then busy |
| CallLifecycle.CellOnlyClimbs | go/internal/bridge/state.go:14-24 | over any run the state climbs Streaming, DialingOut, Forwarding, Terminated, never steps back, and reaches Forwarding from Streaming only through DialingOut |
| CallLifecycle.ForwardingWasDialled | go/internal/bridge/leg.go:370-375 | a run that ends in Forwarding began there or was DialingOut on the way |
| CallLifecycle.TerminateIsFinal | go/internal/bridge/session.go:1782-1793 | after Terminate's three compare-and-swaps the state is Terminated for the rest of every run |
| CallLifecycle.OrderTerminatesIff | go/internal/bridge/session.go:1782-1793 | a sequence of compare-and-swaps terminates a streaming call under every interference of CloseStream and OnAnswered if and only if it tries Streaming, DialingOut and Forwarding in this order |
| CallLifecycle.OnlyOrderOfThree | go/internal/bridge/session.go:1791-1793 | the program's order is the only one of three tries that does |
| CallLifecycle.FirstStampStands | go/internal/bridge/session.go:1529-1535 | reason and end time never change once stored, whatever else races |
| CallLifecycle.ExecInv | go/internal/bridge/manager.go:454-488 | every reachable state keeps stamp, indices, snapshot, sweeper and all partial reads consistent |
| CallLifecycle.SweepIsExact | go/internal/bridge/manager.go:84 | behind any run a sweep drops the snapshot if and only if the call ended more than five minutes before its reading of the clock |
| CallLifecycle.OwnerIsExact | go/internal/bridge/manager.go:454-488 | behind any run the owner enters both maps, marks, reads stamp and end time, stores the snapshot, and only then leaves the maps |
| CallLifecycle.OwnerDecides | go/internal/bridge/manager.go:456-464 | what the owner goes on to after an answer, a failure with or without an emitted event, and the end or abort of run |
| CallLifecycle.OnceIsExact | go/internal/bridge/session.go:1529-1535 | the first claim of somebody who marks is stamped with the clock as it is read, and no other |
| CallLifecycle.TerminateAlone | go/internal/bridge/session.go:1782-1793 | a Terminate that is not interrupted leaves the call terminated, behind any run |
| CallLifecycle.StreamAndAnswer | go/internal/bridge/session.go:538-545 | behind any run CloseStream moves a streaming call on, once, and OnAnswered only a call that dials out |
| CallLifecycle.LookupAlone | go/internal/bridge/manager.go:239-247 | what a lookup finds that is not interrupted: the call while it is in the index, then its snapshot, then nothing |
| CallLifecycle.StatusWords | go/internal/bridge/session.go:1464-1478 | the words a lookup can report, and for which reasons and states |
| CallLifecycle.CallSession.MarkTerminated | go/internal/bridge/session.go:1529-1535 | the first reason and end time stand |
| CallLifecycle.CallSession.Terminate | go/internal/bridge/session.go:1782-1793 | run alone, leaves the state Terminated from each of its states |
| CallLifecycle.CallSession.CloseStream | go/internal/bridge/session.go:538-545 | the transition happens on the first call only |
| CallLifecycle.CallSession.OnAnswered | go/internal/bridge/leg.go:370-375 | DialingOut becomes Forwarding, any other state stays |
| CallLifecycle.CallSession.ReadReport | go/internal/api/json.go:81-106 | read without interruption, the status is terminal exactly if the stamp is stored, and then matches it |
| SessionState.AtomicState.CompareAndSwap | go/internal/bridge/state.go:78 | swaps exactly if the expected value was there |
| LegBye.AtMostOneBye | go/internal/bridge/leg.go:425-436 | however many Terminate calls race, a leg gets at most one BYE from them |
| LegBye.FinishedTerminateHungUp | go/internal/bridge/session.go:1804-1825 | when a Terminate has finished, each leg it copied has had exactly one BYE if it has a dialog, and never gets another |
| LegBye.TerminateHangsUp | go/internal/bridge/session.go:1804-1825 | a Terminate begun at any point of any run, whatever happens meanwhile, can come to its end, and by then each leg attached before it began has had one BYE if it has a dialog and none if not |
| LegBye.CanFinish | go/internal/bridge/leg.go:425-436 | a Terminate that waits for a guard is never stuck: some continuation brings it to its end |
| PortPool.PortsAreConserved | go/internal/bridge/manager.go:93-127 | in every run each port of the range is once in the pool or with exactly one leg |
| PortPool.OnlyRangePorts | go/internal/bridge/manager.go:97-108 | no port outside [min,max) is ever free or held |
| PortPool.NothingIsDropped | go/internal/bridge/manager.go:121-127 | Release never takes its silent drop branch |
| PortPool.AllPortsComeBack | go/internal/sip/handler.go:343-458 | when all calls and dials have ended, by whatever exits, the pool holds each port exactly once |
| PortPool.RefusedIffAllHeld | go/internal/bridge/manager.go:111-118 | in every run a path that asks for a port is turned away if and only if every port of the range is with some path, else it gets one nobody holds |
| PortPool.ExitGivesBack | go/internal/sip/handler.go:343-458 | in every run a path at an exit gives its port back and finds room for it |
| PortPool.PathGoesOn | go/internal/sip/handler.go:343-458 | where each path goes on to when its operation succeeds or fails, and that it takes and gives nothing on the way |
| PortPool.ApplyKeeps | go/internal/api/midcall_adapter.go:154-171 | every step of onInvite, the session goroutine and the dial keeps the partition of the range |
| PortPool.NewPortPool | go/internal/bridge/manager.go:99-108 | refused exactly for an empty range, else loaded with the range in order |
| PortPool.Pool.Acquire | go/internal/bridge/manager.go:111-118 | hands out the head, or nothing exactly when empty |
| PortPool.Pool.Release | go/internal/bridge/manager.go:121-127 | appends the port unless the channel is full |
| RateWindow.AnyMinuteIsBounded | go/internal/sip/guardrails.go:133-157 | in a log of dials accepted by the exact rule every 60 consecutive seconds hold at most the limit |
| RateWindow.AcceptedPerMinute | go/internal/sip/guardrails.go:133-157 | so does every run with non-decreasing clock readings |
| RateWindow.SlotSumIsRecent | go/internal/sip/guardrails.go:145-151 | the sum over the young slots is the number of log entries of the last minute |
| RateWindow.RateLimiter.SumYoungSlots | go/internal/sip/guardrails.go:145-151 | the summing loop, without int32 overflow |
| RateWindow.RateLimiter.ClaimSlot | go/internal/sip/guardrails.go:138-144 | resetting a stale slot keeps the ring in step with the log |
| RateWindow.RateLimiter.CheckAndIncrementGlobal | go/internal/sip/guardrails.go:135-157 | accepts if and only if fewer than maxPerMinute dials were accepted in the last 60 seconds |
| RateWindow.RateLimiter.CountDial | go/internal/sip/guardrails.go:155-156 | counts the accepted dial without overflow |
| RateWindow.Replay | go/internal/sip/guardrails.go:135-157 | over any run the ring answers like the exact log |
| DialCounter.CounterIsExact | go/internal/sip/guardrails.go:69-83 | at every moment a counter is its reserved dials plus the overshoots awaiting rollback |
| DialCounter.AcceptedPerCounter | go/internal/sip/guardrails.go:69-83 | no counter has more than maxPerSession accepted dials, in any interleaving |
| DialCounter.AcceptedPerSession | go/internal/sip/guardrails.go:85-89 | nor has a session that has not ended |
| DialCounter.QuiescentCounter | go/internal/sip/guardrails.go:69-83 | with no call under way the counter is the number of accepted dials |
| DialCounter.OvershootHasCause | go/internal/sip/guardrails.go:71-74 | a call only overshoots while the limit is taken up by others |
| DialCounter.LoneCallIsDecided | go/internal/sip/guardrails.go:63-83 | behind any run a dial that meets no other is accepted if and only if its session has fewer dials than the limit and the global limit agrees |
| DialCounter.EndForgetsTheCount | go/internal/sip/guardrails.go:85-89 | a session that ends leaves no count behind, and no other count is touched |
| StatusQueue.DeliverWithRetries | go/internal/webhook/status.go:404-468 | one to four attempts up to the first final outcome, at most one failure count, at most 23 seconds |
| StatusQueue.Attempts | go/internal/webhook/status.go:421-458 | all attempts before the last were retryable failures, and fewer than four only after a final outcome |
| StatusQueue.FailuresAreCountedOnce | go/internal/webhook/status.go:440-461 | an undelivered event is counted exactly once, unless the last answer was a status below 400 |
| StatusQueue.AnotherAttemptIff | go/internal/webhook/status.go:522-540 | attempt k + 1 is made if and only if every one before came back with a failed connection, 408, 429 or a status of 500 and above |
| StatusQueue.OutcomeCounts | go/internal/webhook/status.go:440-461 | delivered, and each failure reason, by the last outcome; "5xx" is never counted |
| StatusQueue.BacklogIsBounded | go/internal/webhook/status.go:57-68 | k events take at most 23k seconds |
| StatusQueue.DrainBudgetCoversOneEvent | go/internal/webhook/status.go:44-55 | the drain budget suffices for all outcomes if and only if at most one event is pending |
| StatusQueue.PerCallQueue.Enqueue | go/internal/webhook/status.go:341-356 | accepted exactly below 64 queued events, else counted as queue_full; the first one accepted starts the worker |
| StatusQueue.PerCallQueue.RunWorker | go/internal/webhook/status.go:387-392 | handles every queued event in order within 23 seconds each |
| StatusQueue.HandledAreAccepted | go/internal/webhook/status.go:317-392 | accepted is handled, then in hand, then queued, the queue at most 64, also past a timed-out drain; a worker exits with nothing left |
| StatusQueue.EnqueueIsAccepted | go/internal/webhook/status.go:340-356 | in every run an event is accepted unless the open queue holds 64, is then the last of that queue, and its worker runs |
| StatusQueue.DrainCloses | go/internal/webhook/status.go:572-580 | after DrainAndClose no queue is open, and what is queued stays |
| StatusQueue.EveryEventCanBeHandled | go/internal/webhook/status.go:387-392 | from every reachable state the workers can handle every event accepted so far |
| StatusQueue.ClosedWorkerCanExit | go/internal/webhook/status.go:387-392 | a worker can exit exactly when its queue is closed and it has nothing left |
| StatusQueue.DrainIsBounded | go/internal/webhook/status.go:572-591 | k pending events at closing keep the worker busy for at most 23k seconds more, in every continuation |
| StatusQueue.OrderIsSafeIff | go/internal/webhook/status.go:362-392 | in every reachable state no work of the workers can bring the order of a CallSid's events out of step if and only if it is in step so far and at most one worker has work |
| StatusQueue.RunIsSafeIff | go/internal/webhook/status.go:317-392 | along every run the order is safe at each point if and only if two workers never have work at once |
| StatusQueue.CalmRunsAreInOrder | go/internal/webhook/status.go:317-392 | the events of a CallSid are handled in the order accepted if no worker is started while an older one has work |
| StatusQueue.OverlapCanInvert | go/internal/webhook/status.go:572-580 | whenever two workers of a CallSid both have work, the run can go on so that the newer event is handled first |
| TwimlMeaning.ParseFindsMeaning | go/internal/twiml/parse.go:113-198 | for every document the walk returns exactly the verbs its tree denotes, stops right behind the root's end tag whatever follows, and fails exactly if there is no meaning |
| TwimlMeaning.TruncationIsAnError | go/internal/twiml/parse.go:119-149 | a document cut off anywhere is an error |
| TwimlMeaning.ParseIsLocal | go/internal/twiml/parse.go:113-198 | tokens behind the consumed ones never change the result |
| TwimlMeaning.NoElementIsLost | go/internal/twiml/parse.go:109-184 | the verbs are the child elements of Response in document order, unknown names kept |
| TwimlMeaning.ConnectFindsMeaning | go/internal/twiml/parse.go:203-230 | of several Stream children the last wins, other children leave no trace |
| TwimlMeaning.StreamFindsMeaning | go/internal/twiml/parse.go:234-284 | the parameters are those of the named Parameter children, later ones standing |
| TwimlMeaning.DialFindsMeaning | go/internal/twiml/parse.go:324-373 | text concatenated, last Number wins, flags for rejected children, error exactly on an unknown event in a Number |
| TwimlMeaning.VerbFindsMeaning | go/internal/twiml/parse.go:148-184 | each child of Response is read as its meaning, up to its own end tag |
| TwimlMeaning.TextFindsMeaning | go/internal/twiml/parse.go:425-442 | the text is the concatenation of the direct text children |
| TwimlMeaning.SkipConsumesOneSubtree | go/internal/twiml/parse.go:181-183 | Skip consumes exactly one subtree at any depth |
| TwimlMeaning.SkipToEndConsumesOneSubtree | go/internal/twiml/parse.go:461-479 | so does skipToEnd, also around elements of the same name |
| TwimlParse.Decoder.Parse | go/internal/twiml/parse.go:113-135 | the loop computes the walk and leaves the decoder where the walk ends, on any token sequence |
| TwimlParse.Decoder.ParseResponseChildren | go/internal/twiml/parse.go:141-198 | the same for the children of Response |
| TwimlParse.Decoder.ParseVerb | go/internal/twiml/parse.go:148-184 | the same for one child |
| TwimlParse.Decoder.ParseConnect | go/internal/twiml/parse.go:203-230 | the same for Connect |
| TwimlParse.Decoder.ParseStream | go/internal/twiml/parse.go:234-284 | the same for Stream |
| TwimlParse.Decoder.ParseDial | go/internal/twiml/parse.go:290-373 | the same for Dial, refusing unknown events |
| TwimlParse.Decoder.ParseNumber | go/internal/twiml/parse.go:379-415 | the same for Number |
| TwimlParse.Decoder.ParseText | go/internal/twiml/parse.go:425-442 | the same for the text loops of Number and Redirect |
| TwimlParse.Decoder.SkipToEndOf | go/internal/twiml/parse.go:461-479 | the depth-counting loop, with the depth allowed below zero |
| TwimlVerbs.ParseStatusCallbackEvents | go/internal/twiml/parse.go:46-66 | the fields of the list if all are known, else error 12100 |
| TwimlVerbs.FieldsSplit | go/internal/twiml/parse.go:47-49 | commas and spaces separate alike: the fields of a joined list are the fields of its parts |
| TwimlVerbs.FieldsOfWord | go/internal/twiml/parse.go:47-49 | a word without separators is one field |
| TwimlVerbs.EventsConcat | go/internal/twiml/parse.go:46-66 | a joined list is accepted exactly if both parts are |
| TwimlVerbs.ReadDialAttrs | go/internal/twiml/parse.go:292-323 | last readable attribute of each name, error exactly on an unknown event |
| TwimlVerbs.ReadNumberAttrs | go/internal/twiml/parse.go:382-395 | the same for Number |
| TwimlVerbs.ReadStreamAttrs | go/internal/twiml/parse.go:236-245 | the same for Stream |
| TwimlVerbs.LastAttrIsLast | go/internal/twiml/parse.go:292-306 | of attributes with one name the last whose value reads is taken, an unreadable number leaves an earlier one standing |
| TwimlVerbs.AtoiReadsNumbers | go/internal/twiml/parse.go:295-303 | a 64-bit number is read back from its decimal form with or without sign, a larger one is not read |
| TwimlVerbs.DialNames | go/internal/twiml/parse.go:292-323 | which field each attribute of Dial sets, by its name; one by another name sets nothing |
| TwimlVerbs.NumberNames | go/internal/twiml/parse.go:382-395 | the same for Number |
| TwimlVerbs.StreamNames | go/internal/twiml/parse.go:236-245 | the same for Stream |
| TwimlVerbs.NineEvents | go/internal/twiml/parse.go:31-66 | the words accepted as status callback events are exactly the nine |
| TwimlMeaning.StreamExample | go/internal/twiml/parse.go:234-245 | url and track of a Stream inside Connect, by their attribute names |
| TwimlMeaning.ParameterExample | go/internal/twiml/parse.go:254-271 | a Parameter maps its name to its value |
| TwimlMeaning.RootName | go/internal/twiml/parse.go:113-135 | a document is one exactly if its root is called Response |
| TwimlMeaning.ChildNames | go/internal/twiml/parse.go:148-184 | which verb each child of Response is, by its name, and that an unknown one keeps its name |
| TwimlMeaning.DialChildNames | go/internal/twiml/parse.go:324-373 | which child of Dial gives the number, which sets which flag, and that any other leaves no trace |
| SecretMask.NoSecretSurvives | go/internal/observability/logging.go:130-134 | no star-tight secret occurs in what Write forwards, whatever the other secrets are |
| SecretMask.SafeIffTight | go/internal/observability/logging.go:90-93 | a secret is masked for every input and every set of secrets if and only if it has no star at either end and no three stars in a row |
| SecretMask.StarFreeIsTight | go/internal/observability/logging.go:90-93 | secrets without stars are of that kind |
| SecretMask.LeakingInputLeaks | go/internal/observability/logging.go:90-93 | for any other secret a concrete line that leaks it |
| SecretMask.PassCreatesNothing | go/internal/observability/logging.go:130-134 | one replacement pass never creates an occurrence of a star-tight secret |
| SecretMask.ReplaceFirst | go/internal/observability/logging.go:130-134 | a pass replaces the first copy of the secret, keeps what is before it, and goes on behind it |
| SecretMask.PassKeepsPieces | go/internal/observability/logging.go:130-134 | a pass over pieces joined by the secret gives the same pieces joined by the mask: no other text is lost or changed |
| SecretMask.EveryTextIsCut | go/internal/observability/logging.go:130-134 | every line is such a join |
| SecretMask.CleanTextUnchanged | go/internal/observability/logging.go:130-134 | a line without secrets passes unchanged |
| SecretMask.ShorterNeverCutsLonger | go/internal/observability/logging.go:87-104 | the sort puts longer secrets first, so no shorter one is replaced before a longer one that contains it |
| SecretMask.SecretMaskWriter.Write | go/internal/observability/logging.go:130-159 | forwards the line with all secrets replaced in turn, and the result for each outcome of the underlying write |
| Signer.SignBase | go/internal/webhook/signer.go:65-87 | for every map iteration order the base string is the URL followed by the keys in byte order, each with its distinct values in byte order |
| Signer.SortedUnique | go/internal/webhook/signer.go:73-83 | the one listing of the set of values in byte order |
| Signer.LessIsByteOrder | go/internal/webhook/signer.go:65-83 | the comparison behind keys and values is the byte order: the first difference decides, a proper prefix comes first |
| Signer.SignTwoKeys | go/internal/webhook/signer.go:65-87 | two keys with one value each, in either order of the map: the key first in byte order is joined first |
| Signer.SignTwoValues | go/internal/webhook/signer.go:73-87 | one key with repeated values: each once, in byte order, each behind the key |
| Signer.SameCanonicalSameBase | tools/gen_status_callback_fixtures/gen.py:71-84 | submissions with the same sets of values per key have the same base string |
| Signer.ResubmissionIsCanonical | go/internal/webhook/signer.go:62-63 | reordering and repeating values changes nothing |
| Signer.SortedListingIsUnique | go/internal/webhook/signer.go:70-83 | a set has one strictly sorted listing, so the result does not depend on the sort |
| Signer.KeysWithoutValuesVanish | go/internal/webhook/signer.go:73-86 | a key with an empty list contributes nothing |
| NodeCalls.CancelledIsNeverAnswered | node/src/bridge/callManager.ts:980-1013 | a setup cancelled while pending never sends 200 OK and never stores a session, whichever await it was at |
| NodeCalls.CancelReachesTheSetup | node/src/bridge/callManager.ts:1000-1012 | a CANCEL for a pending Call-ID cancels the setup in flight for it |
| NodeCalls.OneSetupPerCallId | node/src/bridge/callManager.ts:570-586 | at most one setup per Call-ID is in flight |
| NodeCalls.SentIsCalledFor | node/src/bridge/callManager.ts:553-864 | in every run the caller is sent exactly the messages that the events call for, in order |
| NodeCalls.SetupsMoveOn | node/src/bridge/callManager.ts:553-864 | in every run each setup goes from await to await by its own answers only, and is cancelled exactly by a CANCEL for its Call-ID |
| NodeCalls.IndicesAlwaysAgree | node/src/bridge/callManager.ts:862-864 | at every await both indices hold the same sessions, the gauge is their number and list() has no duplicate |
| NodeCalls.SessionsEndOnce | node/src/bridge/callManager.ts:1053-1119 | each session gets at most one snapshot and one BYE, and a live one none |
| NodeCalls.ByesExactly | node/src/bridge/callManager.ts:1053-1119 | in every run the caller is sent a BYE exactly by the sessions that ended by REST, shutdown or a reconnect that gave up; each ended session has a snapshot; the live ones are those answered and not ended |
| NodeCalls.StatesAreTold | node/src/bridge/callManager.ts:1053-1119 | in every run the state of a session and the reason of its snapshot are those of the last event that concerns it |
| NodeCalls.ReconnectsExactly | node/src/bridge/callManager.ts:1181-1184 | in every run a reconnect loop begins to connect exactly for a live, streaming session, and is over exactly with its outcome |
| NodeCalls.TerminateAllEndsEverything | node/src/bridge/callManager.ts:535-549 | afterwards no session is live and the gauge is zero, in whatever order they are taken |
| NodeCalls.TerminateKeepsIndicesIff | node/src/bridge/callManager.ts:1053-1056 | terminateSession keeps the indices in agreement if and only if the session registered under its Call-ID, if any, is the one given |
| NodeCalls.ReusedCallIdSplitsIndices | node/src/bridge/callManager.ts:1216-1225 | the run in which a stale reconnect loop ends a new call with the same Call-ID |
| NodeCalls.ShutdownIsFinalIff | node/src/bridge/callManager.ts:535-568 | for every run and listing order: after terminateAll no continuation has a session if and only if every setup in flight had been cancelled |
| NodeCalls.LateSetupSurvivesShutdown | node/src/bridge/callManager.ts:559-568 | an example: a setup pending during terminateAll is answered and stored afterwards |
| NodeCalls.SecondResponseIff | node/src/bridge/callManager.ts:735-784 | in every run a cancelled setup is also refused if and only if its voice fetch or its WebSocket connect fails after the CANCEL |
| NodeCalls.EndsSilentlyIff | node/src/bridge/callManager.ts:676-690 | in every run a setup is over with neither 200 OK nor a refusal nor a CANCEL if and only if its RTP socket failed while it was not cancelled |
| NodeCalls.EachCancelSends487 | node/src/bridge/callManager.ts:1000-1012 | a Call-ID gets exactly as many 487 responses as CANCELs found its setup pending |
| NodeCalls.CancelledVoiceFetchAnswersTwice | node/src/bridge/callManager.ts:735-751 | an example: a CANCEL during a failing voice fetch yields 487 and 503 |
| NodeCalls.CallManager.TerminateSession | node/src/bridge/callManager.ts:1053-1119 | the whole new state of indices, snapshots, gauge and BYEs: of a registered session one snapshot more, and one BYE more exactly if asked for |
| NodeCalls.CallManager.TerminateAllSessions | node/src/bridge/callManager.ts:536-549 | clearing and re-adding session by session does what the step says |
| NodeCalls.CallManager.BeginInvite | node/src/bridge/callManager.ts:553-640 | shutdown, retransmission, re-answer and new setup, with the state each leaves |
| NodeCalls.CallManager.ResumeAfterRtp | node/src/bridge/callManager.ts:676-720 | cancelled or failed setups finish, others ring |
| NodeCalls.CallManager.ResumeAfterVoice | node/src/bridge/callManager.ts:728-752 | a failed fetch refuses and finishes |
| NodeCalls.CallManager.ResumeAfterWs | node/src/bridge/callManager.ts:755-864 | refuse, drop a cancelled setup, or answer and store |
| NodeCalls.CallManager.OnCancel | node/src/bridge/callManager.ts:980-1016 | end the session, mark the pending setup, or neither |
| NodeCalls.CallManager.OnBye | node/src/bridge/callManager.ts:1020-1042 | end the session without a BYE, or ignore |
| NodeCalls.CallManager.TerminateByCallSid | node/src/bridge/callManager.ts:528-533 | ends exactly an indexed session, and sends its caller a BYE |
| NodeCalls.CallManager.List | node/src/bridge/callManager.ts:467-473 | lists the live CallSids and then the recently ended ones, each exactly once |
| NodeReconnect.LoopEnds | node/src/bridge/callManager.ts:1184-1233 | at most nine attempts, and the call is given up only when one more wait would not end inside the budget |
| NodeReconnect.StartWsReconnectLoop | node/src/bridge/callManager.ts:1155-1233 | at most eight waits of 1, 2, 4, 4, ... seconds, each ending inside the budget |
| NodeReconnect.ReconnectLoop.Attempt | node/src/bridge/callManager.ts:1184-1231 | the recursion ends in success, bail-out or termination as the specification says |
| NodeReconnect.NineAttemptsHappen | node/src/bridge/callManager.ts:1159-1162 | nine is reached |
| NodeReconnect.OutcomeTells | node/src/bridge/callManager.ts:1178-1228 | the loop bails out exactly if the next attempt may not begin, reconnects exactly if it connects, and every attempt before had failed |
| RtpCodec.ReceiverRecovers | node/src/rtp/rtpHandler.ts:117-148 | the receive path recovers payload and type of the k-th packet, which carries k mod 2^16 and 160k mod 2^32 |
| RtpCodec.PacketOnTheWire | node/src/rtp/rtpHandler.ts:117-148 | the octets of the k-th packet: version, type, sequence number, timestamp and source in network order, then the payload |
| RtpCodec.ParseFindsPayload | node/src/rtp/rtpHandler.ts:161-200 | from every packet in the layout of section 5.1 of RFC 3550 exactly the octets behind sources and extension are taken |
| RtpCodec.HeaderLength | node/src/rtp/rtpHandler.ts:180-190 | any datagram gives a header length inside it, or is dropped |
| RtpCodec.RepeatsAreOneDigit | node/src/rtp/rtpHandler.ts:205-215 | however often an End packet is repeated, the press is one digit |
| RtpCodec.KeyIsHeard | node/src/rtp/rtpHandler.ts:199-215 | a telephone-event packet yields one digit if and only if it has four octets, its End bit and one of the sixteen keys, and which |
| RtpCodec.DigitsCanBeHeardIff | node/src/rtp/rtpHandler.ts:192-218 | there are datagrams from which a handler emits a digit if and only if the telephone-event type is below 128 and not the audio type |
| RtpCodec.OfferDecidesDigits | node/src/sip/sdp.ts:94-106 | for every offer the call can have a digit if and only if the telephone-event type found in it is below 128 and not the audio type negotiated |
| RtpCodec.LastEventEntryWins | node/src/sip/sdp.ts:94-106 | the type found is that of the last telephone-event entry, wherever it stands, and 101 without one |
| RtpCodec.CodecIsSelected | node/src/sip/sdp.ts:40-60 | in mode best the first of G.722, A-law and mu-law that is offered as audio, otherwise mu-law |
| RtpCodec.OfferedTypeOutOfRange | node/src/sip/sdp.ts:94-106 | an example: with type 200 offered no datagrams yield a digit |
| RtpCodec.NegotiatedAudioIsHeard | node/src/rtp/rtpHandler.ts:161-200 | whatever is offered and has been heard before, of each packet in the standard's layout the payload is emitted if and only if it has the audio type negotiated |
| RtpCodec.RtpHandler.SendAudio | node/src/rtp/rtpHandler.ts:117-148 | every packet built is the k-th of the stream, and none is built before the remote is set |
| RtpCodec.RtpHandler.Dispatch | node/src/rtp/rtpHandler.ts:197-218 | what one packet emits, by payload type, End bit, event code and timestamp |
| RtpCodec.RtpHandler.OnMessage | node/src/rtp/rtpHandler.ts:161-219 | over any datagrams, exactly the audio payloads and one digit per maximal run of equal-timestamp End packets of known events are emitted |
| RtpCodec.ReadMedia | node/src/rtp/rtpHandler.ts:161-191 | the header walk on arbitrary bytes, never out of bounds |
| RtpCodec.WholeCall | node/src/rtp/rtpHandler.ts:108-159 | from creation to dispose: only datagrams between startForwarding and dispose are heard, and the first packet built is the first one after setRemote |

## Left out

- Sockets, HTTP, TLS, DNS, SIP dialogs, digest authentication, SDP text, SRTP, base64, HMAC-SHA1 and the XML lexer: other libraries' code, seen here as outcomes, tokens or bytes.
- go/internal/sip/forwarder.go: mostly a case split over library results.
- PrivacyGate.NothingReachesBotAfterInvite: says nothing about the handshake of a reconnect that was already under way, which the program does not gate either.
- PrivacyGate.VoiceIsRouted: whether the callee's outboundQueue has room is an input, and its pacer is not part of this model.
- PrivacyGate: waiting for the RTP goroutines and closing the RTP socket are not modelled.
- CallLifecycle: durations, SIP codes and the calls of the Go List() are not modelled; List() may show a call twice during teardown.
- LegBye.AtMostOneBye: counts BYEs sent through Leg.bye only; run and wsToRTP also send BYE on the dialog directly.
- DialCounter: the int32 counter wraps only with 2^31 concurrent calls on one CallSid, and is an integer here; the allow-list and target normalisation come before and are not modelled; nothing in production calls OnSessionEnd.
- StatusQueue: URL validation, the HTTP transport and the drain's own waiting are not modelled; a send on a queue that is being closed is excluded by taking Enqueue and DrainAndClose as one step each.
- TwimlParse: error messages are not modelled, every error is code 12100.
- NodeCalls: sessions are records kept under their CallSid instead of shared objects; status callbacks, the 200 OK retransmission timer, forwarding legs and media wiring are not modelled.
- NodeCalls.SessionsEndOnce: assumes that Call-IDs are not reused; ReusedCallIdSplitsIndices shows it fails otherwise.
- NodeCalls.IndicesAlwaysAgree: the same assumption.
- NodeReconnect: the new socket's handlers, and the gap between a connect that succeeds late and a call that has left Streaming meanwhile, are not modelled.
- RtpCodec.OfferDecidesDigits: of an offer only the payload types of its audio line and which of them are telephone-event are modelled, not the text.
- RtpCodec: padding octets stay part of the payload, as in the program; port allocation is not modelled.
- The Node twins of masking and signing, metrics text, configuration, JSON shapes, the operator UI and the examples: they would only add easy members.
