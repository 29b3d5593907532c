# Relay: a verified model

The relay lets buyers send chat requests to a coordinator, which forwards each to one of several
hosts. Each host runs an agent in front of its own model backends. This project models the life of an
inference attempt across both machines and proves what its documentation promises about every run.

- `Types.dfy`: bytes, frames, failure codes.
- `Observer.dfy`: the incremental event-stream observer as a mutable object, proved against a
  declarative reading of the whole stream: lines, then events, then verdicts.
- `Wire.dfy`: the prioritised peer. `Link` is what one sender needs of it; `Wire` has any number of
  senders, two queues and the writer, and is shown to refine `Link` for each sender.
- `Attempt.dfy`: one attempt as a small-step transition system of four goroutines (the agent's job, the
  host's read loop, the buyer's handler, the cancel reaper). Every lock region, atomic operation and
  channel operation is a step, so all interleavings are runs.
- `AttemptProof.dfy`: the invariant and its preservation. `AttemptTheorems.dfy`: what it means to the
  buyer and the host. `AttemptOutcomes.dfy`: what an attempt comes to, for every response a backend can
  give, for every reason it can have to give none, and for every way in which the wait for it can end.
- `Relay.dfy`, `RelayProof.dfy`: the whole relay, with any number of hosts that connect, drop and
  reconnect, buyers that retry, and agents' slot counters. Each of its attempts is an instance of the
  attempt system. `RelayTheorems.dfy` states the results about every state of every run,
  `RelayOutcomes.dfy` shows runs that do happen.
- `Protocol.dfy`, `Config.dfy`, `AgentState.dfy`, `Selection.dfy`, `Deadline.dfy`: message and catalog
  validation, configuration and discovery, the agent's session, round-robin selection, deadlines.

## Reading the model

A byte is a character, so protocol literals read as text. JSON decoding is an arbitrary partial map
from documents to what they say (`Decoder`), and every result holds for all of them. Where a result is
about the interruption tail it asks that the tail's own document decodes with an error (`ReadsTail`).

Time is a number that steps may only raise. Timers, contexts, write failures and session closures may
happen at any step at which the code could observe them. A connection is a FIFO per attempt, which
allows every arrival order that the one FIFO of a session allows; that the frames of one sender do keep
their order through the two-priority peer is proved in `Wire`, not assumed.

A few lemmas without a row below write a definition out in literals, so that its constants, codes and names
stand in two places: `Config.IdentifiersMean`, `Wire.WriterChoices`, `AttemptTheorems.OnlyDocumentedCodesAreVisible`
and their like.

Facts where the code is not quite what one would expect:

- An event's data can reach 65537 bytes, because the line feed is added after the limit is checked
  (`internal/backend/usage.go:69-74`): `ObserverSpec.EventReachesTheLimit`, and exactly when in
  `ObserverSpec.JudgedEventExceedsExactly`.
- LF and CR LF read alike except for lines of exactly 65536 bytes, which are within the limit with one
  ending and over it with the other; longer lines are over it with both. `ObserverSpec.LineEndingsAgreeExactly`
  and `ObserverSpec.CrlfVerdict` say exactly what changes, `ObserverSpec.LineEndingsDifferAtTheLimit` that it can.
- A backend status above 599 is forwarded, because the agent tests for 400 first
  (`internal/agent/agent.go:440-458`), although `docs/protocol.md:76` limits it to 599. The frame fails
  validation and the host loses its session: `RelayTheorems.ReadLoopEndsExactlyForAStatus`,
  `AttemptOutcomes.InvalidStatusCostsTheSession`.
- A job abandoned before its request was sent (`internal/coordinator/chat.go:51-54`) can get no terminal
  frame, so its reaper closes the session of a host that did nothing wrong:
  `AttemptOutcomes.LateRequestCostsTheSession`, and for every run
  `RelayTheorems.AbandonedUnsentCostsTheSession`. In general a reaper whose wait is over closes the session
  exactly when no terminal frame was taken: `RelayTheorems.ReaperClosesExactlyWithoutATerminal`.
- No work is to be assigned before `welcome` is sent (`docs/protocol.md:23`), but a host is in the table
  that selection reads before it is (`internal/coordinator/coordinator.go:164-167`), so a request can be
  written first: `RelayOutcomes.WorkCanComeBeforeTheWelcome`. The agent then takes nothing over that
  session: `RelayOutcomes.OvertakenSessionsDoNoWork`, `RelayTheorems.WelcomeCountsExactlyWhenFirst`.
- The size of the event queue is judged by the count at the moment a frame is added, not when it is offered
  (`internal/coordinator/coordinator.go:269-277`), so a frame can be refused although the handler has made room
  meanwhile: `AttemptOutcomes.RefusalCanComeTooLate`. Exactly when it is taken is
  `RelayTheorems.QueueTakesExactlyWhatFits`.
- Catalog validation does not limit identifier lengths (`Deadline.AConformingIdentifierMayNotFit`) but
  message validation does, and what message validation measures is the encoded body, while the gateway
  limits only the body it reads (`internal/coordinator/chat.go:14`) and encoding can lengthen it. A request
  built from a valid catalog is accepted exactly when its identifiers and its encoded body fit
  (`Deadline.RequestIsValidExactlyWhenItFits`); for hosts with a valid configuration the identifiers
  always do (`Deadline.HonestHostAcceptsExactlyWhatFits`). A message that does not fit ends the agent's
  session.

## Model

| member | source | states |
|---|---|---|
| RelayTheorems.HostsAreCutOffOnlyForTheirStatus | internal/coordinator/coordinator.go:187-215 | In every state of every run, the frames an agent sent about an attempt follow the protocol, end with a terminal frame once its job finished on a live session, and fail validation exactly when they carry a backend status above 599; only such a frame ends the read loop over an attempt, however dropping interleaves with delivery. |
| RelayTheorems.ReadLoopEndsExactlyForAStatus | internal/coordinator/coordinator.go:235-268 | In every state of every run, the next step of a read loop over an attempt ends it if and only if it reads a start with a status above 599. |
| RelayTheorems.OneFrameAtATime | internal/coordinator/coordinator.go:187-215 | In every run, the read loop of a connection has a frame of at most one attempt under way. |
| RelayTheorems.QueuesAreBoundedAndGapless | internal/coordinator/coordinator.go:266-283 | In every run, queued counts exactly the bytes on the channel and in the hands of the read loop and the handler, the channel keeps both bounds, and nothing follows a refused frame. |
| RelayTheorems.QueueTakesExactlyWhatFits | internal/coordinator/coordinator.go:266-274 | In every run, the event queue takes a frame if and only if the bytes on the channel, those the handler is accounting for and its own were at most 262144 when it was added, and fewer than 10 messages wait when it is offered. |
| RelayTheorems.SlowConsumersWereFull | internal/coordinator/coordinator.go:266-283 | In every run, a buyer is called slow only after its queue refused a frame, because of its bytes or because 10 messages were waiting. |
| RelayTheorems.NoBuyerIsOrphaned | internal/coordinator/coordinator.go:219-284 | In every run, a handler waiting in its select has a wake-up left: the job is in its registered host's table, a terminal event is queued, a failure is set, or the read loop is mid-delivery. |
| RelayTheorems.NoReservationIsLeaked | internal/coordinator/coordinator.go:286-319 | In every run, a job in a host's table has an attending or abandoning handler, a read loop about to reap it or a live reaper, unless its session is closed; at most one cancel is sent; a finished reaper leaves no place behind on an open session. |
| RelayTheorems.UnsentHoldsItsPlaceInEveryRun | internal/coordinator/coordinator.go:286-319 | In every run, an attempt whose request has not been sent keeps its place, and when its reaper is done the session of its host is closed. |
| RelayTheorems.AbandonedUnsentCostsTheSession | internal/coordinator/chat.go:51-54 | Once a handler has abandoned a job without offering its request, then in every later state of the run the request is unsent and the place taken, so the end of the reaper is the end of an honest host's session. |
| RelayTheorems.ReaperClosesExactlyWithoutATerminal | internal/coordinator/coordinator.go:312-317 | In every state of every run, a reaper whose wait is over goes on to close the session if and only if no terminal frame of its attempt has been taken. |
| RelayTheorems.AgentsAreNeverOverbooked | internal/coordinator/coordinator.go:339-365 | In every run with constant capacities, the attempts holding slots of a backend are among the coordinator's outstanding jobs of that session, the agent's counter is their number, and outstanding jobs never exceed the advertised capacity. |
| RelayTheorems.AgentNeverAnswersBusy | internal/agent/agent.go:396-400 | After any run the agent cannot answer busy to the coordinator's request. |
| RelayTheorems.AgentTakesExactlyBelowCapacity | internal/agent/agent.go:396-400 | It is the count alone that rules it out: a welcomed agent takes a request exactly while fewer attempts run on the backend than its capacity, and would answer busy in every other state. |
| RelayTheorems.SlotsAreFreeBetweenSessions | internal/agent/agent.go:302-336 | In every run, once no session of a host's agent is running, all of its slot counters are zero. |
| RelayTheorems.RetriesAreFair | internal/coordinator/chat.go:39-73 | A request never makes more than two attempts; the second is for the same model identifier on a different host with equal source and kind, and digest when local, and only after the first gave the buyer no head and no byte. |
| RelayTheorems.NoCapacityExactlyWithoutACandidate | internal/coordinator/chat.go:44-48 | In every state of every run, a request without an attempt under way is answered 503 if and only if no host can take it, and any host that can may be given it. |
| RelayTheorems.WorkGoesToTheLiving | internal/coordinator/coordinator.go:332-334 | In every run, a request is given only to a host last heard from, by registering or by a heartbeat, less than ten seconds ago. |
| RelayTheorems.WorkIsWhatWasAdvertised | internal/coordinator/coordinator.go:336-354 | In every run, a request is given to a ready backend and a model of the catalog that its host sent last, and the model is the one asked for. |
| RelayTheorems.EndedContextsAreInherited | internal/coordinator/chat.go:35-39 | In every run, an attempt of a request whose context has ended is made under that ended context. |
| RelayTheorems.EveryRequestGetsOneAnswer | internal/coordinator/chat.go:39-145 | Over all attempts of a request at most one response head is written, exactly one once it is answered unless the buyer cancelled, and no body byte without its attempt's head; without an attempt it is 503, with a committed response its status, and otherwise 502, 504 or the error status of the backend. |
| RelayTheorems.BuyerReadsOneBody | internal/coordinator/chat.go:130-194 | All a buyer reads comes from the last attempt: a prefix of the body as that agent read it plus at most the interruption tail, and the whole body read to its end when the attempt completed. |
| RelayTheorems.StreamVerdictIsExact | internal/coordinator/chat.go:120-125 | For an answered streaming request with a committed response and no failed write, the observer reads the buyer's bytes as a success exactly when the attempt completed, and as failed otherwise. |
| RelayTheorems.CompletionIsEarned | internal/agent/agent.go:477-491 | In every run, a completed attempt relayed the whole body read to EOF, a stream succeeded, and the usage in the terminal frame is what the observer made of the body. |
| RelayTheorems.TerminalTellsTheContext | internal/agent/agent.go:410-419 | In every run, a job that left with its context past the deadline ends with deadline_exceeded, retryable; one that was cancelled with cancelled, not retryable; any other with neither; and that is its terminal frame from then on. |
| RelayTheorems.NoTruncatedJsonPasses | internal/coordinator/chat.go:126-128 | In every run, a returned non-streaming response that was committed and written without failure either completed or was aborted, and has no tail. |
| RelayTheorems.WelcomeCountsExactlyWhenFirst | internal/coordinator/coordinator.go:164-169 | In every run, a connection counts as welcomed if and only if the welcome was written before every request and every cancel on it. |
| RelayTheorems.WorkOnlyFollowsAWelcome | internal/agent/agent.go:199-204 | In every run, an attempt reaches an agent only over a connection on which the welcome was written first of all. |
| RelayOutcomes.EveryResponseCanBeRelayed | internal/coordinator/chat.go:39-194 | For every host that can serve the model, every 2xx response of the requested kind, every cut of its body and either way of ending, there is a run of the whole relay from an empty table in which the request is answered with that status and body, the tail added to a stream that did not succeed, or is open for a retry when the body is empty, and the slot is free again. |
| RelayOutcomes.ScheduleLifts | internal/coordinator/coordinator.go:127-217 | Every schedule of a single attempt without a busy answer is a run of the whole relay on a welcomed host. |
| RelayOutcomes.WorkCanComeBeforeTheWelcome | internal/coordinator/coordinator.go:164-167 | For every host that can serve a model there is a run in which a request is selected for it and written to it before its welcome, contrary to docs/protocol.md. |
| RelayOutcomes.OvertakenSessionsDoNoWork | internal/agent/agent.go:201-209 | Once a request or cancel was the first frame on a connection, no attempt on it reaches the agent in any later state of the run. |
| AttemptOutcomes.ResponseIsRelayed | internal/agent/agent.go:459-493 | For every 2xx response of the requested kind, every cut of its body into reads and either way of ending, there is an undisturbed run that gives the buyer the whole body; it completes exactly when the body was read to EOF and, for an event stream, the observer saw it succeed; otherwise the buyer gets the tail, an aborted connection, a retry or a 502; slot and place are free at the end and the session is open. |
| AttemptOutcomes.ExcuseIsAnswered | internal/agent/agent.go:309-419 | When the agent refuses the request, its backend does not answer or the job's own context ends, a first attempt is retried unless the model, the request or a cancel is at fault; else the buyer gets 504 for a late start or the agent's deadline and 502 otherwise; the one frame sent carries that code; slot and place are free. |
| AttemptOutcomes.WaitIsCutShort | internal/coordinator/chat.go:106-137 | From every reachable waiting state, the deadline, the start timer or a host failure ends the attempt: before the first byte with a retry, 504 or 502, or silence when the buyer cancelled; after it with the tail on a stream and an aborted connection otherwise. |
| AttemptOutcomes.RequestIsNotSent | internal/coordinator/chat.go:49-67 | With no time left the buyer gets 504; when sending fails the host is closed and a first attempt is retried while the context lives, else the buyer gets 502; either way the job is handed to a reaper. |
| AttemptOutcomes.LateRequestCostsTheSession | internal/coordinator/chat.go:51-54 | There is a run in which an attempt that ran out of time before its request was sent is answered 504 and its reaper, after one cancel, closes the session of a host that never heard of it. |
| AttemptOutcomes.ResponseIsTurnedDown | internal/coordinator/chat.go:141-153 | For every other response with a status up to 599 there is an undisturbed run that ends with a retry when one is allowed, the backend's error status, or 502; the agent gets one cancel and acknowledges it with an error whose code is cancelled, unless it was done; slot and place are freed, and the host stays connected. |
| AttemptOutcomes.InvalidStatusCostsTheSession | internal/agent/agent.go:440-448 | For every status above 599 there is a run in which the host loses its registration and the attempt is retried or answered 502. |
| AttemptOutcomes.TenFramesCanWait | internal/coordinator/coordinator.go:355 | There is a run in which ten frames wait on the channel for a handler that sleeps, and nothing is wrong. |
| AttemptOutcomes.QueueOverflows | internal/coordinator/coordinator.go:266-283 | There are runs in which the eleventh waiting frame, and a frame one byte over 262144, are refused: the buyer is called slow, the job dropped and its reaper started. |
| AttemptOutcomes.RefusalCanComeTooLate | internal/coordinator/coordinator.go:269-277 | There is a run in which a frame is refused for its size although the handler has made room for it by then, because the count was taken when the frame was added. |
| AttemptProof.StepKeepsInv | internal/coordinator/coordinator.go:235-319 | Every step of every goroutine keeps the invariant of an attempt (frame trace, queue accounting, wake-ups, reservations, buyer's bytes). |
| AttemptProof.FreshInv | internal/coordinator/coordinator.go:355-364 | A job as selectJob creates it satisfies the invariant. |
| AttemptProof.WorkerKeeps | internal/agent/agent.go:406-494 | Every step of the job goroutine keeps the frame trace legal, the sent data a prefix of the body read, and a claimed end earned. |
| AttemptProof.ReaderKeeps | internal/coordinator/coordinator.go:235-284 | Every step of deliver keeps the invariant of the coordinator's side, whatever the others did in between. |
| AttemptProof.HandlerKeeps | internal/coordinator/chat.go:130-194 | Every step of the handler, from its request to abandon, keeps the invariant of the coordinator's side. |
| AttemptProof.SessionKeeps | internal/coordinator/coordinator.go:219-233 | Closing and removing the session keep it: a removed host fails every job still listed. |
| AttemptTheorems.FramesFollowTheProtocol | docs/protocol.md:73-76 | The frames written are an error alone, or start, chunks 1, 2, 3 and so on, and at most one terminal; a job that finished on a live session has sent its terminal; validation turns down exactly a start with a status above 599. |
| AttemptTheorems.FrameIsValid | protocol/protocol.go:77-132 | A frame about an attempt passes validation exactly when status, chunk size and number, usage keys and counts, and the attempt identifier are within the protocol's limits. |
| AttemptTheorems.HostIsCutOffOnlyForItsStatus | internal/agent/agent.go:440-458 | The read loop ends over an attempt only for a backend status above 599, and then before anything of the attempt was delivered. |
| AttemptTheorems.StepCutsOffExactlyForAStatus | internal/coordinator/coordinator.go:243-260 | A step of the read loop finds a violation exactly when it reads such a start; the checks of deliver never fail. |
| AttemptTheorems.ChecksPassExactlyTheOrderly | internal/coordinator/coordinator.go:244-259 | Whatever an agent sends, honest or not, deliver's checks pass exactly the traces with at most one start, before every chunk and end, and chunks numbered 1, 2, 3 and so on. |
| AttemptTheorems.DisorderEndsTheSession | internal/coordinator/coordinator.go:243-260 | For a job not abandoned, a frame ends the session if and only if it makes the trace so far disorderly. |
| AttemptTheorems.BuyerIsNeverOrphaned | internal/coordinator/chat.go:130-140 | A waiting handler always has something left to wake it. |
| AttemptTheorems.ReservationIsNeverLeaked | internal/coordinator/coordinator.go:286-319 | A listed job is always someone's to give back; at most one cancel is sent; a finished reaper leaves no place on an open session. |
| AttemptTheorems.ReaperWaitsAfterItsCancel | internal/coordinator/coordinator.go:296-311 | A reaper that waits for the agent, or looks again, has written exactly one cancel. |
| AttemptTheorems.PlaceIsFreedExactlyByTheTerminal | internal/coordinator/coordinator.go:261-265 | A job is off the table if and only if its terminal frame was taken and the read loop is past it. |
| AttemptTheorems.RecheckClosesExactlyWithoutATerminal | internal/coordinator/coordinator.go:312-317 | The recheck of a reaper leads to closing the session exactly when no terminal frame was taken. |
| AttemptTheorems.UnsentHoldsItsPlace | internal/coordinator/coordinator.go:286-319 | An attempt whose request was not sent has no frame and keeps its place; a finished reaper has closed its session. |
| AttemptTheorems.QueueIsBoundedAndGapless | internal/coordinator/coordinator.go:266-283 | queued is the bytes on the channel plus those in the hands of the read loop and the handler; the channel holds at most 262144 bytes and 10 messages; what was enqueued is exactly the first frames written, so nothing follows a refused one. |
| AttemptTheorems.OfferAcceptsExactlyWithRoom | internal/coordinator/coordinator.go:269-277 | The channel takes a frame exactly when the bytes counted with it are at most 262144 and fewer than 10 messages wait, and nothing changes otherwise. |
| AttemptTheorems.SlowMeansRefused | internal/coordinator/coordinator.go:275-283 | No step of any goroutine calls a buyer slow unless the queue refused a frame for its bytes or its number. |
| AttemptTheorems.FirstFailureStays | internal/coordinator/coordinator.go:229-231 | A failure that is set is not overwritten by any step; only the handler takes it. |
| AttemptTheorems.StartTimerStopsAtTheStart | internal/coordinator/chat.go:154-155 | While forward waits, the start timer can end the wait if and only if no event was taken yet. |
| AttemptTheorems.ForwardFollowsTheRequest | internal/coordinator/chat.go:58-67 | forward waits for and handles events only once the request was written to the host. |
| AttemptTheorems.BuyerGetsAPrefixOfTheBody | internal/coordinator/chat.go:159-182 | What the buyer has is a prefix of the body read, then at most the tail; a completed attempt delivered all of it. |
| AttemptTheorems.CompletedIsEarned | internal/agent/agent.go:477-491 | Completion implies the body was read to EOF, that the observer saw a stream succeed, and that the usage in the terminal frame is what the observer made of the whole body. |
| AttemptTheorems.ObservedUsageMeans | internal/agent/agent.go:477-491 | The usage observed of a stream is that of its last event to report any; of another body its own three counts if it is at most 1 MiB, and nothing otherwise. |
| AttemptTheorems.LeavingTellsTheContext | internal/agent/agent.go:406-494 | A job leaves with the code its ended context calls for, or, if live, with what failed or how its body ended; and with the usage observed if and only if its body was read to an end. |
| AttemptTheorems.StreamSuccessIsExact | internal/coordinator/chat.go:120-125 | The buyer's bytes of one returned streaming attempt read as a success if and only if it completed. |
| AttemptTheorems.TruncatedJsonIsAborted | internal/coordinator/chat.go:126-128 | A committed non-streaming response that was written without failure either completed or was aborted, never both, and has no tail. |
| AttemptTheorems.RetryOnlyBeforeTheFirstByte | docs/protocol.md:125-137 | An attempt asks for another one only if it may and the buyer has nothing; it writes at most one head, exactly one if it ends the request unless the buyer cancelled. |
| AttemptTheorems.SlotImpliesReservation | internal/agent/agent.go:325-337 | While the agent holds a slot for an attempt, or has not received it yet, the coordinator's table lists it: the slot is released before the terminal frame is sent. |
| Relay.RelayProjectsToAttempts | internal/coordinator/coordinator.go:127-217 | Each step of the relay is at most one step of the attempt system for every job, and a new job starts fresh. |
| RelayProof.RunsAreSound | internal/coordinator/coordinator.go:127-366 | Every state of every run keeps the attempts' invariant and the invariants on capacities, slots, sessions and requests. |
| RelayProof.StepKeepsSound | internal/coordinator/coordinator.go:127-366 | Every step of the relay keeps them. |
| RelayProof.SelectKeepsCapacity | internal/coordinator/coordinator.go:339-364 | A selection never takes a host's backend over the capacity it advertised. |
| RelayProof.HoldersFollow | internal/agent/agent.go:399-400 | The attempts holding slots of a backend change only by the one that reserves or releases. |
| RelayProof.ListedOnlyFalls | internal/coordinator/coordinator.go:261-265 | No step puts an attempt back into the table once a terminal frame took it out. |
| RelayProof.RetryIsFair | internal/coordinator/coordinator.go:332-354 | A second attempt chosen by selectJob is on another host and matches the first one's backend and model. |
| Wire.InvStep | internal/wire/peer.go:41-94 | Every step of senders, contexts and writer keeps the peer's invariant. |
| Wire.SendersAreServedInOrder | internal/wire/peer.go:41-94 | In every run each sender's frames are written in call order, each at most once, and every Send that returned nil was written. |
| Wire.SendReturnsNilExactlyIfWritten | internal/wire/peer.go:57-65 | In every run, when Send returns because the writer is done with its frame, it returns nil if and only if the frame was written. |
| Wire.EveryFrameCanBeSent | internal/wire/peer.go:41-94 | For every frame, control or data, there is a run in which it is written and its Send returns nil. |
| Wire.QueuesTakeSixtyFourFrames | internal/wire/peer.go:31 | A frame is queued exactly while fewer than 64 frames of its class wait. |
| Wire.ControlWaitsForOneDataFrame | internal/wire/peer.go:67-80 | In every run at most one data frame starts between the queueing of a control frame and the writer's next control pick. |
| Wire.PeerRefinesLink | internal/wire/peer.go:41-94 | Every step of the peer is, for each sender, one step of the simple link used by the attempt system, or none; a Send that returns nil is the link's successful return and no other step is. |
| Observer.Observer.Feed | internal/backend/usage.go:22-50 | However the stream is cut into calls, Done, Failed and Usage are those of the whole stream under the declarative reading, and the buffers stay within their bounds. |
| Observer.Observer.FeedByte | internal/backend/usage.go:35-49 | One byte keeps the correspondence between the parser's state and the stream so far. |
| Observer.Observer.TakeLine | internal/backend/usage.go:52-76 | One complete line updates event and verdict as the declarative reading does. |
| Observer.Observer.ObserveJSON | internal/backend/usage.go:84-105 | An error sticks; a usage object with any of the three counts, nonnegative, replaces the last one with exactly those counts; nothing else changes. |
| Observer.Observer.Finish | internal/backend/usage.go:78-82 | A non-streaming body up to 1 MiB is judged once, whole, by its own error and the three counts of its own usage; a larger one or a stream is left alone. |
| ObserverSpec.SplitIsUnique | internal/backend/usage.go:35-50 | The lines of the declarative reading are the only way to write the stream as LF-free lines and a rest. |
| ObserverSpec.LinesAreRawLines | internal/backend/usage.go:36-41 | Each line read is a raw line less one trailing CR, marked over-long above 65536 bytes. |
| ObserverSpec.VerdictSnoc | internal/backend/usage.go:53-64 | One more event adds its own verdict and changes no other. |
| ObserverSpec.DataEventIsJudged | internal/backend/usage.go:52-105 | After any stream that is between events, an event of one data line adds exactly what its document says: the end for [DONE], a failure for an error, and the three nonnegative counts of its usage object, unchanged. |
| ObserverSpec.DocUsageIsItsOwn | internal/backend/usage.go:95-104 | A document reports usage if and only if its object has one of the three counts and it is not negative, and what is kept of it are those counts as they are. |
| ObserverSpec.TrimTakesAllSpace | internal/backend/usage.go:55 | Trimming takes a run of white space off each end, leaves none at either end and touches nothing between. |
| ObserverSpec.SpacesAreWhiteSpace | internal/backend/usage.go:55 | What counts as white space is exactly the UTF-8 encoding of the characters with the Unicode property White_Space. |
| ObserverSpec.TailIsItsOwnEvent | internal/coordinator/chat.go:122 | After any bytes at all, mid-line, over-long line or discarded event included, the interruption tail adds, after what its own two line feeds close, exactly one event that consists of its line alone; nothing is left open after it. |
| ObserverSpec.TailMarksFailed | internal/coordinator/chat.go:122 | That event is judged on the tail's document and marks the stream failed, whatever came before. |
| ObserverSpec.LineEndingsAgreeExactly | internal/backend/usage.go:35-50 | For a stream without CR, writing CR LF for LF leaves every line as read if and only if no line has exactly 65536 bytes. |
| ObserverSpec.LineEndingsAgree | internal/backend/usage.go:35-50 | And then it changes no verdict. |
| ObserverSpec.CrlfVerdict | internal/backend/usage.go:35-76 | For any stream without CR, the verdict on its CR LF form is exactly that of its events without a line of 65536 bytes: Done, Failed and Usage. |
| ObserverSpec.LineEndingsDifferAtTheLimit | internal/backend/usage.go:44-48 | A stream whose only line of 65536 bytes or more has exactly 65536 is finished with LF and not with CR LF. |
| ObserverSpec.JudgedEventExceedsExactly | internal/backend/usage.go:66-75 | An event is judged on more than 65536 bytes if and only if it has no over-long line and its payloads with their line feeds make exactly 65537. |
| ObserverSpec.LastLineExceedsExactly | internal/backend/usage.go:69-74 | A data line takes a judged event past 65536 bytes if and only if its payload fills the limit to the byte. |
| ObserverSpec.EventReachesTheLimit | internal/backend/usage.go:69-74 | There is a stream after which the observer holds 65537 bytes of an event that is judged. |
| Protocol.ValidateModels | protocol/protocol.go:147-153 | Accepts exactly the entries whose model identifiers are derived, distinct and, if local, carry digests. |
| Protocol.ValidateCatalog | protocol/protocol.go:134-156 | Accepts exactly the conforming catalogs. |
| Protocol.ConformingCatalogsMean | protocol/protocol.go:134-156 | A catalog conforms exactly when it has at most 64 backends with distinct identifiers, each of a known kind with the source of that kind, 1 to 64 slots and at most 1024 models of distinct names, identified by backend and name, with a digest for ollama. |
| Protocol.ValidMessages | protocol/protocol.go:77-132 | The ordered checks accept exactly the messages whose fields all keep their own limits. |
| Protocol.FramesSurviveTheWire | protocol/protocol.go:44-67 | Every frame about an attempt is read back from its message unchanged. |
| Config.Timeouts | internal/config/config.go:161-172 | Fills in the defaults and accepts exactly 1 <= start <= total <= 86400. |
| Config.AllowlistValid | internal/config/config.go:122-128 | Accepts exactly the lists of distinct, nonempty, bounded names without line breaks. |
| Config.BackendFits | internal/config/config.go:95-128 | Accepts exactly the backends that satisfy every condition not involving the others, their parsed URL included. |
| Config.AgentConfig.ValidateBackends | internal/config/config.go:90-132 | Accepts exactly when the backends with defaults filled in are well formed, distinct and within the total concurrency, and stores those defaults and the URLs without trailing slashes. |
| Config.AgentConfig.Validate | internal/config/config.go:76-134 | Accepts exactly the acceptable configurations and leaves them with all defaults filled in and nothing else changed. |
| Config.AcceptableMeans | internal/config/config.go:76-134 | A configuration is acceptable exactly when, with 120 and 600 seconds and one slot for zeros, its timeouts are in order and within a day and its 1 to 64 backends are distinct, acceptable and have at most 64 slots together. |
| Config.InTheClearOnlyOnLoopback | internal/config/config.go:80-86 | A coordinator is reached over wss anywhere, over ws exactly on loopback, and over nothing else. |
| Discovery.Discover | internal/backend/backend.go:92-154 | The catalog holds exactly the offered names, once each, from their first entries, local entries with a digest only; it is ready exactly when there is one; a failed listing gives an empty entry that is not ready. |
| Discovery.DiscoveredModelsConform | internal/backend/backend.go:113-152 | Whatever the runtime lists, the discovered models pass catalog validation, number at most 1024 and have identifiers of at most 512 bytes. |
| Discovery.HonestBackendConforms | internal/agent/agent.go:126-136 | A catalog entry with its free slots filled in passes validation for any number of active attempts up to capacity. |
| AgentState.Session.OnRequest | internal/agent/agent.go:302-336 | A repeated or one-too-many attempt identifier ends the session; otherwise the request runs or is refused for a reason that holds; counters stay equal to running attempts, no identifier starts twice, and seen stays within 100000. |
| AgentState.Session.Reserve | internal/agent/agent.go:378-404 | The outcome is the specification's; a slot is taken only below capacity and nothing changes on refusal. |
| AgentState.Session.Release | internal/agent/agent.go:325-331 | Gives back exactly the attempt's own slot. |
| AgentState.Session.Catalog | internal/agent/agent.go:126-136 | What an agent advertises in any reachable state passes catalog validation, with available as capacity less running attempts. |
| AgentState.DiscoverSlots | internal/agent/agent.go:52-104 | For any accepted configuration and any listings, discovery gives slots that conform, each with the models its backend offers, or none when it did not answer. |
| AgentState.DiscoverCatalog | internal/agent/agent.go:87-104 | For any accepted configuration and any listings, the first catalog passes the coordinator's validation and offers every slot. |
| AgentState.AcceptedConfigurationsAdvertiseConformingCatalogs | internal/agent/agent.go:126-136 | For any accepted configuration, any discovered entries and any numbers of running attempts up to capacity, the catalog passes validation. |
| AgentState.Session.NothingRunsAfterReturn | internal/agent/agent.go:235 | When a session has no attempt left every slot is free. |
| AgentState.OutcomeIsJustified | internal/agent/agent.go:385-403 | Each outcome of reserve implies the state of the named backend that warrants it. |
| AgentState.BusyMeansFull | internal/agent/agent.go:396-398 | Busy is answered only when the named backend runs as many attempts as its capacity. |
| AgentState.NativeNameCompletesId | internal/agent/agent.go:392-400 | The native name passed to the backend is the public identifier without its backend prefix. |
| Selection.Table.SelectJob | internal/coordinator/coordinator.go:321-366 | Returns nothing exactly when nothing is eligible; otherwise an eligible candidate, the one the cursor points at in the candidate list of any sorted listing of the hosts, reserves a place for it and moves the cursor. |
| Selection.Table.ListCandidates | internal/coordinator/coordinator.go:330-358 | The three nested loops compute the specified candidate list. |
| Selection.SortedIds | internal/coordinator/coordinator.go:325-329 | Walking the map in any order and sorting gives the sorted list of its keys. |
| Selection.CandidatesAreEligible | internal/coordinator/coordinator.go:330-358 | The candidate list holds exactly the eligible candidates. |
| Selection.EligibleMeans | internal/coordinator/coordinator.go:330-354 | A candidate is eligible exactly when its host is not the excluded one and was heard from in the last ten seconds, its backend is ready with fewer outstanding jobs than slots, and the model is the one asked for and matches the attempt it replaces. |
| Selection.CandidatesAreInOrder | internal/coordinator/coordinator.go:325-358 | The candidate list is ordered by host identifier, then by place in the catalog, then by place among the models. |
| Selection.CandidatesAreDistinct | internal/coordinator/coordinator.go:330-358 | For hosts whose catalogs conform no candidate is listed twice. |
| Selection.SortedIsUnique | internal/coordinator/coordinator.go:325-329 | A set of identifiers has one sorted listing, so map order cannot show. |
| Selection.RoundRobinIsFairUpToTheWrap | internal/coordinator/coordinator.go:362-363 | n consecutive selections over n candidates pick each position once if and only if they do not cross the cursor's wrap or n divides its range. |
| Selection.SelectionsTakeTurns | internal/coordinator/coordinator.go:362-363 | Over an unchanged candidate list, the k-th of consecutive selections is the candidate at the cursor's position plus k, however the table changes otherwise. |
| Selection.EveryCandidateGetsItsTurn | internal/coordinator/coordinator.go:362-365 | n consecutive selections over an unchanged list of n candidates are that list turned to the cursor, each candidate once; for distinct candidates if and only if they do not cross the wrap of the cursor or n divides its range. |
| Selection.EveryEligibleCandidateIsPickedOnce | internal/coordinator/coordinator.go:321-366 | For hosts whose catalogs conform, n consecutive selections over an unchanged list of n candidates pick every eligible candidate exactly once if and only if they do not cross the wrap of the 64-bit cursor or n divides its range. |
| Deadline.RequestIsValidExactlyWhenItFits | internal/coordinator/chat.go:49-57 | A request is sent exactly when a millisecond is left; its timeout is the whole milliseconds left and its start timeout the lesser of that and the configured one; it passes validation if and only if its identifiers and its encoded body fit. |
| Deadline.AConformingIdentifierMayNotFit | protocol/protocol.go:134-156 | There is a valid catalog entry, with an identifier of 65 bytes, every request for which is refused. |
| Deadline.RetryNeverGetsMoreTime | docs/protocol.md:64-68 | If a retry is sent then so was the first attempt, with no smaller timeouts. |
| Deadline.AgentStaysWithinBothLimits | internal/agent/agent.go:316 | The agent's limits are at least a millisecond, and each is the lesser of the request's and its own configuration's. |
| Deadline.HonestHostAcceptsExactlyWhatFits | protocol/protocol.go:105-108 | A request for any model that an honest host advertises passes validation if and only if its encoded body is at most 1 MiB, and is invalid as a request otherwise. |

## Left out

- The coordinator, the handler, the reaper, the agent's job goroutine and the peer's writer are
  transition systems over values rather than objects with methods: they run concurrently and a method
  would not show their interleavings. What is not captured is aliasing between Go structures. The
  observer, the agent's session state, selection, catalog and configuration checks are in the source's
  imperative form.
- HTTP, TLS, WebSocket framing, DNS, process signals, credentials and token comparison. A frame write is
  one step that succeeds, or fails and closes the peer.
- JSON encoding and decoding: see `Decoder` above. Request bodies are opaque; the encoded body of a
  request is a value of its own, not computed from the body read.
- Clocks and liveness ("within N seconds"): a timer that can fire may fire at once or never.
- A session's frames travel in one FIFO per attempt, as explained above; heartbeats and catalogs are
  steps of the relay that can happen at any time.
- No result says that every host survives: in the model a session may close at any time, as it may for
  heartbeats, failed writes or shutdown. When the read loop ends it and when a reaper's recheck does are
  exact, as listed above.
- The interruption tail begins with two line feeds, which can terminate a partial `[DONE]`. The results
  say that an interrupted stream is failed, not that no `[DONE]` is visible.
- Capacities are constant over a run of the relay: a host keeps its configuration when it reconnects.
- One agent process per host identity, running one session at a time.
- In `Relay` a request may go to any eligible candidate, which covers every position of the cursor; that
  selectJob finds an eligible candidate, and which, is Selection.Table.SelectJob.
- The results of `AttemptOutcomes` and `RelayOutcomes` say that a run exists and how it ends; that the
  scheduler takes it is not claimed.
- AgentState.Session.OnRequest: a session object starts with free slots, which
  RelayTheorems.SlotsAreFreeBetweenSessions shows across sessions.
- Config.AgentConfig.Validate: what a URL parses to is given with the URL; parsing itself and the test for
  loopback names are not modelled.
- The agent's reconnection backoff and the coordinator's own configuration file.
- estimateTextBytes: a display estimate that depends on how the body is cut into chunks.
- The dashboard, the history store, the web frontend, metrics, the installer and packaging.
