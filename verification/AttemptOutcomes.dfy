/** What an attempt comes to: for every response a backend can give, for every reason it can have to
    give none, and for every way in which the wait can be cut short, there is a run, and this is how it
    ends. The invariants say what can never happen; this says what does. */
module AttemptOutcomes {
  import opened Types
  import opened ObserverSpec
  import opened Attempt
  import opened AttemptProof
  import Link

  /** The state after a schedule, if every one of its steps can be taken. */
  ghost function Perform(x: Attempt, schedule: seq<Action>): Option<Attempt> {
    if schedule == [] then Some(x)
    else
      match Perform(x, schedule[..|schedule| - 1])
      case None => None
      case Some(y) => Advance(y, schedule[|schedule| - 1])
  }

  ghost predicate Reaches(x: Attempt, y: Attempt) {
    exists schedule :: Perform(x, schedule) == Some(y)
  }

  lemma Here(x: Attempt)
    ensures Reaches(x, x)
  {
    assert Perform(x, []) == Some(x);
  }

  lemma Do(x0: Attempt, x: Attempt, a: Action) returns (y: Attempt)
    requires Reaches(x0, x) && Advance(x, a).Some?
    ensures Reaches(x0, y) && Advance(x, a) == Some(y)
  {
    hide Advance;
    y := Advance(x, a).value;
    var schedule :| Perform(x0, schedule) == Some(x);
    assert (schedule + [a])[..|schedule|] == schedule;
    assert Perform(x0, schedule + [a]) == Some(y);
  }

  // ---- the agent sends, the read loop delivers, the handler consumes ----

  /** The frame being sent is written and Send returns. */
  lemma SendGoesOut(x0: Attempt, x: Attempt) returns (y: Attempt)
    requires Reaches(x0, x)
    requires x.worker.link.call.Some? && !x.worker.link.wrote
    requires x.worker.pc.Starting? || x.worker.pc.Chunking? || x.worker.pc.Telling? || x.worker.pc.Refusing?
    ensures Reaches(x0, y)
    ensures
      var w := x.worker;
      AfterSend(x.decode, w.(link := Link.Link(None, false, None, w.link.written + [w.link.call.value])), true)
        == Some(y.worker)
      && y == x.(worker := y.worker)
  {
    hide Reaches, AtBodyEnd, Conclude, ReaderNext, HandlerNext, ReaperNext;
    y := Do(x0, x, Agent(LinkMoves(Link.Write)));
    y := Do(x0, y, Agent(SendReturns(true, false)));
  }

  /** The table still has the job, nobody dropped it, all but one frame was delivered, and there is room. */
  ghost predicate OneFrameAway(x: Attempt) {
    var d, j := x.desk, x.desk.job;
    && d.session.registered && d.reader.Resting? && j.listed && !j.dropping
    && j.taken + 1 == |x.worker.link.written|
    && j.consumed <= |j.accepted| < j.consumed + 10
    && j.queued + |x.worker.link.written[j.taken].Bytes()| <= 262144
    && Checked(j, x.worker.link.written[j.taken]).Some?
    && WithinLimits(x.worker.link.written[j.taken])
  }

  /** deliver passes its checks, and takes the job off the table if the frame is the last. */
  lemma FrameIsChecked(x0: Attempt, x: Attempt) returns (y: Attempt)
    requires Reaches(x0, x) && OneFrameAway(x)
    ensures Reaches(x0, y)
    ensures
      var m := x.worker.link.written[x.desk.job.taken];
      var j := Checked(x.desk.job, m).value;
      y == x.(desk := x.desk.(reader := Gating(m), job := j.(taken := j.taken + 1, listed := !m.Terminal())))
  {
    hide Reaches, WorkerNext, HandlerNext, ReaperNext, SessionNext;
    y := Do(x0, x, ReadLoop(Take));
    y := Do(x0, y, ReadLoop(Check));
    if x.worker.link.written[x.desk.job.taken].Terminal() {
      y := Do(x0, y, ReadLoop(Unlist));
    }
  }

  /** deliver puts the frame on the event channel. */
  lemma FrameIsDelivered(x0: Attempt, x: Attempt) returns (y: Attempt)
    requires Reaches(x0, x) && OneFrameAway(x)
    ensures Reaches(x0, y)
    ensures
      var m := x.worker.link.written[x.desk.job.taken];
      var j := Checked(x.desk.job, m).value;
      y == x.(desk := x.desk.(job := j.(taken := j.taken + 1, listed := !m.Terminal(),
                                        queued := j.queued + |m.Bytes()|, accepted := j.accepted + [m])))
  {
    hide Reaches, WorkerNext, HandlerNext, ReaperNext, SessionNext;
    y := FrameIsChecked(x0, x);
    y := Do(x0, y, ReadLoop(Gate));
    y := Do(x0, y, ReadLoop(Add));
    y := Do(x0, y, ReadLoop(Offer));
  }

  /** forward takes the event and handles it; the buyer takes every byte. */
  lemma FrameIsHandled(x0: Attempt, x: Attempt) returns (y: Attempt)
    requires Reaches(x0, x)
    requires x.handler.pc.Selecting? && x.desk.job.consumed + 1 == |x.desk.job.accepted|
    requires x.desk.job.queued == |x.desk.job.accepted[x.desk.job.consumed].Bytes()|
    ensures Reaches(x0, y)
    ensures
      var j := x.desk.job;
      var m := j.accepted[j.consumed];
      y == x.(desk := x.desk.(job := j.(consumed := j.consumed + 1, queued := 0)),
              handler := Handled(Terms(x.stream, x.canRetry), x.handler.(pc := Handling(m)), m, |m.Bytes()|, true,
                                 |TAIL|))
  {
    hide Reaches, Handled, TAIL_JSON, WorkerNext, ReaderNext, ReaperNext, FailWith;
    y := Do(x0, x, Buyer(WakeEvent));
    y := Do(x0, y, Buyer(Account));
    y := Do(x0, y, Buyer(Handle(|x.desk.job.accepted[x.desk.job.consumed].Bytes()|, true, |TAIL|)));
  }

  // ---- a response is relayed ----

  /** Everything read so far has reached the buyer, and nothing is under way. */
  ghost predicate CaughtUp(x: Attempt, status: int, body: seq<byte>) {
    var w, d, h := x.worker, x.desk, x.handler;
    && w == Worker(Reading, Live, Link.Link(None, false, None, w.link.written), status, x.stream, w.chunks, body,
                   More, true)
    && 200 <= status < 300 && |w.link.written| == w.chunks + 1
    && d == Desk(Session(true, true), true, true,
                 Job(w.chunks + 1, true, true, w.chunks, 0, false, w.link.written, w.chunks + 1, None),
                 Resting, Unborn, 0)
    && h == Handler(Selecting, Live, false, status, body != [], false, false, true,
                    if body != [] then [status] else [], body, [])
  }

  /** The request reaches the agent, which takes or refuses it. */
  lemma RequestArrives(decode: Decoder, stream: bool, canRetry: bool, refusal: Option<Code>) returns (x: Attempt)
    requires refusal.Some? ==> Refusal(refusal.value)
    ensures Reaches(Fresh(decode, stream, canRetry, true, Live), x)
    ensures
      var x0 := Fresh(decode, stream, canRetry, true, Live);
      && Some(x.worker) == WorkerNext(decode, true, x0.worker, Arrive(refusal))
      && x == x0.(worker := x.worker, desk := x0.desk.(offered := true, requested := true),
                  handler := x0.handler.(pc := Selecting))
  {
    hide Reaches, ReaderNext, ReaperNext, TAIL_JSON;
    var x0 := Fresh(decode, stream, canRetry, true, Live);
    Here(x0);
    x := Do(x0, x0, Buyer(BeginRequest));
    x := Do(x0, x, Buyer(WriteRequest));
    x := Do(x0, x, Buyer(RequestSent));
    x := Do(x0, x, Agent(Arrive(refusal)));
  }

  /** The request reaches the agent and the backend answers. */
  lemma ResponseStarts(decode: Decoder, stream: bool, canRetry: bool, status: int, sse: bool) returns (x: Attempt)
    requires 200 <= status <= 599 && (status >= 400 ==> !sse)
    ensures Reaches(Fresh(decode, stream, canRetry, true, Live), x)
    ensures x.decode == decode && x.stream == stream && x.canRetry == canRetry
    ensures
      var w := Worker(Starting, Live, Link.Link(None, false, None, [Start(status, sse)]), status, sse, 0, [],
                      More, true);
      && Some(x.worker) == AfterSend(decode, w, true)
      && x.desk == Desk(Session(true, true), true, true,
                        Job(1, true, true, 0, 0, false, [Start(status, sse)], 1, None), Resting, Unborn, 0)
      && x.handler == Handled(Terms(stream, canRetry),
                              Handler(Handling(Start(status, sse)), Live, true, 0, false, false, false, true,
                                      [], [], []),
                              Start(status, sse), 0, true, |TAIL|)
  {
    hide Reaches, Handled, AfterSend, ReaderNext, HandlerNext, ReaperNext, TAIL_JSON;
    var x0 := Fresh(decode, stream, canRetry, true, Live);
    x := RequestArrives(decode, stream, canRetry, None);
    x := Do(x0, x, Agent(Respond(status, sse)));
    x := StartIsRelayed(x0, x);
  }

  lemma StartIsRelayed(x0: Attempt, x: Attempt) returns (y: Attempt)
    requires Reaches(x0, x) && x.worker.pc.Starting?
    requires x.worker.link == Link.Link(Some(Start(x.worker.status, x.worker.sse)), false, None, [])
    requires x.desk == Desk(Session(true, true), true, true,
                            Job(0, true, false, 0, 0, false, [], 0, None), Resting, Unborn, 0)
    requires x.handler.pc.Selecting? && 200 <= x.worker.status <= 599
    ensures Reaches(x0, y)
    ensures
      var m := Start(x.worker.status, x.worker.sse);
      && Some(y.worker) == AfterSend(x.decode, x.worker.(link := Link.Link(None, false, None, [m])), true)
      && y == x.(worker := y.worker,
                 desk := x.desk.(job := Job(1, true, true, 0, 0, false, [m], 1, None)),
                 handler := Handled(Terms(x.stream, x.canRetry), x.handler.(pc := Handling(m)), m, 0, true, |TAIL|))
  {
    hide Reaches, Handled, AtBodyEnd, TAIL_JSON;
    y := SendGoesOut(x0, x);
    assert y.worker.link.written == [Start(x.worker.status, x.worker.sse)];
    y := FrameIsDelivered(x0, y);
    y := FrameIsHandled(x0, y);
  }

  lemma ResponseIsAccepted(decode: Decoder, stream: bool, canRetry: bool, status: int) returns (x: Attempt)
    requires 200 <= status < 300
    ensures Reaches(Fresh(decode, stream, canRetry, true, Live), x) && CaughtUp(x, status, [])
    ensures x.decode == decode && x.stream == stream && x.canRetry == canRetry
  {
    hide Reaches, AtBodyEnd, FailWith, TAIL_JSON;
    x := ResponseStarts(decode, stream, canRetry, status, stream);
  }

  /** A chunk goes from the backend to the buyer. */
  lemma ChunkIsRelayed(x0: Attempt, x: Attempt, status: int, body: seq<byte>, data: seq<byte>) returns (y: Attempt)
    requires Reaches(x0, x) && CaughtUp(x, status, body) && 0 < |data| <= CHUNK_BYTES
    ensures Reaches(x0, y) && CaughtUp(y, status, body + data)
    ensures y.decode == x.decode && y.stream == x.stream && y.canRetry == x.canRetry
  {
    hide Reaches, AtBodyEnd, TAIL_JSON;
    y := Do(x0, x, Agent(Read(data, More)));
    y := SendGoesOut(x0, y);
    y := FrameIsDelivered(x0, y);
    y := FrameIsHandled(x0, y);
  }

  function Joined(chunks: seq<seq<byte>>): seq<byte> {
    if chunks == [] then [] else Joined(chunks[..|chunks| - 1]) + chunks[|chunks| - 1]
  }

  predicate Readable(chunks: seq<seq<byte>>) {
    forall i | 0 <= i < |chunks| :: 0 < |chunks[i]| <= CHUNK_BYTES
  }

  lemma {:induction false} BodyIsRelayed(x0: Attempt, x: Attempt, status: int, chunks: seq<seq<byte>>)
    returns (y: Attempt)
    requires Reaches(x0, x) && CaughtUp(x, status, []) && Readable(chunks)
    ensures Reaches(x0, y) && CaughtUp(y, status, Joined(chunks))
    ensures y.decode == x.decode && y.stream == x.stream && y.canRetry == x.canRetry
  {
    hide Reaches, CaughtUp;
    if chunks == [] {
      y := x;
    } else {
      y := BodyIsRelayed(x0, x, status, chunks[..|chunks| - 1]);
      y := ChunkIsRelayed(x0, y, status, Joined(chunks[..|chunks| - 1]), chunks[|chunks| - 1]);
    }
  }

  // ---- a response ends ----

  /** The agent is done and has its slot back, the coordinator its place, and the session stays open. */
  ghost predicate AtRest(x: Attempt) {
    && x.worker.pc.Finished? && x.worker.alive && Ended(x.worker.link.written)
    && !x.desk.job.listed && x.desk.session == Session(true, true) && x.desk.reader.Resting?
    && x.handler.pc.Returned?
  }

  /** The body ends; the agent gives its slot back and sends the terminal frame. */
  lemma TerminalIsSent(x0: Attempt, x: Attempt) returns (y: Attempt)
    requires Reaches(x0, x) && x.worker.pc.Leaving? && x.worker.link.call.None? && x.worker.link.late.None?
    requires x.worker.pc.terminal.Terminal()
    ensures Reaches(x0, y)
    ensures
      var w := x.worker;
      y == x.(worker := w.(pc := Finished, link := Link.Link(None, false, None, w.link.written + [w.pc.terminal])))
  {
    hide Reaches, AtBodyEnd, Conclude, ReaderNext, HandlerNext, ReaperNext;
    y := Do(x0, x, Agent(Release));
    y := SendGoesOut(x0, y);
  }

  /** How the handler takes the last frame: the attempt completed, or it asks for another, or it says
      what went wrong in the way its response still allows. */
  ghost predicate Concluded(stream: bool, canRetry: bool, status: int, body: seq<byte>, good: bool, h: Handler) {
    if body == [] then
      && !h.committed && h.relayed == [] && h.tail == [] && !h.completed
      && h.pc == Returned(canRetry) && h.heads == (if canRetry then [] else [502])
    else
      && h.committed && h.heads == [status] && h.relayed == body && h.intact && h.pc == Returned(false)
      && h.completed == good
      && h.tail == (if stream && !good then TAIL else [])
      && h.aborted == (!stream && !good)
  }

  /** The outcome of the handler's last event. */
  lemma LastEvent(stream: bool, canRetry: bool, h: Handler, status: int, body: seq<byte>, t: Frame)
    requires t.End? || (t.Error? && t.code == StreamInterrupted && t.retryable)
    requires h == Handler(Handling(t), Live, false, status, body != [], false, false, true,
                          if body != [] then [status] else [], body, [])
    ensures
      var g := Handled(Terms(stream, canRetry), h, t, 0, true, |TAIL|);
      && g.pc.Abandoning? && g.pc.after.ThenReturn?
      && Concluded(stream, canRetry, status, body, t.End?, g.(pc := Returned(g.pc.after.again)))
  {
    hide TAIL_JSON;
    assert TAIL[..|TAIL|] == TAIL;
  }

  lemma WhatTheBodyEndSays(decode: Decoder, w: Worker)
    requires w.status < 300 && w.end != More
    ensures
      var t := AtBodyEnd(decode, w);
      && t.End? == (w.end == Eof && (w.sse ==> Succeeds(decode, w.read)))
      && (!t.End? ==> t.Error? && t.code == StreamInterrupted && t.retryable)
  {
    hide Succeeds, ObservedUsage;
  }

  /** forward returns on an attempt the table no longer has. */
  lemma HandlerReturns(x0: Attempt, x: Attempt) returns (y: Attempt)
    requires Reaches(x0, x) && x.handler.pc.Abandoning? && x.handler.pc.after.ThenReturn?
    requires !x.desk.job.listed && !x.desk.job.dropping
    ensures Reaches(x0, y)
    ensures y == x.(desk := x.desk.(job := x.desk.job.(dropping := true)),
                    handler := x.handler.(pc := Returned(x.handler.pc.after.again)))
  {
    hide Reaches, WorkerNext, ReaderNext, ReaperNext, Handled, FailWith, TAIL_JSON;
    y := Do(x0, x, Buyer(SetDropping));
    y := Do(x0, y, Buyer(Probe));
  }

  /** The body ends, and everything comes to rest. */
  lemma BodyEnds(x0: Attempt, x: Attempt, status: int, body: seq<byte>, end: ReadEnd) returns (y: Attempt)
    requires Reaches(x0, x) && CaughtUp(x, status, body) && end != More
    ensures Reaches(x0, y) && AtRest(y) && y.worker.status == status
    ensures Concluded(x.stream, x.canRetry, status, body,
                      end == Eof && (x.stream ==> Succeeds(x.decode, body)), y.handler)
  {
    hide Reaches, AtBodyEnd, Handled, Succeeds, Concluded, TAIL_JSON, ReaderNext, HandlerNext, ReaperNext;
    var w := x.worker.(end := end);
    var t := AtBodyEnd(x.decode, w);
    WhatTheBodyEndSays(x.decode, w);
    BodyEndIsSendable(x.decode, w);
    y := Do(x0, x, Agent(Read([], end)));
    y := TerminalIsSent(x0, y);
    y := FrameIsDelivered(x0, y);
    LastEvent(x.stream, x.canRetry, x.handler.(pc := Handling(t)), status, body, t);
    y := FrameIsHandled(x0, y);
    y := HandlerReturns(x0, y);
  }

  lemma RelayWholeResponse(decode: Decoder, stream: bool, canRetry: bool, status: int, chunks: seq<seq<byte>>,
      end: ReadEnd)
    returns (x: Attempt)
    requires 200 <= status < 300 && Readable(chunks) && end != More
    ensures Reaches(Fresh(decode, stream, canRetry, true, Live), x) && AtRest(x) && x.worker.status == status
    ensures
      var body := Joined(chunks);
      Concluded(stream, canRetry, status, body, end == Eof && (stream ==> Succeeds(decode, body)), x.handler)
  {
    hide Reaches, Succeeds, Handled, Ended, TAIL_JSON, Concluded;
    var x0 := Fresh(decode, stream, canRetry, true, Live);
    x := ResponseIsAccepted(decode, stream, canRetry, status);
    x := BodyIsRelayed(x0, x, status, chunks);
    x := BodyEnds(x0, x, status, Joined(chunks), end);
  }

  /** A response in the 200s of the kind the request asked for: for every body, however it is cut into
      reads and however it ends, there is a run in which the buyer gets all of it; the attempt completes
      exactly when the body was read to its end and, for an event stream, the observer saw it succeed. */
  lemma ResponseIsRelayed(decode: Decoder, stream: bool, canRetry: bool, status: int, chunks: seq<seq<byte>>,
      end: ReadEnd)
    requires 200 <= status < 300 && Readable(chunks) && end != More
    ensures exists x ::
      && Reaches(Fresh(decode, stream, canRetry, true, Live), x) && AtRest(x)
      && Concluded(stream, canRetry, status, Joined(chunks),
                   end == Eof && (stream ==> Succeeds(decode, Joined(chunks))), x.handler)
  {
    hide Reaches, Succeeds, Fresh, AtRest, TAIL_JSON, Concluded;
    var x := RelayWholeResponse(decode, stream, canRetry, status, chunks, end);
  }

  // ---- a response is turned down ----

  /** abandon finds the job still listed and starts its reaper. */
  lemma JobIsDropped(x0: Attempt, x: Attempt) returns (y: Attempt)
    requires Reaches(x0, x) && x.handler.pc.Abandoning? && x.desk.job.listed && !x.desk.job.dropping
    ensures Reaches(x0, y)
    ensures y == x.(desk := x.desk.(job := x.desk.job.(dropping := true), reaper := Cancelling(false)),
                    handler := x.handler.(pc := Onward(x.handler.pc.after)))
  {
    hide Reaches, WorkerNext, ReaderNext, ReaperNext, Handled, FailWith, TAIL_JSON, Onward;
    y := Do(x0, x, Buyer(SetDropping));
    y := Do(x0, y, Buyer(Probe));
  }

  /** forward returns while the agent is still at work, and abandon's reaper cancels it. */
  lemma HandlerCancels(x0: Attempt, x: Attempt) returns (y: Attempt)
    requires Reaches(x0, x) && x.handler.pc.Abandoning? && x.handler.pc.after.ThenReturn?
    requires x.desk.job.listed && !x.desk.job.dropping && x.desk.reaper.Unborn?
    ensures Reaches(x0, y)
    ensures y == x.(desk := x.desk.(job := x.desk.job.(dropping := true), reaper := Waiting,
                                    cancels := x.desk.cancels + 1),
                    handler := x.handler.(pc := Returned(x.handler.pc.after.again)))
  {
    hide Reaches, Advance, Handled;
    y := JobIsDropped(x0, x);
    y := CancelGoesOut(x0, y);
  }

  lemma CancelGoesOut(x0: Attempt, x: Attempt) returns (y: Attempt)
    requires Reaches(x0, x) && x.desk.reaper == Cancelling(false)
    ensures Reaches(x0, y) && y == x.(desk := x.desk.(reaper := Waiting, cancels := x.desk.cancels + 1))
  {
    hide Reaches, WorkerNext, ReaderNext, HandlerNext;
    y := Do(x0, x, Reap(WriteCancel));
    y := Do(x0, y, Reap(CancelSent));
  }

  /** The cancel ends the agent's context and with it the read of the body. */
  lemma AgentIsCancelled(x0: Attempt, x: Attempt) returns (y: Attempt)
    requires Reaches(x0, x) && x.worker.pc.Reading? && x.worker.ctx.Live?
    ensures Reaches(x0, y)
    ensures y.worker.pc.Leaving? && WithinLimits(y.worker.pc.terminal)
    ensures y.worker.pc.terminal == Error(Cancelled, false, ObservedUsage(x.decode, x.worker.sse, x.worker.read))
    ensures y == x.(worker := x.worker.(ctx := CutOff, end := Broken, pc := y.worker.pc))
  {
    hide Reaches, ObservedUsage, Succeeds, ReaderNext, HandlerNext, ReaperNext;
    BodyEndIsSendable(x.decode, x.worker.(ctx := CutOff, end := Broken));
    y := Do(x0, x, Agent(ContextEnds(CutOff)));
    y := Do(x0, y, Agent(Read([], Broken)));
  }

  /** deliver frees the place of a dropped job on its terminal frame, and the reaper finds it gone. */
  lemma CancelIsAcknowledged(x0: Attempt, x: Attempt) returns (y: Attempt)
    requires Reaches(x0, x) && x.desk.session.registered && x.desk.reader.Resting? && x.desk.reaper.Waiting?
    requires x.desk.job.listed && x.desk.job.dropping && x.desk.job.taken + 1 == |x.worker.link.written|
    requires Ended(x.worker.link.written) && WithinLimits(x.worker.link.written[x.desk.job.taken])
    ensures Reaches(x0, y)
    ensures y == x.(desk := x.desk.(job := x.desk.job.(taken := x.desk.job.taken + 1, listed := false), reaper := Dead))
  {
    hide Reaches, WorkerNext, HandlerNext;
    y := Do(x0, x, ReadLoop(Take));
    y := Do(x0, y, ReadLoop(Check));
    y := Do(x0, y, ReadLoop(Unlist));
    y := Do(x0, y, ReadLoop(Gate));
    y := ReaperIsSatisfied(x0, y);
  }

  lemma ReaperIsSatisfied(x0: Attempt, x: Attempt) returns (y: Attempt)
    requires Reaches(x0, x) && x.desk.reaper.Waiting? && !x.desk.job.listed
    ensures Reaches(x0, y) && y == x.(desk := x.desk.(reaper := Dead))
  {
    hide Reaches, WorkerNext, ReaderNext, HandlerNext;
    y := Do(x0, x, Reap(Timeout));
    y := Do(x0, y, Reap(Recheck));
  }

  /** What the buyer sees of a response it cannot have. */
  ghost predicate TurnedDown(canRetry: bool, status: int, h: Handler) {
    var again := canRetry && (status < 400 || status == 408 || status == 429 || status == 500 || 502 <= status <= 504);
    && h.pc == Returned(again) && !h.committed && h.relayed == [] && h.tail == []
    && h.heads == if again then [] else if status >= 400 then [status] else [502]
  }

  lemma WhatIsTurnedDown(stream: bool, canRetry: bool, status: int, sse: bool, h: Handler)
    requires 200 <= status <= 599 && (status >= 300 || sse != stream)
    requires h == Handler(Handling(Start(status, sse)), Live, true, 0, false, false, false, true, [], [], [])
    ensures
      var g := Handled(Terms(stream, canRetry), h, Start(status, sse), 0, true, |TAIL|);
      && g.pc.Abandoning? && g.pc.after.ThenReturn?
      && TurnedDown(canRetry, status, g.(pc := Returned(g.pc.after.again)))
  {
    hide TAIL_JSON;
  }

  /** The frame with which the agent ends: the end of a response whose body it did not read, or the
      acknowledgement of the cancel. */
  ghost function Acknowledgement(decode: Decoder, status: int, sse: bool): Frame {
    if status >= 400 then End(map[]) else Error(Cancelled, false, ObservedUsage(decode, sse, []))
  }

  lemma TurnResponseDown(decode: Decoder, stream: bool, canRetry: bool, status: int, sse: bool) returns (x: Attempt)
    requires 200 <= status <= 599 && (status >= 400 ==> !sse) && (status >= 300 || sse != stream)
    ensures Reaches(Fresh(decode, stream, canRetry, true, Live), x) && AtRest(x)
    ensures x.desk.reaper.Dead? && x.desk.cancels == 1 && TurnedDown(canRetry, status, x.handler)
    ensures x.worker.link.written == [Start(status, sse), Acknowledgement(decode, status, sse)]
  {
    hide Reaches, Handled, AtBodyEnd, ObservedUsage, TAIL_JSON, TurnedDown, ReaderNext, HandlerNext, ReaperNext,
         WorkerNext;
    var x0 := Fresh(decode, stream, canRetry, true, Live);
    x := ResponseStarts(decode, stream, canRetry, status, sse);
    WhatIsTurnedDown(stream, canRetry, status, sse,
                     Handler(Handling(Start(status, sse)), Live, true, 0, false, false, false, true, [], [], []));
    x := HandlerCancels(x0, x);
    if status < 400 {
      x := AgentIsCancelled(x0, x);
    }
    x := TerminalIsSent(x0, x);
    x := CancelIsAcknowledged(x0, x);
  }

  /** Any other valid response never reaches the buyer. A first attempt asks for another one when the status
      is a transient error or the response is unusable; otherwise the buyer gets the backend's error
      status, or 502. The agent is cancelled once, acknowledges with an error whose code is cancelled unless
      it was done anyway, and slot and place are both free again without the host being cut off. */
  lemma ResponseIsTurnedDown(decode: Decoder, stream: bool, canRetry: bool, status: int, sse: bool)
    requires 200 <= status <= 599 && (status >= 400 ==> !sse) && (status >= 300 || sse != stream)
    ensures exists x ::
      && Reaches(Fresh(decode, stream, canRetry, true, Live), x) && AtRest(x)
      && x.desk.reaper.Dead? && x.desk.cancels == 1 && TurnedDown(canRetry, status, x.handler)
      && x.worker.link.written == [Start(status, sse), Acknowledgement(decode, status, sse)]
  {
    hide Reaches, Fresh, AtRest, TurnedDown, Acknowledgement;
    var x := TurnResponseDown(decode, stream, canRetry, status, sse);
  }

  /** The agent forwards a status above 599, the coordinator's read loop ends on it, and the removal of
      the host fails the attempt. */
  lemma StatusIsRefused(decode: Decoder, stream: bool, canRetry: bool, status: int) returns (x: Attempt)
    requires status > 599
    ensures
      var x0 := Fresh(decode, stream, canRetry, true, Live);
      && Reaches(x0, x)
      && x.desk.session == Session(true, false) && x.desk.reader.Violated?
      && x.desk.job == x0.desk.job.(failure := Some(HostDisconnected))
      && x.handler == x0.handler.(pc := Selecting) && x.stream == stream && x.canRetry == canRetry
  {
    hide Reaches, HandlerNext, ReaperNext, AfterSend, AtBodyEnd, TAIL_JSON;
    var x0 := Fresh(decode, stream, canRetry, true, Live);
    x := RequestArrives(decode, stream, canRetry, None);
    x := Do(x0, x, Agent(Respond(status, false)));
    x := Do(x0, x, Agent(LinkMoves(Link.Write)));
    assert x.worker.link.written == [Start(status, false)];
    x := Do(x0, x, ReadLoop(Take));
    x := Do(x0, x, Host(Remove));
  }

  lemma FailedHandlerAnswers(x0: Attempt, x: Attempt) returns (y: Attempt)
    requires Reaches(x0, x) && x.desk.job.failure == Some(HostDisconnected)
    requires x.handler == Handler(Selecting, Live, true, 0, false, false, false, true, [], [], [])
    ensures Reaches(x0, y) && y.desk.session == x.desk.session && Answered(x.canRetry, 502, y.handler)
  {
    hide Reaches, WorkerNext, ReaderNext, ReaperNext, Handled, TAIL_JSON;
    y := Do(x0, x, Buyer(WakeFailure(0)));
    y := HandlerLeaves(x0, y);
  }

  /** A backend status above 599 costs the host its registration; a first attempt is retried elsewhere,
      else the buyer hears 502. */
  lemma InvalidStatusCostsTheSession(decode: Decoder, stream: bool, canRetry: bool, status: int)
    requires status > 599
    ensures exists x ::
      && Reaches(Fresh(decode, stream, canRetry, true, Live), x)
      && !x.desk.session.registered && Answered(canRetry, 502, x.handler)
  {
    hide Reaches, Answered;
    var x := StatusIsRefused(decode, stream, canRetry, status);
    x := FailedHandlerAnswers(Fresh(decode, stream, canRetry, true, Live), x);
  }

  // ---- there is no response ----

  /** The agent says why it has none: a refusal by the session, a failure of the backend's, or the end of
      the job's own context. */
  predicate Excuse(code: Code) {
    code in {Busy, BackendUnavailable, ModelNotAllowed, InvalidRequest,
             StartTimeout, BackendFailed, InvalidBackendResponse, DeadlineExceeded, Cancelled}
  }

  lemma ExcuseIsSent(decode: Decoder, stream: bool, canRetry: bool, code: Code) returns (x: Attempt)
    requires Excuse(code)
    ensures Reaches(Fresh(decode, stream, canRetry, true, Live), x)
    ensures
      var x0 := Fresh(decode, stream, canRetry, true, Live);
      x == x0.(worker := x0.worker.(pc := Finished, ctx := x.worker.ctx,
                                    link := Link.Link(None, false, None, [Excused(code)])),
               desk := x0.desk.(offered := true, requested := true), handler := x0.handler.(pc := Selecting))
  {
    hide Reaches, ReaderNext, HandlerNext, ReaperNext, AtBodyEnd, TAIL_JSON;
    var x0 := Fresh(decode, stream, canRetry, true, Live);
    x := RequestArrives(decode, stream, canRetry, if Refusal(code) then Some(code) else None);
    if Refusal(code) {
      x := SendGoesOut(x0, x);
    } else {
      x := ChatEnds(x0, x, code);
      x := TerminalIsSent(x0, x);
    }
    assert x.worker.link.written == [Excused(code)];
  }

  /** The request to the backend fails, by itself or because the job's context ended. */
  lemma ChatEnds(x0: Attempt, x: Attempt, code: Code) returns (y: Attempt)
    requires Reaches(x0, x) && Excuse(code) && !Refusal(code) && x.worker.pc.Asking? && x.worker.ctx.Live?
    ensures Reaches(x0, y)
    ensures y == x.(worker := x.worker.(pc := Leaving(Excused(code)), ctx := y.worker.ctx))
  {
    hide Reaches, AtBodyEnd, ReaderNext, HandlerNext, ReaperNext;
    if code == DeadlineExceeded {
      y := Do(x0, x, Agent(ContextEnds(PastDeadline)));
      y := Do(x0, y, Agent(ChatFails(BackendFailed)));
    } else if code == Cancelled {
      y := Do(x0, x, Agent(ContextEnds(CutOff)));
      y := Do(x0, y, Agent(ChatFails(BackendFailed)));
    } else {
      y := Do(x0, x, Agent(ChatFails(code)));
    }
  }

  /** Another host could do better, unless the model or the request is at fault or nobody wants it. */
  predicate WorthRetrying(code: Code) {
    code != ModelNotAllowed && code != InvalidRequest && code != Cancelled
  }

  function Excused(code: Code): Frame {
    Error(code, WorthRetrying(code), map[])
  }

  /** What the buyer hears when nothing was committed. */
  ghost predicate Answered(again: bool, status: int, h: Handler) {
    && h.pc == Returned(again) && !h.committed && h.relayed == [] && h.tail == []
    && h.heads == if again then [] else [status]
  }

  ghost predicate AnsweredFor(code: Code, canRetry: bool, h: Handler) {
    Answered(canRetry && WorthRetrying(code), if code == StartTimeout || code == DeadlineExceeded then 504 else 502, h)
  }

  lemma ExcuseIsHandled(stream: bool, canRetry: bool, code: Code, h: Handler)
    requires Excuse(code)
    requires h == Handler(Handling(Excused(code)), Live, true, 0, false, false, false, true, [], [], [])
    ensures
      var g := Handled(Terms(stream, canRetry), h, Excused(code), 0, true, |TAIL|);
      && g.pc.Abandoning? && g.pc.after.ThenReturn?
      && AnsweredFor(code, canRetry, g.(pc := Returned(g.pc.after.again)))
  {
    hide TAIL_JSON;
  }

  lemma AnswerExcuse(decode: Decoder, stream: bool, canRetry: bool, code: Code) returns (x: Attempt)
    requires Excuse(code)
    ensures Reaches(Fresh(decode, stream, canRetry, true, Live), x) && AtRest(x)
    ensures AnsweredFor(code, canRetry, x.handler) && x.worker.link.written == [Excused(code)]
  {
    hide Reaches, Handled, TAIL_JSON, ReaderNext, HandlerNext, ReaperNext, WorkerNext, AnsweredFor;
    var x0 := Fresh(decode, stream, canRetry, true, Live);
    x := ExcuseIsSent(decode, stream, canRetry, code);
    x := FrameIsDelivered(x0, x);
    ExcuseIsHandled(stream, canRetry, code, x.handler.(pc := Handling(Excused(code))));
    x := FrameIsHandled(x0, x);
    x := HandlerReturns(x0, x);
  }

  /** When the agent refuses the request, its backend does not answer or the job's own context ends, a first
      attempt asks for another one, unless no host could do better; the buyer hears 504 for a late start
      or the agent's deadline and 502 for the rest; the frame says why, and slot and place are free. */
  lemma ExcuseIsAnswered(decode: Decoder, stream: bool, canRetry: bool, code: Code)
    requires Excuse(code)
    ensures exists x ::
      && Reaches(Fresh(decode, stream, canRetry, true, Live), x) && AtRest(x)
      && AnsweredFor(code, canRetry, x.handler)
      && x.worker.link.written == [Error(code, WorthRetrying(code), map[])]
  {
    hide Reaches, Fresh, AtRest, AnsweredFor;
    var x := AnswerExcuse(decode, stream, canRetry, code);
  }

  // ---- the wait is cut short ----

  /** What can end the wait of forward other than an event. */
  datatype Cause = DeadlineEnds | StartTimerFires | HostFails

  function Wake(c: Cause): HandlerAction {
    match c
    case DeadlineEnds => WakeContext(|TAIL|)
    case StartTimerFires => WakeTimer(|TAIL|)
    case HostFails => WakeFailure(|TAIL|)
  }

  predicate CanWake(x: Attempt, c: Cause) {
    match c
    case DeadlineEnds => !x.handler.ctx.Live?
    case StartTimerFires => x.handler.armed
    case HostFails => x.desk.job.failure.Some?
  }

  /** The handler gives up for the cause, when the buyer takes all it is still sent. */
  ghost predicate GivesUp(stream: bool, canRetry: bool, c: Cause, before: Handler, h: Handler) {
    var again := canRetry && c != DeadlineEnds && before.ctx.Live?;
    if before.committed then
      && h.pc == Returned(false) && h.heads == before.heads && h.relayed == before.relayed && !h.completed && h.intact
      && h.tail == (if stream then TAIL else []) && h.aborted == !stream
    else if before.ctx == CutOff then
      h == before.(pc := Returned(false))
    else
      Answered(again, if c == HostFails then 502 else 504, h)
  }

  lemma FailureFits(x: Attempt)
    requires Inv(x) && x.desk.job.failure.Some?
    ensures GatewayStatus(x.desk.job.failure.value) == 502
  {
    hide WorkerInv, QueueInv, WakeInv, LeakInv, HandlerInv;
  }

  lemma WaitingIsMidway(x: Attempt)
    requires Inv(x) && x.handler.pc.Selecting?
    ensures x.desk.job.consumed <= |x.desk.job.accepted| && Midway(x.desk.job, x.stream, x.handler)
  {
    hide WorkerInv, QueueInv, WakeInv, LeakInv, ReaderInv, Data, Midway;
    RelayingIsMidway(x.desk.job, x.desk.job.consumed, x.stream, x.handler);
  }

  lemma FailingGivesUp(stream: bool, canRetry: bool, j: Job, c: Cause, h: Handler, code: Code)
    requires j.consumed <= |j.accepted| && Midway(j, stream, h) && h.pc.Selecting?
    requires GatewayStatus(code) == if c == HostFails then 502 else 504
    requires c == DeadlineEnds ==> !h.ctx.Live?
    ensures
      var g := FailWith(Terms(stream, canRetry), h, code, c != DeadlineEnds, |TAIL|);
      && g.pc.Abandoning? && g.pc.after.ThenReturn?
      && GivesUp(stream, canRetry, c, h, g.(pc := Returned(g.pc.after.again)))
  {
    hide Data, TAIL_JSON;
    assert TAIL[..|TAIL|] == TAIL;
  }

  lemma WakingGivesUp(x: Attempt, c: Cause) returns (y: Attempt)
    requires Inv(x) && x.handler.pc.Selecting? && CanWake(x, c)
    ensures Reaches(x, y) && y == x.(desk := x.desk.(job := y.desk.job), handler := y.handler)
    ensures y.handler.pc.Abandoning? && y.handler.pc.after.ThenReturn?
    ensures GivesUp(x.stream, x.canRetry, c, x.handler, y.handler.(pc := Returned(y.handler.pc.after.again)))
  {
    hide Reaches, WorkerNext, ReaderNext, ReaperNext, TAIL_JSON, Inv, Handled, FailWith, GivesUp, GatewayStatus, Midway;
    Here(x);
    WaitingIsMidway(x);
    y := Do(x, x, Buyer(Wake(c)));
    match c
    case DeadlineEnds =>
      GatewayStatuses();
      FailingGivesUp(x.stream, x.canRetry, x.desk.job, c, x.handler, DeadlineExceeded);
    case StartTimerFires =>
      GatewayStatuses();
      FailingGivesUp(x.stream, x.canRetry, x.desk.job, c, x.handler, StartTimeout);
    case HostFails =>
      FailureFits(x);
      FailingGivesUp(x.stream, x.canRetry, x.desk.job, c, x.handler, x.desk.job.failure.value);
  }

  lemma GatewayStatuses()
    ensures GatewayStatus(DeadlineExceeded) == 504 && GatewayStatus(StartTimeout) == 504
  {}

  /** forward returns through abandon, which may start a reaper. */
  lemma HandlerLeaves(x0: Attempt, x: Attempt) returns (y: Attempt)
    requires Reaches(x0, x) && x.handler.pc.Abandoning? && x.handler.pc.after.ThenReturn?
    ensures Reaches(x0, y) && y.desk.session == x.desk.session
    ensures y.handler == x.handler.(pc := Returned(x.handler.pc.after.again))
    ensures y.desk.job.dropping
    ensures y.desk.reaper == if !x.desk.job.dropping && x.desk.job.listed then Cancelling(false) else x.desk.reaper
  {
    hide Reaches, WorkerNext, ReaderNext, ReaperNext, Handled, FailWith, TAIL_JSON;
    y := Do(x0, x, Buyer(SetDropping));
    if !x.desk.job.dropping {
      y := Do(x0, y, Buyer(Probe));
    }
  }

  /** From every reachable state in which forward waits, whatever ends the wait also ends the attempt:
      before the first byte with a retry, 504 or 502, or in silence if the buyer is gone; after it with
      the interruption tail on a stream and an aborted connection otherwise. */
  lemma WaitIsCutShort(x: Attempt, c: Cause)
    requires Inv(x) && x.handler.pc.Selecting? && CanWake(x, c)
    ensures exists y :: Reaches(x, y) && GivesUp(x.stream, x.canRetry, c, x.handler, y.handler) && y.desk.job.dropping
  {
    hide Reaches, HandlerNext, Inv, GivesUp;
    var y := WakingGivesUp(x, c);
    var z := HandlerLeaves(x, y);
    assert Reaches(x, z);
  }

  // ---- the request was not sent ----

  /** With no time left the buyer hears 504; when sending fails the host is cut off, and a first attempt
      asks for another one while the buyer's deadline allows, else the buyer hears 502. */
  lemma RequestIsNotSent(decode: Decoder, stream: bool, canRetry: bool, late: bool, ctx: Context)
    ensures exists x ::
      && Reaches(Fresh(decode, stream, canRetry, true, ctx), x)
      && Answered(!late && canRetry && ctx.Live?, if late then 504 else 502, x.handler)
      && x.desk.session.open == late && x.desk.job.dropping && x.desk.reaper == Cancelling(false)
  {
    hide Reaches, Answered;
    var x := UnsentRequest(decode, stream, canRetry, late, ctx);
    x := UnsentEnds(Fresh(decode, stream, canRetry, true, ctx), x, late);
  }

  lemma UnsentRequest(decode: Decoder, stream: bool, canRetry: bool, late: bool, ctx: Context) returns (x: Attempt)
    ensures
      var x0 := Fresh(decode, stream, canRetry, true, ctx);
      && Reaches(x0, x)
      && x == x0.(desk := x0.desk.(offered := !late, session := Session(late, true)),
                  handler := x0.handler.(pc := Abandoning(if late then ThenReply(504) else ThenDecide)))
  {
    hide Reaches, WorkerNext, ReaderNext, ReaperNext, Handled, FailWith, TAIL_JSON;
    var x0 := Fresh(decode, stream, canRetry, true, ctx);
    Here(x0);
    if late {
      x := Do(x0, x0, Buyer(TooLate));
    } else {
      x := Do(x0, x0, Buyer(BeginRequest));
      x := Do(x0, x, Buyer(RequestFails));
      x := Do(x0, x, Buyer(BreakPeer));
    }
  }

  lemma UnsentEnds(x0: Attempt, x: Attempt, late: bool) returns (y: Attempt)
    requires Reaches(x0, x) && x.desk.job.listed && !x.desk.job.dropping
    requires x.handler == Handler(Abandoning(if late then ThenReply(504) else ThenDecide), x.handler.ctx,
                                  true, 0, false, false, false, true, [], [], [])
    ensures Reaches(x0, y)
    ensures y == x.(desk := x.desk.(job := x.desk.job.(dropping := true), reaper := Cancelling(false)),
                    handler := y.handler)
    ensures Answered(!late && x.canRetry && x.handler.ctx.Live?, if late then 504 else 502, y.handler)
  {
    hide Reaches, WorkerNext, ReaderNext, ReaperNext, Handled, FailWith, TAIL_JSON;
    y := JobIsDropped(x0, x);
    if !late {
      y := Do(x0, y, Buyer(Decide));
    }
    if y.handler.pc.Replying? {
      y := Do(x0, y, Buyer(Reply));
    }
  }

  /** An attempt that ran out of time before its request was sent: the buyer hears 504, the agent never
      hears of it, and a host that did nothing wrong loses its session to the reaper. */
  lemma LateRequestCostsTheSession(decode: Decoder, stream: bool, canRetry: bool, ctx: Context)
    ensures exists x ::
      && Reaches(Fresh(decode, stream, canRetry, true, ctx), x)
      && Answered(false, 504, x.handler) && !x.desk.requested && x.worker.pc.Unassigned?
      && x.desk.reaper.Dead? && x.desk.cancels == 1 && !x.desk.session.open
  {
    hide Reaches, Answered, Inv;
    var x0 := Fresh(decode, stream, canRetry, true, ctx);
    var x := UnsentRequest(decode, stream, canRetry, true, ctx);
    x := UnsentEnds(x0, x, true);
    x := CancelGoesOut(x0, x);
    x := ReaperGivesUp(x0, x);
  }

  lemma ReaperGivesUp(x0: Attempt, x: Attempt) returns (y: Attempt)
    requires Reaches(x0, x) && x.desk.reaper.Waiting? && x.desk.job.listed
    ensures Reaches(x0, y)
    ensures y == x.(desk := x.desk.(reaper := Dead, session := x.desk.session.(open := false)))
  {
    hide Reaches, WorkerNext, ReaderNext, HandlerNext;
    y := Do(x0, x, Reap(Timeout));
    y := Do(x0, y, Reap(Recheck));
    y := Do(x0, y, Reap(ClosePeer));
  }

  // ---- the queue fills ----

  /** A stream was started and cut into n chunks, all delivered, while the handler sleeps. */
  ghost predicate Asleep(x: Attempt, n: nat, bytes: nat) {
    var w, d, h := x.worker, x.desk, x.handler;
    && w == Worker(Reading, Live, Link.Link(None, false, None, w.link.written), 200, true, n, w.read, More, true)
    && x.stream && |w.link.written| == n + 1 && w.link.written[0] == Start(200, true)
    && d == Desk(Session(true, true), true, true, Job(n + 1, true, true, n, bytes, false, w.link.written, 0, None),
                 Resting, Unborn, 0)
    && h == Handler(Selecting, Live, true, 0, false, false, false, true, [], [], [])
  }

  lemma StreamStarts(decode: Decoder) returns (x: Attempt)
    ensures Reaches(Fresh(decode, true, true, true, Live), x) && Asleep(x, 0, 0)
  {
    hide Reaches, ReaderNext, HandlerNext, ReaperNext, AtBodyEnd, Conclude, TAIL_JSON;
    var x0 := Fresh(decode, true, true, true, Live);
    x := RequestArrives(decode, true, true, None);
    x := Do(x0, x, Agent(Respond(200, true)));
    x := SendGoesOut(x0, x);
    assert x.worker.link.written == [Start(200, true)];
    x := FrameIsDelivered(x0, x);
    assert x.desk.job.accepted == [Start(200, true)];
  }

  lemma ChunkIsSent(x0: Attempt, x: Attempt, n: nat, bytes: nat, data: seq<byte>) returns (y: Attempt)
    requires Reaches(x0, x) && Asleep(x, n, bytes) && 0 < |data| <= CHUNK_BYTES
    ensures Reaches(x0, y)
    ensures
      var w := x.worker;
      y == x.(worker := w.(chunks := n + 1, read := w.read + data,
                           link := Link.Link(None, false, None, w.link.written + [Chunk(n + 1, data)])))
  {
    hide Reaches, AtBodyEnd, Conclude, ReaderNext, HandlerNext, ReaperNext, TAIL_JSON;
    y := Do(x0, x, Agent(Read(data, More)));
    y := SendGoesOut(x0, y);
  }

  lemma ChunkWaits(x0: Attempt, x: Attempt, n: nat, bytes: nat, data: seq<byte>) returns (y: Attempt)
    requires Reaches(x0, x) && Asleep(x, n, bytes) && 0 < |data| <= CHUNK_BYTES
    requires n + 1 < 10 && bytes + |data| <= 262144
    ensures Reaches(x0, y) && Asleep(y, n + 1, bytes + |data|)
    ensures y.desk.job.accepted == x.desk.job.accepted + [Chunk(n + 1, data)]
  {
    hide Reaches, WorkerNext, ReaderNext, HandlerNext, ReaperNext, TAIL_JSON;
    y := ChunkIsSent(x0, x, n, bytes, data);
    y := FrameIsDelivered(x0, y);
  }

  lemma {:induction false} ChunksWait(decode: Decoder, n: nat, data: seq<byte>) returns (x: Attempt)
    requires 0 < |data| <= CHUNK_BYTES && n < 10 && n * |data| <= 262144
    ensures Reaches(Fresh(decode, true, true, true, Live), x) && Asleep(x, n, n * |data|)
    ensures |x.desk.job.accepted| == n + 1 && forall i | 1 <= i <= n :: x.desk.job.accepted[i] == Chunk(i, data)
  {
    hide Reaches, Fresh;
    if n == 0 {
      x := StreamStarts(decode);
    } else {
      x := ChunksWait(decode, n - 1, data);
      x := ChunkWaits(Fresh(decode, true, true, true, Live), x, n - 1, (n - 1) * |data|, data);
    }
  }

  /** Ten frames can wait for a handler that sleeps. */
  lemma TenFramesCanWait(decode: Decoder)
    ensures exists x ::
      && Reaches(Fresh(decode, true, true, true, Live), x)
      && x.handler.pc.Selecting? && x.desk.job.consumed == 0 && |x.desk.job.accepted| == 10
      && x.desk.job.failure.None? && x.desk.job.listed && !x.desk.job.dropping
  {
    hide Reaches, Fresh;
    var x := ChunksWait(decode, 9, ['a']);
  }

  /** One chunk more than waits is added, with its bytes, to the count. */
  lemma ChunkIsAdded(x0: Attempt, x: Attempt, n: nat, bytes: nat, data: seq<byte>) returns (y: Attempt)
    requires Reaches(x0, x) && Asleep(x, n, bytes) && 0 < |data| <= CHUNK_BYTES
    ensures Reaches(x0, y)
    ensures
      var m := Chunk(n + 1, data);
      && y.desk == x.desk.(reader := Offering(m, bytes + |data|),
                           job := x.desk.job.(taken := n + 2, seqNo := n + 1, queued := bytes + |data|))
      && y.handler == x.handler && y.stream == x.stream && y.canRetry == x.canRetry && y.decode == x.decode
  {
    hide Reaches, WorkerNext, HandlerNext, ReaperNext, TAIL_JSON;
    y := ChunkIsSent(x0, x, n, bytes, data);
    y := Do(x0, y, ReadLoop(Take));
    y := Do(x0, y, ReadLoop(Check));
    y := Do(x0, y, ReadLoop(Gate));
    y := Do(x0, y, ReadLoop(Add));
  }

  /** A refused frame leaves the buyer called slow, the job dropped and a cancel on its way. */
  lemma RefusalDropsTheJob(x0: Attempt, x: Attempt) returns (y: Attempt)
    requires Reaches(x0, x) && x.desk.reader.Undoing? && x.desk.job.failure.None?
    requires !x.desk.job.dropping && x.desk.job.listed
    ensures Reaches(x0, y)
    ensures y.desk.job.failure == Some(SlowConsumer) && y.desk.job.dropping && y.desk.reaper == Cancelling(false)
    ensures y.desk.job.accepted == x.desk.job.accepted && y.desk.job.consumed == x.desk.job.consumed
    ensures y.desk.job.queued == x.desk.job.queued - |x.desk.reader.m.Bytes()| && y.desk.reader.Resting?
    ensures y.handler == x.handler
  {
    hide Reaches, WorkerNext, HandlerNext, ReaperNext, TAIL_JSON;
    y := Do(x0, x, ReadLoop(Undo));
    y := Do(x0, y, ReadLoop(Fail));
    y := Do(x0, y, ReadLoop(Swap));
    y := Do(x0, y, ReadLoop(Look));
  }

  /** A buyer that leaves n chunks of that size waiting is called slow for one more frame. */
  lemma OneTooMany(decode: Decoder, n: nat, data: seq<byte>, more: seq<byte>) returns (x: Attempt)
    requires 0 < |data| <= CHUNK_BYTES && 0 < |more| <= CHUNK_BYTES && n < 10 && n * |data| <= 262144
    requires n == 9 || n * |data| + |more| > 262144
    ensures Reaches(Fresh(decode, true, true, true, Live), x)
    ensures x.desk.job.failure == Some(SlowConsumer) && x.desk.job.dropping && x.desk.reaper == Cancelling(false)
    ensures |x.desk.job.accepted| == n + 1 && x.desk.job.consumed == 0 && x.desk.job.queued == n * |data|
  {
    hide Reaches, Fresh, WorkerNext, HandlerNext, ReaperNext, TAIL_JSON;
    var x0 := Fresh(decode, true, true, true, Live);
    x := ChunksWait(decode, n, data);
    x := ChunkIsAdded(x0, x, n, n * |data|, more);
    x := Do(x0, x, ReadLoop(Offer));
    x := RefusalDropsTheJob(x0, x);
  }

  /** The eleventh frame is refused for its number, and one byte above 262144 for its size. */
  lemma QueueOverflows(decode: Decoder)
    ensures exists x ::
      && Reaches(Fresh(decode, true, true, true, Live), x)
      && x.desk.job.failure == Some(SlowConsumer) && x.desk.job.dropping && x.desk.reaper == Cancelling(false)
      && |x.desk.job.accepted| - x.desk.job.consumed == 10
    ensures exists x ::
      && Reaches(Fresh(decode, true, true, true, Live), x)
      && x.desk.job.failure == Some(SlowConsumer) && x.desk.job.dropping && x.desk.reaper == Cancelling(false)
      && |x.desk.job.accepted| - x.desk.job.consumed == 9 && x.desk.job.queued == 262144
  {
    hide Reaches, Fresh;
    var x := OneTooMany(decode, 9, ['a'], ['b']);
    var y := OneTooMany(decode, 8, seq(32768, _ => 'a'), ['b']);
  }

  /** The handler takes its first two events, a start and a chunk, up to the accounting of the chunk. */
  lemma HandlerTakesTwo(x0: Attempt, x: Attempt, status: int, data: seq<byte>) returns (y: Attempt)
    requires Reaches(x0, x) && x.stream && x.desk.job.consumed == 0 && |x.desk.job.accepted| >= 2
    requires x.desk.job.accepted[0] == Start(status, true) && 200 <= status < 300
    requires x.desk.job.accepted[1].Chunk? && x.desk.job.accepted[1].data == data
    requires x.handler == Handler(Selecting, Live, true, 0, false, false, false, true, [], [], [])
    ensures Reaches(x0, y) && y.desk.reader == x.desk.reader
    ensures y.desk.job == x.desk.job.(consumed := 2, queued := x.desk.job.queued - |data|)
  {
    hide Reaches, WorkerNext, ReaderNext, ReaperNext, FailWith, TAIL_JSON;
    y := EventIsTaken(x0, x);
    y := Do(x0, y, Buyer(Handle(0, true, |TAIL|)));
    y := EventIsTaken(x0, y);
  }

  lemma EventIsTaken(x0: Attempt, x: Attempt) returns (y: Attempt)
    requires Reaches(x0, x) && x.handler.pc.Selecting? && x.desk.job.consumed < |x.desk.job.accepted|
    ensures Reaches(x0, y)
    ensures
      var j := x.desk.job;
      var m := j.accepted[j.consumed];
      y == x.(desk := x.desk.(job := j.(consumed := j.consumed + 1, queued := j.queued - |m.Bytes()|)),
              handler := x.handler.(pc := Handling(m)))
  {
    hide Reaches, WorkerNext, ReaderNext, ReaperNext, FailWith, Handled, TAIL_JSON;
    y := Do(x0, x, Buyer(WakeEvent));
    y := Do(x0, y, Buyer(Account));
  }

  /** The size is judged by the count at the moment the frame was added: a frame can be refused although,
      by the time it is offered, the handler has made room for it. */
  lemma RefusalCanComeTooLate(decode: Decoder)
    ensures exists x ::
      && Reaches(Fresh(decode, true, true, true, Live), x)
      && x.desk.reader.Offering? && x.desk.job.queued <= 262144 && |x.desk.job.accepted| - x.desk.job.consumed < 10
      && Advance(x, ReadLoop(Offer)).Some? && Advance(x, ReadLoop(Offer)).value.desk.reader.Undoing?
  {
    hide Reaches, Fresh, WorkerNext, HandlerNext, ReaperNext, TAIL_JSON;
    var x0 := Fresh(decode, true, true, true, Live);
    var data: seq<byte> := seq(32768, _ => 'a');
    var x := FullQueue(decode, data);
    x := ChunkIsAdded(x0, x, 8, 262144, ['b']);
    x := HandlerTakesTwo(x0, x, 200, data);
  }

  lemma FullQueue(decode: Decoder, data: seq<byte>) returns (x: Attempt)
    requires |data| == 32768
    ensures Reaches(Fresh(decode, true, true, true, Live), x) && Asleep(x, 8, 262144)
    ensures x.desk.job.accepted[1].Chunk? && x.desk.job.accepted[1].data == data
  {
    hide Reaches, Fresh;
    x := ChunksWait(decode, 8, data);
  }
}
