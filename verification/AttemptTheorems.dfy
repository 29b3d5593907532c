/** What the invariant of an attempt means to the people at its two ends. */
module AttemptTheorems {
  import opened Types
  import opened ObserverSpec
  import opened Attempt
  import opened AttemptProof
  import opened Protocol
  import Link

  /** The bytes waiting on the event channel. */
  function Channel(j: Job): seq<Frame>
    requires j.consumed <= |j.accepted|
  {
    j.accepted[j.consumed..]
  }

  lemma {:induction false} DataSplit(fs: seq<Frame>, gs: seq<Frame>)
    ensures Data(fs + gs) == Data(fs) + Data(gs)
  {
    if gs == [] {
      assert fs + gs == fs;
    } else {
      var front, last := gs[..|gs| - 1], gs[|gs| - 1];
      assert fs + gs == (fs + front) + [last] && gs == front + [last];
      DataSplit(fs, front);
      DataSnoc(fs + front, last);
      DataSnoc(front, last);
    }
  }

  /** The frames on the wire about an attempt are an error alone, or a start, the chunks 1, 2, 3 and
      so on, and at most one terminal frame; a job goroutine that finished on a session still alive
      has sent its terminal frame. The receiver's validation turns down exactly a start that carries a
      backend status above 599. */
  lemma FramesFollowTheProtocol(x: Attempt, attemptId: string)
    requires Inv(x) && 0 < |attemptId| <= 128
    ensures Trace(x.worker.link.written)
    ensures x.worker.pc.Finished? && x.worker.alive ==> Ended(x.worker.link.written)
    ensures forall i | 0 <= i < |x.worker.link.written| ::
      Validate(MessageOf(attemptId, x.worker.link.written[i])) == None <==> !BadStart(x.worker.link.written[i])
  {
    hide WorkerInv, DeskInv, Trace, Ended, MessageOf, Validate, Sendable;
    WorkerTrace(x.decode, x.worker);
    forall i | 0 <= i < |x.worker.link.written|
      ensures Validate(MessageOf(attemptId, x.worker.link.written[i])) == None <==> !BadStart(x.worker.link.written[i])
    {
      TraceFacts(x.worker.link.written, i);
      OnlyAStatusIsInvalid(x.worker.link.written[i]);
      FrameIsValid(attemptId, x.worker.link.written[i]);
    }
  }

  /** A start with a status that no receiver accepts. */
  predicate BadStart(f: Frame) {
    f.Start? && f.status > 599
  }

  /** A receiver accepts a frame about an attempt exactly when it is within the protocol's limits. */
  lemma FrameIsValid(attemptId: string, f: Frame)
    ensures Validate(MessageOf(attemptId, f)) == None <==> WithinLimits(f) && 0 < |attemptId| <= 128
  {
    hide CodeName;
  }

  /** However deliver interleaves with abandonment, the read loop ends over an attempt only for a
      backend status above 599, and then before anything of the attempt was delivered. */
  lemma HostIsCutOffOnlyForItsStatus(x: Attempt)
    requires Inv(x) && x.desk.reader.Violated?
    ensures x.worker.link.written != [] && BadStart(x.worker.link.written[0])
    ensures x.desk.job.taken == 0 && x.desk.job.accepted == []
  {
    hide WorkerInv, QueueInv, WakeInv, LeakInv, HandlerInv, Sendable;
    WorkerTrace(x.decode, x.worker);
    TraceFacts(x.worker.link.written, 0);
    OnlyAStatusIsInvalid(x.worker.link.written[0]);
  }

  /** A step of the read loop finds a violation exactly when it takes such a start. */
  lemma StepCutsOffExactlyForAStatus(x: Attempt, a: ReaderAction)
    requires Inv(x) && Advance(x, ReadLoop(a)).Some?
    ensures Advance(x, ReadLoop(a)).value.desk.reader.Violated? <==>
      a.Take? && BadStart(x.worker.link.written[x.desk.job.taken])
  {
    hide WorkerInv, QueueInv, WakeInv, LeakInv, HandlerInv, Sendable, WithinLimits, Checked, Trace;
    WorkerTrace(x.decode, x.worker);
    if a.Take? {
      TraceFacts(x.worker.link.written, x.desk.job.taken);
      OnlyAStatusIsInvalid(x.worker.link.written[x.desk.job.taken]);
    } else if a.Check? && !x.desk.job.dropping {
      CheckPasses(x.worker.link.written, x.desk.job, x.desk.reader.m);
    }
  }

  // ---- what deliver accepts from any agent ----

  ghost predicate StartedIn(fs: seq<Frame>) {
    exists i :: 0 <= i < |fs| && fs[i].Start?
  }

  ghost function ChunksIn(fs: seq<Frame>): nat {
    if fs == [] then 0 else ChunksIn(fs[..|fs| - 1]) + if fs[|fs| - 1].Chunk? then 1 else 0
  }

  /** At most one start, and before every chunk and every end; the chunks numbered 1, 2, 3 and so on. */
  ghost predicate Orderly(fs: seq<Frame>) {
    forall i | 0 <= i < |fs| ::
      && (fs[i].Start? ==> !StartedIn(fs[..i]))
      && (fs[i].Chunk? ==> StartedIn(fs[..i]) && fs[i].n == ChunksIn(fs[..i]) + 1)
      && (fs[i].End? ==> StartedIn(fs[..i]))
  }

  /** The record of a job after deliver checked these frames, if all of them passed. */
  ghost function Passed(j: Job, fs: seq<Frame>): Option<Job> {
    if fs == [] then Some(j)
    else
      match Passed(j, fs[..|fs| - 1])
      case None => None
      case Some(k) => Checked(k, fs[|fs| - 1])
  }

  lemma OrderlySnoc(fs: seq<Frame>, m: Frame)
    ensures Orderly(fs + [m]) <==>
      && Orderly(fs)
      && (m.Start? ==> !StartedIn(fs))
      && (m.Chunk? ==> StartedIn(fs) && m.n == ChunksIn(fs) + 1)
      && (m.End? ==> StartedIn(fs))
    ensures StartedIn(fs + [m]) <==> StartedIn(fs) || m.Start?
    ensures ChunksIn(fs + [m]) == ChunksIn(fs) + if m.Chunk? then 1 else 0
  {
    hide ChunksIn, StartedIn;
    ChunksSnoc(fs, m);
    StartedSnoc(fs, m);
    assert forall i | 0 <= i < |fs| :: (fs + [m])[..i] == fs[..i];
    assert (fs + [m])[..|fs|] == fs;
    assert forall i | 0 <= i < |fs| :: (fs + [m])[i] == fs[i];
    assert (fs + [m])[|fs|] == m;
  }

  lemma ChunksSnoc(fs: seq<Frame>, m: Frame)
    ensures ChunksIn(fs + [m]) == ChunksIn(fs) + if m.Chunk? then 1 else 0
  {
    assert (fs + [m])[..|fs|] == fs;
  }

  lemma StartedSnoc(fs: seq<Frame>, m: Frame)
    ensures StartedIn(fs + [m]) <==> StartedIn(fs) || m.Start?
  {
    if StartedIn(fs) {
      var i :| 0 <= i < |fs| && fs[i].Start?;
      assert (fs + [m])[i].Start?;
    }
    if m.Start? {
      assert (fs + [m])[|fs|].Start?;
    }
  }

  /** Whatever an agent sends about an attempt, deliver's checks pass exactly the orderly traces. */
  lemma {:induction false} ChecksPassExactlyTheOrderly(j: Job, fs: seq<Frame>)
    requires !j.started && j.seqNo == 0
    ensures Passed(j, fs).Some? <==> Orderly(fs)
    ensures Passed(j, fs).Some? ==>
      Passed(j, fs).value == j.(started := StartedIn(fs), seqNo := ChunksIn(fs))
  {
    hide Orderly, StartedIn, ChunksIn;
    if fs != [] {
      var front := fs[..|fs| - 1];
      assert fs == front + [fs[|fs| - 1]];
      ChecksPassExactlyTheOrderly(j, front);
      OrderlySnoc(front, fs[|fs| - 1]);
    } else {
      NothingIsOrderly();
    }
  }

  lemma NothingIsOrderly()
    ensures Orderly([]) && !StartedIn([]) && ChunksIn([]) == 0
  {}

  /** So for a job not abandoned, the frame at hand ends the session exactly when it is out of order. */
  lemma DisorderEndsTheSession(frames: seq<Frame>, d: Desk, j: Job, fs: seq<Frame>)
    requires !j.started && j.seqNo == 0 && Orderly(fs)
    requires d.job.started == StartedIn(fs) && d.job.seqNo == ChunksIn(fs)
    requires d.reader.Checking? && !d.job.dropping
    ensures ReaderNext(frames, d, Check).Some?
    ensures ReaderNext(frames, d, Check).value.reader.Violated? <==> !Orderly(fs + [d.reader.m])
  {
    hide Orderly, StartedIn, ChunksIn;
    OrderlySnoc(fs, d.reader.m);
  }

  /** A chunk can only be handled after a start; were it not so, forward would answer 502 and not retry. */
  lemma ChunkWithoutStart(x: Terms, h: Handler, m: Frame, written: nat, ok: bool, cut: nat)
    requires cut <= |TAIL| && written <= |m.Bytes()| && m.Chunk? && h.status == 0 && !h.committed && h.ctx.Live?
    ensures Handled(x, h, m, written, ok, cut) == h.(heads := h.heads + [502], pc := Abandoning(ThenReturn(false)))
  {}

  /** Whenever forward waits, something is still going to wake it: the job is in its live host's
      table, or its terminal event is queued, or a failure is, or the read loop is delivering. */
  lemma BuyerIsNeverOrphaned(x: Attempt)
    requires Inv(x) && x.handler.pc.Selecting?
    ensures
      var d := x.desk;
      || (d.job.listed && d.session.registered)
      || (Channel(d.job) != [] && Ended(Channel(d.job)))
      || d.job.failure.Some?
      || Delivering(d.reader)
  {
    hide WorkerInv, QueueInv, LeakInv, HandlerInv, Data;
    var j := x.desk.job;
    if j.consumed < |j.accepted| {
      assert Channel(j)[|Channel(j)| - 1] == j.accepted[|j.accepted| - 1];
    }
  }

  /** A place in the table is always someone's to give back: the handler has not yet abandoned it, or
      is doing so, or the read loop is, or the reaper is, or the session is closed. At most one cancel
      is sent, and a reaper that has finished leaves no place behind on an open session. */
  lemma ReservationIsNeverLeaked(x: Attempt)
    requires Inv(x)
    ensures x.desk.job.listed ==>
      || Attending(x.handler.pc) || x.handler.pc.Abandoning? || x.handler.pc.Probing?
      || x.desk.reader.Looking? || Reaping(x.desk.reaper) || !x.desk.session.open
    ensures x.desk.cancels <= 1
    ensures x.desk.reaper.Dead? ==> !x.desk.job.listed || !x.desk.session.open
  {
    hide WorkerInv, QueueInv, WakeInv, HandlerInv, ReaderInv;
  }

  /** A reaper waits for the agent only after it wrote the cancel. */
  lemma ReaperWaitsAfterItsCancel(x: Attempt)
    requires Inv(x) && (x.desk.reaper.Waiting? || x.desk.reaper.Rechecking?)
    ensures x.desk.cancels == 1
  {
    hide WorkerInv, QueueInv, WakeInv, HandlerInv, ReaderInv;
  }

  /** Removing the host fails exactly the jobs still in its table that have not failed yet. */
  lemma RemovalFailsTheListed(x: Attempt)
    requires Advance(x, Host(Remove)).Some?
    ensures
      Advance(x, Host(Remove)).value.desk.job ==
        if x.desk.job.listed && x.desk.job.failure.None?
        then x.desk.job.(failure := Some(HostDisconnected))
        else x.desk.job
    ensures !Advance(x, Host(Remove)).value.desk.session.registered
  {
    hide WorkerNext, HandlerNext, ReaderNext;
  }

  /** The read loop has taken the attempt's terminal frame and is done with the table. */
  predicate TerminalTaken(x: Attempt)
    requires x.desk.job.taken <= |x.worker.link.written|
  {
    && x.desk.job.taken > 0 && x.worker.link.written[x.desk.job.taken - 1].Terminal()
    && !x.desk.reader.Checking? && !x.desk.reader.Unlisting?
  }

  /** A place is given back by the terminal frame and by nothing else. */
  lemma PlaceIsFreedExactlyByTheTerminal(x: Attempt)
    requires Inv(x)
    ensures x.desk.job.taken <= |x.worker.link.written|
    ensures !x.desk.job.listed <==> TerminalTaken(x)
  {
    hide WorkerInv, QueueInv, WakeInv, LeakInv, HandlerInv, Sendable, WithinLimits;
  }

  /** When its wait is over, the reaper goes on to close the session exactly if no terminal frame of the
      attempt has been taken. */
  lemma RecheckClosesExactlyWithoutATerminal(x: Attempt)
    requires Inv(x) && Advance(x, Reap(Recheck)).Some?
    ensures x.desk.job.taken <= |x.worker.link.written|
    ensures Advance(x, Reap(Recheck)).value.desk.reaper == if TerminalTaken(x) then Dead else Closing
  {
    hide Inv, TerminalTaken;
    PlaceIsFreedExactlyByTheTerminal(x);
  }

  /** An attempt whose request was not sent keeps its place, for no terminal frame can free it; so a
      reaper that is done with it has cost the host its session. */
  lemma UnsentHoldsItsPlace(x: Attempt)
    requires Inv(x) && !x.desk.requested
    ensures x.worker.link.written == [] && x.desk.job.listed
    ensures x.desk.reaper.Dead? ==> !x.desk.session.open
  {
    hide WorkerInv, ReaderInv, QueueInv, WakeInv, HandlerInv;
    UnassignedWroteNothing(x.decode, x.worker);
    SlotImpliesReservation(x);
  }

  /** queued counts the bytes on the channel and those in the hands of the read loop and the handler,
      the channel stays within both bounds, and what was put on it is exactly the first frames the
      agent wrote: after one is refused, nothing later gets on. */
  lemma QueueIsBoundedAndGapless(x: Attempt)
    requires Inv(x)
    ensures x.desk.job.consumed <= |x.desk.job.accepted|
    ensures
      var j := x.desk.job;
      && j.queued == |Data(Channel(j))| + ReaderBytes(x.desk.reader) + HandlerBytes(x.handler.pc)
      && |Data(Channel(j))| <= 262144 && |Channel(j)| <= 10
      && j.accepted <= x.worker.link.written
  {
    hide WorkerInv, WakeInv, LeakInv, HandlerInv, Data;
    var j := x.desk.job;
    DataSplit(j.accepted[..j.consumed], Channel(j));
    assert j.accepted[..j.consumed] + Channel(j) == j.accepted;
  }

  /** The read loop counts a frame together with what waits on the channel and what the handler is
      accounting for, at the moment it adds the frame. */
  lemma AddCountsWhatIsThere(x: Attempt)
    requires Inv(x) && Advance(x, ReadLoop(Add)).Some?
    ensures x.desk.reader.Adding? && x.desk.job.consumed <= |x.desk.job.accepted|
    ensures Advance(x, ReadLoop(Add)).value.desk.reader ==
      Offering(x.desk.reader.m,
               |Data(Channel(x.desk.job))| + HandlerBytes(x.handler.pc) + |x.desk.reader.m.Bytes()|)
  {
    hide Inv, Data, HandlerBytes;
    QueueIsBoundedAndGapless(x);
  }

  /** The channel takes a frame exactly when the bytes counted with it are at most 262144 and fewer than
      10 messages wait. */
  lemma OfferAcceptsExactlyWithRoom(x: Attempt)
    requires Inv(x) && Advance(x, ReadLoop(Offer)).Some?
    ensures x.desk.reader.Offering? && x.desk.job.consumed <= |x.desk.job.accepted|
    ensures
      var j, k := x.desk.job, Advance(x, ReadLoop(Offer)).value.desk.job;
      if x.desk.reader.total <= 262144 && |Channel(j)| < 10
      then k.accepted == j.accepted + [x.desk.reader.m]
      else k == j && Advance(x, ReadLoop(Offer)).value.desk.reader == Undoing(x.desk.reader.m)
  {
    hide WorkerInv, ReaderInv, WakeInv, LeakInv, Data;
  }

  /** What it counted stays with the read loop until it offers the frame. */
  lemma CountStays(x: Attempt, a: Action)
    requires x.desk.reader.Offering? && Advance(x, a).Some? && a != ReadLoop(Offer)
    ensures Advance(x, a).value.desk.reader == x.desk.reader
  {
    hide WorkerNext, HandlerNext;
    if a.Buyer? {
      HandlerLeavesReader(Terms(x.stream, x.canRetry), x.desk, x.handler, a.handler);
    }
  }

  lemma HandlerLeavesReader(x: Terms, d: Desk, h: Handler, a: HandlerAction)
    requires HandlerNext(x, d, h, a).Some?
    ensures HandlerNext(x, d, h, a).value.0.reader == d.reader
    ensures a.WakeFailure? || HandlerNext(x, d, h, a).value.0.job.failure == d.job.failure
  {
    hide FailWith, Handled;
  }

  /** A buyer is only called slow after a frame of the attempt was refused. */
  lemma SlowMeansRefused(x: Attempt, a: Action)
    requires Inv(x) && Advance(x, a).Some?
    ensures x.desk.job.consumed <= |x.desk.job.accepted|
    ensures
      var d, e := x.desk, Advance(x, a).value.desk;
      && (e.job.failure == Some(SlowConsumer) && d.job.failure != Some(SlowConsumer) ==> d.reader.Failing?)
      && (e.reader.Failing? && !d.reader.Failing? ==> d.reader.Undoing?)
      && (e.reader.Undoing? && !d.reader.Undoing? ==>
            a == ReadLoop(Offer) && d.reader.Offering? && (d.reader.total > 262144 || |Channel(d.job)| >= 10))
  {
    hide WorkerNext, HandlerNext, ReaderNext, ReaperNext, Inv, Data;
    QueueIsBoundedAndGapless(x);
    if a.Buyer? {
      HandlerLeavesReader(Terms(x.stream, x.canRetry), x.desk, x.handler, a.handler);
      if a.handler.WakeFailure? {
        WakingClearsTheFailure(Terms(x.stream, x.canRetry), x.desk, x.handler, a.handler);
      }
    } else if a.ReadLoop? {
      ReaderSlow(x.worker.link.written, x.desk, a.reader);
    } else if a.Reap? {
      ReaperLeavesReader(x.desk, a.reaper);
    }
  }

  lemma WakingClearsTheFailure(x: Terms, d: Desk, h: Handler, a: HandlerAction)
    requires a.WakeFailure? && HandlerNext(x, d, h, a).Some?
    ensures HandlerNext(x, d, h, a).value.0.job.failure == None
  {
    hide FailWith, Handled, TAIL_JSON;
  }

  lemma ReaperLeavesReader(d: Desk, a: ReaperAction)
    requires ReaperNext(d, a).Some?
    ensures ReaperNext(d, a).value.reader == d.reader && ReaperNext(d, a).value.job == d.job
  {}

  lemma ReaderSlow(fs: seq<Frame>, d: Desk, a: ReaderAction)
    requires ReaderNext(fs, d, a).Some? && d.job.consumed <= |d.job.accepted|
    ensures
      var e := ReaderNext(fs, d, a).value;
      && (e.job.failure == Some(SlowConsumer) && d.job.failure != Some(SlowConsumer) ==> d.reader.Failing?)
      && (e.reader.Failing? && !d.reader.Failing? ==> d.reader.Undoing?)
      && (e.reader.Undoing? && !d.reader.Undoing? ==>
            a == Offer && d.reader.Offering? && (d.reader.total > 262144 || |Channel(d.job)| >= 10))
  {
    hide WithinLimits;
  }

  /** A failure that is set stays until the handler takes it, and is then gone. */
  lemma FirstFailureStays(x: Attempt, a: Action)
    requires Advance(x, a).Some? && x.desk.job.failure.Some?
    ensures
      Advance(x, a).value.desk.job.failure ==
        if a.Buyer? && a.handler.WakeFailure? then None else x.desk.job.failure
  {
    hide WorkerNext, HandlerNext, ReaderNext, ReaperNext;
    match a
    case ReadLoop(b) => ReaderKeepsFailure(x.worker.link.written, x.desk, b);
    case Buyer(b) =>
      HandlerLeavesReader(Terms(x.stream, x.canRetry), x.desk, x.handler, b);
      if b.WakeFailure? {
        WakingClearsTheFailure(Terms(x.stream, x.canRetry), x.desk, x.handler, b);
      }
    case Reap(b) => ReaperLeavesReader(x.desk, b);
    case _ =>
  }

  lemma ReaderKeepsFailure(fs: seq<Frame>, d: Desk, a: ReaderAction)
    requires ReaderNext(fs, d, a).Some? && d.job.failure.Some?
    ensures ReaderNext(fs, d, a).value.job.failure == d.job.failure
  {
    hide WithinLimits;
  }

  /** The start timer can end the wait exactly until the response has started. */
  lemma StartTimerStopsAtTheStart(x: Attempt, cut: nat)
    requires Inv(x) && x.handler.pc.Selecting? && cut <= |TAIL|
    ensures Advance(x, Buyer(WakeTimer(cut))).Some? <==> x.desk.job.consumed == 0
  {
    hide WorkerInv, QueueInv, WakeInv, LeakInv, ReaderInv, Data, FailWith, TAIL_JSON;
  }

  /** forward waits, and a response is handled, only once the request was written. */
  lemma ForwardFollowsTheRequest(x: Attempt)
    requires Inv(x) && (x.handler.pc.Selecting? || x.handler.pc.Accounting? || x.handler.pc.Handling?)
    ensures x.desk.requested
  {
    hide WorkerInv, DeskInv;
  }

  /** What the model leaves to chance on the agent's side can come at any time: the job's context can end,
      the session can close, and a frame whose Send failed can still be written or not. */
  lemma AgentChance(x: Attempt, to: Context)
    ensures Advance(x, Agent(AgentCloses)) == Some(x.(worker := x.worker.(alive := false)))
    ensures x.worker.ctx.Live? ==> Advance(x, Agent(ContextEnds(to))) == Some(x.(worker := x.worker.(ctx := to)))
    ensures x.worker.link.late.Some? && !x.worker.link.wrote ==>
      && Advance(x, Agent(LinkMoves(Link.DropLate))).Some? && Advance(x, Agent(LinkMoves(Link.WriteLate))).Some?
      && Advance(x, Agent(LinkMoves(Link.DropLate))).value.worker.link.written == x.worker.link.written
      && Advance(x, Agent(LinkMoves(Link.WriteLate))).value.worker.link.written ==
           x.worker.link.written + [x.worker.link.late.value]
  {
    hide ReaderNext, HandlerNext, ReaperNext, SessionNext, AfterSend, AtBodyEnd;
  }

  /** And on the buyer's side: the context can end, and a Send of the request can fail although the frame is
      written, before or after that. */
  lemma BuyerChance(x: Attempt, to: Context)
    ensures x.handler.ctx.Live? ==>
      Advance(x, Buyer(BuyerContextEnds(to))) == Some(x.(handler := x.handler.(ctx := to)))
    ensures x.handler.pc.Requesting? ==>
      Advance(x, Buyer(RequestFails)) == Some(x.(handler := x.handler.(pc := Breaking)))
    ensures x.desk.offered && !x.desk.requested ==>
      Advance(x, Buyer(WriteRequest)) == Some(x.(desk := x.desk.(requested := true)))
  {
    hide WorkerNext, ReaderNext, ReaperNext, SessionNext, Handled, FailWith, TAIL_JSON;
  }

  /** A job's context ends once, and so does the buyer's. */
  lemma ContextsEndOnce(x: Attempt, a: Action)
    requires Advance(x, a).Some?
    ensures !x.worker.ctx.Live? ==> Advance(x, a).value.worker.ctx == x.worker.ctx
    ensures !x.handler.ctx.Live? ==> Advance(x, a).value.handler.ctx == x.handler.ctx
  {
    hide WorkerNext, HandlerNext, ReaderNext, ReaperNext;
    match a
    case Agent(b) => WorkerContext(x.decode, x.desk.requested, x.worker, b);
    case Buyer(b) => HandlerContext(Terms(x.stream, x.canRetry), x.desk, x.handler, b);
    case _ =>
  }

  lemma WorkerContext(decode: Decoder, requested: bool, w: Worker, a: WorkerAction)
    requires WorkerNext(decode, requested, w, a).Some?
    ensures
      WorkerNext(decode, requested, w, a).value.ctx == if w.ctx.Live? && a.ContextEnds? then a.to else w.ctx
  {
    hide AtBodyEnd, Conclude;
  }

  lemma HandlerContext(x: Terms, d: Desk, h: Handler, a: HandlerAction)
    requires HandlerNext(x, d, h, a).Some?
    ensures
      HandlerNext(x, d, h, a).value.1.ctx == if h.ctx.Live? && a.BuyerContextEnds? then a.to else h.ctx
  {
    hide TAIL_JSON, FailWith, Handled;
    match a
    case WakeContext(cut) => FailingKeepsContext(x, h, DeadlineExceeded, false, cut);
    case WakeTimer(cut) => FailingKeepsContext(x, h, StartTimeout, true, cut);
    case WakeFailure(cut) => FailingKeepsContext(x, h, d.job.failure.value, true, cut);
    case Handle(written, ok, cut) => HandlingKeepsContext(x, h, h.pc.m, written, ok, cut);
    case _ =>
  }

  lemma FailingKeepsContext(x: Terms, h: Handler, code: Code, retryable: bool, cut: nat)
    requires cut <= |TAIL|
    ensures FailWith(x, h, code, retryable, cut).ctx == h.ctx
  {}

  lemma HandlingKeepsContext(x: Terms, h: Handler, m: Frame, written: nat, ok: bool, cut: nat)
    requires cut <= |TAIL| && written <= |m.Bytes()|
    ensures Handled(x, h, m, written, ok, cut).ctx == h.ctx
  {
    hide TAIL_JSON, FailWith, Visible, Transient;
    match m
    case Start(status, _) => FailingKeepsContext(x, h.(status := status), InvalidBackendResponse, true, cut);
    case Chunk(_, _) => FailingKeepsContext(x, h, InvalidBackendResponse, false, cut);
    case End(_) => FailingKeepsContext(x, h, EmptyBackendResponse, true, cut);
    case Error(code, retryable, _) => FailingKeepsContext(x, h, Visible(code), retryable, cut);
  }

  lemma EmptyReadsChangeNothing(x: Attempt)
    requires x.worker.pc.Reading?
    ensures Advance(x, Agent(Read([], More))) == Some(x)
  {}

  /** Only documented codes of an agent reach the buyer; any other becomes backend_failed. */
  lemma OnlyDocumentedCodesAreVisible(c: Code)
    ensures
      Visible(c) ==
        if c in {Busy, BackendUnavailable, ModelNotAllowed, InvalidRequest, StartTimeout, DeadlineExceeded, Cancelled,
                 StreamInterrupted, InvalidBackendResponse}
        then c else BackendFailed
  {}

  // ---- the terminal frame says how the job ended ----

  /** The terminal message a job leaves with, by the state of its context: past its deadline, cancelled,
      or live, when an error is one of its own. */
  ghost predicate Tells(ctx: Context, t: Frame) {
    match ctx
    case PastDeadline => t.Error? && t.code == DeadlineExceeded && t.retryable
    case CutOff => t.Error? && t.code == Cancelled && !t.retryable
    case Live =>
      || t.End?
      || (t.Error? && t.retryable && t.code in {StartTimeout, BackendFailed, InvalidBackendResponse, StreamInterrupted})
  }

  /** Whether the step takes the job past the end of its body. */
  predicate EndsBody(w: Worker, a: WorkerAction) {
    a.Read? || (a.SendReturns? && a.ok && w.pc.Chunking?)
  }

  /** A job leaves with what its context says, and with the usage observed if its body was read to an end. */
  lemma LeavingTellsTheContext(decode: Decoder, requested: bool, w: Worker, a: WorkerAction)
    requires WorkerNext(decode, requested, w, a).Some? && !w.pc.Leaving?
    requires WorkerNext(decode, requested, w, a).value.pc.Leaving?
    ensures
      var v := WorkerNext(decode, requested, w, a).value;
      && Tells(w.ctx, v.pc.terminal)
      && v.pc.terminal.usage == (if EndsBody(w, a) then ObservedUsage(decode, v.sse, v.read) else map[])
      && (w.ctx.Live? ==> v.pc.terminal == Due(decode, w.pc, v, a))
    ensures a.SendReturns? && a.ok && w.pc.Starting? ==> w.status >= 400
  {
    hide ObservedUsage, Succeeds;
  }

  /** The message due to a job whose context is live: what failed, or that its status is all there is to
      relay, or how its body ended. An event stream in the 200s ends well only if the observer saw it succeed. */
  ghost function Due(decode: Decoder, from: WorkerPc, v: Worker, a: WorkerAction): Frame {
    var usage := ObservedUsage(decode, v.sse, v.read);
    match a
    case ChatFails(code) => Error(code, true, map[])
    case SendReturns(ok, _) =>
      if !ok then Error(BackendFailed, true, map[])
      else if from.Starting? then End(map[])
      else if v.end == Eof && (v.sse && v.status < 300 ==> Succeeds(decode, v.read)) then End(usage)
      else Error(StreamInterrupted, true, usage)
    case _ =>
      if v.end == Eof && (v.sse && v.status < 300 ==> Succeeds(decode, v.read)) then End(usage)
      else Error(StreamInterrupted, true, usage)
  }

  /** The usage observed: of a stream, that of its last event to report any; of another body, that of the
      body, if it is at most 1 MiB. */
  lemma ObservedUsageMeans(decode: Decoder, body: seq<byte>)
    ensures ObservedUsage(decode, true, body) == StreamUsage(decode, body)
    ensures |body| <= 1048576 && body in decode ==> Keeps(ObservedUsage(decode, false, body), decode[body].usage)
    ensures |body| > 1048576 || body !in decode ==> ObservedUsage(decode, false, body) == map[]
  {
    hide StreamUsage;
    DocUsageIsItsOwn(decode, body);
  }

  /** The job is leaving with that message, or has sent it or failed to. */
  ghost predicate SettledOn(w: Worker, t: Frame) {
    && t.Terminal() && (w.pc.Leaving? || w.pc.Telling? || w.pc.Finished?)
    && (w.pc.Leaving? || w.pc.Telling? ==> w.pc.terminal == t)
    && w.link.call == (if w.pc.Telling? then Some(t) else None)
    && (w.link.late.Some? && w.link.late.value.Terminal() ==> w.link.late == Some(t))
    && (Ended(w.link.written) ==> w.link.written[|w.link.written| - 1] == t)
  }

  lemma LeavingSettles(decode: Decoder, requested: bool, w: Worker, a: WorkerAction)
    requires WorkerInv(decode, w) && WorkerNext(decode, requested, w, a).Some? && !w.pc.Leaving?
    requires WorkerNext(decode, requested, w, a).value.pc.Leaving?
    ensures SettledOn(WorkerNext(decode, requested, w, a).value, WorkerNext(decode, requested, w, a).value.pc.terminal)
  {
    hide WorkerInv, WorkerNext, Data, Trace, Opening;
    var v := WorkerNext(decode, requested, w, a).value;
    WorkerKeeps(decode, requested, w, a);
    WorkerTrace(decode, v);
    LeavingHasNoTerminalYet(decode, v);
  }

  lemma LeavingHasNoTerminalYet(decode: Decoder, w: Worker)
    requires WorkerInv(decode, w) && w.pc.Leaving?
    ensures w.pc.terminal.Terminal() && !Ended(w.link.written) && w.link.call.None?
    ensures w.link.late.Some? ==> !w.link.late.value.Terminal()
  {
    hide Data, LateFits, EndIsEarned, Sendable;
  }

  lemma TerminalStays(decode: Decoder, requested: bool, w: Worker, a: WorkerAction, t: Frame)
    requires WorkerInv(decode, w) && SettledOn(w, t) && WorkerNext(decode, requested, w, a).Some?
    ensures SettledOn(WorkerNext(decode, requested, w, a).value, t)
  {
    hide WorkerInv, AtBodyEnd, Conclude;
    if w.pc.Leaving? {
      LeavingHasNoTerminalYet(decode, w);
    }
  }

  /** What the buyer has is a prefix of the body as the agent read it, then at most the interruption
      tail; an attempt recorded as completed gave the whole body, read to its end. */
  lemma BuyerGetsAPrefixOfTheBody(x: Attempt)
    requires Inv(x)
    ensures x.handler.relayed <= x.worker.read
    ensures x.handler.tail <= TAIL
    ensures x.handler.tail != [] ==> x.stream && !x.handler.completed
    ensures x.handler.completed ==>
      x.handler.relayed == x.worker.read && x.worker.end == Eof && x.handler.tail == [] && x.handler.intact
  {
    hide WorkerInv, QueueInv, WakeInv, LeakInv, Data, Opening, LateFits, TAIL_JSON, Succeeds, Trace;
    WorkerTrace(x.decode, x.worker);
    RelayedIsWritten(x);
    if x.handler.completed {
      CompletedIsEarned(x);
    }
  }

  lemma RelayedIsWritten(x: Attempt)
    requires Inv(x)
    ensures x.handler.relayed <= Data(x.worker.link.written)
  {
    hide WorkerInv, QueueInv, WakeInv, LeakInv, Data, TAIL_JSON;
    var j, fs := x.desk.job, x.worker.link.written;
    assert j.accepted == fs[..|j.accepted|];
    DataPrefix(fs, |j.accepted|);
    DataPrefix(j.accepted, j.consumed);
    if j.consumed > 0 {
      DataPrefix(j.accepted, j.consumed - 1);
    }
    assert j.accepted[..0] == [];
  }

  /** Completion implies that the agent's response_end was earned, and that its usage is what the
      observer made of the whole body. */
  lemma CompletedIsEarned(x: Attempt)
    requires Inv(x) && x.handler.completed
    ensures x.handler.committed && x.handler.relayed == x.worker.read && x.worker.end == Eof
    ensures x.handler.tail == [] && x.handler.intact
    ensures x.stream ==> Succeeds(x.decode, x.worker.read)
    ensures x.desk.job.accepted != []
    ensures x.desk.job.accepted[|x.desk.job.accepted| - 1] == End(ObservedUsage(x.decode, x.stream, x.worker.read))
  {
    hide ObservedUsage, WorkerInv, QueueInv, WakeInv, LeakInv, Opening, LateFits, TAIL_JSON, Succeeds, Trace, Data;
    var fs := x.worker.link.written;
    WorkerTrace(x.decode, x.worker);
    var front := fs[..|fs| - 1];
    assert fs == front + [fs[|fs| - 1]];
    DataSnoc(front, fs[|fs| - 1]);
  }

  /** For a streaming request whose committed response ended without a failed write, the bytes the
      buyer has read as a success exactly when the attempt was recorded as completed. */
  lemma StreamSuccessIsExact(x: Attempt)
    requires Inv(x) && ReadsTail(x.decode)
    requires x.stream && x.handler.committed && x.handler.intact && x.handler.pc.Returned?
    ensures Succeeds(x.decode, x.handler.relayed + x.handler.tail) <==> x.handler.completed
    ensures !x.handler.completed ==> ObserverSpec.Failed(x.decode, x.handler.relayed + x.handler.tail)
  {
    hide Lines, Rest, Events, OpenEvent, EventData, Ignored, Trim, ReadLine, Done, ObserverSpec.Failed;
    hide WorkerInv, QueueInv, WakeInv, LeakInv, ReaderInv, Data, TAIL_JSON;
    if x.handler.completed {
      CompletedIsEarned(x);
      assert x.handler.relayed + x.handler.tail == x.worker.read;
    } else {
      TailMarksFailed(x.decode, x.handler.relayed);
    }
  }

  /** For a request that does not stream, a committed response that neither completed nor failed to
      write was aborted, so a truncated body never looks like an answer. */
  lemma TruncatedJsonIsAborted(x: Attempt)
    requires Inv(x) && !x.stream && x.handler.committed && x.handler.intact && x.handler.pc.Returned?
    ensures x.handler.completed != x.handler.aborted && x.handler.tail == []
  {
    hide WorkerInv, QueueInv, WakeInv, LeakInv, ReaderInv, Data;
  }

  /** An attempt asks for another one only if it may and only if the buyer has nothing yet; at most one
      response head is written, and exactly one unless the buyer cancelled. */
  lemma RetryOnlyBeforeTheFirstByte(x: Attempt)
    requires Inv(x)
    ensures |x.handler.heads| <= 1
    ensures x.handler.relayed != [] || x.handler.tail != [] ==> x.handler.committed
    ensures x.handler.committed ==> x.handler.heads == [x.handler.status]
    ensures x.handler.pc == Returned(true) ==>
      x.canRetry && x.handler.heads == [] && x.handler.relayed == [] && x.handler.tail == []
    ensures x.handler.pc == Returned(false) ==>
      || (|x.handler.heads| == 1 && (x.handler.committed || IsDue(x.handler, x.handler.heads[0])))
      || (x.handler.heads == [] && x.handler.ctx == CutOff)
  {
    hide WorkerInv, QueueInv, WakeInv, LeakInv, ReaderInv, Data, TAIL_JSON;
    var j := x.desk.job;
    if x.handler.pc.Selecting? {
      RelayingIsMidway(j, j.consumed, x.stream, x.handler);
    } else if x.handler.pc.Accounting? || x.handler.pc.Handling? {
      RelayingIsMidway(j, j.consumed - 1, x.stream, x.handler);
    } else if x.handler.pc.Chosen? || x.handler.pc.Requesting? || x.handler.pc.Breaking? {
      RelayingIsMidway(j, 0, x.stream, x.handler);
    }
  }

  /** While the agent holds a slot for an attempt, the coordinator still has it in its table. */
  lemma SlotImpliesReservation(x: Attempt)
    requires Inv(x) && (Holding(x.worker) || x.worker.pc.Unassigned?)
    ensures x.desk.job.listed
  {
    hide WorkerInv, QueueInv, WakeInv, LeakInv, HandlerInv, Data;
    WorkerTrace(x.decode, x.worker);
    if x.worker.pc.Unassigned? {
      UnassignedWroteNothing(x.decode, x.worker);
    }
  }

  lemma UnassignedWroteNothing(decode: Decoder, w: Worker)
    requires WorkerInv(decode, w) && w.pc.Unassigned?
    ensures w.link.written == [] && !Ended(w.link.written)
  {}
}
