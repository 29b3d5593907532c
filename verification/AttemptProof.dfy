/** What every step of an attempt keeps, and what follows from it. */
module AttemptProof {
  import opened Types
  import opened ObserverSpec
  import opened Attempt
  import Link

  // ---- frame traces ----

  /** The response bytes carried by a sequence of frames. */
  function Data(fs: seq<Frame>): seq<byte> {
    if fs == [] then [] else Data(fs[..|fs| - 1]) + fs[|fs| - 1].Bytes()
  }

  lemma DataSnoc(fs: seq<Frame>, f: Frame)
    ensures Data(fs + [f]) == Data(fs) + f.Bytes()
  {
    assert (fs + [f])[..|fs|] == fs;
  }

  lemma {:induction false} DataPrefix(fs: seq<Frame>, n: nat)
    requires n <= |fs|
    ensures Data(fs[..n]) <= Data(fs)
  {
    if n == |fs| {
      assert fs[..n] == fs;
    } else {
      var front := fs[..|fs| - 1];
      DataPrefix(front, n);
      assert front[..n] == fs[..n];
    }
  }

  lemma DataTake(fs: seq<Frame>, n: nat)
    requires n < |fs|
    ensures Data(fs[..n + 1]) == Data(fs[..n]) + fs[n].Bytes()
  {
    assert fs[..n + 1] == fs[..n] + [fs[n]];
    DataSnoc(fs[..n], fs[n]);
  }

  /** A frame an agent may send: within the protocol's limits, except that the status is the backend's. */
  predicate Sendable(f: Frame) {
    match f
    case Start(status, _) => 200 <= status
    case _ => WithinLimits(f)
  }

  /** Of what an agent may send, exactly a start with a status above 599 fails validation. */
  lemma OnlyAStatusIsInvalid(f: Frame)
    requires Sendable(f)
    ensures WithinLimits(f) <==> !(f.Start? && f.status > 599)
  {}

  /** A response that has not ended: nothing, or a start and the chunks 1, 2, 3 and so on. A start
      with an error status is followed by no chunk. */
  ghost predicate Opening(fs: seq<Frame>) {
    && (forall i | 0 <= i < |fs| :: Sendable(fs[i]))
    && (fs != [] ==> fs[0].Start? && (fs[0].status >= 400 ==> |fs| == 1))
    && (forall i | 1 <= i < |fs| :: fs[i].Chunk? && fs[i].n == i)
  }

  ghost predicate Ended(fs: seq<Frame>) {
    fs != [] && fs[|fs| - 1].Terminal()
  }

  /** What the protocol allows about one attempt: an opening, then at most one terminal frame, and an
      end only after a start. */
  ghost predicate Trace(fs: seq<Frame>) {
    if Ended(fs) then
      var last, front := fs[|fs| - 1], fs[..|fs| - 1];
      Opening(front) && Sendable(last) && (last.End? ==> front != [])
    else Opening(fs)
  }

  lemma TraceExtends(fs: seq<Frame>, f: Frame)
    requires Opening(fs) && Sendable(f)
    requires f.Start? ==> fs == []
    requires f.Chunk? ==> fs != [] && fs[0].status < 400 && f.n == |fs|
    requires f.End? ==> fs != []
    ensures Trace(fs + [f])
    ensures Ended(fs + [f]) == f.Terminal()
    ensures !f.Terminal() ==> Opening(fs + [f])
  {
    assert (fs + [f])[..|fs|] == fs;
  }

  lemma NothingIsOpen()
    ensures Opening([]) && Trace([]) && Data([]) == []
  {}

  /** A single frame that may come first. */
  lemma OneFrame(f: Frame)
    requires Sendable(f) && (f.Start? || f.Error?)
    ensures Trace([f]) && Ended([f]) == f.Terminal() && Data([f]) == [] && [] + [f] == [f] && [f][..0] == []
    ensures f.Start? ==> Opening([f])
  {
    TraceExtends([], f);
    DataSnoc([], f);
    assert [] + [f] == [f];
  }

  lemma OpeningHasNoEnd(fs: seq<Frame>)
    requires Opening(fs)
    ensures !Ended(fs) && Trace(fs)
  {}

  // ---- the agent's side ----

  /** An end is only claimed for an error status or for a body read to its end, and for an event
      stream only when the observer saw it succeed. fs is what was written before it. */
  ghost predicate EndIsEarned(decode: Decoder, w: Worker, fs: seq<Frame>, t: Frame) {
    t.End? ==>
      && fs != [] && fs[0] == Start(w.status, w.sse)
      && (w.status < 400 ==>
            && w.end == Eof && Data(fs) == w.read && t.usage == ObservedUsage(decode, w.sse, w.read)
            && (w.sse && w.status < 300 ==> Succeeds(decode, w.read)))
  }

  /** A write still under way continues the trace. */
  ghost predicate LateFits(decode: Decoder, w: Worker) {
    w.link.late.Some? ==>
      var f := w.link.late.value;
      && Trace(w.link.written + [f])
      && Data(w.link.written) + f.Bytes() <= w.read
      && EndIsEarned(decode, w, w.link.written, f)
  }

  /** Nothing terminal was written yet. */
  ghost predicate Open(decode: Decoder, w: Worker) {
    && Opening(w.link.written)
    && Data(w.link.written) <= w.read
    && LateFits(decode, w)
  }

  ghost predicate Closed(decode: Decoder, w: Worker) {
    var fs := w.link.written;
    && Ended(fs) && Trace(fs) && w.link.late.None?
    && Data(fs) <= w.read
    && EndIsEarned(decode, w, fs[..|fs| - 1], fs[|fs| - 1])
  }

  /** The terminal message t is settled and may be sent. */
  ghost predicate Settled(decode: Decoder, w: Worker, t: Frame) {
    && t.Terminal() && Sendable(t)
    && Open(decode, w)
    && EndIsEarned(decode, w, w.link.written, t)
    && (w.link.late.Some? ==> !w.link.late.value.Terminal() && !t.End?)
  }

  /** The frame being sent: not written yet, or written last. */
  ghost predicate Sending(w: Worker, before: seq<Frame>, f: Frame) {
    && w.link.call == Some(f) && w.link.late.None?
    && w.link.written == if w.link.wrote then before + [f] else before
  }

  ghost predicate WorkerInv(decode: Decoder, w: Worker) {
    && (w.link.call.None? ==> !w.link.wrote)
    && match w.pc
       case Unassigned => w.link == Link.IDLE && w.read == [] && w.chunks == 0 && w.end == More
       case Asking => w.link == Link.IDLE && w.read == [] && w.chunks == 0 && w.end == More
       case Refusing =>
         w.link.call.Some? && w.link.call.value.Error? && Sendable(w.link.call.value) && w.read == []
         && Sending(w, [], w.link.call.value)
       case Starting =>
         Sending(w, [], Start(w.status, w.sse)) && Sendable(Start(w.status, w.sse))
         && w.read == [] && w.chunks == 0 && w.end == More
       case Reading =>
         && w.link.call.None? && w.link.late.None? && w.end == More
         && Opening(w.link.written) && w.status < 400
         && |w.link.written| == w.chunks + 1 && w.link.written[0] == Start(w.status, w.sse)
         && Data(w.link.written) == w.read
       case Chunking =>
         w.link.call.Some? && w.link.call.value.Chunk? && Sendable(w.link.call.value) &&
         exists fs ::
           && Sending(w, fs, w.link.call.value) && w.link.call.value.n == |fs| == w.chunks
           && Opening(fs) && fs != [] && fs[0] == Start(w.status, w.sse) && w.status < 400
           && Data(fs) + w.link.call.value.data == w.read
       case Leaving(t) => w.link.call.None? && Settled(decode, w, t)
       case Telling(t) =>
         w.link.call == Some(t) &&
         if w.link.wrote then Closed(decode, w) && w.link.written[|w.link.written| - 1] == t else Settled(decode, w, t)
       case Finished =>
         w.link.call.None? && (Closed(decode, w) || (!w.alive && Open(decode, w)))
  }

  lemma {:induction false} LastUsageIsGood(decode: Decoder, es: seq<seq<Line>>)
    ensures GoodUsage(LastUsage(decode, es))
  {
    hide Ignored, EventData, Trim;
    if es != [] {
      LastUsageIsGood(decode, es[..|es| - 1]);
    }
  }

  lemma BodyEndIsSendable(decode: Decoder, w: Worker)
    ensures Sendable(AtBodyEnd(decode, w))
  {
    hide LastUsage, Succeeds;
    LastUsageIsGood(decode, Events(Lines(w.read)));
  }

  lemma ConcludeKeeps(decode: Decoder, w: Worker, fs: seq<Frame>, t: Frame)
    requires t.Terminal() && Sendable(t) && EndIsEarned(decode, w, fs, t)
    ensures
      var u := Conclude(w.ctx, t);
      u.Terminal() && Sendable(u) && EndIsEarned(decode, w, fs, u) && (u.End? ==> t.End?)
  {}

  /** Leaving with a terminal message that fits what was written. */
  lemma LeaveKeeps(decode: Decoder, w: Worker, t: Frame)
    requires w.link.call.None? && !w.link.wrote && Settled(decode, w, t)
    ensures WorkerInv(decode, Leave(w, t))
  {
    hide Succeeds, Opening, Trace;
    ConcludeKeeps(decode, w, w.link.written, t);
    var v := Leave(w, t);
    assert v.link == w.link;
  }

  lemma LinkMovesKeeps(decode: Decoder, w: Worker, st: Link.Step)
    requires WorkerInv(decode, w) && (st.Write? || st.WriteLate? || st.DropLate?)
    requires Link.Next(w.link, st).Some?
    ensures WorkerInv(decode, w.(link := Link.Next(w.link, st).value))
  {
    hide Succeeds, Opening, Trace, Sendable, Data;
    var v := w.(link := Link.Next(w.link, st).value);
    if st.WriteLate? {
      LateKeeps(decode, w);
    } else if st.Write? {
      WriteKeeps(decode, w);
    }
  }

  lemma LateMoves(decode: Decoder, w: Worker)
    requires Open(decode, w) && w.link.late.Some? && !w.link.wrote
    ensures
      var v := w.(link := Link.Next(w.link, Link.WriteLate).value);
      if w.link.late.value.Terminal() then Closed(decode, v) else Open(decode, v)
  {
    hide Succeeds, Sendable, Data;
    var f := w.link.late.value;
    var v := w.(link := Link.Next(w.link, Link.WriteLate).value);
    assert v.link.written[..|w.link.written|] == w.link.written;
    assert v.link.written[|w.link.written|] == f;
    DataSnoc(w.link.written, f);
  }

  lemma LateKeeps(decode: Decoder, w: Worker)
    requires WorkerInv(decode, w) && Link.Next(w.link, Link.WriteLate).Some?
    ensures WorkerInv(decode, w.(link := Link.Next(w.link, Link.WriteLate).value))
  {
    hide Succeeds, Sendable, Data, Opening, Trace;
    if w.pc.Leaving? || w.pc.Telling? || w.pc.Finished? {
      LateMoves(decode, w);
    }
  }

  lemma WriteKeeps(decode: Decoder, w: Worker)
    requires WorkerInv(decode, w) && Link.Next(w.link, Link.Write).Some?
    ensures WorkerInv(decode, w.(link := Link.Next(w.link, Link.Write).value))
  {
    hide Succeeds, Data, Opening, Trace, Sendable;
    var v := w.(link := Link.Next(w.link, Link.Write).value);
    if w.pc.Telling? {
      TellWritten(decode, w);
    } else if w.pc.Chunking? {
      assert w.link.written + [w.link.call.value] == v.link.written;
    }
  }

  lemma TellWritten(decode: Decoder, w: Worker)
    requires w.pc.Telling? && w.link.call == Some(w.pc.terminal) && !w.link.wrote && Settled(decode, w, w.pc.terminal)
    ensures
      var v := w.(link := Link.Next(w.link, Link.Write).value);
      Closed(decode, v) && v.link.written[|v.link.written| - 1] == w.pc.terminal
  {
    hide Succeeds, Data, Sendable, Opening, Trace, LateFits;
    var t := w.pc.terminal;
    var v := w.(link := Link.Next(w.link, Link.Write).value);
    TraceExtends(w.link.written, t);
    DataSnoc(w.link.written, t);
    assert v.link.written[..|w.link.written|] == w.link.written;
  }

  // ---- the other steps of the agent ----

  lemma RespondKeeps(decode: Decoder, w: Worker, status: int, sse: bool)
    requires WorkerInv(decode, w) && w.pc.Asking? && 200 <= status
    ensures
      var v := StartSend(w.(status := status, sse := sse), Starting, Start(status, sse));
      v.Some? && WorkerInv(decode, v.value)
  {
    hide Succeeds, Data, Opening, Trace;
  }

  lemma ReadKeeps(decode: Decoder, w: Worker, data: seq<byte>, end: ReadEnd)
    requires WorkerInv(decode, w) && w.pc.Reading? && 0 < |data| <= CHUNK_BYTES
    ensures
      var u := w.(chunks := w.chunks + 1, read := w.read + data, end := end);
      var v := StartSend(u, Chunking, Chunk(u.chunks, data));
      v.Some? && WorkerInv(decode, v.value)
  {
    hide Succeeds, Data, Opening, Trace;
    var u := w.(chunks := w.chunks + 1, read := w.read + data, end := end);
    var v := StartSend(u, Chunking, Chunk(u.chunks, data)).value;
    assert Sending(v, w.link.written, v.link.call.value);
  }

  /** The body ended while nothing was being sent. */
  lemma BodyEndKeeps(decode: Decoder, w: Worker)
    requires w.link.call.None? && !w.link.wrote && w.link.late.None?
    requires Opening(w.link.written) && w.link.written != [] && w.link.written[0] == Start(w.status, w.sse)
    requires w.status < 400 && Data(w.link.written) == w.read && w.end != More
    ensures WorkerInv(decode, Leave(w, AtBodyEnd(decode, w)))
  {
    hide Data, Opening, Trace, Succeeds, ObservedUsage, Sendable;
    BodyEndIsSendable(decode, w);
    LeaveKeeps(decode, w, AtBodyEnd(decode, w));
  }

  lemma FailedIsSendable()
    ensures Sendable(BACKEND_FAILED) && Sendable(End(map[]))
  {}

  lemma AfterStarting(decode: Decoder, w: Worker, ok: bool, underway: bool)
    requires WorkerInv(decode, w) && w.pc.Starting?
    requires Link.Next(w.link, if ok then Link.ReturnOk else Link.ReturnError(underway)).Some?
    ensures
      var v := w.(link := Link.Next(w.link, if ok then Link.ReturnOk else Link.ReturnError(underway)).value);
      AfterSend(decode, v, ok).Some? && WorkerInv(decode, AfterSend(decode, v, ok).value)
  {
    hide Succeeds, AtBodyEnd, Data, Opening, Trace, Sendable;
    var v := w.(link := Link.Next(w.link, if ok then Link.ReturnOk else Link.ReturnError(underway)).value);
    var f := Start(w.status, w.sse);
    NothingIsOpen();
    OneFrame(f);
    FailedIsSendable();
    if !ok {
      LeaveKeeps(decode, v, BACKEND_FAILED);
    } else if w.status >= 400 {
      LeaveKeeps(decode, v, End(map[]));
    }
  }

  lemma ChunkingMeans(decode: Decoder, w: Worker) returns (fs: seq<Frame>)
    requires WorkerInv(decode, w) && w.pc.Chunking?
    ensures w.link.call.Some? && w.link.call.value.Chunk? && Sendable(w.link.call.value)
    ensures Sending(w, fs, w.link.call.value) && w.link.call.value.n == |fs| == w.chunks
    ensures Opening(fs) && fs != [] && fs[0] == Start(w.status, w.sse) && w.status < 400
    ensures Data(fs) + w.link.call.value.data == w.read
  {
    hide Data, Opening, Sendable;
    var f := w.link.call.value;
    fs :| && Sending(w, fs, f) && f.n == |fs| == w.chunks
          && Opening(fs) && fs != [] && fs[0] == Start(w.status, w.sse) && w.status < 400
          && Data(fs) + f.data == w.read;
  }

  lemma ReadingAgain(decode: Decoder, w: Worker)
    requires w.pc.Reading? && w.link.call.None? && !w.link.wrote && w.link.late.None? && w.end == More
    requires Opening(w.link.written) && w.status < 400
    requires |w.link.written| == w.chunks + 1 && w.link.written[0] == Start(w.status, w.sse)
    requires Data(w.link.written) == w.read
    ensures WorkerInv(decode, w)
  {
    hide Data, Opening;
  }

  lemma AfterChunking(decode: Decoder, w: Worker, ok: bool, underway: bool)
    requires WorkerInv(decode, w) && w.pc.Chunking?
    requires Link.Next(w.link, if ok then Link.ReturnOk else Link.ReturnError(underway)).Some?
    ensures
      var v := w.(link := Link.Next(w.link, if ok then Link.ReturnOk else Link.ReturnError(underway)).value);
      AfterSend(decode, v, ok).Some? && WorkerInv(decode, AfterSend(decode, v, ok).value)
  {
    hide WorkerInv, Succeeds, AtBodyEnd, Data, Opening, Trace, Sendable, Leave;
    var v := w.(link := Link.Next(w.link, if ok then Link.ReturnOk else Link.ReturnError(underway)).value);
    var f := w.link.call.value;
    var fs := ChunkingMeans(decode, w);
    TraceExtends(fs, f);
    DataSnoc(fs, f);
    if !ok {
      assert LateFits(decode, v);
      ChunkFailed(decode, v);
    } else if w.end != More {
      BodyEndKeeps(decode, v);
    } else {
      ReadingAgain(decode, v.(pc := Reading));
    }
  }

  lemma ChunkFailed(decode: Decoder, w: Worker)
    requires w.link.call.None? && !w.link.wrote && Open(decode, w)
    requires w.link.late.Some? ==> !w.link.late.value.Terminal()
    ensures WorkerInv(decode, Leave(w, BACKEND_FAILED))
  {
    hide Open, WorkerInv, Leave;
    FailedIsSendable();
    LeaveKeeps(decode, w, BACKEND_FAILED);
  }

  lemma AfterTelling(decode: Decoder, w: Worker, ok: bool, underway: bool)
    requires WorkerInv(decode, w) && w.pc.Telling?
    requires Link.Next(w.link, if ok then Link.ReturnOk else Link.ReturnError(underway)).Some?
    ensures
      var v := w.(link := Link.Next(w.link, if ok then Link.ReturnOk else Link.ReturnError(underway)).value);
      AfterSend(decode, v, ok).Some? && WorkerInv(decode, AfterSend(decode, v, ok).value)
  {
    hide Succeeds, AtBodyEnd, Data, Opening, Sendable;
    if !w.link.wrote {
      TraceExtends(w.link.written, w.pc.terminal);
    }
  }

  lemma AfterRefusing(decode: Decoder, w: Worker, ok: bool, underway: bool)
    requires WorkerInv(decode, w) && w.pc.Refusing?
    requires Link.Next(w.link, if ok then Link.ReturnOk else Link.ReturnError(underway)).Some?
    ensures
      var v := w.(link := Link.Next(w.link, if ok then Link.ReturnOk else Link.ReturnError(underway)).value);
      AfterSend(decode, v, ok).Some? && WorkerInv(decode, AfterSend(decode, v, ok).value)
  {
    hide Succeeds, AtBodyEnd, Data, Opening, Trace, Sendable;
    NothingIsOpen();
    OneFrame(w.link.call.value);
  }

  lemma AfterSendKeeps(decode: Decoder, w: Worker, ok: bool, underway: bool)
    requires WorkerInv(decode, w)
    requires Link.Next(w.link, if ok then Link.ReturnOk else Link.ReturnError(underway)).Some?
    ensures
      var v := w.(link := Link.Next(w.link, if ok then Link.ReturnOk else Link.ReturnError(underway)).value);
      AfterSend(decode, v, ok).Some? ==> WorkerInv(decode, AfterSend(decode, v, ok).value)
  {
    hide WorkerInv, Leave, AtBodyEnd;
    match w.pc
    case Starting => AfterStarting(decode, w, ok, underway);
    case Chunking => AfterChunking(decode, w, ok, underway);
    case Telling(_) => AfterTelling(decode, w, ok, underway);
    case Refusing => AfterRefusing(decode, w, ok, underway);
    case _ =>
  }

  lemma ArriveKeeps(decode: Decoder, requested: bool, w: Worker, refusal: Option<Code>)
    requires WorkerInv(decode, w) && WorkerNext(decode, requested, w, Arrive(refusal)).Some?
    ensures WorkerInv(decode, WorkerNext(decode, requested, w, Arrive(refusal)).value)
  {
    hide Succeeds, Data, Opening, Trace;
    NothingIsOpen();
  }

  lemma ChatFailsKeeps(decode: Decoder, w: Worker, code: Code)
    requires WorkerInv(decode, w) && w.pc.Asking?
    ensures WorkerInv(decode, Leave(w, Error(code, true, map[])))
  {
    hide Succeeds, Data, Opening, Trace;
    NothingIsOpen();
    LeaveKeeps(decode, w, Error(code, true, map[]));
  }

  lemma ReleaseKeeps(decode: Decoder, w: Worker)
    requires WorkerInv(decode, w) && w.pc.Leaving?
    ensures
      var v := StartSend(w, Telling(w.pc.terminal), w.pc.terminal);
      v.Some? && WorkerInv(decode, v.value)
  {
    hide Succeeds, Data, Opening, Trace, Sendable;
  }

  lemma WorkerKeeps(decode: Decoder, requested: bool, w: Worker, a: WorkerAction)
    requires WorkerInv(decode, w) && WorkerNext(decode, requested, w, a).Some?
    ensures WorkerInv(decode, WorkerNext(decode, requested, w, a).value)
  {
    hide WorkerInv, AtBodyEnd, Leave, AfterSend, Opening, Data;
    match a
    case Arrive(refusal) => ArriveKeeps(decode, requested, w, refusal);
    case ChatFails(code) => ChatFailsKeeps(decode, w, code);
    case Respond(status, sse) => RespondKeeps(decode, w, status, sse);
    case LinkMoves(st) => LinkMovesKeeps(decode, w, st);
    case SendReturns(ok, underway) => AfterSendKeeps(decode, w, ok, underway);
    case Read(data, end) => ReadingKeeps(decode, w, data, end);
    case Release => ReleaseKeeps(decode, w);
    case ContextEnds(_) => ContextKeeps(decode, w, w.(ctx := a.to));
    case AgentCloses => ContextKeeps(decode, w, w.(alive := false));
  }

  lemma ReadingKeeps(decode: Decoder, w: Worker, data: seq<byte>, end: ReadEnd)
    requires WorkerInv(decode, w) && WorkerNext(decode, true, w, Read(data, end)).Some?
    ensures WorkerInv(decode, WorkerNext(decode, true, w, Read(data, end)).value)
  {
    hide Succeeds, ObservedUsage, AtBodyEnd, Leave, Data, Opening, Trace, Ended, Sendable;
    if data != [] {
      ReadKeeps(decode, w, data, end);
    } else if end != More {
      BodyEndKeeps(decode, w.(end := end));
    }
  }

  /** The context and the agent's end of the session only ever help the invariant. */
  lemma ContextKeeps(decode: Decoder, w: Worker, v: Worker)
    requires WorkerInv(decode, w) && v == w.(ctx := v.ctx, alive := v.alive) && (v.alive ==> w.alive)
    ensures WorkerInv(decode, v)
  {
    hide Succeeds, ObservedUsage, Data, Trace, Opening, Sendable;
    if w.pc.Chunking? {
      var f := w.link.call.value;
      var fs :| && Sending(w, fs, f) && f.n == |fs| == w.chunks
                && Opening(fs) && fs != [] && fs[0] == Start(w.status, w.sse) && w.status < 400
                && Data(fs) + f.data == w.read;
      assert Sending(v, fs, f);
    }
  }

  // ---- what the coordinator may rely on ----

  lemma WorkerTrace(decode: Decoder, w: Worker)
    requires WorkerInv(decode, w)
    ensures Trace(w.link.written) && Data(w.link.written) <= w.read
    ensures Ended(w.link.written) ==> !Holding(w) && Closed(decode, w)
    ensures w.pc.Finished? && w.alive ==> Ended(w.link.written)
  {
    hide Succeeds, Opening, Trace, Sendable, Data, LateFits;
    var fs := w.link.written;
    NothingIsOpen();
    if w.pc.Chunking? {
      var f := w.link.call.value;
      var before :| && Sending(w, before, f) && f.n == |before| == w.chunks
                    && Opening(before) && before != [] && before[0] == Start(w.status, w.sse) && w.status < 400
                    && Data(before) + f.data == w.read;
      ChunkWritten(before, f);
    } else if w.pc.Refusing? || w.pc.Starting? {
      OneFrame(w.link.call.value);
    } else if Opening(fs) {
      OpeningHasNoEnd(fs);
    }
  }

  lemma ChunkWritten(fs: seq<Frame>, f: Frame)
    requires Opening(fs) && fs != [] && fs[0].status < 400 && f.Chunk? && Sendable(f) && f.n == |fs|
    ensures Trace(fs) && !Ended(fs) && Data(fs) <= Data(fs) + f.data
    ensures Trace(fs + [f]) && !Ended(fs + [f]) && Data(fs + [f]) == Data(fs) + f.data
  {
    OpeningHasNoEnd(fs);
    TraceExtends(fs, f);
    DataSnoc(fs, f);
  }

  /** A trace grows one frame at a time and never after its terminal frame. */
  ghost predicate Grows(fs: seq<Frame>, gs: seq<Frame>) {
    fs == gs || (!Ended(fs) && |gs| == |fs| + 1 && gs[..|fs|] == fs)
  }

  lemma WorkerGrows(decode: Decoder, requested: bool, w: Worker, a: WorkerAction)
    requires WorkerInv(decode, w) && WorkerNext(decode, requested, w, a).Some?
    ensures Grows(w.link.written, WorkerNext(decode, requested, w, a).value.link.written)
  {
    hide WorkerInv, AfterSend;
    if a.LinkMoves? && (a.step.Write? || a.step.WriteLate?) {
      WriteIsNotLate(decode, w);
    } else {
      OnlyLinkMovesWrite(decode, requested, w, a);
    }
  }

  lemma OnlyLinkMovesWrite(decode: Decoder, requested: bool, w: Worker, a: WorkerAction)
    requires WorkerNext(decode, requested, w, a).Some?
    requires a.LinkMoves? ==> a.step.DropLate?
    ensures WorkerNext(decode, requested, w, a).value.link.written == w.link.written
  {
    hide AtBodyEnd, Conclude;
  }

  lemma WriteIsNotLate(decode: Decoder, w: Worker)
    requires WorkerInv(decode, w) && (w.link.call.Some? || w.link.late.Some?) && !w.link.wrote
    ensures !Ended(w.link.written)
  {
    hide Succeeds, EndIsEarned, Sendable, Data;
  }

  /** Where each kind of frame may stand in a trace. */
  lemma TraceFacts(fs: seq<Frame>, i: nat)
    requires Trace(fs) && i < |fs|
    ensures fs[i].Start? <==> i == 0 && !fs[0].Error?
    ensures fs[i].Chunk? ==> i >= 1 && fs[i].n == i
    ensures fs[i].End? ==> i >= 1
    ensures fs[i].Terminal() ==> i == |fs| - 1
    ensures Sendable(fs[i])
    ensures i >= 1 ==> fs[0].Start?
  {
    hide Sendable;
    if Ended(fs) {
      var front := fs[..|fs| - 1];
      assert forall k | 0 <= k < |front| :: front[k] == fs[k];
    }
  }

  // ---- the coordinator's side ----

  function InHand(r: Reader): Option<Frame> {
    match r
    case Checking(m) => Some(m)
    case Unlisting(m) => Some(m)
    case Gating(m) => Some(m)
    case Adding(m) => Some(m)
    case Offering(m, _) => Some(m)
    case Undoing(m) => Some(m)
    case _ => None
  }

  /** How many frames the protocol checks have seen. */
  function Seen(j: Job, r: Reader): int {
    if r.Checking? then j.taken - 1 else j.taken
  }

  /** Accepted frames are the first ones written, without gap; the job leaves the table exactly when
      its terminal frame comes; the protocol checks never fail. */
  ghost predicate ReaderInv(fs: seq<Frame>, j: Job, r: Reader) {
    && j.taken <= |fs| && j.accepted <= fs && |j.accepted| <= j.taken && j.consumed <= |j.accepted|
    && (r.Violated? ==> j.taken == 0 && fs != [] && !WithinLimits(fs[0]))
    && (j.failure.None? || j.failure == Some(SlowConsumer) || j.failure == Some(HostDisconnected))
    && (InHand(r).Some? ==> j.taken > 0 && InHand(r).value == fs[j.taken - 1])
    && (r.Resting? && !j.dropping ==> |j.accepted| == j.taken)
    && ((r.Checking? || r.Unlisting? || r.Gating?) && !j.dropping ==> |j.accepted| == j.taken - 1)
    && (r.Adding? || r.Offering? ==> |j.accepted| == j.taken - 1)
    && (r.Unlisting? ==> r.m.Terminal())
    && (r.Looking? ==> j.dropping)
    && (j.listed && j.taken > 0 && fs[j.taken - 1].Terminal() ==> r.Checking? || r.Unlisting?)
    && (!j.listed ==> j.taken == |fs| && Ended(fs) && !r.Checking? && !r.Unlisting?)
    && (!j.dropping && (Seen(j, r) == 0 || !fs[Seen(j, r) - 1].Terminal()) ==>
          j.started == (Seen(j, r) > 0) && j.seqNo == if Seen(j, r) == 0 then 0 else Seen(j, r) - 1)
  }

  /** Bytes on the event channel. */
  function QueuedBytes(j: Job): int
    requires j.consumed <= |j.accepted|
  {
    |Data(j.accepted)| - |Data(j.accepted[..j.consumed])|
  }

  /** Bytes the read loop has counted but not handed over. */
  function ReaderBytes(r: Reader): nat {
    match r
    case Offering(m, _) => |m.Bytes()|
    case Undoing(m) => |m.Bytes()|
    case _ => 0
  }

  /** Bytes the handler has taken but still counts. */
  function HandlerBytes(pc: HandlerPc): nat {
    match pc
    case Accounting(m) => |m.Bytes()|
    case _ => 0
  }

  ghost predicate QueueInv(j: Job, r: Reader, pc: HandlerPc) {
    && j.consumed <= |j.accepted|
    && j.queued == QueuedBytes(j) + ReaderBytes(r) + HandlerBytes(pc)
    && (r.Offering? ==> r.total >= QueuedBytes(j) + |r.m.Bytes()|)
    && 0 <= QueuedBytes(j) <= QUEUE_BYTES
    && |j.accepted| - j.consumed <= QUEUE_MESSAGES
  }

  /** The handler has not left forward (or chat, before it). */
  predicate Attending(pc: HandlerPc) {
    pc.Chosen? || pc.Requesting? || pc.Breaking? || pc.Selecting? || pc.Accounting? || pc.Handling?
  }

  /** The read loop is on its way to tell the handler. */
  predicate Delivering(r: Reader) {
    r.Gating? || r.Adding? || r.Offering? || r.Undoing? || r.Failing?
  }

  predicate HoldsTerminal(pc: HandlerPc) {
    (pc.Accounting? || pc.Handling?) && pc.m.Terminal()
  }

  /** Whatever can take the job from the handler also leaves it something to wake up on. */
  ghost predicate WakeInv(fs: seq<Frame>, j: Job, r: Reader, pc: HandlerPc, registered: bool) {
    Attending(pc) ==>
      && (j.dropping || r.Swapping? || (j.listed && !registered) ==> j.failure.Some?)
      && (!j.listed ==>
            || Delivering(r) || j.failure.Some?
            || (j.accepted == fs && (j.consumed < |j.accepted| || HoldsTerminal(pc))))
  }

  predicate Reaping(p: Reaper) {
    p.Cancelling? || p.Waiting? || p.Rechecking? || p.Closing?
  }

  predicate Departed(pc: HandlerPc) {
    pc.Probing? || pc.Deciding? || pc.Replying? || pc.Returned?
  }

  /** A dropped job that still holds its place has someone about to reap it. */
  ghost predicate LeakInv(j: Job, r: Reader, p: Reaper, cancels: nat, pc: HandlerPc, open: bool) {
    && (!j.dropping ==> p.Unborn? && !r.Looking? && !Departed(pc))
    && (r.Looking? ==> p.Unborn? && !pc.Probing?)
    && (pc.Probing? ==> p.Unborn?)
    && (p.Unborn? || p == Cancelling(false) ==> cancels == 0)
    && (p == Cancelling(true) || p.Waiting? || p.Rechecking? ==> cancels == 1)
    && cancels <= 1
    && (j.dropping && j.listed ==> r.Looking? || pc.Probing? || Reaping(p) || p.Dead?)
    && (p.Dead? ==> !j.listed || !open)
  }

  /** What the buyer has when the first n accepted frames are handled and forward goes on. */
  ghost predicate Relaying(acc: seq<Frame>, n: nat, stream: bool, h: Handler) {
    && n <= |acc|
    && (forall i | 0 <= i < n :: !acc[i].Terminal())
    && (n == 0 ==> h.status == 0) && h.armed == (n == 0)
    && (n > 0 ==> acc[0] == Start(h.status, stream) && 200 <= h.status < 300)
    && h.committed == (n >= 2)
    && h.relayed == Data(acc[..n])
    && h.heads == (if n >= 2 then [h.status] else [])
    && h.tail == [] && !h.completed && !h.aborted && h.intact
  }

  /** What the buyer has once forward is left. */
  ghost predicate Left(fs: seq<Frame>, j: Job, stream: bool, h: Handler)
    requires j.consumed <= |j.accepted|
  {
    && h.relayed <= Data(j.accepted[..j.consumed])
    && (!h.committed ==> h.relayed == [] && h.tail == [] && !h.completed && !h.aborted && h.intact)
    && (h.committed ==>
          && h.heads == [h.status] && 200 <= h.status < 300
          && j.accepted != [] && j.accepted[0] == Start(h.status, stream)
          && if h.completed then
               j.accepted == fs && Ended(fs) && fs[|fs| - 1].End? && h.relayed == Data(fs)
               && h.tail == [] && !h.aborted && h.intact
             else if stream then
               !h.aborted && h.tail <= TAIL && (h.intact ==> h.tail == TAIL)
             else
               h.tail == [] && (h.intact ==> h.aborted))
  }

  /** A head the gateway writes without a body: its own 502 or 504, or an error status of the backend's. */
  predicate IsDue(h: Handler, head: int) {
    head == 502 || head == 504 || (head == h.status && h.status >= 400)
  }

  /** What a way out of forward promises about the response heads. */
  ghost predicate Promise(canRetry: bool, h: Handler, again: bool) {
    if again then canRetry && !h.committed && h.heads == []
    else (|h.heads| == 1 && (h.committed || IsDue(h, h.heads[0]))) || (h.heads == [] && !h.committed && h.ctx == CutOff)
  }

  ghost predicate Unanswered(h: Handler) {
    !h.committed && h.heads == []
  }

  ghost predicate Going(canRetry: bool, h: Handler, after: After) {
    match after
    case ThenReturn(again) => Promise(canRetry, h, again)
    case ThenReply(code) => Unanswered(h) && code == 504
    case ThenDecide => Unanswered(h)
  }

  ghost predicate HandlerInv(fs: seq<Frame>, j: Job, stream: bool, canRetry: bool, h: Handler) {
    && j.consumed <= |j.accepted|
    && match h.pc
       case Chosen => j.consumed == 0 && Relaying(j.accepted, 0, stream, h)
       case Requesting => j.consumed == 0 && Relaying(j.accepted, 0, stream, h)
       case Breaking => j.consumed == 0 && Relaying(j.accepted, 0, stream, h)
       case Selecting => Relaying(j.accepted, j.consumed, stream, h)
       case Accounting(m) =>
         j.consumed > 0 && m == j.accepted[j.consumed - 1] && Relaying(j.accepted, j.consumed - 1, stream, h)
       case Handling(m) =>
         j.consumed > 0 && m == j.accepted[j.consumed - 1] && Relaying(j.accepted, j.consumed - 1, stream, h)
       case Abandoning(after) => Left(fs, j, stream, h) && Going(canRetry, h, after)
       case Probing(after) => Left(fs, j, stream, h) && Going(canRetry, h, after)
       case Deciding => Left(fs, j, stream, h) && Unanswered(h)
       case Replying(code) => Left(fs, j, stream, h) && Unanswered(h) && (code == 502 || code == 504)
       case Returned(again) => Left(fs, j, stream, h) && Promise(canRetry, h, again)
  }

  ghost predicate DeskInv(fs: seq<Frame>, x: Terms, d: Desk, h: Handler) {
    && ReaderInv(fs, d.job, d.reader)
    && QueueInv(d.job, d.reader, h.pc)
    && WakeInv(fs, d.job, d.reader, h.pc, d.session.registered)
    && LeakInv(d.job, d.reader, d.reaper, d.cancels, h.pc, d.session.open)
    && HandlerInv(fs, d.job, x.stream, x.canRetry, h)
  }

  ghost predicate Inv(x: Attempt) {
    && WorkerInv(x.decode, x.worker)
    && DeskInv(x.worker.link.written, Terms(x.stream, x.canRetry), x.desk, x.handler)
    && RequestInv(x)
  }

  /** A request not sent has not reached the agent, and forward starts only when it is sent. */
  ghost predicate RequestInv(x: Attempt) {
    && (x.desk.requested ==> x.desk.offered)
    && (Forwarding(x.handler.pc) ==> x.desk.requested)
    && (!x.desk.requested ==> x.worker.pc.Unassigned?)
  }

  predicate Forwarding(pc: HandlerPc) {
    pc.Selecting? || pc.Accounting? || pc.Handling?
  }

  lemma RequestKeeps(x: Attempt, a: Action)
    requires RequestInv(x) && Advance(x, a).Some?
    ensures RequestInv(Advance(x, a).value)
  {
    hide WorkerNext, ReaderNext, HandlerNext;
    match a
    case Agent(b) => OnlyArrivalAssigns(x.decode, x.desk.requested, x.worker, b);
    case ReadLoop(b) => ReaderLeavesRequest(x.worker.link.written, x.desk, b);
    case Buyer(b) => HandlerOnlyRequests(Terms(x.stream, x.canRetry), x.desk, x.handler, b);
    case _ =>
  }

  lemma OnlyArrivalAssigns(decode: Decoder, requested: bool, w: Worker, a: WorkerAction)
    requires WorkerNext(decode, requested, w, a).Some?
    ensures WorkerNext(decode, requested, w, a).value.pc.Unassigned? ==> w.pc.Unassigned?
    ensures w.pc.Unassigned? && !(a.Arrive? && requested) ==> WorkerNext(decode, requested, w, a).value.pc.Unassigned?
  {
    hide AtBodyEnd, Conclude;
  }

  lemma ReaderLeavesRequest(fs: seq<Frame>, d: Desk, a: ReaderAction)
    requires ReaderNext(fs, d, a).Some?
    ensures ReaderNext(fs, d, a).value.offered == d.offered && ReaderNext(fs, d, a).value.requested == d.requested
  {
    hide Checked, WithinLimits;
  }

  /** Only BeginRequest offers the request, only from the start, and only what is offered is sent. */
  lemma HandlerOnlyRequests(x: Terms, d: Desk, h: Handler, a: HandlerAction)
    requires HandlerNext(x, d, h, a).Some?
    ensures
      var (e, g) := HandlerNext(x, d, h, a).value;
      && e.offered == (d.offered || a.BeginRequest?) && e.requested == (d.requested || a.WriteRequest?)
      && (a.BeginRequest? ==> h.pc.Chosen?) && (a.WriteRequest? ==> d.offered)
      && (g.pc.Chosen? ==> h.pc.Chosen?)
      && (Forwarding(g.pc) && !Forwarding(h.pc) ==> d.requested)
  {
    hide TAIL_JSON, FailWith, Handled;
    if a.Handle? {
      HandledStaysPut(x, h, a.written, a.ok, a.cut);
    } else if a.WakeContext? || a.WakeTimer? || a.WakeFailure? {
      FailuresLeave(x, a.cut);
    }
  }

  /** A handler that left without offering its request never offers it. */
  lemma UnofferedStays(x: Attempt, a: Action)
    requires !x.desk.offered && !x.handler.pc.Chosen? && Advance(x, a).Some?
    ensures !Advance(x, a).value.desk.offered && !Advance(x, a).value.handler.pc.Chosen?
  {
    hide WorkerNext, ReaderNext, HandlerNext;
    match a
    case ReadLoop(b) => ReaderLeavesRequest(x.worker.link.written, x.desk, b);
    case Buyer(b) => HandlerOnlyRequests(Terms(x.stream, x.canRetry), x.desk, x.handler, b);
    case _ =>
  }

  lemma FreshInv(decode: Decoder, stream: bool, canRetry: bool, open: bool, ctx: Context)
    ensures Inv(Fresh(decode, stream, canRetry, open, ctx))
  {
    hide Data, WorkerInv, ReaderInv, QueueInv, WakeInv, LeakInv, HandlerInv;
    var x := Fresh(decode, stream, canRetry, open, ctx);
    FreshWorker(decode, x.worker);
    FreshDesk(x.desk);
    FreshQueue(x.desk);
    FreshReader(x.desk);
    FreshHandler(x.desk.job, Terms(stream, canRetry), x.handler);
  }

  lemma FreshWorker(decode: Decoder, w: Worker)
    requires w.pc.Unassigned? && w.link == Link.IDLE && w.read == [] && w.chunks == 0 && w.end == More
    ensures WorkerInv(decode, w) && w.link.written == []
  {}

  ghost predicate NewDesk(d: Desk) {
    && d.job == Job(0, true, false, 0, 0, false, [], 0, None) && d.session.registered
    && d.reader.Resting? && d.reaper.Unborn? && d.cancels == 0
  }

  lemma FreshDesk(d: Desk)
    requires NewDesk(d)
    ensures WakeInv([], d.job, d.reader, Chosen, d.session.registered)
    ensures LeakInv(d.job, d.reader, d.reaper, d.cancels, Chosen, d.session.open)
  {}

  lemma FreshQueue(d: Desk)
    requires NewDesk(d)
    ensures QueueInv(d.job, d.reader, Chosen)
  {
    assert d.job.accepted[..0] == [];
  }

  lemma FreshReader(d: Desk)
    requires NewDesk(d)
    ensures ReaderInv([], d.job, d.reader)
  {}

  lemma FreshHandler(j: Job, x: Terms, h: Handler)
    requires j.accepted == [] && j.consumed == 0
    requires h == Handler(Chosen, h.ctx, true, 0, false, false, false, true, [], [], [])
    ensures HandlerInv([], j, x.stream, x.canRetry, h)
  {
    hide Left, Promise, Going;
    assert j.accepted[..0] == [] && Data([]) == [];
  }

  // ---- the agent moves ----

  lemma GrowthKeeps(fs: seq<Frame>, gs: seq<Frame>, x: Terms, d: Desk, h: Handler)
    requires Trace(fs) && Grows(fs, gs) && DeskInv(fs, x, d, h)
    ensures DeskInv(gs, x, d, h)
  {
    hide Data, Trace, QueueInv, LeakInv, Relaying, Promise, Going;
    if fs != gs {
      assert forall i | 0 <= i < |fs| :: fs[i] == gs[i];
    }
  }

  lemma AgentKeeps(x: Attempt, a: WorkerAction)
    requires Inv(x) && Advance(x, Agent(a)).Some?
    ensures Inv(Advance(x, Agent(a)).value)
  {
    hide WorkerInv, WorkerNext, DeskInv, Grows, Trace, Data, RequestInv;
    RequestKeeps(x, Agent(a));
    WorkerTrace(x.decode, x.worker);
    WorkerKeeps(x.decode, x.desk.requested, x.worker, a);
    WorkerGrows(x.decode, x.desk.requested, x.worker, a);
    var y := Advance(x, Agent(a)).value;
    GrowthKeeps(x.worker.link.written, y.worker.link.written, Terms(x.stream, x.canRetry), x.desk, x.handler);
  }

  // ---- the read loop moves ----

  lemma CheckPasses(fs: seq<Frame>, j: Job, m: Frame)
    requires Trace(fs) && ReaderInv(fs, j, Checking(m)) && !j.dropping
    ensures Checked(j, m).Some?
    ensures
      var k := Checked(j, m).value;
      && k == j.(started := k.started, seqNo := k.seqNo)
      && (!m.Terminal() ==> k.started && k.seqNo == j.taken - 1)
  {
    hide Data, Trace, Sendable;
    TraceFacts(fs, j.taken - 1);
    if j.taken > 1 {
      TraceFacts(fs, j.taken - 2);
    }
  }

  lemma TakeKeepsOrder(fs: seq<Frame>, d: Desk)
    requires Trace(fs) && ReaderInv(fs, d.job, d.reader) && ReaderNext(fs, d, Take).Some?
    ensures
      var e := ReaderNext(fs, d, Take).value;
      ReaderInv(fs, e.job, e.reader)
  {
    hide Data, Trace, Sendable, WithinLimits, Checked;
    TraceFacts(fs, d.job.taken);
    OnlyAStatusIsInvalid(fs[d.job.taken]);
  }

  lemma CheckKeepsOrder(fs: seq<Frame>, d: Desk)
    requires Trace(fs) && ReaderInv(fs, d.job, d.reader) && ReaderNext(fs, d, Check).Some?
    ensures
      var e := ReaderNext(fs, d, Check).value;
      ReaderInv(fs, e.job, e.reader)
  {
    hide Data, Trace, Sendable, Checked;
    if !d.job.dropping {
      CheckPasses(fs, d.job, d.reader.m);
    }
  }

  lemma OfferKeepsOrder(fs: seq<Frame>, d: Desk)
    requires Trace(fs) && ReaderInv(fs, d.job, d.reader) && ReaderNext(fs, d, Offer).Some?
    ensures
      var e := ReaderNext(fs, d, Offer).value;
      ReaderInv(fs, e.job, e.reader)
  {
    hide Data, Trace, Sendable, Checked;
    assert d.job.accepted + [d.reader.m] == fs[..d.job.taken];
  }

  lemma ReaderOrderKeeps(fs: seq<Frame>, d: Desk, a: ReaderAction)
    requires Trace(fs) && ReaderInv(fs, d.job, d.reader) && ReaderNext(fs, d, a).Some?
    ensures
      var e := ReaderNext(fs, d, a).value;
      ReaderInv(fs, e.job, e.reader)
  {
    hide Data, Trace, Sendable, Checked;
    match a
    case Take => TakeKeepsOrder(fs, d);
    case Check => CheckKeepsOrder(fs, d);
    case Unlist => TraceFacts(fs, d.job.taken - 1);
    case Offer => OfferKeepsOrder(fs, d);
    case _ =>
  }

  lemma OfferKeepsQueue(fs: seq<Frame>, d: Desk, pc: HandlerPc)
    requires ReaderInv(fs, d.job, d.reader) && QueueInv(d.job, d.reader, pc) && ReaderNext(fs, d, Offer).Some?
    ensures
      var e := ReaderNext(fs, d, Offer).value;
      QueueInv(e.job, e.reader, pc)
  {
    hide Data, Checked, Trace, ReaderInv, HandlerBytes, Opening, Ended;
    DataSnoc(d.job.accepted, d.reader.m);
    assert (d.job.accepted + [d.reader.m])[..d.job.consumed] == d.job.accepted[..d.job.consumed];
  }

  lemma ReaderQueueKeeps(fs: seq<Frame>, d: Desk, a: ReaderAction, pc: HandlerPc)
    requires Trace(fs) && ReaderInv(fs, d.job, d.reader) && QueueInv(d.job, d.reader, pc) && ReaderNext(fs, d, a).Some?
    ensures
      var e := ReaderNext(fs, d, a).value;
      QueueInv(e.job, e.reader, pc)
  {
    hide Data, Checked, Trace, Ended, ReaderInv;
    if a.Offer? {
      OfferKeepsQueue(fs, d, pc);
    } else if a.Check? && !d.job.dropping {
      CheckPasses(fs, d.job, d.reader.m);
    }
  }

  lemma ReaderWakeKeeps(fs: seq<Frame>, d: Desk, a: ReaderAction, pc: HandlerPc)
    requires Trace(fs) && ReaderInv(fs, d.job, d.reader) && ReaderNext(fs, d, a).Some?
    requires WakeInv(fs, d.job, d.reader, pc, d.session.registered)
    ensures
      var e := ReaderNext(fs, d, a).value;
      WakeInv(fs, e.job, e.reader, pc, e.session.registered)
  {
    hide Data, Checked, Trace;
    if a.Check? && !d.job.dropping {
      CheckPasses(fs, d.job, d.reader.m);
    }
    if a.Offer? {
      assert d.job.accepted + [d.reader.m] == fs[..d.job.taken];
    }
  }

  lemma ReaderLeakKeeps(fs: seq<Frame>, d: Desk, a: ReaderAction, pc: HandlerPc)
    requires Trace(fs) && ReaderInv(fs, d.job, d.reader) && ReaderNext(fs, d, a).Some?
    requires LeakInv(d.job, d.reader, d.reaper, d.cancels, pc, d.session.open)
    ensures
      var e := ReaderNext(fs, d, a).value;
      LeakInv(e.job, e.reader, e.reaper, e.cancels, pc, e.session.open)
  {
    hide Data, Checked, Trace;
    if a.Check? && !d.job.dropping {
      CheckPasses(fs, d.job, d.reader.m);
    }
  }

  /** The handler does not mind more accepted frames, nor anything else in the job record. */
  lemma MoreAccepted(fs: seq<Frame>, j: Job, k: Job, stream: bool, canRetry: bool, h: Handler)
    requires HandlerInv(fs, j, stream, canRetry, h)
    requires j.accepted <= k.accepted <= fs && k.consumed == j.consumed
    ensures HandlerInv(fs, k, stream, canRetry, h)
  {
    hide Data, Promise, Going;
    assert k.accepted[..k.consumed] == j.accepted[..j.consumed];
    if j.consumed > 0 {
      assert k.accepted[..k.consumed - 1] == j.accepted[..j.consumed - 1];
    }
  }

  lemma ReaderOnlyAccepts(fs: seq<Frame>, d: Desk, a: ReaderAction)
    requires Trace(fs) && ReaderInv(fs, d.job, d.reader) && ReaderNext(fs, d, a).Some?
    ensures
      var e := ReaderNext(fs, d, a).value;
      d.job.accepted <= e.job.accepted && e.job.consumed == d.job.consumed
  {
    hide Data, Checked, Trace;
    if a.Check? && !d.job.dropping {
      CheckPasses(fs, d.job, d.reader.m);
    }
  }

  lemma ReaderKeeps(x: Attempt, a: ReaderAction)
    requires Inv(x) && Advance(x, ReadLoop(a)).Some?
    ensures Inv(Advance(x, ReadLoop(a)).value)
  {
    hide WorkerInv, QueueInv, WakeInv, LeakInv, HandlerInv, Trace, Data, ReaderNext, RequestInv;
    RequestKeeps(x, ReadLoop(a));
    var fs, d := x.worker.link.written, x.desk;
    WorkerTrace(x.decode, x.worker);
    ReaderOrderKeeps(fs, d, a);
    ReaderQueueKeeps(fs, d, a, x.handler.pc);
    ReaderWakeKeeps(fs, d, a, x.handler.pc);
    ReaderLeakKeeps(fs, d, a, x.handler.pc);
    ReaderOnlyAccepts(fs, d, a);
    MoreAccepted(fs, d.job, ReaderNext(fs, d, a).value.job, x.stream, x.canRetry, x.handler);
  }

  // ---- the reaper and the session move ----

  lemma ReaperKeeps(x: Attempt, a: ReaperAction)
    requires Inv(x) && Advance(x, Reap(a)).Some?
    ensures Inv(Advance(x, Reap(a)).value)
  {
    hide WorkerInv, ReaderInv, QueueInv, WakeInv, HandlerInv, Data, RequestInv;
    RequestKeeps(x, Reap(a));
  }

  lemma SessionKeeps(x: Attempt, a: SessionAction)
    requires Inv(x) && Advance(x, Host(a)).Some?
    ensures Inv(Advance(x, Host(a)).value)
  {
    hide WorkerInv, HandlerInv, Data, ReaderInv, QueueInv, Ended, RequestInv;
    RequestKeeps(x, Host(a));
    var j, k := x.desk.job, Advance(x, Host(a)).value.desk.job;
    assert k == j.(failure := k.failure);
    FailureIsFree(x.worker.link.written, j, x.desk.reader, x.handler.pc, k.failure);
    MoreAccepted(x.worker.link.written, j, k, x.stream, x.canRetry, x.handler);
  }

  lemma FailureIsFree(fs: seq<Frame>, j: Job, r: Reader, pc: HandlerPc, failure: Option<Code>)
    requires failure == j.failure || failure == Some(HostDisconnected)
    requires ReaderInv(fs, j, r) && QueueInv(j, r, pc)
    ensures ReaderInv(fs, j.(failure := failure), r) && QueueInv(j.(failure := failure), r, pc)
    ensures j.accepted <= fs
  {
    hide Data;
  }

  // ---- the handler moves ----

  lemma HandlerQueueKeeps(d: Desk, x: Terms, h: Handler, a: HandlerAction)
    requires QueueInv(d.job, d.reader, h.pc) && HandlerNext(x, d, h, a).Some?
    ensures
      var (e, g) := HandlerNext(x, d, h, a).value;
      QueueInv(e.job, e.reader, g.pc)
  {
    hide Data, FailWith, Handled;
    if a.WakeEvent? {
      DataTake(d.job.accepted, d.job.consumed);
      DataPrefix(d.job.accepted, d.job.consumed + 1);
    } else if a.Handle? {
      HandledStaysPut(x, h, a.written, a.ok, a.cut);
    } else if a.WakeContext? || a.WakeTimer? || a.WakeFailure? {
      FailedLeaves(x, h, DeadlineExceeded, false, a.cut);
      FailedLeaves(x, h, StartTimeout, true, a.cut);
      if a.WakeFailure? {
        FailedLeaves(x, h, d.job.failure.value, true, a.cut);
      }
    }
  }

  lemma FailedLeaves(x: Terms, h: Handler, code: Code, retryable: bool, cut: nat)
    requires cut <= |TAIL|
    ensures FailWith(x, h, code, retryable, cut).pc.Abandoning?
  {}

  lemma HandledStaysPut(x: Terms, h: Handler, written: nat, ok: bool, cut: nat)
    requires h.pc.Handling? && cut <= |TAIL| && written <= |h.pc.m.Bytes()|
    ensures
      var g := Handled(x, h, h.pc.m, written, ok, cut);
      g.pc.Abandoning? || (g.pc.Selecting? && !h.pc.m.Terminal())
  {
    hide FailWith, TAIL_JSON, Visible;
    FailuresLeave(x, cut);
  }

  lemma FailuresLeave(x: Terms, cut: nat)
    requires cut <= |TAIL|
    ensures forall h: Handler, code: Code, retryable: bool :: FailWith(x, h, code, retryable, cut).pc.Abandoning?
  {
    hide TAIL_JSON;
  }

  lemma HandlerWakeKeeps(fs: seq<Frame>, d: Desk, x: Terms, h: Handler, a: HandlerAction)
    requires ReaderInv(fs, d.job, d.reader) && HandlerNext(x, d, h, a).Some?
    requires WakeInv(fs, d.job, d.reader, h.pc, d.session.registered)
    ensures
      var (e, g) := HandlerNext(x, d, h, a).value;
      WakeInv(fs, e.job, e.reader, g.pc, e.session.registered)
  {
    hide Data, FailWith, Handled;
    if a.Handle? {
      HandledStaysPut(x, h, a.written, a.ok, a.cut);
    } else if a.WakeContext? || a.WakeTimer? || a.WakeFailure? {
      FailedLeaves(x, h, DeadlineExceeded, false, a.cut);
      FailedLeaves(x, h, StartTimeout, true, a.cut);
      if a.WakeFailure? {
        FailedLeaves(x, h, d.job.failure.value, true, a.cut);
      }
    }
  }

  lemma HandlerLeakKeeps(d: Desk, x: Terms, h: Handler, a: HandlerAction)
    requires LeakInv(d.job, d.reader, d.reaper, d.cancels, h.pc, d.session.open) && HandlerNext(x, d, h, a).Some?
    ensures
      var (e, g) := HandlerNext(x, d, h, a).value;
      LeakInv(e.job, e.reader, e.reaper, e.cancels, g.pc, e.session.open)
  {
    hide Data, FailWith, Handled;
    if a.Handle? {
      HandledStaysPut(x, h, a.written, a.ok, a.cut);
    } else if a.WakeContext? || a.WakeTimer? || a.WakeFailure? {
      FailedLeaves(x, h, DeadlineExceeded, false, a.cut);
      FailedLeaves(x, h, StartTimeout, true, a.cut);
      if a.WakeFailure? {
        FailedLeaves(x, h, d.job.failure.value, true, a.cut);
      }
    }
  }

  /** What the buyer has while forward may still fail. */
  ghost predicate Midway(j: Job, stream: bool, h: Handler)
    requires j.consumed <= |j.accepted|
  {
    && h.relayed <= Data(j.accepted[..j.consumed])
    && h.tail == [] && !h.completed && !h.aborted && h.intact
    && if h.committed then
         && h.heads == [h.status] && 200 <= h.status < 300
         && j.accepted != [] && j.accepted[0] == Start(h.status, stream)
       else h.heads == [] && h.relayed == []
  }

  lemma RelayingIsMidway(j: Job, n: nat, stream: bool, h: Handler)
    requires n <= j.consumed <= |j.accepted| && Relaying(j.accepted, n, stream, h)
    ensures Midway(j, stream, h)
  {
    hide Data;
    DataPrefix(j.accepted[..j.consumed], n);
    assert j.accepted[..j.consumed][..n] == j.accepted[..n];
    NothingIsOpen();
    assert j.accepted[..0] == [];
    if n > 0 {
      DataTake(j.accepted, 0);
    }
  }

  lemma FailLeaves(fs: seq<Frame>, j: Job, x: Terms, h: Handler, code: Code, retryable: bool, cut: nat)
    requires j.consumed <= |j.accepted| && Midway(j, x.stream, h) && cut <= |TAIL|
    ensures HandlerInv(fs, j, x.stream, x.canRetry, FailWith(x, h, code, retryable, cut))
  {
    hide Data, Relaying, TAIL_JSON, Ended;
  }

  lemma HandleStart(fs: seq<Frame>, j: Job, x: Terms, h: Handler, written: nat, ok: bool, cut: nat)
    requires Trace(fs) && j.accepted <= fs && HandlerInv(fs, j, x.stream, x.canRetry, h)
    requires h.pc.Handling? && h.pc.m.Start? && cut <= |TAIL| && written <= |h.pc.m.Bytes()|
    ensures HandlerInv(fs, j, x.stream, x.canRetry, Handled(x, h, h.pc.m, written, ok, cut))
  {
    hide Data, Trace, TAIL_JSON, FailWith, Transient, Ended;
    TraceFacts(fs, j.consumed - 1);
    assert j.consumed == 1;
    NothingIsOpen();
    RelayingIsMidway(j, 0, x.stream, h);
    DataTake(j.accepted, 0);
    assert j.accepted[..0] == [];
    var g := h.(status := h.pc.m.status);
    FailLeaves(fs, j, x, g, InvalidBackendResponse, true, cut);
  }

  lemma HandleChunk(fs: seq<Frame>, j: Job, x: Terms, h: Handler, written: nat, ok: bool, cut: nat)
    requires Trace(fs) && j.accepted <= fs && HandlerInv(fs, j, x.stream, x.canRetry, h)
    requires h.pc.Handling? && h.pc.m.Chunk? && cut <= |TAIL| && written <= |h.pc.m.Bytes()|
    ensures HandlerInv(fs, j, x.stream, x.canRetry, Handled(x, h, h.pc.m, written, ok, cut))
  {
    hide Data, Trace, TAIL_JSON, FailWith, Ended;
    TraceFacts(fs, j.consumed - 1);
    DataTake(j.accepted, j.consumed - 1);
    RelayingIsMidway(j, j.consumed - 1, x.stream, h);
    if ok && written == |h.pc.m.data| {
      assert h.pc.m.data[..written] == h.pc.m.data;
    }
  }

  lemma HandleEnd(fs: seq<Frame>, j: Job, x: Terms, h: Handler, written: nat, ok: bool, cut: nat)
    requires Trace(fs) && j.accepted <= fs && HandlerInv(fs, j, x.stream, x.canRetry, h)
    requires h.pc.Handling? && h.pc.m.Terminal() && cut <= |TAIL| && written <= |h.pc.m.Bytes()|
    ensures HandlerInv(fs, j, x.stream, x.canRetry, Handled(x, h, h.pc.m, written, ok, cut))
  {
    hide Data, Trace, TAIL_JSON, FailWith;
    TraceFacts(fs, j.consumed - 1);
    assert j.accepted == fs;
    DataTake(fs, j.consumed - 1);
    assert fs[..j.consumed] == fs;
    RelayingIsMidway(j, j.consumed - 1, x.stream, h);
    FailLeaves(fs, j, x, h, EmptyBackendResponse, true, cut);
    if h.pc.m.Error? {
      FailLeaves(fs, j, x, h, Visible(h.pc.m.code), h.pc.m.retryable, cut);
    }
  }

  lemma WakeKeepsHandler(fs: seq<Frame>, d: Desk, x: Terms, h: Handler, a: HandlerAction)
    requires HandlerInv(fs, d.job, x.stream, x.canRetry, h) && HandlerNext(x, d, h, a).Some?
    requires a.WakeContext? || a.WakeTimer? || a.WakeFailure?
    ensures
      var (e, g) := HandlerNext(x, d, h, a).value;
      HandlerInv(fs, e.job, x.stream, x.canRetry, g)
  {
    hide Data, Relaying, TAIL_JSON, FailWith;
    var e := HandlerNext(x, d, h, a).value.0;
    RelayingIsMidway(e.job, e.job.consumed, x.stream, h);
    FailLeaves(fs, e.job, x, h, DeadlineExceeded, false, a.cut);
    FailLeaves(fs, e.job, x, h, StartTimeout, true, a.cut);
    if a.WakeFailure? {
      FailLeaves(fs, e.job, x, h, d.job.failure.value, true, a.cut);
    }
  }

  lemma HandleKeepsHandler(fs: seq<Frame>, d: Desk, x: Terms, h: Handler, written: nat, ok: bool, cut: nat)
    requires Trace(fs) && d.job.accepted <= fs && HandlerInv(fs, d.job, x.stream, x.canRetry, h)
    requires h.pc.Handling? && cut <= |TAIL| && written <= |h.pc.m.Bytes()|
    ensures HandlerInv(fs, d.job, x.stream, x.canRetry, Handled(x, h, h.pc.m, written, ok, cut))
  {
    hide HandlerInv, Trace, Handled, Data;
    if h.pc.m.Start? {
      HandleStart(fs, d.job, x, h, written, ok, cut);
    } else if h.pc.m.Chunk? {
      HandleChunk(fs, d.job, x, h, written, ok, cut);
    } else {
      HandleEnd(fs, d.job, x, h, written, ok, cut);
    }
  }

  predicate WayOut(a: HandlerAction) {
    a.SetDropping? || a.Probe? || a.Decide? || a.Reply?
  }

  lemma WayOutKeepsHandler(fs: seq<Frame>, d: Desk, x: Terms, h: Handler, a: HandlerAction)
    requires HandlerInv(fs, d.job, x.stream, x.canRetry, h) && HandlerNext(x, d, h, a).Some?
    requires WayOut(a)
    ensures
      var (e, g) := HandlerNext(x, d, h, a).value;
      HandlerInv(fs, e.job, x.stream, x.canRetry, g)
  {
    hide Data, TAIL_JSON, FailWith, Handled, Ended, Relaying, Left;
    var (e, g) := HandlerNext(x, d, h, a).value;
    LeftLasts(fs, d.job, e.job, x.stream, h, g);
  }

  lemma LeftLasts(fs: seq<Frame>, j: Job, k: Job, stream: bool, h: Handler, g: Handler)
    requires j.consumed <= |j.accepted| && k == j.(dropping := k.dropping)
    requires g == h.(pc := g.pc) || (!h.committed && g == h.(pc := g.pc, heads := g.heads))
    ensures Left(fs, j, stream, h) ==> Left(fs, k, stream, g)
  {
    hide Data, TAIL_JSON, Ended;
  }

  lemma ContextKeepsHandler(fs: seq<Frame>, j: Job, x: Terms, h: Handler, to: Context)
    requires HandlerInv(fs, j, x.stream, x.canRetry, h) && h.ctx.Live?
    ensures HandlerInv(fs, j, x.stream, x.canRetry, h.(ctx := to))
  {
    hide Data, TAIL_JSON, Ended;
  }

  /** The steps before forward, and taking an event. */
  lemma WayInKeepsHandler(fs: seq<Frame>, d: Desk, x: Terms, h: Handler, a: HandlerAction)
    requires HandlerInv(fs, d.job, x.stream, x.canRetry, h) && HandlerNext(x, d, h, a).Some?
    requires !(a.Handle? || a.WakeContext? || a.WakeTimer? || a.WakeFailure? || a.BuyerContextEnds? || WayOut(a))
    ensures
      var (e, g) := HandlerNext(x, d, h, a).value;
      HandlerInv(fs, e.job, x.stream, x.canRetry, g)
  {
    hide Data, TAIL_JSON, FailWith, Handled, Ended;
    if a.TooLate? || a.BreakPeer? {
      RelayingIsMidway(d.job, 0, x.stream, h);
    }
  }

  lemma HandlerSelfKeeps(fs: seq<Frame>, d: Desk, x: Terms, h: Handler, a: HandlerAction)
    requires Trace(fs) && d.job.accepted <= fs
    requires HandlerInv(fs, d.job, x.stream, x.canRetry, h) && HandlerNext(x, d, h, a).Some?
    ensures
      var (e, g) := HandlerNext(x, d, h, a).value;
      HandlerInv(fs, e.job, x.stream, x.canRetry, g)
  {
    hide HandlerInv, Data, Trace, FailWith, Handled;
    if a.Handle? {
      HandleKeepsHandler(fs, d, x, h, a.written, a.ok, a.cut);
    } else if a.WakeContext? || a.WakeTimer? || a.WakeFailure? {
      WakeKeepsHandler(fs, d, x, h, a);
    } else if WayOut(a) {
      WayOutKeepsHandler(fs, d, x, h, a);
    } else if a.BuyerContextEnds? {
      ContextKeepsHandler(fs, d.job, x, h, a.to);
    } else {
      WayInKeepsHandler(fs, d, x, h, a);
    }
  }

  lemma HandlerKeepsOrder(fs: seq<Frame>, d: Desk, x: Terms, h: Handler, a: HandlerAction)
    requires ReaderInv(fs, d.job, d.reader) && HandlerNext(x, d, h, a).Some?
    ensures
      var (e, g) := HandlerNext(x, d, h, a).value;
      ReaderInv(fs, e.job, e.reader)
  {
    hide Data, FailWith, Handled;
  }

  lemma HandlerKeeps(x: Attempt, a: HandlerAction)
    requires Inv(x) && Advance(x, Buyer(a)).Some?
    ensures Inv(Advance(x, Buyer(a)).value)
  {
    hide WorkerInv, QueueInv, WakeInv, LeakInv, HandlerInv, Trace, Data, HandlerNext, RequestInv;
    RequestKeeps(x, Buyer(a));
    var fs, d, t := x.worker.link.written, x.desk, Terms(x.stream, x.canRetry);
    WorkerTrace(x.decode, x.worker);
    HandlerKeepsOrder(fs, d, t, x.handler, a);
    HandlerQueueKeeps(d, t, x.handler, a);
    HandlerWakeKeeps(fs, d, t, x.handler, a);
    HandlerLeakKeeps(d, t, x.handler, a);
    HandlerSelfKeeps(fs, d, t, x.handler, a);
  }

  /** Every step of every goroutine keeps the invariant. */
  lemma StepKeepsInv(x: Attempt, a: Action)
    requires Inv(x) && Advance(x, a).Some?
    ensures Inv(Advance(x, a).value)
  {
    hide Inv, Advance;
    match a
    case Agent(b) => AgentKeeps(x, b);
    case ReadLoop(b) => ReaderKeeps(x, b);
    case Buyer(b) => HandlerKeeps(x, b);
    case Reap(b) => ReaperKeeps(x, b);
    case Host(b) => SessionKeeps(x, b);
  }
}
