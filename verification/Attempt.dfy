/** One inference attempt as a small-step transition system. Four goroutines touch it: the agent's
    job goroutine, the host's read loop, the buyer's handler and the cancel reaper. Every lock
    region, atomic operation and channel operation is a step of its own, so that any interleaving
    of them is a run. The connection is one FIFO per attempt, which allows every order of arrival
    that one FIFO for the whole session allows. */
module Attempt {
  import opened Types
  import opened ObserverSpec
  import Link

  /** A Go context: still live, past its deadline, or cancelled. */
  datatype Context = Live | PastDeadline | CutOff

  // ---- the agent's side ----

  /** How the last read of the backend's body ended. */
  datatype ReadEnd = More | Eof | Broken

  datatype WorkerPc =
    | Unassigned                                 // the request has not arrived
    | Refusing                                   // the session loop sends a rejection
    | Asking                                     // waiting for the backend's response headers
    | Starting                                   // sending response_start
    | Reading                                    // reading the backend's body
    | Chunking                                   // sending response_chunk
    | Leaving(terminal: Frame)                   // execute has returned; the slot is still held
    | Telling(terminal: Frame)                   // slot released; sending the terminal frame
    | Finished

  /** The job goroutine of the agent: its sends, what it read of the body, and whether the agent's
      end of the session is still open. */
  datatype Worker = Worker(
    pc: WorkerPc, ctx: Context, link: Link.Link, status: int, sse: bool,
    chunks: nat, read: seq<byte>, end: ReadEnd, alive: bool)

  // ---- the coordinator's side ----

  /** The job record. taken counts the frames read off the connection; accepted are the frames ever
      put on the event channel and consumed counts those taken off it again. */
  datatype Job = Job(
    taken: nat, listed: bool, started: bool, seqNo: nat, queued: int, dropping: bool,
    accepted: seq<Frame>, consumed: nat, failure: Option<Code>)

  /** The host's read loop, as far as this attempt is concerned. */
  datatype Reader =
    | Resting
    | Checking(m: Frame)
    | Unlisting(m: Frame)
    | Gating(m: Frame)
    | Adding(m: Frame)
    | Offering(m: Frame, total: int)
    | Undoing(m: Frame)
    | Failing
    | Swapping
    | Looking
    | Violated

  /** The goroutine that abandon starts. */
  datatype Reaper = Unborn | Cancelling(wrote: bool) | Waiting | Rechecking | Closing | Dead

  /** What the handler does once abandon has returned. */
  datatype After = ThenReturn(again: bool) | ThenReply(code: int) | ThenDecide

  datatype HandlerPc =
    | Chosen                                     // the job was selected
    | Requesting                                 // sending the request
    | Breaking                                   // the request failed; closing the peer
    | Selecting                                  // forward waits in its select
    | Accounting(m: Frame)                       // took an event; queued not yet reduced
    | Handling(m: Frame)
    | Abandoning(after: After)                   // about to set dropping
    | Probing(after: After)                      // dropping set; looking the job up
    | Deciding                                   // retry after a failed request, or give up
    | Replying(code: int)                        // writing an error response
    | Returned(again: bool)

  /** The buyer's handler, and everything it wrote to the buyer: the response heads, the bytes
      relayed from chunks, and the interruption tail. intact says that no write failed. */
  datatype Handler = Handler(
    pc: HandlerPc, ctx: Context, armed: bool, status: int, committed: bool, completed: bool,
    aborted: bool, intact: bool, heads: seq<int>, relayed: seq<byte>, tail: seq<byte>)

  /** The host's session as the coordinator sees it. */
  datatype Session = Session(open: bool, registered: bool)

  /** The coordinator's side of the attempt: the session, whether the request was handed to the peer
      and written, the job record, the read loop, the reaper and the cancel frames it wrote. */
  datatype Desk = Desk(
    session: Session, offered: bool, requested: bool,
    job: Job, reader: Reader, reaper: Reaper, cancels: nat)

  datatype Attempt = Attempt(
    decode: Decoder, stream: bool, canRetry: bool, worker: Worker, desk: Desk, handler: Handler)

  /** A job as selectJob creates it, for a handler whose context is as given. */
  function Fresh(decode: Decoder, stream: bool, canRetry: bool, open: bool, ctx: Context): Attempt {
    Attempt(decode, stream, canRetry,
            Worker(Unassigned, Live, Link.IDLE, 0, false, 0, [], More, true),
            Desk(Session(open, true), false, false,
                 Job(0, true, false, 0, 0, false, [], 0, None), Resting, Unborn, 0),
            Handler(Chosen, ctx, true, 0, false, false, false, true, [], [], []))
  }

  // ---- steps of the agent ----

  datatype WorkerAction =
    | Arrive(refusal: Option<Code>)
    | ChatFails(code: Code)
    | Respond(status: int, sse: bool)
    | LinkMoves(step: Link.Step)
    | SendReturns(ok: bool, underway: bool)
    | Read(data: seq<byte>, end: ReadEnd)
    | Release
    | ContextEnds(to: Context)
    | AgentCloses

  /** The deferred correction of the terminal message when the job's context has ended. */
  function Conclude(ctx: Context, t: Frame): Frame
    requires t.Terminal()
  {
    match ctx
    case Live => t
    case PastDeadline => Error(DeadlineExceeded, true, t.usage)
    case CutOff => Error(Cancelled, false, t.usage)
  }

  ghost function ObservedUsage(decode: Decoder, sse: bool, body: seq<byte>): Usage {
    if sse then StreamUsage(decode, body)
    else if |body| <= BODY_LIMIT then DocUsage(decode, body)
    else map[]
  }

  /** The terminal message after the body's last read. */
  ghost function AtBodyEnd(decode: Decoder, w: Worker): (t: Frame)
    ensures t.Terminal()
  {
    var usage := ObservedUsage(decode, w.sse, w.read);
    if w.end == Broken then Error(StreamInterrupted, true, usage)
    else if w.sse && w.status < 300 && !Succeeds(decode, w.read) then Error(StreamInterrupted, true, usage)
    else End(usage)
  }

  function Leave(w: Worker, t: Frame): Worker
    requires t.Terminal()
  {
    w.(pc := Leaving(Conclude(w.ctx, t)))
  }

  const BACKEND_FAILED := Error(BackendFailed, true, map[])

  function StartSend(w: Worker, pc: WorkerPc, f: Frame): Option<Worker> {
    match Link.Next(w.link, Link.Begin(f))
    case Some(l) => Some(w.(pc := pc, link := l))
    case None => None
  }

  predicate Refusal(c: Code) {
    c in {Busy, BackendUnavailable, ModelNotAllowed, InvalidRequest}
  }

  /** What follows the return of a Send. */
  ghost function AfterSend(decode: Decoder, w: Worker, ok: bool): Option<Worker> {
    match w.pc
    case Starting =>
      Some(if !ok then Leave(w, BACKEND_FAILED)
           else if w.status >= 400 then Leave(w, End(map[]))
           else w.(pc := Reading))
    case Chunking =>
      Some(if !ok then Leave(w, BACKEND_FAILED)
           else if w.end == More then w.(pc := Reading)
           else Leave(w, AtBodyEnd(decode, w)))
    case Telling(t) => Some(w.(pc := Finished, alive := w.alive && ok))
    case Refusing => Some(w.(pc := Finished, alive := w.alive && ok))
    case _ => None
  }

  ghost function WorkerNext(decode: Decoder, requested: bool, w: Worker, a: WorkerAction): Option<Worker> {
    match a
    case Arrive(refusal) =>
      if w.pc.Unassigned? && requested then
        match refusal
        case None => Some(w.(pc := Asking))
        case Some(c) =>
          if Refusal(c) then StartSend(w, Refusing, Error(c, c == Busy || c == BackendUnavailable, map[])) else None
      else None
    case ChatFails(code) =>
      if w.pc.Asking? && code in {StartTimeout, BackendFailed, InvalidBackendResponse} then
        Some(Leave(w, Error(code, true, map[])))
      else None
    case Respond(status, sse) =>
      // a status of 400 or more is forwarded without its body and before the test for 599
      if w.pc.Asking? && 200 <= status && (status >= 400 ==> !sse) then
        StartSend(w.(status := status, sse := sse), Starting, Start(status, sse))
      else None
    case LinkMoves(st) =>
      if st.Write? || st.WriteLate? || st.DropLate? then
        match Link.Next(w.link, st)
        case Some(l) => Some(w.(link := l))
        case None => None
      else None
    case SendReturns(ok, underway) =>
      (match Link.Next(w.link, if ok then Link.ReturnOk else Link.ReturnError(underway))
       case Some(l) => AfterSend(decode, w.(link := l), ok)
       case None => None)
    case Read(data, end) =>
      if !w.pc.Reading? || |data| > CHUNK_BYTES then None
      else if data != [] then
        StartSend(w.(chunks := w.chunks + 1, read := w.read + data, end := end), Chunking, Chunk(w.chunks + 1, data))
      else if end == More then Some(w)
      else
        var done := w.(end := end);
        Some(Leave(done, AtBodyEnd(decode, done)))
    case Release =>
      if w.pc.Leaving? then StartSend(w, Telling(w.pc.terminal), w.pc.terminal) else None
    case ContextEnds(to) =>
      if w.ctx.Live? then Some(w.(ctx := to)) else None
    case AgentCloses =>
      Some(w.(alive := false))
  }

  /** The attempt holds one of the agent's slots. */
  predicate Holding(w: Worker) {
    w.pc.Asking? || w.pc.Starting? || w.pc.Reading? || w.pc.Chunking? || w.pc.Leaving?
  }

  // ---- steps of the coordinator's read loop ----

  datatype ReaderAction = Take | Check | Unlist | Gate | Add | Offer | Undo | Fail | Swap | Look

  /** A frame that passes validation. */
  predicate WithinLimits(f: Frame) {
    match f
    case Start(status, _) => 200 <= status <= 599
    case Chunk(n, data) => n >= 1 && 0 < |data| <= CHUNK_BYTES
    case End(usage) => GoodUsage(usage)
    case Error(_, _, usage) => GoodUsage(usage)
  }

  /** The protocol checks of deliver: None cuts the host off. */
  function Checked(j: Job, m: Frame): Option<Job> {
    match m
    case Start(_, _) => if j.started then None else Some(j.(started := true))
    case Chunk(n, _) => if !j.started || n != j.seqNo + 1 then None else Some(j.(seqNo := n))
    case End(_) => if !j.started then None else Some(j)
    case Error(_, _, _) => Some(j)
  }

  /** fs are the frames written on the connection so far. Read validates each before deliver sees it. */
  function ReaderNext(fs: seq<Frame>, d: Desk, a: ReaderAction): Option<Desk> {
    var j, r := d.job, d.reader;
    match a
    case Take =>
      if r.Resting? && d.session.registered && j.taken < |fs| then
        if !WithinLimits(fs[j.taken]) then Some(d.(reader := Violated))
        else Some(d.(job := j.(taken := j.taken + 1), reader := if j.listed then Checking(fs[j.taken]) else Resting))
      else None
    case Check =>
      if r.Checking? then
        var next := if r.m.Terminal() then Unlisting(r.m) else Gating(r.m);
        if j.dropping then Some(d.(reader := next))
        else
          match Checked(j, r.m)
          case Some(k) => Some(d.(job := k, reader := next))
          case None => Some(d.(reader := Violated))
      else None
    case Unlist =>
      if r.Unlisting? then Some(d.(job := j.(listed := false), reader := Gating(r.m))) else None
    case Gate =>
      if r.Gating? then Some(d.(reader := if j.dropping then Resting else Adding(r.m))) else None
    case Add =>
      if r.Adding? then
        var total := j.queued + |r.m.Bytes()|;
        Some(d.(job := j.(queued := total), reader := Offering(r.m, total)))
      else None
    case Offer =>
      if r.Offering? then
        if r.total <= QUEUE_BYTES && |j.accepted| - j.consumed < QUEUE_MESSAGES then
          Some(d.(job := j.(accepted := j.accepted + [r.m]), reader := Resting))
        else Some(d.(reader := Undoing(r.m)))
      else None
    case Undo =>
      if r.Undoing? then Some(d.(job := j.(queued := j.queued - |r.m.Bytes()|), reader := Failing)) else None
    case Fail =>
      if r.Failing? then
        Some(d.(job := j.(failure := if j.failure.None? then Some(SlowConsumer) else j.failure), reader := Swapping))
      else None
    case Swap =>
      if r.Swapping? then
        Some(d.(job := j.(dropping := true), reader := if j.dropping then Resting else Looking))
      else None
    case Look =>
      if r.Looking? then Some(d.(reader := Resting, reaper := if j.listed then Cancelling(false) else d.reaper))
      else None
  }

  // ---- steps of the buyer's handler ----

  datatype HandlerAction =
    | TooLate | BeginRequest | WriteRequest | RequestSent | RequestFails | BreakPeer
    | WakeContext(cut: nat) | WakeTimer(cut: nat) | WakeFailure(cut: nat) | WakeEvent
    | Account | Handle(written: nat, ok: bool, cut: nat)
    | SetDropping | Probe | Decide | Reply | BuyerContextEnds(to: Context)

  /** What the buyer asked for, and whether this is the first attempt. */
  datatype Terms = Terms(stream: bool, canRetry: bool)

  predicate Transient(status: int) {
    status in {408, 429, 500, 502, 503, 504}
  }

  /** The code the buyer may see for an agent's error. */
  function Visible(c: Code): Code {
    if c in {Busy, BackendUnavailable, ModelNotAllowed, InvalidRequest, StartTimeout, DeadlineExceeded,
             Cancelled, StreamInterrupted, InvalidBackendResponse}
    then c else BackendFailed
  }

  function GatewayStatus(c: Code): int {
    if c == DeadlineExceeded || c == StartTimeout then 504 else 502
  }

  function Exit(h: Handler, again: bool): Handler {
    h.(pc := Abandoning(ThenReturn(again)))
  }

  /** The fail closure of forward. cut is how much of the tail the buyer takes. */
  function FailWith(x: Terms, h: Handler, code: Code, retryable: bool, cut: nat): Handler
    requires cut <= |TAIL|
  {
    if !h.committed then
      if x.canRetry && retryable && h.ctx.Live? then Exit(h, true)
      else if h.ctx != CutOff then Exit(h.(heads := h.heads + [GatewayStatus(code)]), false)
      else Exit(h, false)
    else if x.stream then Exit(h.(tail := TAIL[..cut], intact := h.intact && cut == |TAIL|), false)
    else Exit(h.(aborted := true), false)
  }

  /** One event. written is how many bytes of a chunk the buyer took; ok that write and flush succeeded. */
  function Handled(x: Terms, h: Handler, m: Frame, written: nat, ok: bool, cut: nat): Handler
    requires cut <= |TAIL| && written <= |m.Bytes()|
  {
    match m
    case Start(status, sse) =>
      var g := h.(status := status);
      if Transient(status) && x.canRetry then Exit(g, true)
      else if status >= 400 then Exit(g.(heads := g.heads + [status]), false)
      else if status >= 300 || x.stream != sse then FailWith(x, g, InvalidBackendResponse, true, cut)
      else g.(armed := false, pc := Selecting)
    case Chunk(_, data) =>
      if h.status == 0 then FailWith(x, h, InvalidBackendResponse, false, cut)
      else
        var g := h.(heads := if h.committed then h.heads else h.heads + [h.status], committed := true,
                    relayed := h.relayed + data[..written]);
        if ok && written == |data| then g.(pc := Selecting) else Exit(g.(intact := false), false)
    case End(_) =>
      if !h.committed then FailWith(x, h, EmptyBackendResponse, true, cut)
      else Exit(h.(completed := true), false)
    case Error(code, retryable, _) => FailWith(x, h, Visible(code), retryable, cut)
  }

  function Onward(after: After): HandlerPc {
    match after
    case ThenReturn(again) => Returned(again)
    case ThenReply(code) => Replying(code)
    case ThenDecide => Deciding
  }

  function HandlerNext(x: Terms, d: Desk, h: Handler, a: HandlerAction): Option<(Desk, Handler)> {
    var j := d.job;
    match a
    case TooLate =>
      if h.pc.Chosen? then Some((d, h.(pc := Abandoning(ThenReply(504))))) else None
    case BeginRequest =>
      if h.pc.Chosen? then Some((d.(offered := true), h.(pc := Requesting))) else None
    case WriteRequest =>
      if d.offered && !d.requested then Some((d.(requested := true), h)) else None
    case RequestSent =>
      if h.pc.Requesting? && d.requested then Some((d, h.(pc := Selecting))) else None
    case RequestFails =>
      if h.pc.Requesting? then Some((d, h.(pc := Breaking))) else None
    case BreakPeer =>
      if h.pc.Breaking? then
        Some((d.(session := d.session.(open := false)), h.(pc := Abandoning(ThenDecide))))
      else None
    case WakeContext(cut) =>
      if h.pc.Selecting? && !h.ctx.Live? && cut <= |TAIL| then
        Some((d, FailWith(x, h, DeadlineExceeded, false, cut)))
      else None
    case WakeTimer(cut) =>
      if h.pc.Selecting? && h.armed && cut <= |TAIL| then Some((d, FailWith(x, h, StartTimeout, true, cut))) else None
    case WakeFailure(cut) =>
      if h.pc.Selecting? && j.failure.Some? && cut <= |TAIL| then
        Some((d.(job := j.(failure := None)), FailWith(x, h, j.failure.value, true, cut)))
      else None
    case WakeEvent =>
      if h.pc.Selecting? && j.consumed < |j.accepted| then
        Some((d.(job := j.(consumed := j.consumed + 1)), h.(pc := Accounting(j.accepted[j.consumed]))))
      else None
    case Account =>
      if h.pc.Accounting? then
        Some((d.(job := j.(queued := j.queued - |h.pc.m.Bytes()|)), h.(pc := Handling(h.pc.m))))
      else None
    case Handle(written, ok, cut) =>
      if h.pc.Handling? && cut <= |TAIL| && written <= |h.pc.m.Bytes()| then
        Some((d, Handled(x, h, h.pc.m, written, ok, cut)))
      else None
    case SetDropping =>
      if h.pc.Abandoning? then
        Some((d.(job := j.(dropping := true)),
              h.(pc := if j.dropping then Onward(h.pc.after) else Probing(h.pc.after))))
      else None
    case Probe =>
      if h.pc.Probing? then
        Some((d.(reaper := if j.listed then Cancelling(false) else d.reaper), h.(pc := Onward(h.pc.after))))
      else None
    case Decide =>
      if h.pc.Deciding? then
        Some((d, h.(pc := if x.canRetry && h.ctx.Live? then Returned(true) else Replying(502))))
      else None
    case Reply =>
      if h.pc.Replying? then Some((d, h.(heads := h.heads + [h.pc.code], pc := Returned(false)))) else None
    case BuyerContextEnds(to) =>
      if h.ctx.Live? then Some((d, h.(ctx := to))) else None
  }

  // ---- steps of the reaper and of the session ----

  datatype ReaperAction = WriteCancel | CancelSent | CancelFails | PeerDone | Timeout | Recheck | ClosePeer

  function ReaperNext(d: Desk, a: ReaperAction): Option<Desk> {
    match a
    case WriteCancel =>
      if d.reaper == Cancelling(false) then Some(d.(reaper := Cancelling(true), cancels := d.cancels + 1)) else None
    case CancelSent =>
      if d.reaper == Cancelling(true) then Some(d.(reaper := Waiting)) else None
    case CancelFails =>
      if d.reaper.Cancelling? then Some(d.(reaper := Closing)) else None
    case PeerDone =>
      if d.reaper.Waiting? && !d.session.open then Some(d.(reaper := Dead)) else None
    case Timeout =>
      if d.reaper.Waiting? then Some(d.(reaper := Rechecking)) else None
    case Recheck =>
      if d.reaper.Rechecking? then Some(d.(reaper := if d.job.listed then Closing else Dead)) else None
    case ClosePeer =>
      if d.reaper.Closing? then Some(d.(session := d.session.(open := false), reaper := Dead)) else None
  }

  datatype SessionAction = SessionCloses | Remove

  /** Closing can come from anywhere: heartbeats, other attempts, shutdown. Removal is the read
      loop's last act, and fails every job still listed. */
  function SessionNext(d: Desk, a: SessionAction): Option<Desk> {
    match a
    case SessionCloses => Some(d.(session := d.session.(open := false)))
    case Remove =>
      if d.session.registered && (d.reader.Resting? || d.reader.Violated?) then
        var j := d.job;
        Some(d.(session := d.session.(registered := false),
                job := j.(failure := if j.listed && j.failure.None? then Some(HostDisconnected) else j.failure)))
      else None
  }

  datatype Action =
    | Agent(worker: WorkerAction)
    | ReadLoop(reader: ReaderAction)
    | Buyer(handler: HandlerAction)
    | Reap(reaper: ReaperAction)
    | Host(session: SessionAction)

  function OnDesk(x: Attempt, d: Option<Desk>): Option<Attempt> {
    match d
    case Some(e) => Some(x.(desk := e))
    case None => None
  }

  ghost function Advance(x: Attempt, a: Action): Option<Attempt> {
    match a
    case Agent(b) =>
      (match WorkerNext(x.decode, x.desk.requested, x.worker, b)
       case Some(w) => Some(x.(worker := w))
       case None => None)
    case ReadLoop(b) => OnDesk(x, ReaderNext(x.worker.link.written, x.desk, b))
    case Buyer(b) =>
      (match HandlerNext(Terms(x.stream, x.canRetry), x.desk, x.handler, b)
       case Some((d, h)) => Some(x.(desk := d, handler := h))
       case None => None)
    case Reap(b) => OnDesk(x, ReaperNext(x.desk, b))
    case Host(b) => OnDesk(x, SessionNext(x.desk, b))
  }
}
