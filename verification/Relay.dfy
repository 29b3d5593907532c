/** The whole relay: any number of hosts that connect, drop and reconnect, any number of buyers,
    each attempt an instance of the attempt system. One step moves one goroutine of one attempt, or
    registers, refreshes, closes or removes a session, or begins, continues or ends a request. */
module Relay {
  import opened Types
  import opened Attempt
  import opened AttemptProof
  import Protocol
  import Selection

  /** What was written first on a connection after its host entered the table: nothing yet, the welcome,
      or a request or cancel that overtook it. */
  datatype Greeting = Unsaid | Welcomed | Overtaken

  /** A host's connection: its side of the coordinator's table, whether the agent's session over it
      has not returned yet, and how it was greeted. */
  datatype Connection = Connection(
    host: string, session: Session, catalog: seq<Protocol.Backend>, lastHeartbeat: int, agentRuns: bool,
    greeting: Greeting)

  datatype Entry = Entry(conn: nat, buyer: nat, target: Selection.Target, attempt: Attempt)

  /** Where a request is: choosing a host, running its last attempt, or answered. */
  datatype Phase = Choosing | Running | Answered

  /** A request. history are its attempts, oldest first; own are the response heads chat writes when
      it runs none. */
  datatype Request = Request(
    stream: bool, modelId: string, ctx: Context, phase: Phase, history: seq<string>, own: seq<int>)

  /** A backend of a host. */
  datatype Place = Place(host: string, backend: string)

  /** capacity is what each host advertises for each backend, the same in every catalog; active are
      the agents' slot counters, which outlive sessions. */
  datatype State = State(
    now: int, capacity: map<Place, int>, active: map<Place, int>,
    conns: map<nat, Connection>, jobs: map<string, Entry>, requests: map<nat, Request>)

  datatype Step =
    | Tick(to: int)
    | Register(conn: nat, host: string, catalog: seq<Protocol.Backend>)
    | Welcome(conn: nat)
    | Refresh(conn: nat, catalog: seq<Protocol.Backend>)
    | Hear(conn: nat)
    | CloseSession(conn: nat)
    | RemoveSession(conn: nat)
    | AgentReturns(conn: nat)
    | Receive(request: nat, stream: bool, modelId: string, ctx: Context)
    | Select(request: nat, job: string, conn: nat, target: Selection.Target, decode: Decoder, ctx: Context)
    | NoCapacity(request: nat)
    | Return(request: nat)
    | Move(job: string, action: Action)

  const ATTEMPTS := 2

  ghost predicate Init(s: State) {
    && s.conns == map[] && s.jobs == map[] && s.requests == map[]
    && forall p | p in s.active :: s.active[p] == 0
  }

  function PlaceOf(s: State, e: Entry): Place
    requires e.conn in s.conns
  {
    Place(s.conns[e.conn].host, e.target.backend.id)
  }

  /** The advertised capacity is the one recorded for the place. */
  ghost predicate Advertises(s: State, host: string, catalog: seq<Protocol.Backend>) {
    forall i | 0 <= i < |catalog| ::
      var p := Place(host, catalog[i].id);
      p in s.capacity && p in s.active && s.capacity[p] == catalog[i].capacity
  }

  // ---- selection over the live table ----

  /** The outstanding jobs of a connection. */
  function Outstanding(s: State, conn: nat): map<string, Selection.Target> {
    map id | id in s.jobs && s.jobs[id].conn == conn && s.jobs[id].attempt.desk.job.listed :: s.jobs[id].target
  }

  function HostOf(s: State, conn: nat): Selection.HostState
    requires conn in s.conns
  {
    Selection.HostState(s.conns[conn].catalog, s.conns[conn].lastHeartbeat, Outstanding(s, conn))
  }

  /** The last attempt of a request, if any. */
  function Previous(s: State, r: Request): Option<Entry> {
    if r.history == [] || r.history[|r.history| - 1] !in s.jobs then None
    else Some(s.jobs[r.history[|r.history| - 1]])
  }

  /** What chat passes to selectJob. */
  function WishOf(s: State, r: Request): Selection.Wish {
    var p := Previous(s, r);
    if p.None? || p.value.conn !in s.conns then Selection.Wish(r.modelId, "", None, s.now)
    else Selection.Wish(r.modelId, s.conns[p.value.conn].host, Some(p.value.target), s.now)
  }

  ghost predicate CanTake(s: State, r: Request, conn: nat, t: Selection.Target) {
    && conn in s.conns && s.conns[conn].session.registered
    && Selection.EligibleOn(s.conns[conn].host, HostOf(s, conn), WishOf(s, r), t)
  }

  // ---- the steps ----

  /** Shows a job the state of its session. */
  function Shown(e: Entry, session: Session): Entry {
    e.(attempt := e.attempt.(desk := e.attempt.desk.(session := session)))
  }

  /** Applies a session step to every job of the connection. */
  ghost function HostStep(e: Entry, a: SessionAction): Entry {
    match SessionNext(e.attempt.desk, a)
    case Some(d) => e.(attempt := e.attempt.(desk := d))
    case None => e
  }

  ghost function Broadcast(s: State, conn: nat, a: SessionAction): map<string, Entry> {
    map id | id in s.jobs :: if s.jobs[id].conn == conn then HostStep(s.jobs[id], a) else s.jobs[id]
  }

  /** The read loop is at rest for every other job of the connection. */
  ghost predicate LoopIdle(s: State, conn: nat, except: string) {
    forall id | id in s.jobs && s.jobs[id].conn == conn && id != except :: s.jobs[id].attempt.desk.reader.Resting?
  }

  /** The read loop of the connection is at rest, or over. */
  ghost predicate LoopEnds(s: State, conn: nat) {
    forall id | id in s.jobs && s.jobs[id].conn == conn ::
      s.jobs[id].attempt.desk.reader.Resting? || s.jobs[id].attempt.desk.reader.Violated?
  }

  /** No job goroutine of the connection is left on the agent. */
  ghost predicate AgentDrained(s: State, conn: nat) {
    forall id | id in s.jobs && s.jobs[id].conn == conn ::
      s.jobs[id].attempt.worker.pc.Unassigned? || s.jobs[id].attempt.worker.pc.Finished?
  }

  /** What reserve and release do to the slot counter, and when reserve may answer as it does. */
  ghost function Slots(s: State, e: Entry, a: Action): Option<map<Place, int>> {
    if e.conn !in s.conns || PlaceOf(s, e) !in s.active || PlaceOf(s, e) !in s.capacity then None
    else
      var p := PlaceOf(s, e);
      match a
      case Agent(Arrive(refusal)) =>
        // an agent takes requests only once it has read a welcome, as the first frame
        if !s.conns[e.conn].agentRuns || !s.conns[e.conn].greeting.Welcomed? then None
        else if refusal == None then
          if s.active[p] < s.capacity[p] then Some(s.active[p := s.active[p] + 1]) else None
        else if refusal == Some(Busy) then
          if s.active[p] >= s.capacity[p] then Some(s.active) else None
        else Some(s.active)
      case Agent(Release) => Some(s.active[p := s.active[p] - 1])
      case _ => Some(s.active)
  }

  /** The coordinator writes a frame to the host. */
  predicate Speaks(a: Action) {
    a == Buyer(WriteRequest) || a == Reap(WriteCancel)
  }

  function AfterFrame(c: Connection, a: Action): Connection {
    if Speaks(a) && c.greeting.Unsaid? then c.(greeting := Overtaken) else c
  }

  /** A goroutine of one attempt moves; if it closed the session, the other jobs of it see that. */
  ghost function MoveNext(s: State, id: string, a: Action): Option<State> {
    if id !in s.jobs || a.Host? then None
    else
      var e := s.jobs[id];
      if a == ReadLoop(Take) && !LoopIdle(s, e.conn, id) then None
      else
        match (Advance(e.attempt, a), Slots(s, e, a))
        case (Some(x), Some(active)) =>
          var jobs := map k | k in s.jobs ::
            if k == id then e.(attempt := x)
            else if s.jobs[k].conn == e.conn then Shown(s.jobs[k], x.desk.session)
            else s.jobs[k];
          Some(s.(active := active, jobs := jobs,
                  conns := s.conns[e.conn := AfterFrame(s.conns[e.conn], a).(session := x.desk.session)]))
        case _ => None
  }

  ghost function Next(s: State, st: Step): Option<State> {
    match st
    case Tick(to) =>
      if to >= s.now then Some(s.(now := to)) else None
    case Register(c, host, catalog) =>
      // a host name is registered once, and an agent runs one session at a time
      if c in s.conns || !Protocol.CatalogConforms(catalog) || !Advertises(s, host, catalog)
         || (exists d :: d in s.conns && s.conns[d].host == host
                         && (s.conns[d].session.registered || s.conns[d].agentRuns))
      then None
      else Some(s.(conns := s.conns[c := Connection(host, Session(true, true), catalog, s.now, true, Unsaid)]))
    case Welcome(c) =>
      // the host is in the table before this
      if c in s.conns then
        var h := s.conns[c];
        Some(s.(conns := s.conns[c := if h.greeting.Unsaid? then h.(greeting := Welcomed) else h]))
      else None
    case Refresh(c, catalog) =>
      if c in s.conns && Protocol.CatalogConforms(catalog) && Advertises(s, s.conns[c].host, catalog) then
        Some(s.(conns := s.conns[c := s.conns[c].(catalog := catalog)]))
      else None
    case Hear(c) =>
      if c in s.conns then Some(s.(conns := s.conns[c := s.conns[c].(lastHeartbeat := s.now)])) else None
    case CloseSession(c) =>
      if c in s.conns then
        Some(s.(jobs := Broadcast(s, c, SessionCloses),
                conns := s.conns[c := s.conns[c].(session := s.conns[c].session.(open := false))]))
      else None
    case RemoveSession(c) =>
      if c in s.conns && s.conns[c].session.registered && LoopEnds(s, c) then
        Some(s.(jobs := Broadcast(s, c, Remove),
                conns := s.conns[c := s.conns[c].(session := s.conns[c].session.(registered := false))]))
      else None
    case AgentReturns(c) =>
      if c in s.conns && AgentDrained(s, c) then
        Some(s.(conns := s.conns[c := s.conns[c].(agentRuns := false)]))
      else None
    case Receive(r, stream, modelId, ctx) =>
      if r in s.requests then None
      else Some(s.(requests := s.requests[r := Request(stream, modelId, ctx, Choosing, [], [])]))
    case Select(r, id, c, t, decode, ctx) =>
      if r in s.requests && s.requests[r].phase.Choosing? && |s.requests[r].history| < ATTEMPTS
         && id !in s.jobs && CanTake(s, s.requests[r], c, t)
         && (s.requests[r].ctx.Live? || ctx == s.requests[r].ctx)
      then
        var q := s.requests[r];
        var x := Fresh(decode, q.stream, q.history == [], s.conns[c].session.open, ctx);
        Some(s.(jobs := s.jobs[id := Entry(c, r, t, x)],
                requests := s.requests[r := q.(phase := Running, history := q.history + [id])]))
      else None
    case NoCapacity(r) =>
      if r in s.requests && s.requests[r].phase.Choosing? && (forall c, t :: !CanTake(s, s.requests[r], c, t)) then
        Some(s.(requests := s.requests[r := s.requests[r].(phase := Answered, own := [503])]))
      else None
    case Return(r) =>
      if r in s.requests && s.requests[r].phase.Running? && Previous(s, s.requests[r]).Some?
         && Previous(s, s.requests[r]).value.attempt.handler.pc.Returned?
      then
        var h := Previous(s, s.requests[r]).value.attempt.handler;
        Some(s.(requests := s.requests[r := s.requests[r].(
               phase := if h.pc.again then Choosing else Answered, ctx := h.ctx)]))
      else None
    case Move(id, a) => MoveNext(s, id, a)
  }

  // ---- one attempt at a time ----

  /** The step of the attempt system that a step of the relay is for one of its jobs, if it is one. */
  ghost function ActionFor(s: State, st: Step, id: string): Option<Action>
    requires id in s.jobs
  {
    match st
    case Move(k, a) =>
      if k == id then Some(a)
      else if k in s.jobs && s.jobs[k].conn == s.jobs[id].conn then Some(Host(SessionCloses))
      else None
    case CloseSession(c) => if s.jobs[id].conn == c then Some(Host(SessionCloses)) else None
    case RemoveSession(c) => if s.jobs[id].conn == c then Some(Host(Remove)) else None
    case _ => None
  }

  /** Every job sees the session of its connection, and belongs to a request. */
  ghost predicate Linked(s: State) {
    && (forall id | id in s.jobs ::
          && s.jobs[id].conn in s.conns && s.jobs[id].buyer in s.requests
          && s.jobs[id].attempt.desk.session == s.conns[s.jobs[id].conn].session)
  }

  lemma SessionsOnlyClose(x: Attempt, a: Action)
    requires Advance(x, a).Some? && !a.Host?
    ensures
      var y := Advance(x, a).value;
      y.desk.session == x.desk.session || y.desk.session == x.desk.session.(open := false)
  {
    hide WorkerNext, ReaderNext, HandlerNext;
    match a
    case ReadLoop(b) => ReaderLeavesSessions(x.worker.link.written, x.desk, b);
    case Buyer(b) => HandlerOnlyCloses(Terms(x.stream, x.canRetry), x.desk, x.handler, b);
    case _ =>
  }

  lemma ReaderLeavesSessions(fs: seq<Frame>, d: Desk, a: ReaderAction)
    requires ReaderNext(fs, d, a).Some?
    ensures ReaderNext(fs, d, a).value.session == d.session
  {
    hide Checked;
  }

  lemma HandlerOnlyCloses(x: Terms, d: Desk, h: Handler, a: HandlerAction)
    requires HandlerNext(x, d, h, a).Some?
    ensures
      var e := HandlerNext(x, d, h, a).value.0;
      e.session == d.session || e.session == d.session.(open := false)
  {
    hide FailWith, Handled;
  }

  lemma LinkedMove(s: State, id: string, a: Action)
    requires Linked(s) && MoveNext(s, id, a).Some?
    ensures Linked(MoveNext(s, id, a).value)
  {
    hide Advance, Slots, LoopIdle;
  }

  lemma LinkedBroadcast(s: State, st: Step)
    requires Linked(s) && Next(s, st).Some? && (st.CloseSession? || st.RemoveSession?)
    ensures Linked(Next(s, st).value)
  {
    hide Advertises, Protocol.CatalogConforms, CanTake, MoveNext, Fresh, Previous, AgentDrained;
  }

  lemma LinkedOther(s: State, st: Step)
    requires Linked(s) && Next(s, st).Some? && !st.Move? && !st.CloseSession? && !st.RemoveSession?
    ensures Linked(Next(s, st).value)
  {
    hide MoveNext, Protocol.CatalogConforms, Advertises, Selection.EligibleOn, AgentDrained, Broadcast, LoopIdle;
  }

  lemma LinkedStep(s: State, st: Step)
    requires Linked(s) && Next(s, st).Some?
    ensures Linked(Next(s, st).value)
  {
    hide Linked, MoveNext, Protocol.CatalogConforms, Advertises, CanTake, AgentDrained, Broadcast, LoopIdle;
    if st.Move? {
      LinkedMove(s, st.job, st.action);
    } else if st.CloseSession? || st.RemoveSession? {
      LinkedBroadcast(s, st);
    } else {
      LinkedOther(s, st);
    }
  }

  /** The relay adds nothing to an attempt: each step leaves a job as it is, or is one step of the
      attempt system for it; and a new job starts fresh. */
  lemma MoveProjects(s: State, id: string, a: Action, k: string)
    requires Linked(s) && MoveNext(s, id, a).Some? && k in s.jobs
    ensures
      var t := MoveNext(s, id, a).value;
      && t.jobs.Keys == s.jobs.Keys && t.jobs[k] == s.jobs[k].(attempt := t.jobs[k].attempt)
      && match ActionFor(s, Move(id, a), k)
         case None => t.jobs[k] == s.jobs[k]
         case Some(b) =>
           t.jobs[k].attempt == s.jobs[k].attempt || Advance(s.jobs[k].attempt, b) == Some(t.jobs[k].attempt)
  {
    hide Slots, LoopIdle, WorkerNext, ReaderNext, HandlerNext, ReaperNext;
    SessionsOnlyClose(s.jobs[id].attempt, a);
  }

  lemma RelayProjectsToAttempts(s: State, st: Step, k: string)
    requires Linked(s) && Next(s, st).Some?
    ensures k in s.jobs ==> k in Next(s, st).value.jobs
    ensures k in s.jobs ==>
      var t := Next(s, st).value;
      && t.jobs[k] == s.jobs[k].(attempt := t.jobs[k].attempt)
      && match ActionFor(s, st, k)
         case None => t.jobs[k] == s.jobs[k]
         case Some(b) =>
           t.jobs[k].attempt == s.jobs[k].attempt || Advance(s.jobs[k].attempt, b) == Some(t.jobs[k].attempt)
    ensures k !in s.jobs && k in Next(s, st).value.jobs ==>
      && st.Select? && k == st.job && st.request in s.requests && st.conn in s.conns
      && Next(s, st).value.jobs[k].attempt ==
           Fresh(st.decode, s.requests[st.request].stream, s.requests[st.request].history == [],
                 s.conns[st.conn].session.open, st.ctx)
  {
    hide MoveNext, Protocol.CatalogConforms, Advertises, Selection.EligibleOn, AgentDrained, Fresh,
         WorkerNext, ReaderNext, HandlerNext, ReaperNext;
    if st.Move? {
      if k in s.jobs {
        MoveProjects(s, st.job, st.action, k);
      } else {
        MoveAddsNoJob(s, st.job, st.action);
      }
    }
  }

  lemma MoveAddsNoJob(s: State, id: string, a: Action)
    requires MoveNext(s, id, a).Some?
    ensures MoveNext(s, id, a).value.jobs.Keys == s.jobs.Keys
  {
    hide Slots, LoopIdle, Advance;
  }

  ghost predicate AttemptsOk(s: State) {
    forall id | id in s.jobs :: Inv(s.jobs[id].attempt)
  }

  lemma AttemptsStep(s: State, st: Step)
    requires Linked(s) && AttemptsOk(s) && Next(s, st).Some?
    ensures AttemptsOk(Next(s, st).value)
  {
    hide Inv, Next, Advance, Linked, Fresh;
    forall k | k in Next(s, st).value.jobs ensures Inv(Next(s, st).value.jobs[k].attempt) {
      RelayProjectsToAttempts(s, st, k);
      if k in s.jobs {
        if ActionFor(s, st, k).Some? && Next(s, st).value.jobs[k].attempt != s.jobs[k].attempt {
          StepKeepsInv(s.jobs[k].attempt, ActionFor(s, st, k).value);
        }
      } else {
        var q := s.requests[st.request];
        FreshInv(st.decode, q.stream, q.history == [], s.conns[st.conn].session.open, st.ctx);
      }
    }
  }
}
