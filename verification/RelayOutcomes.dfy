/** Runs of the whole relay that do happen: what one attempt can come to, it can come to in the relay, and
    a request can overtake the welcome. */
module RelayOutcomes {
  import opened Types
  import opened ObserverSpec
  import opened Attempt
  import opened AttemptProof
  import opened AttemptOutcomes
  import opened Relay
  import opened RelayProof
  import opened RelayTheorems
  import Protocol
  import Selection

  // ---- building runs ----

  lemma StepOn(ss: seq<State>, steps: seq<Step>, st: Step) returns (ts: seq<State>, more: seq<Step>)
    requires Run(ss, steps) && Next(ss[|ss| - 1], st).Some?
    ensures Run(ts, more) && Next(ss[|ss| - 1], st) == Some(ts[|ts| - 1])
    ensures ts == ss + [ts[|ts| - 1]] && more == steps + [st]
  {
    hide Next, Init;
    ts, more := ss + [Next(ss[|ss| - 1], st).value], steps + [st];
    forall i | 0 <= i < |more| ensures Next(ts[i], more[i]) == Some(ts[i + 1]) {
      if i < |steps| {
        assert Next(ss[i], steps[i]) == Some(ss[i + 1]);
      }
    }
  }

  const JOB := "attempt"

  /** A host with one backend, a buyer who asks for one of its models, and the job selected for it. */
  function Selected(
    host: string, b: Protocol.Backend, m: Protocol.Model, decode: Decoder, stream: bool, ctx: Context,
    greeting: Greeting): State
  {
    State(0, map[Place(host, b.id) := b.capacity], map[Place(host, b.id) := 0],
          map[0 := Connection(host, Session(true, true), [b], 0, true, greeting)],
          map[JOB := Entry(0, 0, Selection.Target(b, m), Fresh(decode, stream, true, true, ctx))],
          map[0 := Request(stream, m.id, ctx, Running, [JOB], [])])
  }

  ghost predicate Usable(host: string, b: Protocol.Backend, m: Protocol.Model) {
    host != "" && Protocol.BackendConforms(b) && b.ready && m in b.models
  }

  lemma OneBackendConforms(b: Protocol.Backend)
    requires Protocol.BackendConforms(b)
    ensures Protocol.CatalogConforms([b])
  {
    hide Protocol.BackendConforms;
  }

  lemma HostRegisters(host: string, b: Protocol.Backend, welcome: bool) returns (ss: seq<State>, steps: seq<Step>)
    requires Protocol.BackendConforms(b)
    ensures Run(ss, steps)
    ensures ss[|ss| - 1] ==
      State(0, map[Place(host, b.id) := b.capacity], map[Place(host, b.id) := 0],
            map[0 := Connection(host, Session(true, true), [b], 0, true, if welcome then Welcomed else Unsaid)],
            map[], map[])
  {
    hide Protocol.BackendConforms, Protocol.CatalogConforms;
    var s := State(0, map[Place(host, b.id) := b.capacity], map[Place(host, b.id) := 0], map[], map[], map[]);
    ss, steps := [s], [];
    OneBackendConforms(b);
    assert Advertises(s, host, [b]);
    ss, steps := StepOn(ss, steps, Register(0, host, [b]));
    if welcome {
      ss, steps := StepOn(ss, steps, Welcome(0));
    }
  }

  lemma JobIsSelected(
    host: string, b: Protocol.Backend, m: Protocol.Model, decode: Decoder, stream: bool, ctx: Context, welcome: bool)
    returns (ss: seq<State>, steps: seq<Step>)
    requires Usable(host, b, m)
    ensures Run(ss, steps)
    ensures ss[|ss| - 1] == Selected(host, b, m, decode, stream, ctx, if welcome then Welcomed else Unsaid)
  {
    hide Protocol.CatalogConforms, Protocol.ModelsConform, Fresh, MoveNext, Init;
    ss, steps := HostRegisters(host, b, welcome);
    ss, steps := StepOn(ss, steps, Receive(0, stream, m.id, ctx));
    var s := ss[|ss| - 1];
    var t := Selection.Target(b, m);
    assert Selection.OnBackend(Outstanding(s, 0), b.id) == {};
    assert CanTake(s, s.requests[0], 0, t);
    assert s.jobs == map[] && s.requests == map[0 := Request(stream, m.id, ctx, Choosing, [], [])];
    SelectWorks(s, m, t, decode, stream, ctx);
    ss, steps := StepOn(ss, steps, Select(0, JOB, 0, t, decode, ctx));
  }

  lemma SelectWorks(s: State, m: Protocol.Model, t: Selection.Target, decode: Decoder, stream: bool, ctx: Context)
    requires s.jobs == map[] && s.requests == map[0 := Request(stream, m.id, ctx, Choosing, [], [])]
    requires CanTake(s, s.requests[0], 0, t) && 0 in s.conns && s.conns[0].session.open
    ensures Next(s, Select(0, JOB, 0, t, decode, ctx)) ==
      Some(s.(jobs := map[JOB := Entry(0, 0, t, Fresh(decode, stream, true, true, ctx))],
              requests := map[0 := Request(stream, m.id, ctx, Running, [JOB], [])]))
  {
    hide CanTake, Fresh;
    var u := Next(s, Select(0, JOB, 0, t, decode, ctx)).value;
    assert [] + [JOB] == [JOB];
    assert u.jobs == map[JOB := Entry(0, 0, t, Fresh(decode, stream, true, true, ctx))];
    assert u.requests == map[0 := Request(stream, m.id, ctx, Running, [JOB], [])];
  }

  // ---- what one attempt can do, the relay can do ----

  /** The relay has one job, on a running agent that was greeted and has a slot to give. */
  ghost predicate Alone(s: State, id: string) {
    && s.jobs.Keys == {id} && s.jobs[id].conn in s.conns
    && PlaceOf(s, s.jobs[id]) in s.active && PlaceOf(s, s.jobs[id]) in s.capacity
    && s.capacity[PlaceOf(s, s.jobs[id])] >= 1
    && s.conns[s.jobs[id].conn].agentRuns && s.conns[s.jobs[id].conn].greeting.Welcomed?
  }

  const BUSY: Action := Agent(Arrive(Some(Busy)))

  function RelayStep(s: State, id: string, a: Action): Step
    requires id in s.jobs
  {
    match a
    case Host(SessionCloses) => CloseSession(s.jobs[id].conn)
    case Host(Remove) => RemoveSession(s.jobs[id].conn)
    case _ => Move(id, a)
  }

  lemma SlotIsFree(s: State, id: string)
    requires Alone(s, id) && SlotsOk(s) && !Holding(s.jobs[id].attempt.worker)
    ensures s.active[PlaceOf(s, s.jobs[id])] == 0
  {
    hide Holding;
    assert Holders(s, PlaceOf(s, s.jobs[id])) == {};
  }

  lemma MoveLifts(s: State, id: string, a: Action)
    requires Linked(s) && SlotsOk(s) && Alone(s, id) && a != BUSY && !a.Host?
    requires Advance(s.jobs[id].attempt, a).Some?
    ensures MoveNext(s, id, a).Some?
    ensures
      var t := MoveNext(s, id, a).value;
      && Alone(t, id) && t.requests == s.requests && t.active.Keys == s.active.Keys
      && t.jobs[id] == s.jobs[id].(attempt := Advance(s.jobs[id].attempt, a).value)
  {
    hide Advance, SlotsOk, Linked, Holding;
    if a == Agent(Arrive(None)) {
      OnlyTheUnassignedArrive(s.jobs[id].attempt, None);
      SlotIsFree(s, id);
    }
  }

  lemma SessionLifts(s: State, id: string, a: SessionAction)
    requires Linked(s) && Alone(s, id) && Advance(s.jobs[id].attempt, Host(a)).Some?
    ensures Next(s, RelayStep(s, id, Host(a))).Some?
    ensures
      var t := Next(s, RelayStep(s, id, Host(a))).value;
      && Alone(t, id) && t.requests == s.requests && t.active.Keys == s.active.Keys
      && t.jobs[id] == s.jobs[id].(attempt := Advance(s.jobs[id].attempt, Host(a)).value)
  {
    hide WorkerNext, ReaderNext, HandlerNext, ReaperNext, MoveNext, Protocol.CatalogConforms, Advertises, CanTake;
  }

  lemma StepLifts(s: State, id: string, a: Action)
    requires Linked(s) && SlotsOk(s) && Alone(s, id) && a != BUSY && Advance(s.jobs[id].attempt, a).Some?
    ensures Next(s, RelayStep(s, id, a)).Some?
    ensures
      var t := Next(s, RelayStep(s, id, a)).value;
      && Alone(t, id) && t.requests == s.requests && t.active.Keys == s.active.Keys
      && t.jobs[id] == s.jobs[id].(attempt := Advance(s.jobs[id].attempt, a).value)
  {
    hide Advance, SlotsOk, Linked, Alone, MoveNext;
    if a.Host? {
      SessionLifts(s, id, a.session);
    } else {
      MoveLifts(s, id, a);
    }
  }

  /** Every schedule of a single attempt, short of the busy answer that no run contains, is a run of the
      relay. */
  lemma {:induction false} ScheduleLifts(ss: seq<State>, steps: seq<Step>, id: string, schedule: seq<Action>)
    returns (ts: seq<State>, more: seq<Step>)
    requires Run(ss, steps) && Alone(ss[|ss| - 1], id) && BUSY !in schedule
    requires Perform(ss[|ss| - 1].jobs[id].attempt, schedule).Some?
    ensures Run(ts, more)
    ensures
      var s, t := ss[|ss| - 1], ts[|ts| - 1];
      && Alone(t, id) && t.requests == s.requests && t.active.Keys == s.active.Keys
      && t.jobs[id] == s.jobs[id].(attempt := Perform(s.jobs[id].attempt, schedule).value)
    decreases |schedule|
  {
    hide Run, Next, Alone, Advance, Linked, AttemptsOk, CatalogsOk, NotOverbooked, AgentsOk, SlotsOk, GreetedOk,
         RequestsOk;
    RunLength(ss, steps);
    AloneMeans(ss[|ss| - 1], id);
    if schedule == [] {
      ts, more := ss, steps;
    } else {
      var front, a := schedule[..|schedule| - 1], schedule[|schedule| - 1];
      ts, more := ScheduleLifts(ss, steps, id, front);
      RunLength(ts, more);
      var s := ts[|ts| - 1];
      AloneMeans(s, id);
      RunsAreSound(ts, more, |ts| - 1);
      StepLifts(s, id, a);
      ts, more := StepOn(ts, more, RelayStep(s, id, a));
    }
  }

  lemma AloneMeans(s: State, id: string)
    requires Alone(s, id)
    ensures id in s.jobs
  {}

  /** A worker that was refused, or has not been asked, never has a status. */
  ghost predicate NoStatus(w: Worker) {
    w.status == 0 && (w.pc.Unassigned? || w.pc.Refusing? || w.pc.Finished?)
  }

  lemma RefusedStays(decode: Decoder, requested: bool, w: Worker, a: WorkerAction)
    requires WorkerNext(decode, requested, w, a).Some? && NoStatus(w)
    ensures a != Arrive(None) ==> NoStatus(WorkerNext(decode, requested, w, a).value)
    ensures a.Arrive? ==> w.pc.Unassigned?
  {
    hide AtBodyEnd, Conclude;
  }

  lemma ArrivesOnce(x: Attempt, a: Action)
    requires Advance(x, a).Some?
    ensures a.Agent? && a.worker.Arrive? ==> x.worker.pc.Unassigned? && !Advance(x, a).value.worker.pc.Unassigned?
    ensures !x.worker.pc.Unassigned? ==> !Advance(x, a).value.worker.pc.Unassigned?
    ensures NoStatus(x.worker) && a != Agent(Arrive(None)) ==> NoStatus(Advance(x, a).value.worker)
  {
    hide WorkerNext, ReaderNext, HandlerNext, ReaperNext, NoStatus;
    if a.Agent? {
      if NoStatus(x.worker) {
        RefusedStays(x.decode, x.desk.requested, x.worker, a.worker);
      }
      OnlyArrivalAssigns(x.decode, x.desk.requested, x.worker, a.worker);
      if a.worker.Arrive? {
        ArrivalAssigns(x.decode, x.desk.requested, x.worker, a.worker);
      }
    }
  }

  lemma ArrivalAssigns(decode: Decoder, requested: bool, w: Worker, a: WorkerAction)
    requires WorkerNext(decode, requested, w, a).Some? && a.Arrive?
    ensures w.pc.Unassigned? && !WorkerNext(decode, requested, w, a).value.pc.Unassigned?
  {}

  /** So a schedule that starts before the request arrived and ends with a status has no busy answer. */
  lemma {:induction false} NoBusyOnTheWayToAStatus(x: Attempt, schedule: seq<Action>)
    requires NoStatus(x.worker) && x.worker.pc.Unassigned? && Perform(x, schedule).Some?
    ensures
      var y := Perform(x, schedule).value;
      && (BUSY in schedule ==> NoStatus(y.worker) && !y.worker.pc.Unassigned?)
      && (y.worker.pc.Unassigned? ==> NoStatus(y.worker))
  {
    hide Advance, NoStatus;
    if schedule != [] {
      var front, a := schedule[..|schedule| - 1], schedule[|schedule| - 1];
      NoBusyOnTheWayToAStatus(x, front);
      ArrivesOnce(Perform(x, front).value, a);
      assert schedule == front + [a];
    }
  }

  // ---- a request is answered ----

  /** The run ends with the request answered, or choosing again when it has nothing, and the slot free. */
  ghost predicate Relayed(
    ss: seq<State>, steps: seq<Step>, p: Place, stream: bool, status: int, body: seq<byte>, good: bool)
  {
    && Run(ss, steps)
    && var s := ss[|ss| - 1];
       && 0 in s.requests && Recorded(s, s.requests[0].history) && p in s.active && s.active[p] == 0
       && var q := s.requests[0];
          && |q.history| == 1 && s.jobs[q.history[0]].attempt.handler.completed == (good && body != [])
          && q.phase == (if body == [] then Choosing else Answered)
          && Heads(s, q.history) == (if body == [] then [] else [status])
          && Body(s, q.history) == if body != [] && stream && !good then body + TAIL else body
  }

  lemma ScheduleTo(x: Attempt, y: Attempt) returns (schedule: seq<Action>)
    requires Reaches(x, y)
    ensures Perform(x, schedule) == Some(y)
  {
    hide Perform;
    schedule :| Perform(x, schedule) == Some(y);
  }

  /** What the return of the request's last attempt makes of the request. */
  function AfterReturn(s: State, stream: bool, modelId: string): Request
    requires JOB in s.jobs && s.jobs[JOB].attempt.handler.pc.Returned?
  {
    var h := s.jobs[JOB].attempt.handler;
    Request(stream, modelId, h.ctx, if h.pc.again then Choosing else Answered, [JOB], [])
  }

  lemma ReturnWorks(s: State, stream: bool, modelId: string)
    requires s.requests == map[0 := Request(stream, modelId, Live, Running, [JOB], [])]
    requires JOB in s.jobs && s.jobs[JOB].attempt.handler.pc.Returned?
    ensures Next(s, Return(0)) == Some(s.(requests := map[0 := AfterReturn(s, stream, modelId)]))
  {
    var u := Next(s, Return(0)).value;
    assert u.requests == map[0 := AfterReturn(s, stream, modelId)];
  }

  lemma RequestReturns(
    ss: seq<State>, steps: seq<Step>, p: Place, stream: bool, modelId: string, status: int, body: seq<byte>, good: bool)
    returns (ts: seq<State>, more: seq<Step>)
    requires Run(ss, steps) && Alone(ss[|ss| - 1], JOB)
    requires ss[|ss| - 1].requests == map[0 := Request(stream, modelId, Live, Running, [JOB], [])]
    requires PlaceOf(ss[|ss| - 1], ss[|ss| - 1].jobs[JOB]) == p
    requires
      var x := ss[|ss| - 1].jobs[JOB].attempt;
      AtRest(x) && Concluded(stream, true, status, body, good, x.handler)
    ensures Relayed(ts, more, p, stream, status, body, good)
  {
    hide Run, Next, Linked, AttemptsOk, CatalogsOk, NotOverbooked, AgentsOk, SlotsOk, GreetedOk, AttemptOf, FairRetry,
         Heads, Body, TAIL_JSON;
    RunLength(ss, steps);
    ReturnWorks(ss[|ss| - 1], stream, modelId);
    ts, more := StepOn(ss, steps, Return(0));
    var t := ts[|ts| - 1];
    RunsAreSound(ts, more, |ts| - 1);
    SlotIsFree(t, JOB);
    EarlierAttemptsAreSilent(t, 0, t.requests[0]);
  }

  ghost predicate GoodEnd(decode: Decoder, stream: bool, body: seq<byte>, end: ReadEnd) {
    end == Eof && (stream ==> Succeeds(decode, body))
  }

  /** For every host that can serve it, every body, every cut of it into reads and either way of ending,
      there is a run of the whole relay, from an empty table on, in which a request is answered with the
      status and that body, and in which the host's slot is free again. */
  lemma EveryResponseCanBeRelayed(
    host: string, b: Protocol.Backend, m: Protocol.Model, decode: Decoder, stream: bool, status: int,
    chunks: seq<seq<byte>>, end: ReadEnd)
    requires Usable(host, b, m) && 200 <= status < 300 && Readable(chunks) && end != More
    ensures exists ss, steps ::
      Relayed(ss, steps, Place(host, b.id), stream, status, Joined(chunks),
              GoodEnd(decode, stream, Joined(chunks), end))
  {
    hide Run, Next, Succeeds, Perform, Reaches, Usable, Relayed, Joined, Readable, AtRest, Concluded;
    var good := GoodEnd(decode, stream, Joined(chunks), end);
    var ss, steps := JobIsSelected(host, b, m, decode, stream, Live, true);
    var x := RelayWholeResponse(decode, stream, true, status, chunks, end);
    var schedule := ScheduleTo(Fresh(decode, stream, true, true, Live), x);
    NoBusyOnTheWayToAStatus(Fresh(decode, stream, true, true, Live), schedule);
    SelectedIsAlone(host, b, m, decode, stream);
    ss, steps := ScheduleLifts(ss, steps, JOB, schedule);
    ss, steps := RequestReturns(ss, steps, Place(host, b.id), stream, m.id, status, Joined(chunks), good);
  }

  lemma SelectedIsAlone(host: string, b: Protocol.Backend, m: Protocol.Model, decode: Decoder, stream: bool)
    requires Usable(host, b, m)
    ensures
      var s := Selected(host, b, m, decode, stream, Live, Welcomed);
      Alone(s, JOB) && PlaceOf(s, s.jobs[JOB]) == Place(host, b.id)
  {
    hide Fresh, Protocol.ModelsConform;
  }

  // ---- a request overtakes the welcome ----

  /** A request was written on the connection, and the welcome was not, or later. */
  ghost predicate WorkedUnwelcomed(ss: seq<State>, steps: seq<Step>) {
    && Run(ss, steps)
    && var s := ss[|ss| - 1];
       && JOB in s.jobs && s.jobs[JOB].conn in s.conns && s.jobs[JOB].attempt.desk.requested
       && s.conns[s.jobs[JOB].conn].session == Session(true, true)
       && s.conns[s.jobs[JOB].conn].greeting.Overtaken?
  }

  /** The promise that no work is assigned before the welcome fails: for every host that can serve it, a
      request can be selected for it and written to it first. */
  lemma WorkCanComeBeforeTheWelcome(
    host: string, b: Protocol.Backend, m: Protocol.Model, decode: Decoder, stream: bool, ctx: Context)
    requires Usable(host, b, m)
    ensures exists ss, steps :: WorkedUnwelcomed(ss, steps)
  {
    hide Usable, Run, Next;
    var ss, steps := JobIsSelected(host, b, m, decode, stream, ctx, false);
    var s := Selected(host, b, m, decode, stream, ctx, Unsaid);
    RequestIsWritten(s);
    ss, steps := StepOn(ss, steps, Move(JOB, Buyer(BeginRequest)));
    ss, steps := StepOn(ss, steps, Move(JOB, Buyer(WriteRequest)));
    assert WorkedUnwelcomed(ss, steps);
  }

  /** A chosen job's request can begin and be written at once. */
  lemma RequestIsWritten(s: State)
    requires JOB in s.jobs && s.jobs[JOB].conn in s.conns && s.jobs[JOB].attempt.handler.pc.Chosen?
    requires !s.jobs[JOB].attempt.desk.requested && s.jobs[JOB].attempt.desk.session == Session(true, true)
    requires PlaceOf(s, s.jobs[JOB]) in s.active && PlaceOf(s, s.jobs[JOB]) in s.capacity
    requires s.conns[s.jobs[JOB].conn].greeting.Unsaid?
    ensures Next(s, Move(JOB, Buyer(BeginRequest))).Some?
    ensures
      var t := Next(s, Move(JOB, Buyer(BeginRequest))).value;
      && Next(t, Move(JOB, Buyer(WriteRequest))).Some?
      && var u := Next(t, Move(JOB, Buyer(WriteRequest))).value;
         && JOB in u.jobs && u.jobs[JOB].conn in u.conns && u.jobs[JOB].attempt.desk.requested
         && u.conns[u.jobs[JOB].conn].session == Session(true, true)
         && u.conns[u.jobs[JOB].conn].greeting.Overtaken?
  {
    hide WorkerNext, ReaderNext, ReaperNext, FailWith, Handled, LoopIdle;
  }

  /** What was written before the welcome is lost, and so is the session: no attempt on the connection ever
      reaches the agent, however the run goes on. */
  lemma OvertakenSessionsDoNoWork(ss: seq<State>, steps: seq<Step>, k: nat, n: nat, id: string)
    requires Run(ss, steps) && |ss| == |steps| + 1 && k < n < |ss| && id in ss[n].jobs
    requires SpeaksOn(ss[k], steps[k], ss[n].jobs[id].conn) && Unspoken(ss, steps, k, ss[n].jobs[id].conn)
    ensures ss[n].jobs[id].attempt.worker.pc.Unassigned?
  {
    hide Run, SpeaksOn, Unspoken, WelcomeCameFirst;
    NoWelcomeComesFirst(ss, steps, k, n, ss[n].jobs[id].conn);
    if !ss[n].jobs[id].attempt.worker.pc.Unassigned? {
      WorkOnlyFollowsAWelcome(ss, steps, n, id);
      assert false;
    }
  }

  lemma NoWelcomeComesFirst(ss: seq<State>, steps: seq<Step>, k: nat, n: nat, c: nat)
    requires |ss| == |steps| + 1 && k < n < |ss| && SpeaksOn(ss[k], steps[k], c) && Unspoken(ss, steps, k, c)
    ensures !WelcomeCameFirst(ss, steps, n, c)
  {
    hide SpeaksOn;
    forall j: nat | j < n ensures steps[j] == Welcome(c) ==> !Unspoken(ss, steps, j, c) {
      if j <= k {
        NotBoth(ss[k], steps[k], c);
      }
    }
  }

  lemma NotBoth(s: State, st: Step, c: nat)
    ensures !(st == Welcome(c) && SpeaksOn(s, st, c))
  {}
}
