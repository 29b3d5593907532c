/** What every run of the whole relay keeps. */
module RelayProof {
  import opened Types
  import opened Attempt
  import opened AttemptProof
  import opened Relay
  import Protocol
  import Selection

  // ---- what one step of an attempt may change ----

  lemma ReaderOnlyUnlists(fs: seq<Frame>, d: Desk, a: ReaderAction)
    requires ReaderNext(fs, d, a).Some? && ReaderNext(fs, d, a).value.job.listed
    ensures d.job.listed
  {}

  lemma HandlerKeepsListing(x: Terms, d: Desk, h: Handler, a: HandlerAction)
    requires HandlerNext(x, d, h, a).Some?
    ensures HandlerNext(x, d, h, a).value.0.job.listed == d.job.listed
  {
    hide FailWith, Handled;
  }

  lemma ListedOnlyFalls(x: Attempt, a: Action)
    requires Advance(x, a).Some? && Advance(x, a).value.desk.job.listed
    ensures x.desk.job.listed
  {
    hide WorkerNext, ReaderNext, HandlerNext;
    match a
    case ReadLoop(b) => ReaderOnlyUnlists(x.worker.link.written, x.desk, b);
    case Buyer(b) => HandlerKeepsListing(Terms(x.stream, x.canRetry), x.desk, x.handler, b);
    case _ =>
  }

  lemma WorkerHolding(decode: Decoder, requested: bool, w: Worker, a: WorkerAction)
    requires WorkerNext(decode, requested, w, a).Some?
    ensures
      var v := WorkerNext(decode, requested, w, a).value;
      && (a == Arrive(None) ==> w.pc.Unassigned? && !Holding(w) && Holding(v))
      && (a.Release? ==> Holding(w) && !Holding(v))
      && (a != Arrive(None) && !a.Release? ==> Holding(v) == Holding(w))
  {
    hide AtBodyEnd, Conclude;
  }

  /** A slot is taken by reserve and given back by release, and by nothing else. */
  lemma HoldingChanges(x: Attempt, a: Action)
    requires Advance(x, a).Some?
    ensures
      var y := Advance(x, a).value;
      && (a == Agent(Arrive(None)) ==> x.worker.pc.Unassigned? && !Holding(x.worker) && Holding(y.worker))
      && (a == Agent(Release) ==> Holding(x.worker) && !Holding(y.worker))
      && (a != Agent(Arrive(None)) && a != Agent(Release) ==> Holding(y.worker) == Holding(x.worker))
  {
    hide WorkerNext, ReaderNext, HandlerNext, Holding;
    if a.Agent? {
      WorkerHolding(x.decode, x.desk.requested, x.worker, a.worker);
    }
  }

  /** A handler that has returned writes nothing more. */
  lemma ReturnedIsFinal(x: Attempt, a: Action)
    requires Advance(x, a).Some? && x.handler.pc.Returned?
    ensures
      var y := Advance(x, a).value;
      y.handler == x.handler.(ctx := y.handler.ctx)
  {
    hide WorkerNext, ReaderNext, ReaperNext, HandlerNext;
    if a.Buyer? {
      ReturnedStays(Terms(x.stream, x.canRetry), x.desk, x.handler, a.handler);
    }
  }

  lemma ReturnedStays(x: Terms, d: Desk, h: Handler, a: HandlerAction)
    requires h.pc.Returned? && HandlerNext(x, d, h, a).Some?
    ensures
      var g := HandlerNext(x, d, h, a).value.1;
      g == h.(ctx := g.ctx)
  {
    hide FailWith, Handled;
  }

  lemma TermsAreFixed(x: Attempt, a: Action)
    requires Advance(x, a).Some?
    ensures
      var y := Advance(x, a).value;
      y.stream == x.stream && y.canRetry == x.canRetry && y.decode == x.decode
  {
    hide WorkerNext, ReaderNext, HandlerNext;
  }

  /** What any step of the relay leaves of a job. */
  ghost predicate Follows(e: Entry, f: Entry) {
    && f == e.(attempt := f.attempt)
    && (f.attempt.desk.job.listed ==> e.attempt.desk.job.listed)
    && (e.attempt.handler.pc.Returned? ==> f.attempt.handler == e.attempt.handler.(ctx := f.attempt.handler.ctx))
    && f.attempt.stream == e.attempt.stream && f.attempt.canRetry == e.attempt.canRetry
  }

  lemma JobsFollow(s: State, st: Step, k: string)
    requires Linked(s) && Next(s, st).Some? && k in s.jobs
    ensures k in Next(s, st).value.jobs && Follows(s.jobs[k], Next(s, st).value.jobs[k])
  {
    hide Next, Advance, Linked;
    RelayProjectsToAttempts(s, st, k);
    if ActionFor(s, st, k).Some? {
      var x, b := s.jobs[k].attempt, ActionFor(s, st, k).value;
      if Advance(x, b).Some? {
        TermsAreFixed(x, b);
        if Advance(x, b).value.desk.job.listed { ListedOnlyFalls(x, b); }
        if x.handler.pc.Returned? { ReturnedIsFinal(x, b); }
      }
    }
  }

  /** Connections keep their host, and the recorded capacities never change. */
  lemma ConnectionsFollow(s: State, st: Step)
    requires Linked(s) && Next(s, st).Some?
    ensures
      var t := Next(s, st).value;
      && t.capacity == s.capacity && t.active.Keys == s.active.Keys
      && (forall c | c in s.conns :: c in t.conns && t.conns[c].host == s.conns[c].host)
      && (forall c | c in t.conns && c !in s.conns :: st.Register? && c == st.conn)
  {
    hide Advance, Protocol.CatalogConforms, Advertises, CanTake, LoopIdle, AgentDrained, Fresh, HostStep, Broadcast;
  }

  // ---- catalogs ----

  ghost predicate CatalogsOk(s: State) {
    forall c | c in s.conns :: Advertises(s, s.conns[c].host, s.conns[c].catalog)
  }

  lemma CatalogsStep(s: State, st: Step)
    requires Linked(s) && CatalogsOk(s) && Next(s, st).Some?
    ensures CatalogsOk(Next(s, st).value)
  {
    hide Next, Linked, Advertises, Protocol.CatalogConforms;
    var t := Next(s, st).value;
    ConnectionsFollow(s, st);
    forall c | c in t.conns ensures Advertises(t, t.conns[c].host, t.conns[c].catalog) {
      CatalogFollows(s, st, c);
      SameCapacities(s, t, t.conns[c].host, t.conns[c].catalog);
    }
  }

  /** A catalog is the one before, or one that was checked as it came. */
  lemma CatalogFollows(s: State, st: Step, c: nat)
    requires Linked(s) && Next(s, st).Some? && c in Next(s, st).value.conns
    ensures
      var t := Next(s, st).value;
      || (c in s.conns && t.conns[c].host == s.conns[c].host && t.conns[c].catalog == s.conns[c].catalog)
      || Advertises(s, t.conns[c].host, t.conns[c].catalog)
  {
    hide Advance, Advertises, Protocol.CatalogConforms, CanTake, LoopIdle, AgentDrained, Fresh, HostStep,
         Broadcast, Slots, Inv;
  }

  lemma SameCapacities(s: State, t: State, host: string, catalog: seq<Protocol.Backend>)
    requires Advertises(s, host, catalog) && t.capacity == s.capacity && t.active.Keys == s.active.Keys
    ensures Advertises(t, host, catalog)
  {}

  // ---- outstanding jobs never exceed the advertised capacity ----

  ghost function ListedOn(s: State, conn: nat, backend: string): set<string> {
    set id | id in s.jobs && s.jobs[id].conn == conn && s.jobs[id].attempt.desk.job.listed
             && s.jobs[id].target.backend.id == backend
  }

  ghost predicate NotOverbooked(s: State) {
    forall c, b | c in s.conns && ListedOn(s, c, b) != {} ::
      var p := Place(s.conns[c].host, b);
      p in s.capacity && p in s.active && |ListedOn(s, c, b)| <= s.capacity[p]
  }

  lemma SubsetIsSmaller<T>(a: set<T>, b: set<T>)
    requires a <= b
    ensures |a| <= |b|
  {
    assert b == a + (b - a);
  }

  /** selectJob counts exactly these. */
  lemma CountsAgree(s: State, conn: nat, backend: string)
    ensures Selection.OnBackend(Outstanding(s, conn), backend) == ListedOn(s, conn, backend)
  {}

  lemma ListedFalls(s: State, st: Step, c: nat, b: string)
    requires Linked(s) && Next(s, st).Some? && !st.Select?
    ensures ListedOn(Next(s, st).value, c, b) <= ListedOn(s, c, b)
  {
    hide Next, Advance, Linked;
    forall id | id in ListedOn(Next(s, st).value, c, b) ensures id in ListedOn(s, c, b) {
      RelayProjectsToAttempts(s, st, id);
      JobsFollow(s, st, id);
    }
  }

  /** What Select asks of the table and does to it. */
  lemma SelectMeans(s: State, st: Step)
    requires st.Select? && Next(s, st).Some?
    ensures
      var t := Next(s, st).value;
      && st.request in s.requests && st.conn in s.conns && st.job !in s.jobs
      && st.target.backend in s.conns[st.conn].catalog
      && |ListedOn(s, st.conn, st.target.backend.id)| < st.target.backend.capacity
      && t.conns == s.conns && t.capacity == s.capacity && t.active == s.active
      && t.jobs.Keys == s.jobs.Keys + {st.job}
      && (forall k | k in s.jobs :: t.jobs[k] == s.jobs[k])
      && t.jobs[st.job].conn == st.conn && t.jobs[st.job].target == st.target
  {
    hide Advance, Protocol.CatalogConforms, Inv, WishOf, Selection.Matches, Selection.Fresh, Fresh, MoveNext,
         Outstanding, ListedOn;
    CountsAgree(s, st.conn, st.target.backend.id);
  }

  lemma SelectKeepsCapacity(s: State, st: Step)
    requires Linked(s) && CatalogsOk(s) && NotOverbooked(s) && st.Select? && Next(s, st).Some?
    ensures NotOverbooked(Next(s, st).value)
  {
    hide Advance, Next, Linked, CatalogsOk;
    var t := Next(s, st).value;
    var b0 := st.target.backend.id;
    SelectMeans(s, st);
    RoomIsAdvertised(s, st.conn, st.target);
    forall c, b | c in t.conns && ListedOn(t, c, b) != {}
      ensures Place(t.conns[c].host, b) in t.capacity && Place(t.conns[c].host, b) in t.active
              && |ListedOn(t, c, b)| <= t.capacity[Place(t.conns[c].host, b)]
    {
      if c == st.conn && b == b0 {
        SubsetIsSmaller(ListedOn(t, c, b), ListedOn(s, c, b) + {st.job});
      } else {
        assert ListedOn(t, c, b) == ListedOn(s, c, b);
      }
    }
  }

  lemma RoomIsAdvertised(s: State, c: nat, t: Selection.Target)
    requires CatalogsOk(s) && c in s.conns && t.backend in s.conns[c].catalog
    ensures
      var p := Place(s.conns[c].host, t.backend.id);
      p in s.capacity && p in s.active && s.capacity[p] == t.backend.capacity
  {
    var i :| 0 <= i < |s.conns[c].catalog| && s.conns[c].catalog[i] == t.backend;
  }

  lemma CapacityStep(s: State, st: Step)
    requires Linked(s) && CatalogsOk(s) && NotOverbooked(s) && Next(s, st).Some?
    ensures NotOverbooked(Next(s, st).value)
  {
    hide Next, Advance, Linked, CatalogsOk, ListedOn;
    if st.Select? {
      SelectKeepsCapacity(s, st);
    } else {
      var t := Next(s, st).value;
      ConnectionsFollow(s, st);
      forall c, b | c in t.conns && ListedOn(t, c, b) != {}
        ensures Place(t.conns[c].host, b) in t.capacity && Place(t.conns[c].host, b) in t.active
                && |ListedOn(t, c, b)| <= t.capacity[Place(t.conns[c].host, b)]
      {
        ListedFalls(s, st, c, b);
        SubsetIsSmaller(ListedOn(t, c, b), ListedOn(s, c, b));
        if c !in s.conns {
          NoJobsYet(s, c, b);
        }
      }
    }
  }

  lemma NoJobsYet(s: State, c: nat, b: string)
    requires Linked(s) && c !in s.conns
    ensures ListedOn(s, c, b) == {}
  {}

  // ---- the agents' slots ----

  /** A host's agent runs one session at a time, and only its jobs hold slots. */
  ghost predicate AgentsOk(s: State) {
    && (forall c, d | c in s.conns && d in s.conns && s.conns[c].host == s.conns[d].host
                      && s.conns[c].agentRuns && s.conns[d].agentRuns :: c == d)
    && (forall id | id in s.jobs && s.jobs[id].conn in s.conns && Holding(s.jobs[id].attempt.worker) ::
          s.conns[s.jobs[id].conn].agentRuns)
  }

  /** The attempts holding a slot of the place. */
  ghost function Holders(s: State, p: Place): set<string> {
    set id | id in s.jobs && s.jobs[id].conn in s.conns && PlaceOf(s, s.jobs[id]) == p
             && Holding(s.jobs[id].attempt.worker)
  }

  ghost predicate SlotsOk(s: State) {
    forall p | p in s.active :: s.active[p] == |Holders(s, p)|
  }

  /** Whether a step makes the job take or give back its slot. */
  ghost predicate Takes(st: Step, id: string) {
    st == Move(id, Agent(Arrive(None)))
  }

  ghost predicate Gives(st: Step, id: string) {
    st == Move(id, Agent(Release))
  }

  lemma HoldingFollows(s: State, st: Step, k: string)
    requires Linked(s) && Next(s, st).Some? && k in s.jobs
    ensures k in Next(s, st).value.jobs
    ensures
      var e, f := s.jobs[k], Next(s, st).value.jobs[k];
      && f.conn == e.conn && f.target == e.target
      && (Takes(st, k) ==> !Holding(e.attempt.worker) && Holding(f.attempt.worker))
      && (Gives(st, k) ==> Holding(e.attempt.worker) && !Holding(f.attempt.worker))
      && (!Takes(st, k) && !Gives(st, k) ==> Holding(f.attempt.worker) == Holding(e.attempt.worker))
  {
    hide Next, Advance, Linked, Holding;
    RelayProjectsToAttempts(s, st, k);
    if ActionFor(s, st, k).Some? {
      var x, b := s.jobs[k].attempt, ActionFor(s, st, k).value;
      if Advance(x, b).Some? {
        HoldingChanges(x, b);
      }
      if st == Move(k, b) {
        MoveAdvances(s, k, b);
      }
    }
  }

  lemma MoveAdvances(s: State, id: string, a: Action)
    requires Next(s, Move(id, a)).Some?
    ensures id in s.jobs && !a.Host? && Advance(s.jobs[id].attempt, a).Some?
    ensures id in Next(s, Move(id, a)).value.jobs
    ensures Next(s, Move(id, a)).value.jobs[id].attempt == Advance(s.jobs[id].attempt, a).value
    ensures Slots(s, s.jobs[id], a) == Some(Next(s, Move(id, a)).value.active)
    ensures s.jobs[id].conn in s.conns && PlaceOf(s, s.jobs[id]) in s.active && PlaceOf(s, s.jobs[id]) in s.capacity
  {
    hide Advance, LoopIdle;
  }

  /** Only reserve and release touch the counters. */
  lemma ActiveFollows(s: State, st: Step)
    requires Next(s, st).Some?
    ensures
      var t := Next(s, st).value;
      match st
      case Move(id, Agent(Arrive(None))) =>
        id in s.jobs && s.jobs[id].conn in s.conns && PlaceOf(s, s.jobs[id]) in s.active
        && t.active == s.active[PlaceOf(s, s.jobs[id]) := s.active[PlaceOf(s, s.jobs[id])] + 1]
        && s.conns[s.jobs[id].conn].agentRuns
      case Move(id, Agent(Release)) =>
        id in s.jobs && s.jobs[id].conn in s.conns && PlaceOf(s, s.jobs[id]) in s.active
        && t.active == s.active[PlaceOf(s, s.jobs[id]) := s.active[PlaceOf(s, s.jobs[id])] - 1]
      case _ => t.active == s.active
  {
    hide Advance, LoopIdle, AgentDrained, Broadcast, Fresh, CanTake, Advertises, Protocol.CatalogConforms;
  }

  lemma NewJobHoldsNothing(s: State, st: Step, k: string)
    requires Linked(s) && Next(s, st).Some? && k !in s.jobs && k in Next(s, st).value.jobs
    ensures !Holding(Next(s, st).value.jobs[k].attempt.worker)
  {
    hide Next, Linked;
    RelayProjectsToAttempts(s, st, k);
  }

  lemma HolderFollows(s: State, st: Step, p: Place, k: string)
    requires Linked(s) && Next(s, st).Some?
    ensures k in Holders(Next(s, st).value, p) <==>
      || (k in Holders(s, p) && !Gives(st, k))
      || (Takes(st, k) && k in s.jobs && s.jobs[k].conn in s.conns && PlaceOf(s, s.jobs[k]) == p)
    ensures Takes(st, k) ==> k !in Holders(s, p)
    ensures Gives(st, k) && k in s.jobs && s.jobs[k].conn in s.conns && PlaceOf(s, s.jobs[k]) == p ==>
      k in Holders(s, p)
  {
    hide Next, Holding, Linked;
    var t := Next(s, st).value;
    ConnectionsFollow(s, st);
    if k in s.jobs {
      LinkedIn(s, k);
      HoldingFollows(s, st, k);
    } else if k in t.jobs {
      NewJobHoldsNothing(s, st, k);
    }
    if st.Move? && st.job == k {
      MoveAdvances(s, k, st.action);
    }
  }

  /** The holders of a place gain or lose exactly the job that took or gave back a slot of it. */
  lemma HoldersFollow(s: State, st: Step, p: Place)
    requires Linked(s) && Next(s, st).Some?
    ensures
      var t := Next(s, st).value;
      match st
      case Move(id, Agent(Arrive(None))) =>
        id in s.jobs && s.jobs[id].conn in s.conns && id !in Holders(s, p)
        && Holders(t, p) == if PlaceOf(s, s.jobs[id]) == p then Holders(s, p) + {id} else Holders(s, p)
      case Move(id, Agent(Release)) =>
        id in s.jobs && s.jobs[id].conn in s.conns && (PlaceOf(s, s.jobs[id]) == p ==> id in Holders(s, p))
        && Holders(t, p) == if PlaceOf(s, s.jobs[id]) == p then Holders(s, p) - {id} else Holders(s, p)
      case _ => Holders(t, p) == Holders(s, p)
  {
    hide Next, Linked, Holders;
    var t := Next(s, st).value;
    forall k
      ensures k in Holders(t, p) <==>
        || (k in Holders(s, p) && !Gives(st, k))
        || (Takes(st, k) && k in s.jobs && s.jobs[k].conn in s.conns && PlaceOf(s, s.jobs[k]) == p)
    {
      HolderFollows(s, st, p, k);
    }
    if st.Move? {
      HolderFollows(s, st, p, st.job);
      MoveAdvances(s, st.job, st.action);
      HolderIsThere(s, p, st.job);
    }
  }

  lemma HolderIsThere(s: State, p: Place, k: string)
    ensures k in Holders(s, p) ==> k in s.jobs && s.jobs[k].conn in s.conns && PlaceOf(s, s.jobs[k]) == p
  {}

  lemma SlotsStep(s: State, st: Step)
    requires Linked(s) && SlotsOk(s) && Next(s, st).Some?
    ensures SlotsOk(Next(s, st).value)
  {
    hide Next, Linked, Holders;
    ActiveFollows(s, st);
    ConnectionsFollow(s, st);
    forall p | p in Next(s, st).value.active ensures Next(s, st).value.active[p] == |Holders(Next(s, st).value, p)| {
      HoldersFollow(s, st, p);
    }
  }

  lemma RunningFollows(s: State, st: Step)
    requires Next(s, st).Some?
    ensures
      var t := Next(s, st).value;
      && (forall c | c in s.conns && c in t.conns :: t.conns[c].agentRuns ==
            (s.conns[c].agentRuns && !(st == AgentReturns(c))))
      && (st.AgentReturns? ==> st.conn in s.conns && AgentDrained(s, st.conn) && t.jobs == s.jobs)
      && (st.Register? ==> forall d | d in s.conns && s.conns[d].host == st.host :: !s.conns[d].agentRuns)
      && (st.Register? ==> st.conn in t.conns && t.conns[st.conn].host == st.host)
  {
    hide Advance, LoopIdle, AgentDrained, Broadcast, Fresh, CanTake, Advertises, Protocol.CatalogConforms, Slots;
  }

  lemma AgentsStep(s: State, st: Step)
    requires Linked(s) && AgentsOk(s) && Next(s, st).Some?
    ensures AgentsOk(Next(s, st).value)
  {
    hide Next, Linked, Holding;
    var t := Next(s, st).value;
    ConnectionsFollow(s, st);
    RunningFollows(s, st);
    ActiveFollows(s, st);
    forall id | id in t.jobs && t.jobs[id].conn in t.conns && Holding(t.jobs[id].attempt.worker)
      ensures t.conns[t.jobs[id].conn].agentRuns
    {
      if id in s.jobs {
        HoldingFollows(s, st, id);
        LinkedIn(s, id);
        DrainedHoldsNothing(s, id);
      } else {
        NewJobHoldsNothing(s, st, id);
      }
    }
  }

  lemma LinkedIn(s: State, id: string)
    requires Linked(s) && id in s.jobs
    ensures s.jobs[id].conn in s.conns && s.jobs[id].buyer in s.requests
  {}

  lemma DrainedHoldsNothing(s: State, id: string)
    requires id in s.jobs
    ensures AgentDrained(s, s.jobs[id].conn) ==> !Holding(s.jobs[id].attempt.worker)
  {}

  // ---- the welcome ----

  /** The step writes a request or a cancel on the connection. */
  predicate SpeaksOn(s: State, st: Step, c: nat) {
    && st.Move? && (st.action == Buyer(WriteRequest) || st.action == Reap(WriteCancel))
    && st.job in s.jobs && s.jobs[st.job].conn == c
  }

  /** Only the first frame on a connection decides how it was greeted. */
  lemma GreetingFollows(s: State, st: Step, c: nat)
    requires Linked(s) && Next(s, st).Some?
    ensures c in s.conns ==> c in Next(s, st).value.conns
    ensures c in s.conns ==>
      Next(s, st).value.conns[c].greeting ==
        if !s.conns[c].greeting.Unsaid? then s.conns[c].greeting
        else if st == Welcome(c) then Welcomed
        else if SpeaksOn(s, st, c) then Overtaken
        else Unsaid
    ensures c !in s.conns ==> st != Welcome(c) && !SpeaksOn(s, st, c)
    ensures c !in s.conns && c in Next(s, st).value.conns ==> Next(s, st).value.conns[c].greeting.Unsaid?
  {
    hide Advance, Protocol.CatalogConforms, Advertises, CanTake, LoopIdle, LoopEnds, AgentDrained, Fresh, HostStep,
         Broadcast, Slots, Inv;
  }

  /** An attempt reaches an agent only over a session that was greeted first of all. */
  ghost predicate GreetedOk(s: State) {
    forall id | id in s.jobs && s.jobs[id].conn in s.conns && !s.jobs[id].attempt.worker.pc.Unassigned? ::
      s.conns[s.jobs[id].conn].greeting.Welcomed?
  }

  lemma OnlyArrivalsAssign(x: Attempt, a: Action)
    requires Advance(x, a).Some? && x.worker.pc.Unassigned? && !Advance(x, a).value.worker.pc.Unassigned?
    ensures a.Agent? && a.worker.Arrive?
  {
    hide WorkerNext, ReaderNext, HandlerNext;
    if a.Agent? {
      OnlyArrivalAssigns(x.decode, x.desk.requested, x.worker, a.worker);
    }
  }

  lemma AssignmentFollows(s: State, st: Step, k: string)
    requires Linked(s) && Next(s, st).Some? && k in s.jobs && s.jobs[k].attempt.worker.pc.Unassigned?
    ensures k in Next(s, st).value.jobs
    ensures !Next(s, st).value.jobs[k].attempt.worker.pc.Unassigned? ==>
      s.jobs[k].conn in s.conns && s.conns[s.jobs[k].conn].greeting.Welcomed?
  {
    hide Next, Advance, Linked;
    RelayProjectsToAttempts(s, st, k);
    if !Next(s, st).value.jobs[k].attempt.worker.pc.Unassigned? {
      OnlyArrivalsAssign(s.jobs[k].attempt, ActionFor(s, st, k).value);
      MoveAdvances(s, k, st.action);
    }
  }

  lemma GreetedStep(s: State, st: Step)
    requires Linked(s) && GreetedOk(s) && Next(s, st).Some?
    ensures GreetedOk(Next(s, st).value)
  {
    hide Next, Linked;
    var t := Next(s, st).value;
    forall id | id in t.jobs && t.jobs[id].conn in t.conns && !t.jobs[id].attempt.worker.pc.Unassigned?
      ensures t.conns[t.jobs[id].conn].greeting.Welcomed?
    {
      if id in s.jobs {
        LinkedIn(s, id);
        JobsFollow(s, st, id);
        GreetingFollows(s, st, s.jobs[id].conn);
        if s.jobs[id].attempt.worker.pc.Unassigned? {
          AssignmentFollows(s, st, id);
        }
      } else {
        NewJobIsUnassigned(s, st, id);
      }
    }
  }

  lemma NewJobIsUnassigned(s: State, st: Step, k: string)
    requires Linked(s) && Next(s, st).Some? && k !in s.jobs && k in Next(s, st).value.jobs
    ensures Next(s, st).value.jobs[k].attempt.worker.pc.Unassigned?
  {
    hide Next, Linked;
    RelayProjectsToAttempts(s, st, k);
  }

  // ---- requests ----

  /** The second attempt went to another host for the same model, with the same source and kind, and the
      same digest when the model is local. */
  ghost predicate FairRetry(s: State, first: string, second: string) {
    && first in s.jobs && second in s.jobs && s.jobs[first].conn in s.conns && s.jobs[second].conn in s.conns
    && s.conns[s.jobs[first].conn].host != s.conns[s.jobs[second].conn].host
    && s.jobs[first].target.model.id == s.jobs[second].target.model.id
    && Selection.Matches(Some(s.jobs[first].target), s.jobs[second].target.backend, s.jobs[second].target.model)
  }

  ghost predicate AttemptOf(s: State, r: nat, stream: bool, modelId: string, first: bool, id: string) {
    && id in s.jobs && s.jobs[id].buyer == r && s.jobs[id].target.model.id == modelId
    && s.jobs[id].attempt.stream == stream && s.jobs[id].attempt.canRetry == first
  }

  ghost predicate GaveUp(s: State, id: string, again: bool) {
    id in s.jobs && s.jobs[id].attempt.handler.pc == Returned(again)
  }

  ghost predicate RequestOk(s: State, r: nat, q: Request) {
    && |q.history| <= ATTEMPTS
    && (forall i | 0 <= i < |q.history| :: AttemptOf(s, r, q.stream, q.modelId, i == 0, q.history[i]))
    && (|q.history| == 2 ==>
          && q.history[0] != q.history[1] && GaveUp(s, q.history[0], true)
          && FairRetry(s, q.history[0], q.history[1]))
    && match q.phase
       case Choosing => q.own == [] && (q.history != [] ==> GaveUp(s, q.history[|q.history| - 1], true))
       case Running => q.own == [] && q.history != []
       case Answered =>
         || (q.own == [] && q.history != [] && GaveUp(s, q.history[|q.history| - 1], false))
         || (q.own == [503] && (q.history != [] ==> GaveUp(s, q.history[|q.history| - 1], true)))
  }

  ghost predicate RequestsOk(s: State) {
    && (forall r | r in s.requests :: RequestOk(s, r, s.requests[r]))
    && (forall id | id in s.jobs && s.jobs[id].buyer in s.requests :: id in s.requests[s.jobs[id].buyer].history)
  }

  /** Nothing an attempt or a session does can spoil what is recorded of a request. */
  lemma RequestLasts(s: State, t: State, r: nat, q: Request)
    requires RequestOk(s, r, q)
    requires forall k | k in s.jobs :: k in t.jobs && Follows(s.jobs[k], t.jobs[k])
    requires forall c | c in s.conns :: c in t.conns && t.conns[c].host == s.conns[c].host
    ensures RequestOk(t, r, q)
  {
    hide AttemptOf, GaveUp, FairRetry, Follows;
    forall i | 0 <= i < |q.history| ensures AttemptOf(t, r, q.stream, q.modelId, i == 0, q.history[i]) {
      AttemptLasts(s, t, r, q, i == 0, q.history[i]);
    }
    forall id: string, again | GaveUp(s, id, again) ensures GaveUp(t, id, again) {
      GivingUpLasts(s, t, id, again);
    }
    if |q.history| == 2 {
      FairnessLasts(s, t, q.history[0], q.history[1]);
    }
  }

  lemma AttemptLasts(s: State, t: State, r: nat, q: Request, first: bool, id: string)
    requires AttemptOf(s, r, q.stream, q.modelId, first, id)
    requires id in s.jobs ==> id in t.jobs && Follows(s.jobs[id], t.jobs[id])
    ensures AttemptOf(t, r, q.stream, q.modelId, first, id)
  {}

  lemma GivingUpLasts(s: State, t: State, id: string, again: bool)
    requires GaveUp(s, id, again)
    requires id in s.jobs ==> id in t.jobs && Follows(s.jobs[id], t.jobs[id])
    ensures GaveUp(t, id, again)
  {}

  lemma FairnessLasts(s: State, t: State, first: string, second: string)
    requires FairRetry(s, first, second)
    requires forall k | k in s.jobs :: k in t.jobs && Follows(s.jobs[k], t.jobs[k])
    requires forall c | c in s.conns :: c in t.conns && t.conns[c].host == s.conns[c].host
    ensures FairRetry(t, first, second)
  {
    hide Selection.Matches;
  }

  /** The steps that begin, continue or end a request. */
  ghost predicate OnRequest(st: Step) {
    st.Receive? || st.Select? || st.NoCapacity? || st.Return?
  }

  lemma OthersKeepRequests(s: State, st: Step)
    requires Next(s, st).Some? && !OnRequest(st)
    ensures Next(s, st).value.requests == s.requests && Next(s, st).value.jobs.Keys == s.jobs.Keys
  {
    hide Advance, LoopIdle, AgentDrained, Fresh, CanTake, Advertises, Protocol.CatalogConforms, Slots, HostStep;
  }

  /** What Select asks of the candidate, and what it records. */
  lemma SelectionMeans(s: State, st: Step)
    requires st.Select? && Next(s, st).Some?
    ensures
      var t := Next(s, st).value;
      && st.request in s.requests && st.job !in s.jobs
      && var q := s.requests[st.request];
         && q.phase.Choosing? && |q.history| < ATTEMPTS
         && t.requests == s.requests[st.request := q.(phase := Running, history := q.history + [st.job])]
         && st.job in t.jobs && t.jobs[st.job].buyer == st.request && t.jobs[st.job].target == st.target
         && t.jobs[st.job].conn == st.conn
         && t.jobs[st.job].attempt.stream == q.stream && t.jobs[st.job].attempt.canRetry == (q.history == [])
         && CanTake(s, q, st.conn, st.target)
  {
    hide Advance, Protocol.CatalogConforms, CanTake, MoveNext, Advertises;
  }

  /** What a candidate for a retry has in common with the attempt it replaces. */
  lemma CandidateIsFair(s: State, q: Request, c: nat, t: Selection.Target)
    requires CanTake(s, q, c, t)
    ensures c in s.conns && t.model.id == q.modelId
    ensures
      var p := Previous(s, q);
      p.Some? && p.value.conn in s.conns ==>
        && s.conns[p.value.conn].host != s.conns[c].host
        && Selection.Matches(Some(p.value.target), t.backend, t.model)
  {
    hide Selection.Fresh, Selection.HasRoom, Selection.Matches, Outstanding;
  }

  lemma RetryIsFair(s: State, st: Step)
    requires Linked(s) && RequestsOk(s) && st.Select? && Next(s, st).Some?
    ensures
      var q := s.requests[st.request];
      && st.request in s.requests && q.phase.Choosing? && |q.history| < ATTEMPTS && st.job !in s.jobs
      && Next(s, st).value.requests == s.requests[st.request := q.(phase := Running, history := q.history + [st.job])]
      && Next(s, st).value.jobs[st.job].buyer == st.request
      && AttemptOf(Next(s, st).value, st.request, q.stream, q.modelId, q.history == [], st.job)
      && (q.history != [] ==> FairRetry(Next(s, st).value, q.history[|q.history| - 1], st.job))
  {
    hide Next, Linked, Selection.Matches, CanTake, Follows;
    SelectionMeans(s, st);
    var q := s.requests[st.request];
    CandidateIsFair(s, q, st.conn, st.target);
    assert RequestOk(s, st.request, q);
    if q.history != [] {
      var last := q.history[|q.history| - 1];
      assert AttemptOf(s, st.request, q.stream, q.modelId, |q.history| - 1 == 0, last);
      LinkedIn(s, last);
      SelectMeans(s, st);
    }
  }

  lemma SelectKeepsRequests(s: State, st: Step)
    requires Linked(s) && RequestsOk(s) && st.Select? && Next(s, st).Some?
    ensures RequestsOk(Next(s, st).value)
  {
    hide Next, Advance, Linked, FairRetry, AttemptOf;
    var t := Next(s, st).value;
    ConnectionsFollow(s, st);
    forall k | k in s.jobs ensures k in t.jobs && Follows(s.jobs[k], t.jobs[k]) { JobsFollow(s, st, k); }
    SelectMeans(s, st);
    RetryIsFair(s, st);
    var q := s.requests[st.request];
    RequestLasts(s, t, st.request, q);
    JobIsNew(s, st.request, q, st.job);
    RequestGrows(t, st.request, q, st.job);
    forall r | r in t.requests ensures RequestOk(t, r, t.requests[r]) {
      if r != st.request {
        hide RequestOk;
        RequestLasts(s, t, r, s.requests[r]);
      }
    }
  }

  lemma RequestGrows(t: State, r: nat, q: Request, id: string)
    requires RequestOk(t, r, q) && q.phase.Choosing? && |q.history| < ATTEMPTS && id !in q.history
    requires AttemptOf(t, r, q.stream, q.modelId, q.history == [], id)
    requires q.history != [] ==> FairRetry(t, q.history[|q.history| - 1], id)
    ensures RequestOk(t, r, q.(phase := Running, history := q.history + [id]))
  {
    hide AttemptOf, FairRetry;
  }

  lemma JobIsNew(s: State, r: nat, q: Request, id: string)
    requires RequestOk(s, r, q) && id !in s.jobs
    ensures id !in q.history
  {}

  /** What the other steps on a request do. */
  lemma ReplyMeans(s: State, st: Step)
    requires (st.Receive? || st.NoCapacity? || st.Return?) && Next(s, st).Some?
    ensures
      var t := Next(s, st).value;
      && t.jobs == s.jobs && t.conns == s.conns
      && (st.Receive? ==>
            && st.request !in s.requests
            && t.requests == s.requests[st.request := Request(st.stream, st.modelId, st.ctx, Choosing, [], [])])
      && (st.NoCapacity? ==>
            && st.request in s.requests && s.requests[st.request].phase.Choosing?
            && t.requests == s.requests[st.request := s.requests[st.request].(phase := Answered, own := [503])])
      && (st.Return? ==>
            && st.request in s.requests && s.requests[st.request].phase.Running?
            && s.requests[st.request].history != []
            && var q := s.requests[st.request];
               var id := q.history[|q.history| - 1];
               && id in s.jobs && s.jobs[id].attempt.handler.pc.Returned?
               && t.requests == s.requests[st.request := q.(
                    phase := if s.jobs[id].attempt.handler.pc.again then Choosing else Answered,
                    ctx := s.jobs[id].attempt.handler.ctx)])
  {
    hide Advance, Protocol.CatalogConforms, CanTake, MoveNext, Advertises, Broadcast;
  }

  lemma ReplyKeepsRequests(s: State, st: Step)
    requires Linked(s) && RequestsOk(s) && (st.Receive? || st.NoCapacity? || st.Return?) && Next(s, st).Some?
    ensures RequestsOk(Next(s, st).value)
  {
    hide Next, Advance, Linked, FairRetry, AttemptOf;
    var t := Next(s, st).value;
    ReplyMeans(s, st);
    forall r | r in t.requests ensures RequestOk(t, r, t.requests[r]) {
      if r in s.requests {
        SameWorld(s, t, r, s.requests[r]);
      }
    }
    forall id | id in s.jobs ensures s.jobs[id].buyer in s.requests { LinkedIn(s, id); }
  }

  lemma SameWorld(s: State, t: State, r: nat, q: Request)
    requires RequestOk(s, r, q) && t.jobs == s.jobs && t.conns == s.conns
    ensures RequestOk(t, r, q)
  {
    hide Selection.Matches;
  }

  lemma RequestsStep(s: State, st: Step)
    requires Linked(s) && RequestsOk(s) && Next(s, st).Some?
    ensures RequestsOk(Next(s, st).value)
  {
    hide Next, Advance, Linked, RequestOk;
    var t := Next(s, st).value;
    if st.Select? {
      SelectKeepsRequests(s, st);
    } else if OnRequest(st) {
      ReplyKeepsRequests(s, st);
    } else {
      OthersKeepRequests(s, st);
      ConnectionsFollow(s, st);
      forall k | k in s.jobs ensures k in t.jobs && Follows(s.jobs[k], t.jobs[k]) { JobsFollow(s, st, k); }
      forall r | r in t.requests ensures RequestOk(t, r, t.requests[r]) {
        RequestLasts(s, t, r, s.requests[r]);
      }
    }
  }

  // ---- runs ----

  ghost predicate Sound(s: State) {
    Linked(s) && AttemptsOk(s) && CatalogsOk(s) && NotOverbooked(s) && AgentsOk(s) && SlotsOk(s) && GreetedOk(s)
    && RequestsOk(s)
  }

  ghost predicate Run(ss: seq<State>, steps: seq<Step>) {
    && |ss| == |steps| + 1
    && Init(ss[0])
    && forall i | 0 <= i < |steps| :: Next(ss[i], steps[i]) == Some(ss[i + 1])
  }

  lemma InitIsSound(s: State)
    requires Init(s)
    ensures Sound(s)
  {
    hide Inv, Advertises, RequestOk;
    assert forall p :: Holders(s, p) == {};
    assert forall c, b :: ListedOn(s, c, b) == {};
  }

  lemma StepKeepsSound(s: State, st: Step)
    requires Sound(s) && Next(s, st).Some?
    ensures Sound(Next(s, st).value)
  {
    hide Next, Linked, AttemptsOk, CatalogsOk, NotOverbooked, AgentsOk, SlotsOk, GreetedOk, RequestsOk;
    LinkedStep(s, st);
    AttemptsStep(s, st);
    CatalogsStep(s, st);
    CapacityStep(s, st);
    AgentsStep(s, st);
    SlotsStep(s, st);
    GreetedStep(s, st);
    RequestsStep(s, st);
  }

  /** Every state of every run is sound. */
  lemma {:induction false} RunsAreSound(ss: seq<State>, steps: seq<Step>, n: nat)
    requires Run(ss, steps) && n < |ss|
    ensures Sound(ss[n])
  {
    hide Sound, Next, Init;
    if n == 0 {
      InitIsSound(ss[0]);
    } else {
      RunsAreSound(ss, steps, n - 1);
      assert Next(ss[n - 1], steps[n - 1]) == Some(ss[n - 1 + 1]);
      StepKeepsSound(ss[n - 1], steps[n - 1]);
    }
  }
}
