/** What holds in every state of every run of the whole relay, whatever the hosts, backends, buyers,
    clocks and schedules do. */
module RelayTheorems {
  import opened Types
  import opened ObserverSpec
  import opened Attempt
  import opened AttemptProof
  import opened AttemptTheorems
  import opened Relay
  import opened RelayProof
  import Protocol
  import Selection

  // ---- attempts ----

  /** Every attempt of every run keeps the invariant of the attempt system. */
  lemma AttemptIsSound(ss: seq<State>, steps: seq<Step>, n: nat, id: string)
    requires Run(ss, steps) && n < |ss| && id in ss[n].jobs
    ensures Inv(ss[n].jobs[id].attempt)
  {
    hide Run, Inv, Linked, CatalogsOk, NotOverbooked, AgentsOk, SlotsOk, RequestsOk;
    RunsAreSound(ss, steps, n);
  }

  /** The frames an agent sent about an attempt follow the protocol, end with a terminal frame once the
      job is finished on a live session, and are turned down by validation exactly for a backend status
      above 599; no interleaving makes the coordinator's read loop end over an attempt for anything else. */
  lemma HostsAreCutOffOnlyForTheirStatus(ss: seq<State>, steps: seq<Step>, n: nat, id: string)
    requires Run(ss, steps) && n < |ss| && id in ss[n].jobs && 0 < |id| <= 128
    ensures
      var x := ss[n].jobs[id].attempt;
      var fs := x.worker.link.written;
      && Trace(fs) && (x.worker.pc.Finished? && x.worker.alive ==> Ended(fs))
      && (forall i | 0 <= i < |fs| :: Protocol.Validate(Protocol.MessageOf(id, fs[i])) == None <==> !BadStart(fs[i]))
      && (x.desk.reader.Violated? ==> fs != [] && BadStart(fs[0]) && x.desk.job.accepted == [])
  {
    hide Run, Inv, Trace, Ended, BadStart, Protocol.Validate, Protocol.MessageOf;
    AttemptIsSound(ss, steps, n, id);
    FramesFollowTheProtocol(ss[n].jobs[id].attempt, id);
    if ss[n].jobs[id].attempt.desk.reader.Violated? {
      HostIsCutOffOnlyForItsStatus(ss[n].jobs[id].attempt);
    }
  }

  /** In any state of any run, the next step of a read loop ends it exactly when it takes such a frame. */
  lemma ReadLoopEndsExactlyForAStatus(ss: seq<State>, steps: seq<Step>, n: nat, id: string, a: ReaderAction)
    requires Run(ss, steps) && n < |ss| && Next(ss[n], Move(id, ReadLoop(a))).Some?
    ensures id in ss[n].jobs && id in Next(ss[n], Move(id, ReadLoop(a))).value.jobs
    ensures
      var x := ss[n].jobs[id].attempt;
      && (a.Take? ==> x.desk.job.taken < |x.worker.link.written|)
      && (Next(ss[n], Move(id, ReadLoop(a))).value.jobs[id].attempt.desk.reader.Violated? <==>
            a.Take? && BadStart(x.worker.link.written[x.desk.job.taken]))
  {
    hide Run, Inv, Next, BadStart;
    MoveAdvances(ss[n], id, ReadLoop(a));
    AttemptIsSound(ss, steps, n, id);
    StepCutsOffExactlyForAStatus(ss[n].jobs[id].attempt, a);
  }

  /** The event queue of every attempt of every run is accounted for to the byte, within both bounds,
      and without a gap. */
  lemma QueuesAreBoundedAndGapless(ss: seq<State>, steps: seq<Step>, n: nat, id: string)
    requires Run(ss, steps) && n < |ss| && id in ss[n].jobs
    ensures ss[n].jobs[id].attempt.desk.job.consumed <= |ss[n].jobs[id].attempt.desk.job.accepted|
    ensures
      var x := ss[n].jobs[id].attempt;
      var j := x.desk.job;
      && j.queued == |Data(Channel(j))| + ReaderBytes(x.desk.reader) + HandlerBytes(x.handler.pc)
      && |Data(Channel(j))| <= 262144 && |Channel(j)| <= 10
      && j.accepted <= x.worker.link.written
  {
    hide Run, Inv, Data, ReaderBytes, HandlerBytes;
    AttemptIsSound(ss, steps, n, id);
    QueueIsBoundedAndGapless(ss[n].jobs[id].attempt);
  }

  /** One step of a run, for one job: one step of the attempt, or none. */
  lemma JobSteps(ss: seq<State>, steps: seq<Step>, n: nat, id: string) returns (a: Option<Action>)
    requires Run(ss, steps) && n < |steps| && id in ss[n].jobs
    ensures |ss| == |steps| + 1 && id in ss[n + 1].jobs
    ensures a.None? ==> ss[n + 1].jobs[id].attempt == ss[n].jobs[id].attempt
    ensures a.Some? ==> Advance(ss[n].jobs[id].attempt, a.value) == Some(ss[n + 1].jobs[id].attempt)
    ensures a.Some? && !a.value.Host? ==> steps[n] == Move(id, a.value)
    ensures steps[n].Move? && steps[n].job == id ==> a == Some(steps[n].action)
  {
    hide Next, Init, Linked, Advance, AttemptsOk, CatalogsOk, NotOverbooked, AgentsOk, SlotsOk, GreetedOk, RequestsOk;
    RunsAreSound(ss, steps, n);
    assert Next(ss[n], steps[n]) == Some(ss[n + 1]);
    RelayProjectsToAttempts(ss[n], steps[n], id);
    a := ActionFor(ss[n], steps[n], id);
    if steps[n].Move? && steps[n].job == id {
      MoveAdvances(ss[n], id, steps[n].action);
    } else if a.Some? && ss[n + 1].jobs[id].attempt == ss[n].jobs[id].attempt {
      a := None;
    }
  }

  /** The read loop has counted a frame in step a and not offered it before step n. */
  ghost predicate CountedAt(ss: seq<State>, steps: seq<Step>, a: nat, n: nat, id: string)
    requires |ss| == |steps| + 1 && a < n < |ss|
  {
    && steps[a] == Move(id, ReadLoop(Add))
    && forall i | a < i < n :: steps[i] != Move(id, ReadLoop(Offer))
  }

  lemma {:induction false} CountIsKept(ss: seq<State>, steps: seq<Step>, a: nat, n: nat, id: string)
    requires Run(ss, steps) && |ss| == |steps| + 1 && a < n < |ss| && id in ss[a].jobs && CountedAt(ss, steps, a, n, id)
    ensures id in ss[n].jobs && ss[a].jobs[id].attempt.desk.reader.Adding?
    ensures ss[a].jobs[id].attempt.desk.job.consumed <= |ss[a].jobs[id].attempt.desk.job.accepted|
    ensures
      var x := ss[a].jobs[id].attempt;
      var m := x.desk.reader.m;
      ss[n].jobs[id].attempt.desk.reader ==
        Offering(m, |Data(Channel(x.desk.job))| + HandlerBytes(x.handler.pc) + |m.Bytes()|)
    decreases n
  {
    hide Run, Inv, Advance, Data, HandlerBytes;
    if n == a + 1 {
      var b := JobSteps(ss, steps, a, id);
      AttemptIsSound(ss, steps, a, id);
      AddCountsWhatIsThere(ss[a].jobs[id].attempt);
    } else {
      CountIsKept(ss, steps, a, n - 1, id);
      var b := JobSteps(ss, steps, n - 1, id);
      if b.Some? {
        CountStays(ss[n - 1].jobs[id].attempt, b.value);
      }
    }
  }

  /** In every run, the event queue takes a frame exactly when, at the moment it was added, the bytes on
      the channel, those the handler was accounting for and its own were at most 262144, and fewer than
      10 messages wait when it is offered; otherwise the attempt's queue is left as it was. */
  lemma QueueTakesExactlyWhatFits(ss: seq<State>, steps: seq<Step>, a: nat, n: nat, id: string)
    requires Run(ss, steps) && |ss| == |steps| + 1 && a < n < |steps| && id in ss[a].jobs
    requires CountedAt(ss, steps, a, n, id) && steps[n] == Move(id, ReadLoop(Offer))
    ensures ss[a].jobs[id].attempt.desk.reader.Adding? && id in ss[n].jobs && id in ss[n + 1].jobs
    ensures ss[a].jobs[id].attempt.desk.job.consumed <= |ss[a].jobs[id].attempt.desk.job.accepted|
    ensures ss[n].jobs[id].attempt.desk.job.consumed <= |ss[n].jobs[id].attempt.desk.job.accepted|
    ensures
      var x := ss[a].jobs[id].attempt;
      var m := x.desk.reader.m;
      var j, k := ss[n].jobs[id].attempt.desk.job, ss[n + 1].jobs[id].attempt.desk.job;
      var bytes := |Data(Channel(x.desk.job))| + HandlerBytes(x.handler.pc) + |m.Bytes()|;
      k.accepted == (if bytes <= 262144 && |Channel(j)| < 10 then j.accepted + [m] else j.accepted)
  {
    hide Run, Inv, Advance, Data, HandlerBytes;
    CountIsKept(ss, steps, a, n, id);
    var b := JobSteps(ss, steps, n, id);
    AttemptIsSound(ss, steps, n, id);
    OfferAcceptsExactlyWithRoom(ss[n].jobs[id].attempt);
  }

  /** A frame of the attempt was refused in some step, for its bytes or because 10 messages waited. */
  ghost predicate WasRefused(ss: seq<State>, steps: seq<Step>, m: nat, id: string)
    requires |ss| == |steps| + 1 && m < |ss|
  {
    exists n :: 0 <= n < m && steps[n] == Move(id, ReadLoop(Offer)) && Refuses(ss[n], id)
  }

  ghost predicate Refuses(s: State, id: string) {
    && id in s.jobs && s.jobs[id].attempt.desk.reader.Offering?
    && s.jobs[id].attempt.desk.job.consumed <= |s.jobs[id].attempt.desk.job.accepted|
    && (s.jobs[id].attempt.desk.reader.total > 262144 || |Channel(s.jobs[id].attempt.desk.job)| >= 10)
  }

  /** In every run a buyer is called slow only after its queue refused a frame. */
  lemma {:induction false} SlowConsumersWereFull(ss: seq<State>, steps: seq<Step>, m: nat, id: string)
    requires Run(ss, steps) && |ss| == |steps| + 1 && m < |ss| && id in ss[m].jobs
    requires
      var d := ss[m].jobs[id].attempt.desk;
      d.job.failure == Some(SlowConsumer) || d.reader.Undoing? || d.reader.Failing?
    ensures WasRefused(ss, steps, m, id)
  {
    hide Run, Next, Inv, Advance, Linked, AttemptsOk, CatalogsOk, NotOverbooked, AgentsOk, SlotsOk, GreetedOk,
         RequestsOk;
    if m == 0 {
      NoJobsAtFirst(ss, steps, id);
    } else if id in ss[m - 1].jobs {
      var a := JobSteps(ss, steps, m - 1, id);
      if a.Some? {
        AttemptIsSound(ss, steps, m - 1, id);
        SlowMeansRefused(ss[m - 1].jobs[id].attempt, a.value);
        if ss[m].jobs[id].attempt.desk.reader.Undoing? && !ss[m - 1].jobs[id].attempt.desk.reader.Undoing? {
          assert Refuses(ss[m - 1], id);
        } else {
          SlowConsumersWereFull(ss, steps, m - 1, id);
        }
      } else {
        SlowConsumersWereFull(ss, steps, m - 1, id);
      }
      RefusalLasts(ss, steps, m - 1, id);
    } else {
      NewJobIsFresh(ss, steps, m, id);
    }
  }

  lemma RefusalLasts(ss: seq<State>, steps: seq<Step>, m: nat, id: string)
    requires |ss| == |steps| + 1 && m + 1 < |ss|
    ensures WasRefused(ss, steps, m, id) ==> WasRefused(ss, steps, m + 1, id)
    ensures steps[m] == Move(id, ReadLoop(Offer)) && Refuses(ss[m], id) ==> WasRefused(ss, steps, m + 1, id)
  {
    hide Refuses;
  }

  lemma NoJobsAtFirst(ss: seq<State>, steps: seq<Step>, id: string)
    requires Run(ss, steps)
    ensures id !in ss[0].jobs
  {
    hide Next;
  }

  lemma NewJobIsFresh(ss: seq<State>, steps: seq<Step>, m: nat, id: string)
    requires Run(ss, steps) && 0 < m < |ss| && id !in ss[m - 1].jobs && id in ss[m].jobs
    ensures
      var x := ss[m].jobs[id].attempt;
      x == Fresh(x.decode, x.stream, x.canRetry, x.desk.session.open, x.handler.ctx)
  {
    hide Next, Init, Linked, AttemptsOk, CatalogsOk, NotOverbooked, AgentsOk, SlotsOk, GreetedOk, RequestsOk;
    RunsAreSound(ss, steps, m - 1);
    assert Next(ss[m - 1], steps[m - 1]) == Some(ss[m - 1 + 1]);
    RelayProjectsToAttempts(ss[m - 1], steps[m - 1], id);
  }

  /** In every run, a job that left with its context past the deadline says deadline_exceeded and may be
      retried; one that was cancelled says cancelled and may not; one whose context was live says neither.
      Its last frame, once written, stays that message. */
  lemma {:induction false} TerminalTellsTheContext(ss: seq<State>, steps: seq<Step>, n: nat, m: nat, id: string)
    requires Run(ss, steps) && n + 1 <= m < |ss| && n < |steps| && id in ss[n].jobs && id in ss[n + 1].jobs
    requires !ss[n].jobs[id].attempt.worker.pc.Leaving? && ss[n + 1].jobs[id].attempt.worker.pc.Leaving?
    ensures id in ss[m].jobs && Tells(ss[n].jobs[id].attempt.worker.ctx, ss[n + 1].jobs[id].attempt.worker.pc.terminal)
    ensures SettledOn(ss[m].jobs[id].attempt.worker, ss[n + 1].jobs[id].attempt.worker.pc.terminal)
    decreases m
  {
    hide Run, Inv, Tells, SettledOn, WorkerNext, ReaderNext, HandlerNext, ReaperNext;
    RunLength(ss, steps);
    var t := ss[n + 1].jobs[id].attempt.worker.pc.terminal;
    if m == n + 1 {
      var a := JobSteps(ss, steps, n, id);
      AttemptIsSound(ss, steps, n, id);
      LeavesWhenItMoves(ss[n].jobs[id].attempt, a.value);
    } else {
      TerminalTellsTheContext(ss, steps, n, m - 1, id);
      var a := JobSteps(ss, steps, m - 1, id);
      AttemptIsSound(ss, steps, m - 1, id);
      if a.Some? {
        SettledInStep(ss[m - 1].jobs[id].attempt, a.value, t);
      }
    }
  }

  lemma LeavesWhenItMoves(x: Attempt, a: Action)
    requires Inv(x) && Advance(x, a).Some? && !x.worker.pc.Leaving? && Advance(x, a).value.worker.pc.Leaving?
    ensures
      var t := Advance(x, a).value.worker.pc.terminal;
      Tells(x.worker.ctx, t) && SettledOn(Advance(x, a).value.worker, t)
  {
    hide WorkerNext, ReaderNext, HandlerNext, ReaperNext, WorkerInv, DeskInv, Tells, SettledOn;
    LeavingTellsTheContext(x.decode, x.desk.requested, x.worker, a.worker);
    LeavingSettles(x.decode, x.desk.requested, x.worker, a.worker);
  }

  lemma SettledInStep(x: Attempt, a: Action, t: Frame)
    requires Inv(x) && Advance(x, a).Some? && SettledOn(x.worker, t)
    ensures SettledOn(Advance(x, a).value.worker, t)
  {
    hide WorkerNext, ReaderNext, HandlerNext, ReaperNext, WorkerInv, DeskInv, SettledOn;
    if a.Agent? {
      TerminalStays(x.decode, x.desk.requested, x.worker, a.worker, t);
    }
  }

  /** A handler waiting for its host always has something left to wake it. */
  lemma NoBuyerIsOrphaned(ss: seq<State>, steps: seq<Step>, n: nat, id: string)
    requires Run(ss, steps) && n < |ss| && id in ss[n].jobs && ss[n].jobs[id].attempt.handler.pc.Selecting?
    ensures ss[n].jobs[id].conn in ss[n].conns
    ensures
      var e := ss[n].jobs[id];
      var d := e.attempt.desk;
      && d.job.consumed <= |d.job.accepted|
      && (|| (d.job.listed && ss[n].conns[e.conn].session.registered)
          || (Channel(d.job) != [] && Ended(Channel(d.job)))
          || d.job.failure.Some?
          || Delivering(d.reader))
  {
    hide Run, Inv, CatalogsOk, NotOverbooked, AgentsOk, SlotsOk, RequestsOk, Delivering, Ended;
    RunsAreSound(ss, steps, n);
    QueueIsBoundedAndGapless(ss[n].jobs[id].attempt);
    BuyerIsNeverOrphaned(ss[n].jobs[id].attempt);
  }

  /** A place taken in a host's table is always someone's to give back, unless the session is closed;
      at most one cancel is sent, and a reaper that is done left no place behind on an open session. */
  lemma NoReservationIsLeaked(ss: seq<State>, steps: seq<Step>, n: nat, id: string)
    requires Run(ss, steps) && n < |ss| && id in ss[n].jobs
    ensures ss[n].jobs[id].conn in ss[n].conns
    ensures
      var x := ss[n].jobs[id].attempt;
      var open := ss[n].conns[ss[n].jobs[id].conn].session.open;
      && (x.desk.job.listed ==>
            || Attending(x.handler.pc) || x.handler.pc.Abandoning? || x.handler.pc.Probing?
            || x.desk.reader.Looking? || Reaping(x.desk.reaper) || !open)
      && x.desk.cancels <= 1
      && (x.desk.reaper.Dead? ==> !x.desk.job.listed || !open)
  {
    hide Run, Inv, CatalogsOk, NotOverbooked, AgentsOk, SlotsOk, RequestsOk, Attending, Reaping;
    RunsAreSound(ss, steps, n);
    ReservationIsNeverLeaked(ss[n].jobs[id].attempt);
  }

  /** An attempt whose request has not been sent holds its place in every run, and the reaper that is done
      with it has cost the host its session. */
  lemma UnsentHoldsItsPlaceInEveryRun(ss: seq<State>, steps: seq<Step>, n: nat, id: string)
    requires Run(ss, steps) && n < |ss| && id in ss[n].jobs && !ss[n].jobs[id].attempt.desk.requested
    ensures ss[n].jobs[id].conn in ss[n].conns && ss[n].jobs[id].attempt.desk.job.listed
    ensures ss[n].jobs[id].attempt.desk.reaper.Dead? ==> !ss[n].conns[ss[n].jobs[id].conn].session.open
  {
    hide Run, Inv, CatalogsOk, NotOverbooked, AgentsOk, SlotsOk, GreetedOk, RequestsOk;
    RunsAreSound(ss, steps, n);
    UnsentHoldsItsPlace(ss[n].jobs[id].attempt);
  }

  /** A request abandoned before it was offered to the host is never sent: from then on its place is never
      freed, so an honest host loses its session when the reaper is done. */
  lemma {:induction false} AbandonedUnsentCostsTheSession(ss: seq<State>, steps: seq<Step>, n: nat, m: nat, id: string)
    requires Run(ss, steps) && n <= m < |ss| && id in ss[n].jobs
    requires !ss[n].jobs[id].attempt.desk.offered && !ss[n].jobs[id].attempt.handler.pc.Chosen?
    ensures id in ss[m].jobs && ss[m].jobs[id].conn == ss[n].jobs[id].conn
    ensures ss[m].jobs[id].conn in ss[m].conns
    ensures
      var x := ss[m].jobs[id].attempt;
      && !x.desk.offered && !x.desk.requested && !x.handler.pc.Chosen? && x.desk.job.listed
      && (x.desk.reaper.Dead? ==> !ss[m].conns[ss[m].jobs[id].conn].session.open)
    decreases m
  {
    hide Next, Init, Linked, AttemptsOk, CatalogsOk, NotOverbooked, AgentsOk, SlotsOk, GreetedOk, RequestsOk;
    if m > n {
      AbandonedUnsentCostsTheSession(ss, steps, n, m - 1, id);
      assert Next(ss[m - 1], steps[m - 1]) == Some(ss[m - 1 + 1]);
      RunsAreSound(ss, steps, m - 1);
      UnofferedStaysInStep(ss[m - 1], steps[m - 1], id);
    }
    AttemptIsSound(ss, steps, m, id);
    UnofferedIsUnsent(ss[m].jobs[id].attempt);
    UnsentHoldsItsPlaceInEveryRun(ss, steps, m, id);
  }

  lemma UnofferedIsUnsent(x: Attempt)
    requires Inv(x) && !x.desk.offered
    ensures !x.desk.requested
  {
    hide WorkerInv, DeskInv;
  }

  lemma UnofferedStaysInStep(s: State, st: Step, id: string)
    requires Linked(s) && Next(s, st).Some? && id in s.jobs
    requires !s.jobs[id].attempt.desk.offered && !s.jobs[id].attempt.handler.pc.Chosen?
    ensures id in Next(s, st).value.jobs
    ensures
      var e := Next(s, st).value.jobs[id];
      e.conn == s.jobs[id].conn && !e.attempt.desk.offered && !e.attempt.handler.pc.Chosen?
  {
    hide Next, Linked, Advance;
    RelayProjectsToAttempts(s, st, id);
    if ActionFor(s, st, id).Some? && Advance(s.jobs[id].attempt, ActionFor(s, st, id).value).Some? {
      UnofferedStays(s.jobs[id].attempt, ActionFor(s, st, id).value);
    }
  }

  /** In any state of any run, a reaper whose wait is over goes on to close the session exactly if no
      terminal frame of its attempt has been taken. */
  lemma ReaperClosesExactlyWithoutATerminal(ss: seq<State>, steps: seq<Step>, n: nat, id: string)
    requires Run(ss, steps) && n < |ss| && Next(ss[n], Move(id, Reap(Recheck))).Some?
    ensures id in ss[n].jobs && id in Next(ss[n], Move(id, Reap(Recheck))).value.jobs
    ensures ss[n].jobs[id].attempt.desk.job.taken <= |ss[n].jobs[id].attempt.worker.link.written|
    ensures Next(ss[n], Move(id, Reap(Recheck))).value.jobs[id].attempt.desk.reaper ==
      if TerminalTaken(ss[n].jobs[id].attempt) then Dead else Closing
  {
    hide Run, Inv, Next, TerminalTaken;
    MoveAdvances(ss[n], id, Reap(Recheck));
    AttemptIsSound(ss, steps, n, id);
    RecheckClosesExactlyWithoutATerminal(ss[n].jobs[id].attempt);
  }

  /** Completion is earned in every run: the whole body was read to its end, a stream succeeded, and the
      usage reported is what the observer made of it. */
  lemma CompletionIsEarned(ss: seq<State>, steps: seq<Step>, n: nat, id: string)
    requires Run(ss, steps) && n < |ss| && id in ss[n].jobs && ss[n].jobs[id].attempt.handler.completed
    ensures
      var x := ss[n].jobs[id].attempt;
      && x.handler.relayed == x.worker.read && x.worker.end == Eof
      && (x.stream ==> Succeeds(x.decode, x.worker.read))
      && x.desk.job.accepted != []
      && x.desk.job.accepted[|x.desk.job.accepted| - 1] == End(ObservedUsage(x.decode, x.stream, x.worker.read))
  {
    hide Run, Inv, Succeeds, ObservedUsage;
    AttemptIsSound(ss, steps, n, id);
    CompletedIsEarned(ss[n].jobs[id].attempt);
  }

  /** In every run a non-streaming response that was committed and written without failure either completed
      or was aborted. */
  lemma NoTruncatedJsonPasses(ss: seq<State>, steps: seq<Step>, n: nat, id: string)
    requires Run(ss, steps) && n < |ss| && id in ss[n].jobs
    ensures
      var x := ss[n].jobs[id].attempt;
      !x.stream && x.handler.committed && x.handler.intact && x.handler.pc.Returned? ==>
        x.handler.completed != x.handler.aborted && x.handler.tail == []
  {
    hide Run, Inv;
    AttemptIsSound(ss, steps, n, id);
    var x := ss[n].jobs[id].attempt;
    if !x.stream && x.handler.committed && x.handler.intact && x.handler.pc.Returned? {
      TruncatedJsonIsAborted(x);
    }
  }

  // ---- the welcome ----

  /** Nothing was written on the connection in the first n steps, or the welcome was, before anything else. */
  ghost predicate Unspoken(ss: seq<State>, steps: seq<Step>, n: nat, c: nat)
    requires |ss| == |steps| + 1 && n < |ss|
  {
    forall i | 0 <= i < n :: steps[i] != Welcome(c) && !SpeaksOn(ss[i], steps[i], c)
  }

  ghost predicate WelcomeCameFirst(ss: seq<State>, steps: seq<Step>, n: nat, c: nat)
    requires |ss| == |steps| + 1 && n < |ss|
  {
    exists k :: 0 <= k < n && steps[k] == Welcome(c) && Unspoken(ss, steps, k, c)
  }

  /** A connection counts as welcomed exactly when the welcome was written before every request and every
      cancel. Nothing orders them: a host is in the table before its welcome is sent. */
  lemma {:induction false} WelcomeCountsExactlyWhenFirst(ss: seq<State>, steps: seq<Step>, n: nat, c: nat)
    requires Run(ss, steps) && n < |ss|
    ensures c in ss[n].conns ==> (ss[n].conns[c].greeting.Unsaid? <==> Unspoken(ss, steps, n, c))
    ensures c in ss[n].conns ==> (ss[n].conns[c].greeting.Welcomed? <==> WelcomeCameFirst(ss, steps, n, c))
    ensures c !in ss[n].conns ==> Unspoken(ss, steps, n, c)
  {
    hide Next, Linked, SpeaksOn, AttemptsOk, CatalogsOk, NotOverbooked, AgentsOk, SlotsOk, GreetedOk, RequestsOk,
         Unspoken, WelcomeCameFirst;
    if n == 0 {
      NothingIsSpokenAtFirst(ss, steps, c);
    } else {
      var s, st := ss[n - 1], steps[n - 1];
      WelcomeCountsExactlyWhenFirst(ss, steps, n - 1, c);
      assert Next(ss[n - 1], steps[n - 1]) == Some(ss[n - 1 + 1]);
      RunsAreSound(ss, steps, n - 1);
      GreetingFollows(s, st, c);
      UnspokenFollows(ss, steps, n - 1, c);
    }
  }

  lemma UnspokenFollows(ss: seq<State>, steps: seq<Step>, n: nat, c: nat)
    requires |ss| == |steps| + 1 && n + 1 < |ss|
    ensures Unspoken(ss, steps, n + 1, c) <==>
      Unspoken(ss, steps, n, c) && steps[n] != Welcome(c) && !SpeaksOn(ss[n], steps[n], c)
    ensures WelcomeCameFirst(ss, steps, n + 1, c) <==>
      WelcomeCameFirst(ss, steps, n, c) || (steps[n] == Welcome(c) && Unspoken(ss, steps, n, c))
    ensures WelcomeCameFirst(ss, steps, n, c) ==> !Unspoken(ss, steps, n, c)
  {
    hide SpeaksOn;
  }

  lemma NothingIsSpokenAtFirst(ss: seq<State>, steps: seq<Step>, c: nat)
    requires |ss| == |steps| + 1
    ensures Unspoken(ss, steps, 0, c) && !WelcomeCameFirst(ss, steps, 0, c)
  {}

  /** An agent works on nothing that comes before its welcome: an attempt reaches it only over a connection
      on which the welcome came first of all. */
  lemma WorkOnlyFollowsAWelcome(ss: seq<State>, steps: seq<Step>, n: nat, id: string)
    requires Run(ss, steps) && n < |ss| && id in ss[n].jobs && !ss[n].jobs[id].attempt.worker.pc.Unassigned?
    ensures WelcomeCameFirst(ss, steps, n, ss[n].jobs[id].conn)
  {
    hide Run, Inv, AttemptsOk, CatalogsOk, NotOverbooked, AgentsOk, SlotsOk, RequestsOk, WelcomeCameFirst;
    RunsAreSound(ss, steps, n);
    assert Run(ss, steps) ==> |ss| == |steps| + 1 by { RunLength(ss, steps); }
    WelcomeCountsExactlyWhenFirst(ss, steps, n, ss[n].jobs[id].conn);
  }

  lemma RunLength(ss: seq<State>, steps: seq<Step>)
    ensures Run(ss, steps) ==> |ss| == |steps| + 1
  {}

  // ---- the read loop ----

  predicate Idle(e: Entry) {
    e.attempt.desk.reader.Resting?
  }

  /** The read loop of a connection handles one frame at a time: in every run, at most one of its attempts has
      a frame under way. */
  lemma {:induction false} OneFrameAtATime(ss: seq<State>, steps: seq<Step>, n: nat, k: string, l: string)
    requires Run(ss, steps) && n < |ss| && k in ss[n].jobs && l in ss[n].jobs && k != l
    requires ss[n].jobs[k].conn == ss[n].jobs[l].conn
    ensures Idle(ss[n].jobs[k]) || Idle(ss[n].jobs[l])
    decreases n
  {
    hide Next, Idle, Linked, AttemptsOk, CatalogsOk, NotOverbooked, AgentsOk, SlotsOk, GreetedOk, RequestsOk, Init;
    if n == 0 {
      NoJobsAtFirst(ss, steps, k);
    } else {
      RunsAreSound(ss, steps, n - 1);
      var s, st := ss[n - 1], steps[n - 1];
      assert Next(ss[n - 1], steps[n - 1]) == Some(ss[n - 1 + 1]);
      IdleInStep(s, st, k);
      IdleInStep(s, st, l);
      if k in s.jobs && l in s.jobs {
        OneFrameAtATime(ss, steps, n - 1, k, l);
        if Idle(s.jobs[k]) && st == Move(k, ReadLoop(Take)) {
          TakingWantsRest(s, k, l);
        }
        if Idle(s.jobs[l]) && st == Move(l, ReadLoop(Take)) {
          TakingWantsRest(s, l, k);
        }
      }
    }
  }

  lemma TakingWantsRest(s: State, k: string, l: string)
    requires Next(s, Move(k, ReadLoop(Take))).Some? && k in s.jobs && l in s.jobs && k != l
    requires s.jobs[k].conn == s.jobs[l].conn
    ensures Idle(s.jobs[l])
  {
    hide Advance, Slots;
  }

  /** An attempt comes to have a frame under way only by taking one. */
  lemma IdleInStep(s: State, st: Step, k: string)
    requires Linked(s) && Next(s, st).Some? && k in Next(s, st).value.jobs
    ensures k !in s.jobs ==> Idle(Next(s, st).value.jobs[k])
    ensures k in s.jobs ==> Next(s, st).value.jobs[k].conn == s.jobs[k].conn
    ensures k in s.jobs && Idle(s.jobs[k]) ==> Idle(Next(s, st).value.jobs[k]) || st == Move(k, ReadLoop(Take))
  {
    hide Next, Linked, Advance;
    RelayProjectsToAttempts(s, st, k);
    if k in s.jobs && Idle(s.jobs[k]) && ActionFor(s, st, k).Some?
       && Advance(s.jobs[k].attempt, ActionFor(s, st, k).value).Some?
    {
      RestingEndsByTaking(s.jobs[k].attempt, ActionFor(s, st, k).value);
    }
  }

  lemma RestingEndsByTaking(x: Attempt, a: Action)
    requires Advance(x, a).Some? && x.desk.reader.Resting?
    ensures Advance(x, a).value.desk.reader.Resting? || a == ReadLoop(Take)
  {
    hide WorkerNext, HandlerNext, ReaperNext, WithinLimits;
    match a
    case Buyer(b) => HandlerLeavesReader(Terms(x.stream, x.canRetry), x.desk, x.handler, b);
    case Reap(b) => ReaperLeavesReader(x.desk, b);
    case _ =>
  }

  /** A request whose context has ended makes its next attempt under that context. */
  lemma EndedContextsAreInherited(ss: seq<State>, steps: seq<Step>, n: nat)
    requires Run(ss, steps) && n < |steps| && n + 1 < |ss| && steps[n].Select?
    ensures steps[n].request in ss[n].requests && steps[n].job in ss[n + 1].jobs
    ensures
      var ctx := ss[n].requests[steps[n].request].ctx;
      !ctx.Live? ==> ss[n + 1].jobs[steps[n].job].attempt.handler.ctx == ctx
  {
    hide Init, CanTake;
    assert Next(ss[n], steps[n]) == Some(ss[n + 1]);
  }

  // ---- heartbeats ----

  /** The host of the connection spoke in step k, by registering or by a heartbeat, and in no step from
      there to n again. */
  ghost predicate LastHeard(ss: seq<State>, steps: seq<Step>, k: nat, n: nat, c: nat)
    requires |ss| == |steps| + 1 && k < n < |ss|
  {
    && (steps[k] == Hear(c) || (steps[k].Register? && steps[k].conn == c))
    && forall i | k < i < n :: steps[i] != Hear(c)
  }

  lemma {:induction false} HeartbeatsAreKept(ss: seq<State>, steps: seq<Step>, k: nat, n: nat, c: nat)
    requires Run(ss, steps) && |ss| == |steps| + 1 && k < n < |ss| && LastHeard(ss, steps, k, n, c)
    ensures c in ss[n].conns && ss[n].conns[c].lastHeartbeat == ss[k].now
    decreases n
  {
    hide Next, Init;
    assert Next(ss[n - 1], steps[n - 1]) == Some(ss[n - 1 + 1]);
    if k + 1 < n {
      HeartbeatsAreKept(ss, steps, k, n - 1, c);
    }
    HeartbeatInStep(ss[n - 1], steps[n - 1], c);
  }

  lemma HeartbeatInStep(s: State, st: Step, c: nat)
    requires Next(s, st).Some?
    ensures st == Hear(c) || (st.Register? && st.conn == c) ==>
      c in Next(s, st).value.conns && Next(s, st).value.conns[c].lastHeartbeat == s.now
    ensures c in s.conns && st != Hear(c) ==>
      && !(st.Register? && st.conn == c) && c in Next(s, st).value.conns
      && Next(s, st).value.conns[c].lastHeartbeat == s.conns[c].lastHeartbeat
  {
    hide Advance, Slots, LoopIdle, LoopEnds, AgentDrained, Broadcast, CanTake, Advertises, Protocol.CatalogConforms,
         Fresh, Previous;
  }

  /** In every run, a request is given only to a host that was heard from less than ten seconds ago. */
  lemma WorkGoesToTheLiving(ss: seq<State>, steps: seq<Step>, k: nat, n: nat)
    requires Run(ss, steps) && |ss| == |steps| + 1 && k < n < |steps|
    requires steps[n].Select? && LastHeard(ss, steps, k, n, steps[n].conn)
    ensures 0 <= ss[n].now - ss[k].now < 10_000_000_000
  {
    hide Next, Init;
    HeartbeatsAreKept(ss, steps, k, n, steps[n].conn);
    TimeOnlyPasses(ss, steps, k, n);
    assert Next(ss[n], steps[n]) == Some(ss[n + 1]);
    SelectedWasHeard(ss[n], steps[n]);
  }

  lemma {:induction false} TimeOnlyPasses(ss: seq<State>, steps: seq<Step>, k: nat, n: nat)
    requires Run(ss, steps) && k <= n < |ss|
    ensures ss[k].now <= ss[n].now
    decreases n
  {
    hide Next, Init;
    if k < n {
      TimeOnlyPasses(ss, steps, k, n - 1);
      assert Next(ss[n - 1], steps[n - 1]) == Some(ss[n - 1 + 1]);
      TimePasses(ss[n - 1], steps[n - 1]);
    }
  }

  lemma TimePasses(s: State, st: Step)
    requires Next(s, st).Some?
    ensures s.now <= Next(s, st).value.now
  {
    hide Advance, Slots, LoopIdle, LoopEnds, AgentDrained, Broadcast, CanTake, Advertises, Protocol.CatalogConforms,
         Fresh, Previous;
  }

  /** The catalog of a connection is the one sent in step k, by registering or later, and no other was sent
      from there to n. */
  ghost predicate LastSent(
    ss: seq<State>, steps: seq<Step>, k: nat, n: nat, c: nat, catalog: seq<Protocol.Backend>)
    requires |ss| == |steps| + 1 && k < n < |ss|
  {
    && (steps[k] == Refresh(c, catalog)
        || (steps[k].Register? && steps[k].conn == c && steps[k].catalog == catalog))
    && forall i | k < i < n :: !(steps[i].Refresh? && steps[i].conn == c)
  }

  lemma {:induction false} CatalogsAreKept(
    ss: seq<State>, steps: seq<Step>, k: nat, n: nat, c: nat, catalog: seq<Protocol.Backend>)
    requires Run(ss, steps) && |ss| == |steps| + 1 && k < n < |ss| && LastSent(ss, steps, k, n, c, catalog)
    ensures c in ss[n].conns && ss[n].conns[c].catalog == catalog
    decreases n
  {
    hide Next, Init;
    assert Next(ss[n - 1], steps[n - 1]) == Some(ss[n - 1 + 1]);
    if k + 1 < n {
      CatalogsAreKept(ss, steps, k, n - 1, c, catalog);
    }
    CatalogInStep(ss[n - 1], steps[n - 1], c);
  }

  lemma CatalogInStep(s: State, st: Step, c: nat)
    requires Next(s, st).Some?
    ensures (st.Refresh? || st.Register?) && st.conn == c ==>
      c in Next(s, st).value.conns && Next(s, st).value.conns[c].catalog == st.catalog
    ensures c in s.conns && !(st.Refresh? && st.conn == c) ==>
      && !(st.Register? && st.conn == c) && c in Next(s, st).value.conns
      && Next(s, st).value.conns[c].catalog == s.conns[c].catalog
  {
    hide Advance, Slots, LoopIdle, LoopEnds, AgentDrained, Broadcast, CanTake, Advertises, Protocol.CatalogConforms,
         Fresh, Previous;
  }

  /** In every run, a request is given to a ready backend and a model of the catalog its host sent last, and
      the model is the one asked for. */
  lemma WorkIsWhatWasAdvertised(
    ss: seq<State>, steps: seq<Step>, k: nat, n: nat, catalog: seq<Protocol.Backend>)
    requires Run(ss, steps) && |ss| == |steps| + 1 && k < n < |steps|
    requires steps[n].Select? && LastSent(ss, steps, k, n, steps[n].conn, catalog)
    ensures
      var t := steps[n].target;
      && t.backend in catalog && t.backend.ready && t.model in t.backend.models
      && steps[n].request in ss[n].requests && t.model.id == ss[n].requests[steps[n].request].modelId
  {
    hide Next, Init;
    CatalogsAreKept(ss, steps, k, n, steps[n].conn, catalog);
    assert Next(ss[n], steps[n]) == Some(ss[n + 1]);
    SelectedIsOffered(ss[n], steps[n]);
  }

  lemma SelectedIsOffered(s: State, st: Step)
    requires Next(s, st).Some? && st.Select?
    ensures st.request in s.requests && st.conn in s.conns
    ensures
      var t := st.target;
      && t.backend in s.conns[st.conn].catalog && t.backend.ready && t.model in t.backend.models
      && t.model.id == s.requests[st.request].modelId
  {
    hide Outstanding, Previous, Selection.Matches;
  }

  /** A host can register exactly while no connection of its name is in the table and no session of its
      agent is left; the other hosts keep their connections. */
  lemma HostsRegisterOnceAtATime(s: State, c: nat, host: string, catalog: seq<Protocol.Backend>)
    requires c !in s.conns && Protocol.CatalogConforms(catalog) && Advertises(s, host, catalog)
    ensures Next(s, Register(c, host, catalog)).Some? <==>
      forall d | d in s.conns && s.conns[d].host == host :: !s.conns[d].session.registered && !s.conns[d].agentRuns
    ensures Next(s, Register(c, host, catalog)).Some? ==>
      var t := Next(s, Register(c, host, catalog)).value;
      && c in t.conns && t.conns[c].host == host && t.conns[c].session == Session(true, true)
      && t.conns - {c} == s.conns && t.jobs == s.jobs && t.requests == s.requests
  {
    hide Protocol.CatalogConforms, Advertises;
  }

  lemma SelectedWasHeard(s: State, st: Step)
    requires Next(s, st).Some? && st.Select? && st.conn in s.conns
    ensures s.now - s.conns[st.conn].lastHeartbeat < 10_000_000_000
  {
    hide Outstanding, Previous;
  }

  // ---- capacity on both machines ----

  /** An attempt that holds a slot of a place, or has yet to reach the agent running there, is in the
      coordinator's table of that very session. */
  lemma HoldersAreListed(s: State, conn: nat, backend: string)
    requires Linked(s) && AttemptsOk(s) && AgentsOk(s) && conn in s.conns && s.conns[conn].agentRuns
    ensures Holders(s, Place(s.conns[conn].host, backend)) <= ListedOn(s, conn, backend)
  {
    hide Inv, Holding, Linked;
    forall id | id in Holders(s, Place(s.conns[conn].host, backend)) ensures id in ListedOn(s, conn, backend) {
      SlotImpliesReservation(s.jobs[id].attempt);
    }
  }

  /** What an agent runs is a subset of what the coordinator has outstanding on the session, and that
      never exceeds the capacity the host advertised. */
  lemma AgentsAreNeverOverbooked(ss: seq<State>, steps: seq<Step>, n: nat, conn: nat, backend: string)
    requires Run(ss, steps) && n < |ss| && conn in ss[n].conns && ss[n].conns[conn].agentRuns
    requires Place(ss[n].conns[conn].host, backend) in ss[n].capacity
    requires Place(ss[n].conns[conn].host, backend) in ss[n].active
    ensures
      var p := Place(ss[n].conns[conn].host, backend);
      && Holders(ss[n], p) <= ListedOn(ss[n], conn, backend)
      && ss[n].active[p] == |Holders(ss[n], p)|
      && (ListedOn(ss[n], conn, backend) != {} ==> |ListedOn(ss[n], conn, backend)| <= ss[n].capacity[p])
  {
    hide Run, Inv, Linked, AttemptsOk, CatalogsOk, RequestsOk, Holders, ListedOn;
    RunsAreSound(ss, steps, n);
    HoldersAreListed(ss[n], conn, backend);
  }

  /** The agent never answers busy: whatever the run so far, the step in which it would is impossible. */
  lemma AgentNeverAnswersBusy(ss: seq<State>, steps: seq<Step>, n: nat, id: string)
    requires Run(ss, steps) && n < |ss|
    ensures Next(ss[n], Move(id, Agent(Arrive(Some(Busy))))) == None
  {
    hide Run, Inv, Linked, CatalogsOk, RequestsOk, GreetedOk, Holders, ListedOn, LoopIdle, Holding, WorkerNext,
         ReaderNext, HandlerNext;
    var s := ss[n];
    RunsAreSound(ss, steps, n);
    if Next(s, Move(id, Agent(Arrive(Some(Busy))))).Some? {
      var e := s.jobs[id];
      var p := PlaceOf(s, e);
      MoveAdvances(s, id, Agent(Arrive(Some(Busy))));
      OnlyTheUnassignedArrive(e.attempt, Some(Busy));
      SlotImpliesReservation(e.attempt);
      HoldersAreListed(s, e.conn, e.target.backend.id);
      NewcomerIsListed(s, id);
      SubsetIsSmaller(Holders(s, p) + {id}, ListedOn(s, e.conn, e.target.backend.id));
    }
  }

  /** Only the count rules it out: a welcomed agent with a request at its door takes it exactly while fewer
      attempts run there than the capacity, and would answer busy in every other state. */
  lemma AgentTakesExactlyBelowCapacity(s: State, id: string)
    requires id in s.jobs && Inv(s.jobs[id].attempt)
    requires s.jobs[id].attempt.worker.pc.Unassigned? && s.jobs[id].attempt.desk.requested
    requires s.jobs[id].conn in s.conns
    requires s.conns[s.jobs[id].conn].agentRuns && s.conns[s.jobs[id].conn].greeting.Welcomed?
    requires PlaceOf(s, s.jobs[id]) in s.active && PlaceOf(s, s.jobs[id]) in s.capacity
    ensures
      var p := PlaceOf(s, s.jobs[id]);
      && (Next(s, Move(id, Agent(Arrive(None)))).Some? <==> s.active[p] < s.capacity[p])
      && (Next(s, Move(id, Agent(Arrive(Some(Busy))))).Some? <==> s.active[p] >= s.capacity[p])
      && (Next(s, Move(id, Agent(Arrive(None)))).Some? ==>
            Next(s, Move(id, Agent(Arrive(None)))).value.active == s.active[p := s.active[p] + 1])
  {
    hide DeskInv, Holding, ReaderNext, HandlerNext, ReaperNext;
  }

  lemma OnlyTheUnassignedArrive(x: Attempt, refusal: Option<Code>)
    requires Advance(x, Agent(Arrive(refusal))).Some?
    ensures x.worker.pc.Unassigned? && !Holding(x.worker)
  {}

  lemma NewcomerIsListed(s: State, id: string)
    requires id in s.jobs && s.jobs[id].conn in s.conns && s.jobs[id].attempt.desk.job.listed
    requires !Holding(s.jobs[id].attempt.worker)
    ensures id in ListedOn(s, s.jobs[id].conn, s.jobs[id].target.backend.id)
    ensures id !in Holders(s, PlaceOf(s, s.jobs[id]))
  {}

  /** Once a host's agent has no session running, every one of its slots is free again. */
  lemma SlotsAreFreeBetweenSessions(ss: seq<State>, steps: seq<Step>, n: nat, p: Place)
    requires Run(ss, steps) && n < |ss| && p in ss[n].active
    requires forall c | c in ss[n].conns && ss[n].conns[c].host == p.host :: !ss[n].conns[c].agentRuns
    ensures ss[n].active[p] == 0
  {
    hide Run, Inv, Linked, AttemptsOk, CatalogsOk, NotOverbooked, RequestsOk, Holding;
    RunsAreSound(ss, steps, n);
    assert Holders(ss[n], p) == {};
  }

  // ---- requests ----

  /** The attempts of a request are all there. */
  ghost predicate Recorded(s: State, history: seq<string>) {
    forall i | 0 <= i < |history| :: history[i] in s.jobs
  }

  /** Every response head written to the buyer by these attempts. */
  ghost function Heads(s: State, history: seq<string>): seq<int>
    requires Recorded(s, history)
  {
    if history == [] then []
    else Heads(s, history[..|history| - 1]) + s.jobs[history[|history| - 1]].attempt.handler.heads
  }

  /** Every body byte written to the buyer by these attempts. */
  ghost function Body(s: State, history: seq<string>): seq<byte>
    requires Recorded(s, history)
  {
    if history == [] then []
    else
      var h := s.jobs[history[|history| - 1]].attempt.handler;
      Body(s, history[..|history| - 1]) + h.relayed + h.tail
  }

  ghost predicate Silent(s: State, id: string) {
    id in s.jobs && var h := s.jobs[id].attempt.handler; h.heads == [] && h.relayed == [] && h.tail == []
  }

  lemma {:induction false} SilentAttemptsSayNothing(s: State, history: seq<string>)
    requires Recorded(s, history) && forall i | 0 <= i < |history| :: Silent(s, history[i])
    ensures Heads(s, history) == [] && Body(s, history) == []
  {
    if history != [] {
      SilentAttemptsSayNothing(s, history[..|history| - 1]);
      assert Silent(s, history[|history| - 1]);
    }
  }

  lemma GivingUpIsSilent(s: State, id: string)
    requires AttemptsOk(s) && GaveUp(s, id, true)
    ensures Silent(s, id)
  {
    hide Inv;
    RetryOnlyBeforeTheFirstByte(s.jobs[id].attempt);
  }

  lemma EarlierAttemptsAreSilent(s: State, r: nat, q: Request)
    requires AttemptsOk(s) && RequestOk(s, r, q) && q.history != []
    ensures Recorded(s, q.history)
    ensures
      var h := s.jobs[q.history[|q.history| - 1]].attempt.handler;
      Heads(s, q.history) == h.heads && Body(s, q.history) == h.relayed + h.tail
  {
    hide AttemptsOk, FairRetry;
    forall i | 0 <= i < |q.history| ensures q.history[i] in s.jobs {
      assert AttemptOf(s, r, q.stream, q.modelId, i == 0, q.history[i]);
    }
    var front := q.history[..|q.history| - 1];
    if front != [] {
      GivingUpIsSilent(s, q.history[0]);
      assert front == [q.history[0]];
    }
    SilentAttemptsSayNothing(s, front);
  }

  /** A request's record at any point of a run. */
  lemma RequestIsSound(ss: seq<State>, steps: seq<Step>, n: nat, r: nat)
    requires Run(ss, steps) && n < |ss| && r in ss[n].requests
    ensures Linked(ss[n]) && AttemptsOk(ss[n]) && RequestOk(ss[n], r, ss[n].requests[r])
  {
    hide Run, Linked, AttemptsOk, CatalogsOk, NotOverbooked, AgentsOk, SlotsOk, RequestOk;
    RunsAreSound(ss, steps, n);
  }

  /** A request runs at most two attempts; the second is for the same model on another host with an equal
      source and kind, and digest when local, and is made only after the first gave the buyer nothing at all. */
  lemma RetriesAreFair(ss: seq<State>, steps: seq<Step>, n: nat, r: nat)
    requires Run(ss, steps) && n < |ss| && r in ss[n].requests
    ensures
      var s, q := ss[n], ss[n].requests[r];
      && |q.history| <= ATTEMPTS && (q.phase.Choosing? ==> |q.history| < ATTEMPTS)
      && (|q.history| == 2 ==> FairRetry(s, q.history[0], q.history[1]) && Silent(s, q.history[0]))
  {
    hide Run, Linked, AttemptsOk, FairRetry, Silent;
    RequestIsSound(ss, steps, n, r);
    var s, q := ss[n], ss[n].requests[r];
    if |q.history| == 2 {
      GivingUpIsSilent(s, q.history[0]);
      if q.phase.Choosing? {
        SecondNeverAsksAgain(s, r, q);
      }
    }
  }

  lemma SecondNeverAsksAgain(s: State, r: nat, q: Request)
    requires AttemptsOk(s) && RequestOk(s, r, q) && |q.history| == 2
    ensures !GaveUp(s, q.history[1], true)
  {
    hide Inv, FairRetry;
    assert AttemptOf(s, r, q.stream, q.modelId, 1 == 0, q.history[1]);
    RetryOnlyBeforeTheFirstByte(s.jobs[q.history[1]].attempt);
  }

  /** Over all its attempts a request writes at most one response head, and when it is answered exactly
      one, unless the buyer cancelled; and no body byte comes without the head of its attempt. */
  lemma EveryRequestGetsOneAnswer(ss: seq<State>, steps: seq<Step>, n: nat, r: nat)
    requires Run(ss, steps) && n < |ss| && r in ss[n].requests
    ensures Recorded(ss[n], ss[n].requests[r].history)
    ensures
      var s, q := ss[n], ss[n].requests[r];
      && |Heads(s, q.history) + q.own| <= 1
      && (q.phase.Answered? ==>
            || |Heads(s, q.history) + q.own| == 1
            || (q.history != [] && s.jobs[q.history[|q.history| - 1]].attempt.handler.ctx == CutOff))
      && (Body(s, q.history) != [] ==> |Heads(s, q.history)| == 1 && q.own == [])
      && (q.own == [] || q.own == [503])
      && (q.phase.Answered? && q.own == [] && Heads(s, q.history) != [] ==>
            var h := s.jobs[q.history[|q.history| - 1]].attempt.handler;
            var head := Heads(s, q.history)[0];
            if h.committed then head == h.status
            else head == 502 || head == 504 || (head == h.status && h.status >= 400))
  {
    hide Run, Linked, Inv, FairRetry, AttemptOf, Heads, Body;
    RequestIsSound(ss, steps, n, r);
    var s, q := ss[n], ss[n].requests[r];
    if q.history == [] {
      SilentAttemptsSayNothing(s, q.history);
    } else {
      EarlierAttemptsAreSilent(s, r, q);
      RetryOnlyBeforeTheFirstByte(s.jobs[q.history[|q.history| - 1]].attempt);
    }
  }

  /** In any state of any run a choosing request is refused with 503 exactly when no host can take it. */
  lemma NoCapacityExactlyWithoutACandidate(ss: seq<State>, steps: seq<Step>, n: nat, r: nat)
    requires Run(ss, steps) && n < |ss| && r in ss[n].requests && ss[n].requests[r].phase.Choosing?
    ensures Next(ss[n], NoCapacity(r)).Some? <==> forall c, t :: !CanTake(ss[n], ss[n].requests[r], c, t)
    ensures Next(ss[n], NoCapacity(r)).Some? ==>
      && Next(ss[n], NoCapacity(r)).value.requests[r].own == [503]
      && Next(ss[n], NoCapacity(r)).value.requests[r].phase.Answered?
    ensures forall c, t, id, decode | CanTake(ss[n], ss[n].requests[r], c, t) && id !in ss[n].jobs ::
      Next(ss[n], Select(r, id, c, t, decode, ss[n].requests[r].ctx)).Some?
  {
    hide Run, Linked, AttemptsOk, CanTake, FairRetry, Silent;
    RetriesAreFair(ss, steps, n, r);
  }

  /** All the buyer ever reads for a request comes from its last attempt: a prefix of the body as that
      attempt's agent read it, then at most the interruption tail; and the whole body, read to its end,
      when the attempt completed. */
  lemma BuyerReadsOneBody(ss: seq<State>, steps: seq<Step>, n: nat, r: nat)
    requires Run(ss, steps) && n < |ss| && r in ss[n].requests && ss[n].requests[r].history != []
    ensures Recorded(ss[n], ss[n].requests[r].history)
    ensures
      var s, q := ss[n], ss[n].requests[r];
      var x := s.jobs[q.history[|q.history| - 1]].attempt;
      && Body(s, q.history) == x.handler.relayed + x.handler.tail
      && x.handler.relayed <= x.worker.read && x.handler.tail <= TAIL && (x.handler.tail != [] ==> q.stream)
      && (x.handler.completed ==> Body(s, q.history) == x.worker.read && x.worker.end == Eof)
  {
    hide Run, Linked, Inv, FairRetry, Heads, Body, TAIL_JSON;
    RequestIsSound(ss, steps, n, r);
    var s, q := ss[n], ss[n].requests[r];
    EarlierAttemptsAreSilent(s, r, q);
    assert AttemptOf(s, r, q.stream, q.modelId, |q.history| - 1 == 0, q.history[|q.history| - 1]);
    BuyerGetsAPrefixOfTheBody(s.jobs[q.history[|q.history| - 1]].attempt);
  }

  /** For an answered streaming request whose response was committed and written without failure, the
      observer reads everything the buyer got as a success exactly when the last attempt completed. */
  lemma StreamVerdictIsExact(ss: seq<State>, steps: seq<Step>, n: nat, r: nat)
    requires Run(ss, steps) && n < |ss| && r in ss[n].requests
    requires ss[n].requests[r].phase.Answered? && ss[n].requests[r].stream && ss[n].requests[r].history != []
    ensures Recorded(ss[n], ss[n].requests[r].history)
    ensures
      var s, q := ss[n], ss[n].requests[r];
      var x := s.jobs[q.history[|q.history| - 1]].attempt;
      x.handler.committed && x.handler.intact && ReadsTail(x.decode) ==>
        && (Succeeds(x.decode, Body(s, q.history)) <==> x.handler.completed)
        && (!x.handler.completed ==> ObserverSpec.Failed(x.decode, Body(s, q.history)))
  {
    hide Run, Linked, Inv, FairRetry, Heads, Body, TAIL_JSON, Succeeds, ObserverSpec.Failed;
    RequestIsSound(ss, steps, n, r);
    var s, q := ss[n], ss[n].requests[r];
    EarlierAttemptsAreSilent(s, r, q);
    var last := q.history[|q.history| - 1];
    assert AttemptOf(s, r, q.stream, q.modelId, |q.history| - 1 == 0, last);
    var x := s.jobs[last].attempt;
    if x.handler.committed && x.handler.intact && ReadsTail(x.decode) {
      StreamSuccessIsExact(x);
    }
  }
}
