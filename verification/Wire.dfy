/** What one goroutine sees of a peer: its calls to Send, one at a time, and which frames got
    written. This is all the attempt protocol needs of the wire; module Wire shows that the
    two-queue peer provides it. */
module Link {
  import opened Types

  /** The frame of the call in progress, whether it is written, a frame whose call already failed
      but whose write is still under way, and everything written so far. */
  datatype Link = Link(call: Option<Frame>, wrote: bool, late: Option<Frame>, written: seq<Frame>)

  datatype Step = Begin(frame: Frame) | Write | WriteLate | DropLate | ReturnOk | ReturnError(underway: bool)

  const IDLE := Link(None, false, None, [])

  function Next(l: Link, st: Step): Option<Link> {
    match st
    case Begin(f) =>
      if l.call.None? then Some(l.(call := Some(f), wrote := false)) else None
    case Write =>
      if l.call.Some? && !l.wrote then Some(Link(l.call, true, None, l.written + [l.call.value])) else None
    case WriteLate =>
      if l.late.Some? && !l.wrote then Some(l.(late := None, written := l.written + [l.late.value])) else None
    case DropLate =>
      Some(l.(late := None))
    case ReturnOk =>
      if l.call.Some? && l.wrote then Some(l.(call := None, wrote := false)) else None
    case ReturnError(underway) =>
      if l.call.Some? then
        Some(l.(call := None, wrote := false, late := if underway && !l.wrote then l.call else l.late))
      else None
  }
}

/** The prioritised peer (internal/wire/peer.go): any number of goroutines call Send, one writer
    drains a control queue and a data queue. */
module Wire {
  import opened Types
  import Link

  const QUEUE_ROOM := 64

  /** One outbound frame: the sender, the position of the call among that sender's calls, the frame. */
  datatype Item = Item(sender: nat, call: nat, frame: Frame) {
    predicate Control() { !frame.Chunk? }
  }

  /** Where a goroutine is inside Send: not in it, before its queue accepted the frame, after. */
  datatype Phase = Quiet | Offering(item: Item) | Awaiting(item: Item)

  /** A goroutine with the frames of all its calls and the calls that returned nil. */
  datatype Sender = Sender(calls: seq<Frame>, phase: Phase, oks: set<nat>)

  /** The writer goroutine: at the first select, at the second, with a frame whose context is not
      checked yet, writing a frame, or gone. */
  datatype Writer = First | Second | Holding(item: Item) | Writing(item: Item) | Stopped

  /** What the priority claim is about, in order of occurrence. */
  datatype Event = QueuedControl | PickedControl | PickedData

  datatype Peer = Peer(
    senders: map<nat, Sender>,
    control: seq<Item>,
    data: seq<Item>,
    writer: Writer,
    expired: set<Item>,
    done: map<Item, bool>,
    written: seq<Item>,
    closed: bool,
    log: seq<Event>)

  datatype Action =
    | Call(k: nat, frame: Frame)
    | Enqueue(k: nat)
    | Expire(k: nat)
    | GiveUp(k: nat)
    | Return(k: nat)
    | PickFirst
    | FallThrough
    | PickControl
    | PickData
    | StopWriter
    | CheckContext
    | WriteSucceeds
    | WriteFails
    | Close

  ghost predicate Init(p: Peer) {
    && (forall k | k in p.senders :: p.senders[k] == Sender([], Quiet, {}))
    && p == Peer(p.senders, [], [], First, {}, map[], [], false, [])
  }

  /** The call k is in, if any. */
  function Current(p: Peer, k: nat): Option<Item> {
    if k !in p.senders || p.senders[k].phase.Quiet? then None else Some(p.senders[k].phase.item)
  }

  /** Leaving Send cancels the call's context, so a frame still queued will be skipped. */
  function Leave(p: Peer, k: nat, ok: bool): Peer
    requires Current(p, k).Some?
  {
    var s := p.senders[k];
    var i := s.phase.item;
    p.(senders := p.senders[k := s.(phase := Quiet, oks := if ok then s.oks + {i.call} else s.oks)],
       expired := p.expired + {i})
  }

  function Next(p: Peer, a: Action): Option<Peer> {
    match a
    case Call(k, f) =>
      if k in p.senders && p.senders[k].phase.Quiet? then
        var s := p.senders[k];
        Some(p.(senders := p.senders[k := s.(calls := s.calls + [f], phase := Offering(Item(k, |s.calls|, f)))]))
      else None
    case Enqueue(k) =>
      if k in p.senders && p.senders[k].phase.Offering? then
        var i := p.senders[k].phase.item;
        var q := p.(senders := p.senders[k := p.senders[k].(phase := Awaiting(i))]);
        if i.Control() && |p.control| < QUEUE_ROOM then
          Some(q.(control := p.control + [i], log := p.log + [QueuedControl]))
        else if !i.Control() && |p.data| < QUEUE_ROOM then
          Some(q.(data := p.data + [i]))
        else None
      else None
    case Expire(k) =>
      if Current(p, k).Some? then Some(p.(expired := p.expired + {Current(p, k).value})) else None
    case GiveUp(k) =>
      if Current(p, k).Some? && (Current(p, k).value in p.expired || p.closed) then Some(Leave(p, k, false)) else None
    case Return(k) =>
      if k in p.senders && p.senders[k].phase.Awaiting? && p.senders[k].phase.item in p.done then
        Some(Leave(p, k, p.done[p.senders[k].phase.item]))
      else None
    case PickFirst =>
      if p.writer.First? && p.control != [] then
        Some(p.(writer := Holding(p.control[0]), control := p.control[1..], log := p.log + [PickedControl]))
      else None
    case FallThrough =>
      if p.writer.First? && p.control == [] then Some(p.(writer := Second)) else None
    case PickControl =>
      if p.writer.Second? && p.control != [] then
        Some(p.(writer := Holding(p.control[0]), control := p.control[1..], log := p.log + [PickedControl]))
      else None
    case PickData =>
      if p.writer.Second? && p.data != [] then
        Some(p.(writer := Holding(p.data[0]), data := p.data[1..], log := p.log + [PickedData]))
      else None
    case StopWriter =>
      if p.writer.Second? && p.closed then Some(p.(writer := Stopped)) else None
    case CheckContext =>
      if p.writer.Holding? then
        var i := p.writer.item;
        Some(if i in p.expired then p.(done := p.done[i := false], writer := First) else p.(writer := Writing(i)))
      else None
    case WriteSucceeds =>
      if p.writer.Writing? then
        var i := p.writer.item;
        Some(p.(done := p.done[i := true], written := p.written + [i], writer := First))
      else None
    case WriteFails =>
      if p.writer.Writing? then
        Some(p.(done := p.done[p.writer.item := false], writer := Stopped, closed := true))
      else None
    case Close =>
      Some(p.(closed := true))
  }

  // ---- what every step keeps ----

  ghost predicate Distinct(q: seq<Item>) {
    forall x, y | 0 <= x < y < |q| :: q[x] != q[y]
  }

  /** A frame belongs to one of its sender's calls. */
  ghost predicate Genuine(p: Peer, i: Item) {
    && i.sender in p.senders
    && i.call < |p.senders[i.sender].calls|
    && i.frame == p.senders[i.sender].calls[i.call]
  }

  ghost predicate InWriter(p: Peer, i: Item) {
    (p.writer.Holding? || p.writer.Writing?) && p.writer.item == i
  }

  ghost predicate Pending(p: Peer, i: Item) {
    i in p.control || i in p.data || InWriter(p, i)
  }

  /** Every frame is in one place. */
  ghost predicate Placed(p: Peer) {
    && Distinct(p.control) && Distinct(p.data)
    && (forall i | i in p.control :: i.Control())
    && (forall i | i in p.data :: !i.Control())
    && (forall i | InWriter(p, i) :: i !in p.control && i !in p.data)
    && (forall i | Pending(p, i) :: i !in p.done)
    && (forall i | i in p.written :: i in p.done)
  }

  /** Every frame belongs to a call. */
  ghost predicate Owned(p: Peer) {
    forall i | Pending(p, i) || i in p.done :: Genuine(p, i)
  }

  /** A sender in Send is in its last call; before the queue accepts the frame it is nowhere else. */
  ghost predicate Phased(p: Peer) {
    forall k | k in p.senders && !p.senders[k].phase.Quiet? ::
      var i := p.senders[k].phase.item;
      && Genuine(p, i) && i.sender == k && i.call == |p.senders[k].calls| - 1
      && (p.senders[k].phase.Offering? ==> !Pending(p, i) && i !in p.done)
  }

  /** A queued frame that will not be skipped belongs to a call that is still waiting. */
  ghost predicate Synchronous(p: Peer) {
    forall i | Pending(p, i) && p.writer != Writing(i) && i !in p.expired ::
      Genuine(p, i) && p.senders[i.sender].phase == Awaiting(i)
  }

  /** For each sender, frames are written in call order, and a write under way is newer than all. */
  ghost predicate Ordered(p: Peer) {
    && (forall x, y | 0 <= x < y < |p.written| ::
         p.written[x].sender == p.written[y].sender ==> p.written[x].call < p.written[y].call)
    && (p.writer.Writing? ==>
          forall i | i in p.written :: i.sender == p.writer.item.sender ==> i.call < p.writer.item.call)
  }

  /** The result of a write says whether the frame was written, and Send returns nil only for one that was. */
  ghost predicate Honest(p: Peer) {
    && (forall i | i in p.done :: p.done[i] <==> i in p.written)
    && (forall k, c | k in p.senders && c in p.senders[k].oks ::
         c < |p.senders[k].calls| && Item(k, c, p.senders[k].calls[c]) in p.written)
    && (forall k | k in p.senders && !p.senders[k].phase.Quiet? :: p.senders[k].phase.item.call !in p.senders[k].oks)
  }

  function CountData(log: seq<Event>): nat {
    if log == [] then 0 else CountData(log[..|log| - 1]) + if log[|log| - 1] == PickedData then 1 else 0
  }

  /** A control frame queued at position a of the log and no control frame picked since. */
  ghost predicate Unserved(log: seq<Event>, a: nat) {
    a < |log| && log[a] == QueuedControl && PickedControl !in log[a..]
  }

  ghost predicate Prompt(p: Peer) {
    forall a: nat | Unserved(p.log, a) ::
      p.control != [] && CountData(p.log[a..]) <= if p.writer.Second? then 0 else 1
  }

  ghost predicate Inv(p: Peer) {
    Placed(p) && Owned(p) && Phased(p) && Synchronous(p) && Ordered(p) && Honest(p) && Prompt(p)
  }

  /** The actions of the goroutines calling Send, and closing; the rest are the writer's. */
  predicate BySender(a: Action) {
    a.Call? || a.Enqueue? || a.Expire? || a.GiveUp? || a.Return? || a.Close?
  }

  /** The frame an Enqueue puts on a queue. */
  predicate Offered(p: Peer, a: Action, i: Item) {
    a.Enqueue? && a.k in p.senders && p.senders[a.k].phase == Offering(i)
  }

  lemma GenuineStep(p: Peer, a: Action)
    requires Next(p, a).Some?
    ensures forall i | Genuine(p, i) :: Genuine(Next(p, a).value, i)
  {
    hide CountData;
  }

  lemma PendingStep(p: Peer, a: Action)
    requires Placed(p) && Next(p, a).Some?
    ensures forall i | Pending(Next(p, a).value, i) :: Pending(p, i) || Offered(p, a, i)
  {
    hide CountData;
    if a.PickData? {
      Tail(p.data);
    } else if a.PickFirst? || a.PickControl? {
      Tail(p.control);
    }
  }

  lemma OwnedStep(p: Peer, a: Action)
    requires Placed(p) && Owned(p) && Phased(p) && Next(p, a).Some?
    ensures Owned(Next(p, a).value)
  {
    hide CountData, Genuine;
    GenuineStep(p, a);
    PendingStep(p, a);
  }

  lemma PlacedBySender(p: Peer, a: Action)
    requires Placed(p) && Owned(p) && Phased(p) && BySender(a) && Next(p, a).Some?
    ensures Placed(Next(p, a).value)
  {
    hide CountData, Genuine;
    if a.Enqueue? {
      PlacedByEnqueue(p, a.k);
    }
  }

  lemma PlacedByEnqueue(p: Peer, k: nat)
    requires Placed(p) && Owned(p) && Phased(p) && Next(p, Enqueue(k)).Some?
    ensures Placed(Next(p, Enqueue(k)).value)
  {
    hide CountData, Genuine;
    var i := p.senders[k].phase.item;
    assert !Pending(p, i) && i !in p.done;
    assert forall j :: j in p.control + [i] <==> j in p.control || j == i;
    assert forall j :: j in p.data + [i] <==> j in p.data || j == i;
  }

  lemma PlacedByWriter(p: Peer, a: Action)
    requires Placed(p) && !BySender(a) && Next(p, a).Some?
    ensures Placed(Next(p, a).value)
  {
    hide CountData, Genuine;
    if a.PickData? {
      Tail(p.data);
    } else if a.PickFirst? || a.PickControl? {
      Tail(p.control);
    }
  }

  /** Taking the head of a queue without repetitions removes exactly that frame. */
  lemma Tail(q: seq<Item>)
    requires Distinct(q) && q != []
    ensures Distinct(q[1..]) && q[0] !in q[1..]
    ensures forall i :: i in q <==> i == q[0] || i in q[1..]
  {
    assert q == [q[0]] + q[1..];
  }

  lemma PhasedByCall(p: Peer, k: nat, f: Frame)
    requires Placed(p) && Owned(p) && Phased(p) && Next(p, Call(k, f)).Some?
    ensures Phased(Next(p, Call(k, f)).value)
  {
    hide CountData, Placed;
    assert !Genuine(p, Item(k, |p.senders[k].calls|, f));
  }

  lemma PhasedBySender(p: Peer, a: Action)
    requires Placed(p) && Owned(p) && Phased(p) && BySender(a) && Next(p, a).Some?
    ensures Phased(Next(p, a).value)
  {
    hide CountData, Placed;
    if a.Call? {
      PhasedByCall(p, a.k, a.frame);
    } else {
      PendingStep(p, a);
    }
  }

  lemma PhasedByWriter(p: Peer, a: Action)
    requires Placed(p) && Owned(p) && Phased(p) && !BySender(a) && Next(p, a).Some?
    ensures Phased(Next(p, a).value)
  {
    hide CountData;
    PendingStep(p, a);
    GenuineStep(p, a);
  }

  lemma SynchronousBySender(p: Peer, a: Action)
    requires Placed(p) && Owned(p) && Phased(p) && Synchronous(p) && BySender(a) && Next(p, a).Some?
    ensures Synchronous(Next(p, a).value)
  {
    hide CountData;
  }

  lemma SynchronousByWriter(p: Peer, a: Action)
    requires Placed(p) && Owned(p) && Phased(p) && Synchronous(p) && !BySender(a) && Next(p, a).Some?
    ensures Synchronous(Next(p, a).value)
  {
    hide CountData;
    PendingStep(p, a);
  }

  lemma OrderedStep(p: Peer, a: Action)
    requires Placed(p) && Owned(p) && Phased(p) && Synchronous(p) && Ordered(p) && Next(p, a).Some?
    ensures Ordered(Next(p, a).value)
  {
    hide CountData;
  }

  lemma HonestStep(p: Peer, a: Action)
    requires Placed(p) && Owned(p) && Phased(p) && Honest(p) && Next(p, a).Some?
    ensures Honest(Next(p, a).value)
  {
    hide Honest, Placed, Owned, Phased, Next;
    if BySender(a) {
      HonestBySender(p, a);
    } else {
      HonestByWriter(p, a);
    }
  }

  lemma HonestByReturn(p: Peer, a: Action)
    requires Phased(p) && Honest(p) && (a.Return? || a.GiveUp?) && Next(p, a).Some?
    ensures Honest(Next(p, a).value)
  {
    hide CountData, Distinct, Pending;
  }

  lemma HonestByOther(p: Peer, a: Action)
    requires Phased(p) && Honest(p) && BySender(a) && !a.Return? && !a.GiveUp? && Next(p, a).Some?
    ensures Honest(Next(p, a).value)
  {
    hide CountData, Distinct, Pending, Leave;
  }

  lemma HonestBySender(p: Peer, a: Action)
    requires Phased(p) && Honest(p) && BySender(a) && Next(p, a).Some?
    ensures Honest(Next(p, a).value)
  {
    hide Phased, Honest, Next;
    if a.Return? || a.GiveUp? {
      HonestByReturn(p, a);
    } else {
      HonestByOther(p, a);
    }
  }

  lemma HonestByWriter(p: Peer, a: Action)
    requires Placed(p) && Honest(p) && !BySender(a) && Next(p, a).Some?
    ensures Honest(Next(p, a).value)
  {
    hide CountData, Distinct;
    if p.writer.Holding? || p.writer.Writing? {
      assert Pending(p, p.writer.item);
    }
  }

  /** What one step does to the log, the control queue and the writer's place. */
  ghost predicate LogStep(p: Peer, q: Peer) {
    || (q.log == p.log && (q.control == p.control) && (q.writer.Second? ==> p.writer.Second? || p.control == []))
    || (q.log == p.log + [QueuedControl] && q.control != [] && q.writer == p.writer)
    || (q.log == p.log + [PickedControl] && !q.writer.Second?)
    || (q.log == p.log + [PickedData] && q.control == p.control && p.writer.Second? && !q.writer.Second?)
  }

  lemma StepsLog(p: Peer, a: Action)
    requires Next(p, a).Some?
    ensures LogStep(p, Next(p, a).value)
  {}

  lemma LogGrows(log: seq<Event>, e: Event, x: nat)
    requires x <= |log|
    ensures (log + [e])[x..] == log[x..] + [e]
    ensures CountData((log + [e])[x..]) == CountData(log[x..]) + if e == PickedData then 1 else 0
    ensures x < |log| && Unserved(log + [e], x) ==> Unserved(log, x) && e != PickedControl
    ensures x == |log| && Unserved(log + [e], x) ==> e == QueuedControl && CountData((log + [e])[x..]) == 0
  {
    assert (log + [e])[x..] == log[x..] + [e];
    assert (log[x..] + [e])[..|log[x..]|] == log[x..];
    assert x == |log| ==> log[x..] == [];
  }

  lemma PromptStep(p: Peer, q: Peer)
    requires Prompt(p) && LogStep(p, q)
    ensures Prompt(q)
  {
    hide Next, CountData;
    forall x: nat | Unserved(q.log, x)
      ensures q.control != [] && CountData(q.log[x..]) <= if q.writer.Second? then 0 else 1
    {
      if q.log != p.log {
        LogGrows(p.log, q.log[|p.log|], x);
      }
    }
  }

  lemma InvStep(p: Peer, a: Action)
    requires Inv(p) && Next(p, a).Some?
    ensures Inv(Next(p, a).value)
  {
    hide Placed, Owned, Phased, Synchronous, Ordered, Honest, Prompt, Next, CountData, LogStep;
    if BySender(a) {
      PlacedBySender(p, a);
      PhasedBySender(p, a);
      SynchronousBySender(p, a);
    } else {
      PlacedByWriter(p, a);
      PhasedByWriter(p, a);
      SynchronousByWriter(p, a);
    }
    OwnedStep(p, a);
    OrderedStep(p, a);
    HonestStep(p, a);
    StepsLog(p, a);
    PromptStep(p, Next(p, a).value);
  }

  // ---- whole runs ----

  ghost predicate Run(ps: seq<Peer>, acts: seq<Action>) {
    && |ps| == |acts| + 1
    && Init(ps[0])
    && forall i | 0 <= i < |acts| :: Next(ps[i], acts[i]) == Some(ps[i + 1])
  }

  lemma {:induction false} RunKeepsInv(ps: seq<Peer>, acts: seq<Action>, n: nat)
    requires Run(ps, acts) && n < |ps|
    ensures Inv(ps[n])
  {
    hide Next;
    if n > 0 {
      hide Placed, Owned, Phased, Synchronous, Ordered, Honest, Prompt;
      RunKeepsInv(ps, acts, n - 1);
      assert Next(ps[n - 1], acts[n - 1]) == Some(ps[n - 1 + 1]);
      InvStep(ps[n - 1], acts[n - 1]);
    }
  }

  /** Although control overtakes data, each sender's frames are written in the order of its calls,
      each at most once, and every Send that returned nil is among them. */
  lemma SendersAreServedInOrder(ps: seq<Peer>, acts: seq<Action>, n: nat)
    requires Run(ps, acts) && n < |ps|
    ensures forall x, y | 0 <= x < y < |ps[n].written| && ps[n].written[x].sender == ps[n].written[y].sender ::
      ps[n].written[x].call < ps[n].written[y].call
    ensures forall i | i in ps[n].written :: Genuine(ps[n], i)
    ensures forall k, c | k in ps[n].senders && c in ps[n].senders[k].oks ::
      c < |ps[n].senders[k].calls| && Item(k, c, ps[n].senders[k].calls[c]) in ps[n].written
  {
    RunKeepsInv(ps, acts, n);
  }

  /** Send's result is the truth whenever it waits for the write: nil if and only if the frame was written. */
  lemma SendReturnsNilExactlyIfWritten(ps: seq<Peer>, acts: seq<Action>, n: nat, k: nat)
    requires Run(ps, acts) && n < |acts| && n + 1 < |ps| && acts[n] == Return(k)
    ensures k in ps[n].senders && Current(ps[n], k).Some? && k in ps[n + 1].senders
    ensures
      var i := Current(ps[n], k).value;
      (i.call in ps[n + 1].senders[k].oks <==> i in ps[n + 1].written) && i.call !in ps[n].senders[k].oks
  {
    hide Ordered, Synchronous, Prompt, Placed;
    RunKeepsInv(ps, acts, n);
    assert Next(ps[n], acts[n]) == Some(ps[n + 1]);
  }

  lemma StepOn(ps: seq<Peer>, acts: seq<Action>, a: Action) returns (qs: seq<Peer>, more: seq<Action>)
    requires Run(ps, acts) && Next(ps[|ps| - 1], a).Some?
    ensures qs != [] && Run(qs, more) && Next(ps[|ps| - 1], a) == Some(qs[|qs| - 1])
  {
    hide Next, Init;
    qs, more := ps + [Next(ps[|ps| - 1], a).value], acts + [a];
    forall i | 0 <= i < |more| ensures Next(qs[i], more[i]) == Some(qs[i + 1]) {
      if i < |acts| {
        assert Next(ps[i], acts[i]) == Some(ps[i + 1]);
      }
    }
  }

  /** After the run the only call, of sender 0, returned nil and its frame is all that was written. */
  ghost predicate Succeeded(ps: seq<Peer>, acts: seq<Action>, f: Frame) {
    && Run(ps, acts)
    && var p := ps[|ps| - 1];
       && 0 in p.senders && p.senders[0] == Sender([f], Quiet, {0})
       && p.written == [Item(0, 0, f)] && !p.closed && p.writer.First?
  }

  /** Every frame, control or data, can be sent with success. */
  lemma EveryFrameCanBeSent(f: Frame)
    ensures exists ps, acts :: Succeeded(ps, acts, f)
  {
    hide Run;
    var ps, acts := FrameIsQueued(f);
    if f.Chunk? {
      ps, acts := StepOn(ps, acts, FallThrough);
      ps, acts := StepOn(ps, acts, PickData);
    } else {
      ps, acts := StepOn(ps, acts, PickFirst);
    }
    ps, acts := FrameIsWritten(ps, acts, f);
    assert Succeeded(ps, acts, f);
  }

  lemma FrameIsQueued(f: Frame) returns (ps: seq<Peer>, acts: seq<Action>)
    ensures Run(ps, acts)
    ensures
      var p := ps[|ps| - 1];
      && p.senders == map[0 := Sender([f], Awaiting(Item(0, 0, f)), {})]
      && p.control == (if f.Chunk? then [] else [Item(0, 0, f)]) && p.data == (if f.Chunk? then [Item(0, 0, f)] else [])
      && p.writer.First? && p.expired == {} && p.done == map[] && p.written == [] && !p.closed
  {
    hide Run;
    var senders := map[0 := Sender([], Quiet, {})];
    ps, acts := OnePeer(senders);
    assert [] + [f] == [f] && [] + [Item(0, 0, f)] == [Item(0, 0, f)];
    ps, acts := StepOn(ps, acts, Call(0, f));
    assert ps[|ps| - 1].senders == map[0 := Sender([f], Offering(Item(0, 0, f)), {})];
    ps, acts := StepOn(ps, acts, Enqueue(0));
    assert ps[|ps| - 1].senders == map[0 := Sender([f], Awaiting(Item(0, 0, f)), {})];
  }

  lemma OnePeer(senders: map<nat, Sender>) returns (ps: seq<Peer>, acts: seq<Action>)
    requires senders == map[0 := Sender([], Quiet, {})]
    ensures Run(ps, acts) && ps[|ps| - 1] == Peer(senders, [], [], First, {}, map[], [], false, [])
  {
    hide Next;
    ps, acts := [Peer(senders, [], [], First, {}, map[], [], false, [])], [];
  }

  lemma FrameIsWritten(ps: seq<Peer>, acts: seq<Action>, f: Frame) returns (qs: seq<Peer>, more: seq<Action>)
    requires Run(ps, acts)
    requires
      var p := ps[|ps| - 1];
      && p.senders == map[0 := Sender([f], Awaiting(Item(0, 0, f)), {})]
      && p.writer == Holding(Item(0, 0, f)) && p.expired == {} && p.done == map[] && p.written == [] && !p.closed
    ensures Succeeded(qs, more, f)
  {
    hide Run;
    assert [] + [Item(0, 0, f)] == [Item(0, 0, f)];
    qs, more := StepOn(ps, acts, CheckContext);
    qs, more := StepOn(qs, more, WriteSucceeds);
    qs, more := StepOn(qs, more, Return(0));
  }

  /** A frame is taken in exactly while fewer than 64 of its class wait. */
  lemma QueuesTakeSixtyFourFrames(p: Peer, k: nat)
    ensures Next(p, Enqueue(k)).Some? <==>
      && k in p.senders && p.senders[k].phase.Offering?
      && (if p.senders[k].phase.item.frame.Chunk? then |p.data| < 64 else |p.control| < 64)
  {}

  /** Send gives up exactly when its context has ended, which can happen anywhere in it, or the peer is
      closed. */
  lemma SendGivesUpOnlyThen(p: Peer, k: nat)
    requires k in p.senders && !p.senders[k].phase.Quiet?
    ensures Next(p, Expire(k)) == Some(p.(expired := p.expired + {p.senders[k].phase.item}))
    ensures Next(p, GiveUp(k)).Some? <==> p.senders[k].phase.item in p.expired || p.closed
    ensures Next(p, GiveUp(k)).Some? ==>
      && Next(p, GiveUp(k)).value.senders[k] == p.senders[k].(phase := Quiet)
      && p.senders[k].phase.item in Next(p, GiveUp(k)).value.expired
  {}

  /** The writer takes control frames first, then whichever queue has a frame, and stops when the peer is
      closed; a frame whose context has ended is reported as not written, any other is written next. */
  lemma WriterChoices(p: Peer)
    ensures Next(p, PickFirst).Some? <==> p.writer.First? && p.control != []
    ensures Next(p, FallThrough).Some? <==> p.writer.First? && p.control == []
    ensures Next(p, PickControl).Some? <==> p.writer.Second? && p.control != []
    ensures Next(p, PickData).Some? <==> p.writer.Second? && p.data != []
    ensures Next(p, StopWriter).Some? <==> p.writer.Second? && p.closed
    ensures p.writer.Holding? ==>
      && Next(p, CheckContext).Some?
      && var q := Next(p, CheckContext).value;
         if p.writer.item in p.expired
         then q.writer.First? && p.writer.item in q.done && !q.done[p.writer.item]
         else q.writer == Writing(p.writer.item) && q.done == p.done
    ensures p.writer.Writing? ==>
      && Next(p, WriteFails).Some?
      && var q := Next(p, WriteFails).value;
         q.writer.Stopped? && q.closed && q.written == p.written && p.writer.item in q.done && !q.done[p.writer.item]
  {}

  /** A peer that is closed stays closed, and a writer that stopped, after a failed write or on a closed
      peer, writes nothing more. */
  lemma StoppedPeersStayStopped(p: Peer, a: Action)
    requires Next(p, a).Some?
    ensures p.closed ==> Next(p, a).value.closed
    ensures p.writer.Stopped? ==> Next(p, a).value.writer.Stopped? && Next(p, a).value.written == p.written
  {}

  /** Between the queueing of a control frame and the next control frame picked, the writer starts
      at most one data frame. */
  lemma ControlWaitsForOneDataFrame(ps: seq<Peer>, acts: seq<Action>, n: nat, a: nat)
    requires Run(ps, acts) && n < |ps| && Unserved(ps[n].log, a)
    ensures CountData(ps[n].log[a..]) <= 1
  {
    RunKeepsInv(ps, acts, n);
  }

  // ---- the peer as one sender sees it ----

  function FramesOf(items: seq<Item>, k: nat): seq<Frame> {
    if items == [] then []
    else
      var last := items[|items| - 1];
      FramesOf(items[..|items| - 1], k) + if last.sender == k then [last.frame] else []
  }

  ghost function LinkOf(p: Peer, k: nat): Link.Link
    requires k in p.senders
  {
    var current := Current(p, k);
    Link.Link(
      if current.Some? then Some(current.value.frame) else None,
      current.Some? && current.value in p.written,
      if p.writer.Writing? && p.writer.item.sender == k && current != Some(p.writer.item)
      then Some(p.writer.item.frame) else None,
      FramesOf(p.written, k))
  }

  /** The link step a peer action is for sender k, if it is one. */
  function StepFor(p: Peer, a: Action, k: nat): Option<Link.Step> {
    match a
    case Call(j, f) => if j == k then Some(Link.Begin(f)) else None
    case GiveUp(j) =>
      if j == k && Current(p, k).Some? then Some(Link.ReturnError(p.writer == Writing(Current(p, k).value))) else None
    case Return(j) =>
      if j == k && Current(p, k).Some? && Current(p, k).value in p.done then
        Some(if p.done[Current(p, k).value] then Link.ReturnOk else Link.ReturnError(false))
      else None
    case WriteSucceeds =>
      if p.writer.Writing? && p.writer.item.sender == k then
        Some(if Current(p, k) == Some(p.writer.item) then Link.Write else Link.WriteLate)
      else None
    case WriteFails =>
      if p.writer.Writing? && p.writer.item.sender == k then Some(Link.DropLate) else None
    case _ => None
  }

  /** Every step of the peer is, for each sender, one step of its link or none at all, and Send returns
      nil in exactly those that its link takes for a successful return. */
  ghost predicate Follows(p: Peer, a: Action, k: nat)
    requires Next(p, a).Some? && k in p.senders && k in Next(p, a).value.senders
  {
    && (match StepFor(p, a, k)
        case None => LinkOf(Next(p, a).value, k) == LinkOf(p, k)
        case Some(st) => Link.Next(LinkOf(p, k), st) == Some(LinkOf(Next(p, a).value, k)))
    && ReturnsNil(p, a, k) == (StepFor(p, a, k) == Some(Link.ReturnOk))
  }

  /** The step is the return of nil from a call of k. */
  ghost predicate ReturnsNil(p: Peer, a: Action, k: nat)
    requires Next(p, a).Some? && k in p.senders && k in Next(p, a).value.senders
  {
    Next(p, a).value.senders[k].oks != p.senders[k].oks
  }

  /** A write under way is newer than everything its sender has had written. */
  lemma WritingIsNewest(p: Peer, k: nat)
    requires Inv(p) && p.writer.Writing? && k in p.senders
    ensures p.writer.item !in p.written
    ensures Current(p, k).Some? ==> Current(p, k).value.sender == k
    ensures p.writer.item.sender == k && Current(p, k).Some? ==> Current(p, k).value !in p.written
  {
    hide CountData, Prompt, Honest, Synchronous;
    assert Pending(p, p.writer.item);
  }

  lemma WriteFollows(p: Peer, k: nat)
    requires Inv(p) && Next(p, WriteSucceeds).Some? && k in p.senders
    ensures Follows(p, WriteSucceeds, k)
  {
    hide Inv, Placed, Owned, Phased;
    WritingIsNewest(p, k);
    var i := p.writer.item;
    assert (p.written + [i])[..|p.written|] == p.written;
    assert forall j :: j in p.written + [i] <==> j in p.written || j == i;
    assert FramesOf(p.written, k) + [] == FramesOf(p.written, k);
  }

  /** A call that begins is for a frame never written before. */
  lemma CallFollows(p: Peer, a: Action, k: nat)
    requires Inv(p) && Next(p, a).Some? && k in p.senders && a.Call?
    ensures k in Next(p, a).value.senders && Follows(p, a, k)
  {
    hide CountData, Prompt, FramesOf, Synchronous, Ordered;
  }

  /** A call that returns nil was written; one that gives up may leave a write under way. */
  lemma ReturnFollows(p: Peer, a: Action, k: nat)
    requires Inv(p) && Next(p, a).Some? && k in p.senders && (a.Return? || a.GiveUp?)
    ensures k in Next(p, a).value.senders && Follows(p, a, k)
  {
    hide CountData, Prompt, FramesOf, Synchronous, Ordered;
  }

  lemma OtherSenderFollows(p: Peer, a: Action, k: nat)
    requires Inv(p) && Next(p, a).Some? && k in p.senders && (a.Enqueue? || a.Expire? || a.Close?)
    ensures k in Next(p, a).value.senders && Follows(p, a, k)
  {
    hide CountData, Prompt, FramesOf, Synchronous, Ordered, Honest, Distinct, Owned, Phased;
  }

  lemma PeerRefinesLink(p: Peer, a: Action, k: nat)
    requires Inv(p) && Next(p, a).Some? && k in p.senders
    ensures k in Next(p, a).value.senders && Follows(p, a, k)
  {
    hide CountData, Prompt, FramesOf, Honest, Ordered, Genuine;
    if a.WriteSucceeds? {
      WriteFollows(p, k);
    } else if BySender(a) {
      if a.Call? {
        CallFollows(p, a, k);
      } else if a.Return? || a.GiveUp? {
        ReturnFollows(p, a, k);
      } else {
        OtherSenderFollows(p, a, k);
      }
    }
  }
}
