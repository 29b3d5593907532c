/** Deadlines of one logical request (chat in internal/coordinator/chat.go, session and execute in
    internal/agent/agent.go). Durations are nanoseconds. */
module Deadline {
  import opened Types
  import opened Protocol
  import opened Config
  import opened Discovery

  const MS := 1000000
  const SECOND := 1000000000
  const INT64 := 0x8000_0000_0000_0000

  function Least(a: int, b: int): int { if a < b then a else b }

  /** Duration.Milliseconds truncates toward zero; durations here are not negative. */
  function Milliseconds(d: nat): nat { d / MS }

  /** The time the coordinator gives an attempt to start. */
  function StartLimit(startSeconds: nat, remaining: nat): nat {
    Least(startSeconds * SECOND, remaining)
  }

  /** The request chat sends with the given time left, or None when it answers 504 instead. wireBody is
      the buyer's body as the message carries it: encoding may make it longer than the body read, whose
      size is all that chat bounds. */
  function BuildRequest(
    startSeconds: nat, remaining: int, requestId: string, attemptId: string,
    b: Backend, m: Model, wireBody: seq<byte>): Option<Message>
  {
    if remaining < MS then None
    else
      Some(BLANK.(version := VERSION, kind := Request, requestId := requestId, attemptId := attemptId,
                  backendId := b.id, model := m.id, timeoutMs := Milliseconds(remaining),
                  startTimeoutMs := Milliseconds(StartLimit(startSeconds, remaining)),
                  body := wireBody, bodyIsJson := true))
  }

  /** An identifier as protocol.ID makes it: 16 random bytes in hexadecimal. */
  predicate GeneratedId(s: string) { |s| == 32 }

  lemma MillisecondsMonotone(a: nat, b: nat)
    requires a <= b
    ensures Milliseconds(a) <= Milliseconds(b)
    ensures Milliseconds(a) * MS <= a
  {}

  /** For every clock and every valid timeout, the request's own fields are in order; it is accepted
      exactly when the catalog's identifiers, whose length catalog validation does not check, and the
      encoded body are within the message limits. */
  lemma RequestIsValidExactlyWhenItFits(
    startSeconds: nat, totalSeconds: nat, remaining: int, requestId: string, attemptId: string,
    b: Backend, m: Model, wireBody: seq<byte>)
    requires TimeoutsOk(startSeconds, totalSeconds) && remaining <= totalSeconds * SECOND
    requires GeneratedId(requestId) && GeneratedId(attemptId)
    requires BackendConforms(b) && m in b.models
    ensures
      var r := BuildRequest(startSeconds, remaining, requestId, attemptId, b, m, wireBody);
      && (r.None? <==> remaining < MS)
      && (r.Some? ==>
            && 1 <= r.value.startTimeoutMs <= r.value.timeoutMs <= 86400000
            && r.value.timeoutMs * 1_000_000 <= remaining < (r.value.timeoutMs + 1) * 1_000_000
            && r.value.startTimeoutMs ==
                 (if startSeconds * 1000 < r.value.timeoutMs then startSeconds * 1000 else r.value.timeoutMs)
            && r.value.backendId == b.id && r.value.model == m.id && r.value.body == wireBody
            && r.value.requestId == requestId && r.value.attemptId == attemptId
            && (Validate(r.value) == None <==> |b.id| <= 64 && |m.id| <= 512 && |wireBody| <= MAX_REQUEST_BYTES)
            && (|b.id| <= 64 && |m.id| <= 512 && |wireBody| > MAX_REQUEST_BYTES ==>
                  Validate(r.value) == Some(InvalidRequestFields)))
  {
    if remaining >= MS {
      MillisecondsMonotone(StartLimit(startSeconds, remaining), remaining);
      MillisecondsMonotone(MS, StartLimit(startSeconds, remaining));
      MillisecondsMonotone(remaining, 86400 * SECOND);
      var i :| 0 <= i < |b.models| && b.models[i] == m;
      assert m.id == b.id + "/" + m.name;
      assert |m.id| >= 2;
    }
  }

  /** Identifiers that do not fit do occur: there is a valid catalog entry for which every request is
      refused. */
  lemma AConformingIdentifierMayNotFit(
    startSeconds: nat, totalSeconds: nat, remaining: int, requestId: string, attemptId: string, wireBody: seq<byte>)
    requires TimeoutsOk(startSeconds, totalSeconds) && MS <= remaining <= totalSeconds * SECOND
    requires GeneratedId(requestId) && GeneratedId(attemptId)
    ensures exists b: Backend, m: Model ::
      && BackendConforms(b) && m in b.models && |b.id| == 65
      && BuildRequest(startSeconds, remaining, requestId, attemptId, b, m, wireBody).Some?
      && Validate(BuildRequest(startSeconds, remaining, requestId, attemptId, b, m, wireBody).value)
           == Some(OversizedIdentifier)
  {
    hide TimeoutsOk;
    var id: string := seq(65, _ => 'b');
    var m := Model(id + "/" + "m", "m", "d");
    var b := Backend(id, "ollama", "local", true, 1, 1, [m]);
    assert BackendConforms(b) && m in b.models;
  }

  /** A retry is built later against the same deadline, so if it is sent at all then so was the first
      attempt, and with no less time. */
  lemma RetryNeverGetsMoreTime(
    deadline: int, now: int, later: int, startSeconds: nat, requestId: string, firstId: string, secondId: string,
    b: Backend, m: Model, c: Backend, n: Model, wireBody: seq<byte>)
    requires now <= later
    ensures
      var first := BuildRequest(startSeconds, deadline - now, requestId, firstId, b, m, wireBody);
      var second := BuildRequest(startSeconds, deadline - later, requestId, secondId, c, n, wireBody);
      second.Some? ==>
        && first.Some?
        && second.value.timeoutMs <= first.value.timeoutMs
        && second.value.startTimeoutMs <= first.value.startTimeoutMs
  {
    if deadline - later >= MS {
      MillisecondsMonotone(deadline - later, deadline - now);
      MillisecondsMonotone(StartLimit(startSeconds, deadline - later), StartLimit(startSeconds, deadline - now));
    }
  }

  /** The agent's limits for an attempt. */
  function AgentTotal(r: Message, totalSeconds: nat): int {
    Least(r.timeoutMs * MS, totalSeconds * SECOND)
  }

  function AgentStart(r: Message, startSeconds: nat): int {
    Least(r.startTimeoutMs * MS, startSeconds * SECOND)
  }

  /** The agent never works longer than either side's configuration or what was left of the buyer's
      deadline, always gives an attempt at least a millisecond, and no duration overflows an int64. */
  lemma AgentStaysWithinBothLimits(
    startSeconds: nat, totalSeconds: nat, agentStart: nat, agentTotal: nat, remaining: nat,
    requestId: string, attemptId: string, b: Backend, m: Model, wireBody: seq<byte>)
    requires TimeoutsOk(startSeconds, totalSeconds) && TimeoutsOk(agentStart, agentTotal)
    requires MS <= remaining <= totalSeconds * SECOND
    ensures
      var r := BuildRequest(startSeconds, remaining, requestId, attemptId, b, m, wireBody).value;
      && MS <= AgentTotal(r, agentTotal) <= Least(remaining, agentTotal * SECOND)
      && MS <= AgentStart(r, agentStart) <= Least(StartLimit(startSeconds, remaining), agentStart * SECOND)
      && AgentTotal(r, agentTotal) in {r.timeoutMs * 1_000_000, agentTotal * 1_000_000_000}
      && AgentTotal(r, agentTotal) <= r.timeoutMs * 1_000_000 && AgentTotal(r, agentTotal) <= agentTotal * 1_000_000_000
      && AgentStart(r, agentStart) in {r.startTimeoutMs * 1_000_000, agentStart * 1_000_000_000}
      && AgentStart(r, agentStart) <= r.startTimeoutMs * 1_000_000
      && AgentStart(r, agentStart) <= agentStart * 1_000_000_000
      && r.timeoutMs * MS < INT64 && r.startTimeoutMs * MS < INT64 && totalSeconds * SECOND < INT64
  {
    MillisecondsMonotone(StartLimit(startSeconds, remaining), remaining);
    MillisecondsMonotone(MS, StartLimit(startSeconds, remaining));
    MillisecondsMonotone(remaining, remaining);
  }

  /** What discovery of accepted configuration offers always fits, so the coordinator's request for any
      model an honest agent advertises passes the agent's validation exactly when the encoded body is
      within its limit; a longer one ends the agent's session as an invalid message. */
  lemma HonestHostAcceptsExactlyWhatFits(
    c: BackendConfig, offered: Backend, active: int,
    startSeconds: nat, totalSeconds: nat, remaining: nat, requestId: string, attemptId: string, m: Model,
    wireBody: seq<byte>)
    requires BackendOk(c) && FromDiscovery(c, offered) && 0 <= active <= offered.capacity && m in offered.models
    requires TimeoutsOk(startSeconds, totalSeconds) && MS <= remaining <= totalSeconds * SECOND
    requires GeneratedId(requestId) && GeneratedId(attemptId)
    ensures
      var b := offered.(available := offered.capacity - active);
      var r := BuildRequest(startSeconds, remaining, requestId, attemptId, b, m, wireBody);
      && r.Some? && (Validate(r.value) == None <==> |wireBody| <= MAX_REQUEST_BYTES)
      && (|wireBody| > MAX_REQUEST_BYTES ==> Validate(r.value) == Some(InvalidRequestFields))
  {
    hide FromDiscovery, BackendOk, BackendConforms, Validate, BuildRequest;
    var b := offered.(available := offered.capacity - active);
    HonestBackendConforms(c, offered, active);
    DiscoveredModelsConform(c, offered);
    RequestIsValidExactlyWhenItFits(startSeconds, totalSeconds, remaining, requestId, attemptId, b, m, wireBody);
  }
}
