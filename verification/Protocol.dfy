/** The wire contract (protocol/protocol.go): message and catalog validation. Strings stand for
    their bytes. */
module Protocol {
  import opened Types

  const VERSION := 1
  const MAX_REQUEST_BYTES := 1048576

  datatype Model = Model(id: string, name: string, digest: string)

  datatype Backend = Backend(
    id: string, kind: string, source: string, ready: bool, capacity: int, available: int, models: seq<Model>)

  datatype Kind =
    | Hello | Welcome | Catalog | Heartbeat | HeartbeatAck | Request
    | ResponseStart | ResponseChunk | ResponseEnd | ErrorMessage | Cancel | UnknownKind

  /** The usage field: absent, not an object of integers, or the integers. */
  datatype UsageField = NoUsage | BadUsage | UsageCounts(counts: Usage)

  /** body is the request body in its wire encoding. */
  datatype Message = Message(
    version: int, kind: Kind, hostId: string, backends: seq<Backend>, heartbeatId: int,
    requestId: string, attemptId: string, backendId: string, model: string,
    timeoutMs: int, startTimeoutMs: int, body: seq<byte>, bodyIsJson: bool,
    status: int, contentType: string, seqNo: int, data: seq<byte>,
    code: string, retryable: bool, usage: UsageField)

  const BLANK := Message(0, UnknownKind, "", [], 0, "", "", "", "", 0, 0, [], false, 0, "", 0, [], "", false, NoUsage)

  datatype Fault =
    | UnsupportedVersion | OversizedIdentifier | InvalidUsage | MissingHost | MissingHeartbeat
    | InvalidRequestFields | InvalidStart | InvalidChunk | MissingCode | UnknownType | InvalidAttempt

  predicate UsageFits(u: UsageField) {
    match u
    case NoUsage => true
    case BadUsage => false
    case UsageCounts(counts) => GoodUsage(counts)
  }

  function KindFault(m: Message): Option<Fault> {
    match m.kind
    case Hello => if m.hostId == "" then Some(MissingHost) else None
    case Welcome => if m.hostId == "" then Some(MissingHost) else None
    case Catalog => None
    case Heartbeat => if m.heartbeatId == 0 then Some(MissingHeartbeat) else None
    case HeartbeatAck => if m.heartbeatId == 0 then Some(MissingHeartbeat) else None
    case Request =>
      if m.requestId == "" || m.backendId == "" || m.model == "" || m.timeoutMs < 1 || m.timeoutMs > 86400000
         || m.startTimeoutMs < 1 || m.startTimeoutMs > m.timeoutMs || |m.body| > MAX_REQUEST_BYTES || !m.bodyIsJson
      then Some(InvalidRequestFields) else None
    case ResponseStart =>
      if m.status < 200 || m.status > 599
         || (m.contentType != "text/event-stream" && m.contentType != "application/json")
      then Some(InvalidStart) else None
    case ResponseChunk =>
      if |m.data| == 0 || |m.data| > CHUNK_BYTES || m.seqNo == 0 then Some(InvalidChunk) else None
    case ResponseEnd => None
    case Cancel => None
    case ErrorMessage => if m.code == "" then Some(MissingCode) else None
    case UnknownKind => Some(UnknownType)
  }

  predicate NamesAttempt(k: Kind) {
    k.Request? || k.ResponseStart? || k.ResponseChunk? || k.ResponseEnd? || k.ErrorMessage? || k.Cancel?
  }

  /** The first fault a receiver finds, in the order it looks. */
  function Validate(m: Message): Option<Fault> {
    if m.version != VERSION then Some(UnsupportedVersion)
    else if |m.requestId| > 128 || |m.hostId| > 64 || |m.code| > 64 || |m.backendId| > 64 || |m.model| > 512 then
      Some(OversizedIdentifier)
    else if !UsageFits(m.usage) then Some(InvalidUsage)
    else if KindFault(m).Some? then KindFault(m)
    else if NamesAttempt(m.kind) && (m.attemptId == "" || |m.attemptId| > 128) then Some(InvalidAttempt)
    else None
  }

  /** Which messages are valid, field by field. */
  lemma ValidMessages(m: Message)
    ensures Validate(m) == None <==>
      && m.version == 1 && !m.kind.UnknownKind?
      && |m.requestId| <= 128 && |m.hostId| <= 64 && |m.code| <= 64 && |m.backendId| <= 64 && |m.model| <= 512
      && !m.usage.BadUsage?
      && (m.usage.UsageCounts? ==>
            forall k | k in m.usage.counts ::
              m.usage.counts[k] >= 0 && (k == "prompt_tokens" || k == "completion_tokens" || k == "total_tokens"))
      && (m.kind.Hello? || m.kind.Welcome? ==> m.hostId != "")
      && (m.kind.Heartbeat? || m.kind.HeartbeatAck? ==> m.heartbeatId != 0)
      && (m.kind.Request? ==>
            && m.requestId != "" && m.backendId != "" && m.model != ""
            && 1 <= m.startTimeoutMs <= m.timeoutMs <= 86400000 && |m.body| <= 1048576 && m.bodyIsJson)
      && (m.kind.ResponseStart? ==>
            200 <= m.status <= 599 && (m.contentType == "text/event-stream" || m.contentType == "application/json"))
      && (m.kind.ResponseChunk? ==> 0 < |m.data| <= 32768 && m.seqNo != 0)
      && (m.kind.ErrorMessage? ==> m.code != "")
      && (NamesAttempt(m.kind) ==> 0 < |m.attemptId| <= 128)
    ensures NamesAttempt(m.kind) <==>
      m.kind in {Request, ResponseStart, ResponseChunk, ResponseEnd, ErrorMessage, Cancel}
  {}

  // ---- what an agent sends about an attempt ----

  function CodeName(c: Code): (s: string)
    ensures 0 < |s| <= 64
  {
    match c
    case Busy => "busy"
    case BackendUnavailable => "backend_unavailable"
    case ModelNotAllowed => "model_not_allowed"
    case InvalidRequest => "invalid_request"
    case BackendFailed => "backend_failed"
    case InvalidBackendResponse => "invalid_backend_response"
    case StartTimeout => "start_timeout"
    case DeadlineExceeded => "deadline_exceeded"
    case Cancelled => "cancelled"
    case StreamInterrupted => "stream_interrupted"
    case HostDisconnected => "host_disconnected"
    case SlowConsumer => "slow_consumer"
    case EmptyBackendResponse => "empty_backend_response"
  }

  function UsageOf(u: Usage): UsageField {
    if u == map[] then NoUsage else UsageCounts(u)
  }

  /** The message of a frame, as Send stamps it with the version. */
  function MessageOf(attemptId: string, f: Frame): Message {
    var m := BLANK.(version := VERSION, attemptId := attemptId);
    match f
    case Start(status, sse) =>
      m.(kind := ResponseStart, status := status,
         contentType := if sse then "text/event-stream" else "application/json")
    case Chunk(n, data) => m.(kind := ResponseChunk, seqNo := n, data := data)
    case End(usage) => m.(kind := ResponseEnd, usage := UsageOf(usage))
    case Error(code, retryable, usage) =>
      m.(kind := ErrorMessage, code := CodeName(code), retryable := retryable, usage := UsageOf(usage))
  }

  /** The code a name stands for. */
  function CodeNamed(name: string): Option<Code> {
    if name == "busy" then Some(Busy)
    else if name == "backend_unavailable" then Some(BackendUnavailable)
    else if name == "model_not_allowed" then Some(ModelNotAllowed)
    else if name == "invalid_request" then Some(InvalidRequest)
    else if name == "backend_failed" then Some(BackendFailed)
    else if name == "invalid_backend_response" then Some(InvalidBackendResponse)
    else if name == "start_timeout" then Some(StartTimeout)
    else if name == "deadline_exceeded" then Some(DeadlineExceeded)
    else if name == "cancelled" then Some(Cancelled)
    else if name == "stream_interrupted" then Some(StreamInterrupted)
    else if name == "host_disconnected" then Some(HostDisconnected)
    else if name == "slow_consumer" then Some(SlowConsumer)
    else if name == "empty_backend_response" then Some(EmptyBackendResponse)
    else None
  }

  /** The frame a message carries, as the coordinator reads it. */
  function FrameOf(m: Message): Option<Frame> {
    var usage := if m.usage.UsageCounts? then m.usage.counts else map[];
    match m.kind
    case ResponseStart =>
      if m.contentType == "text/event-stream" then Some(Start(m.status, true))
      else if m.contentType == "application/json" then Some(Start(m.status, false))
      else None
    case ResponseChunk => if m.seqNo >= 0 then Some(Chunk(m.seqNo, m.data)) else None
    case ResponseEnd => Some(End(usage))
    case ErrorMessage =>
      (match CodeNamed(m.code)
       case Some(code) => Some(Error(code, m.retryable, usage))
       case None => None)
    case _ => None
  }

  /** Messages carry frames faithfully. */
  lemma FramesSurviveTheWire(attemptId: string, f: Frame)
    ensures FrameOf(MessageOf(attemptId, f)) == Some(f)
    ensures MessageOf(attemptId, f).attemptId == attemptId && MessageOf(attemptId, f).version == 1
  {
    if f.Error? {
      CodeNamesDiffer(f.code);
    }
  }

  lemma CodeNamesDiffer(c: Code)
    ensures CodeNamed(CodeName(c)) == Some(c)
  {}

  /** The names under which an agent's codes are documented. */
  lemma DocumentedNames()
    ensures CodeName(Busy) == "busy" && CodeName(BackendUnavailable) == "backend_unavailable"
    ensures CodeName(ModelNotAllowed) == "model_not_allowed" && CodeName(InvalidRequest) == "invalid_request"
    ensures CodeName(BackendFailed) == "backend_failed" && CodeName(StartTimeout) == "start_timeout"
    ensures CodeName(InvalidBackendResponse) == "invalid_backend_response"
    ensures CodeName(DeadlineExceeded) == "deadline_exceeded" && CodeName(Cancelled) == "cancelled"
    ensures CodeName(StreamInterrupted) == "stream_interrupted"
  {}

  // ---- catalogs ----

  /** A catalog entry's models have distinct public identifiers derived from their names, and local
      models carry a digest. */
  ghost predicate ModelsConform(b: Backend) {
    && (forall i | 0 <= i < |b.models| ::
          var m := b.models[i];
          m.id == b.id + "/" + m.name && m.name != "" && (b.source == "local" ==> m.digest != ""))
    && (forall i, j | 0 <= i < j < |b.models| :: b.models[i].id != b.models[j].id)
  }

  ghost predicate BackendConforms(b: Backend) {
    && b.id != "" && 1 <= b.capacity <= 64 && 0 <= b.available <= b.capacity && |b.models| <= 1024
    && ((b.kind == "ollama" && b.source == "local") || (b.kind == "cliproxyapi" && b.source == "provider"))
    && ModelsConform(b)
  }

  ghost predicate CatalogConforms(bs: seq<Backend>) {
    && |bs| <= 64
    && (forall i | 0 <= i < |bs| :: BackendConforms(bs[i]))
    && (forall i, j | 0 <= i < j < |bs| :: bs[i].id != bs[j].id)
  }

  /** Conforming catalogs, written out: at most 64 backends with distinct identifiers, of the two known kinds,
      each with 1 to 64 slots, at most 1024 models, and model identifiers that are its own. */
  lemma ConformingCatalogsMean(bs: seq<Backend>)
    ensures CatalogConforms(bs) <==>
      && |bs| <= 64 && (forall i, j | 0 <= i < j < |bs| :: bs[i].id != bs[j].id)
      && (forall b | b in bs ::
            && b.id != "" && 1 <= b.capacity <= 64 && 0 <= b.available <= b.capacity && |b.models| <= 1024
            && (b.kind == "ollama" || b.kind == "cliproxyapi")
            && b.source == (if b.kind == "ollama" then "local" else "provider")
            && (forall i, j | 0 <= i < j < |b.models| :: b.models[i].name != b.models[j].name)
            && (forall m | m in b.models ::
                  m.name != "" && m.id == b.id + "/" + m.name && (b.kind == "ollama" ==> m.digest != "")))
  {
    hide ModelsConform;
    assert forall b :: b in bs <==> exists i :: 0 <= i < |bs| && bs[i] == b;
    forall b: Backend {
      ConformingModelsMean(b);
    }
  }

  lemma ConformingModelsMean(b: Backend)
    ensures ModelsConform(b) <==>
      && (forall i, j | 0 <= i < j < |b.models| :: b.models[i].name != b.models[j].name)
      && (forall m | m in b.models ::
            m.name != "" && m.id == b.id + "/" + m.name && (b.source == "local" ==> m.digest != ""))
  {
    forall i, j | 0 <= i < j < |b.models|
      ensures b.id + "/" + b.models[i].name == b.id + "/" + b.models[j].name <==> b.models[i].name == b.models[j].name
    {
      var p := b.id + "/";
      assert (p + b.models[i].name)[|p|..] == b.models[i].name;
      assert (p + b.models[j].name)[|p|..] == b.models[j].name;
    }
  }

  /** The inner loop of ValidateCatalog. */
  method ValidateModels(b: Backend) returns (ok: bool)
    ensures ok <==> ModelsConform(b)
  {
    var models: set<string> := {};
    var i := 0;
    while i < |b.models|
      invariant 0 <= i <= |b.models|
      invariant models == set k | 0 <= k < i :: b.models[k].id
      invariant ModelsConform(b.(models := b.models[..i]))
    {
      var m := b.models[i];
      if m.id != b.id + "/" + m.name || m.name == "" || m.id in models || (b.source == "local" && m.digest == "") {
        return false;
      }
      models := models + {m.id};
      i := i + 1;
    }
    assert b.models[..i] == b.models;
    return true;
  }

  /** Accepts exactly the conforming catalogs. */
  method ValidateCatalog(backends: seq<Backend>) returns (ok: bool)
    ensures ok <==> CatalogConforms(backends)
  {
    hide ModelsConform;
    if |backends| > 64 {
      return false;
    }
    var ids: set<string> := {};
    var i := 0;
    while i < |backends|
      invariant 0 <= i <= |backends|
      invariant ids == set k | 0 <= k < i :: backends[k].id
      invariant forall k | 0 <= k < i :: BackendConforms(backends[k])
      invariant forall k, l | 0 <= k < l < i :: backends[k].id != backends[l].id
    {
      var b := backends[i];
      if b.id == "" || b.id in ids || b.capacity < 1 || b.capacity > 64 || b.available < 0
         || b.available > b.capacity || |b.models| > 1024
      {
        return false;
      }
      if (b.kind != "ollama" || b.source != "local") && (b.kind != "cliproxyapi" || b.source != "provider") {
        return false;
      }
      ids := ids + {b.id};
      var modelsOk := ValidateModels(b);
      if !modelsOk {
        return false;
      }
      assert BackendConforms(b);
      i := i + 1;
    }
    return true;
  }
}
