/** Values shared by every part of the relay model. */
module Types {
  datatype Option<+T> = None | Some(value: T)

  /** One byte, written as the character with that code so that protocol literals read as text.
      Nothing bounds the alphabet, so what holds of these strings holds of byte strings. */
  type byte = char

  const LF: byte := '\n'
  const CR: byte := '\r'

  /** The integer counts a usage object carries, by key. The empty map stands for an absent object. */
  type Usage = map<string, int>

  /** The counts a usage object may have. */
  const USAGE_KEYS: set<string> := {"prompt_tokens", "completion_tokens", "total_tokens"}

  /** Usage within the limits of the protocol. */
  predicate GoodUsage(u: Usage) {
    forall k | k in u :: k in USAGE_KEYS && u[k] >= 0
  }

  /** What one well-formed JSON document tells the observer. */
  datatype Parsed = Parsed(error: bool, usage: Usage)

  /** JSON decoding, left open: the documents that decode, and what they say. Every result holds
      for every decoder. */
  type Decoder = imap<seq<byte>, Parsed>

  /** The failure codes an attempt can end with, on the wire and at the gateway. */
  datatype Code =
    | Busy | BackendUnavailable | ModelNotAllowed | InvalidRequest | BackendFailed
    | InvalidBackendResponse | StartTimeout | DeadlineExceeded | Cancelled | StreamInterrupted
    | HostDisconnected | SlowConsumer | EmptyBackendResponse

  /** A frame an agent sends about one attempt. Content types are the two the protocol allows:
      event stream or JSON. */
  datatype Frame =
    | Start(status: int, sse: bool)
    | Chunk(n: nat, data: seq<byte>)
    | End(usage: Usage)
    | Error(code: Code, retryable: bool, usage: Usage)
  {
    predicate Terminal() { End? || Error? }

    /** The response bytes a frame carries. */
    function Bytes(): seq<byte> { if Chunk? then data else [] }
  }

  const CHUNK_BYTES := 32768
  const QUEUE_BYTES := 262144
  const QUEUE_MESSAGES := 10
}
