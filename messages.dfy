/**
 The values a connection-gateway tunnel exchanges and emits: the control
 messages of the handshake (already decoded from their JSON text), the frames
 put on the WebSocket, the notifications delivered by the four subjects
 (`connect$`, `data$`, `error$`, `close$`), and the log entries that record
 all of these in the order they happen.
 */
module Messages {

  datatype Option<+T> = None | Some(value: T)

  /** Raw payload, as a Node `Buffer` holds it. */
  type Bytes = seq<bv8>

  /** Concatenation of chunks in order (`Buffer.concat`). */
  function Flatten(chunks: seq<Bytes>): Bytes
  {
    if chunks == [] then [] else chunks[0] + Flatten(chunks[1..])
  }

  /** The `options` given to `connect`: where the gateway should tunnel to. */
  datatype Target = Target(host: string, port: int)

  /**
   The logged-in user's gateway settings. An empty `customGateway` stands for
   every falsy value of `custom_connection_gateway` (absent, null, "").
   */
  datatype User = User(customGateway: string, customGatewayToken: string)

  /** Outcome of the HTTP gateway lookup `chooseConnectionGateway`. */
  datatype Resolution = Resolved(url: string) | Rejected(reason: string)

  /** A control message from the gateway, discriminated by its `_` field. */
  datatype ServiceMessage =
    | Hello
    | Ready
    | Connected
    | GatewayError(details: string)
    | Unrecognized(tag: string)

  const KnownTags: set<string> := {"hello", "ready", "connected", "error"}

  /** A message is well formed when an unrecognized one does not carry a known tag. */
  predicate WellFormed(m: ServiceMessage)
  {
    m.Unrecognized? ==> m.tag !in KnownTags
  }

  /** The `_` field a message carries. */
  function TagOf(m: ServiceMessage): string
  {
    match m
    case Hello => "hello"
    case Ready => "ready"
    case Connected => "connected"
    case GatewayError(_) => "error"
    case Unrecognized(tag) => tag
  }

  /** The `details` field a message carries (only `error` has one). */
  function DetailsOf(m: ServiceMessage): string
  {
    if m.GatewayError? then m.details else ""
  }

  /**
   The `if (msg._ === ...) else if ...` chain of `handleServiceMessage`: the
   first matching tag decides the kind, anything else is unrecognized.
   */
  function ServiceMessageOf(tag: string, details: string): (m: ServiceMessage)
    ensures WellFormed(m)
    ensures m.Unrecognized? <==> tag !in KnownTags
  {
    if tag == "hello" then Hello
    else if tag == "ready" then Ready
    else if tag == "connected" then Connected
    else if tag == "error" then GatewayError(details)
    else Unrecognized(tag)
  }

  /** Reading back a message's tag and details gives the message. */
  lemma ParseOfTag(m: ServiceMessage)
    requires WellFormed(m)
    ensures ServiceMessageOf(TagOf(m), DetailsOf(m)) == m
  {
  }

  /** Dispatch keeps the tag it was given, and the details of an error. */
  lemma TagOfParse(tag: string, details: string)
    ensures TagOf(ServiceMessageOf(tag, details)) == tag
    ensures ServiceMessageOf(tag, details).GatewayError? ==> DetailsOf(ServiceMessageOf(tag, details)) == details
  {
  }

  /** A control message the client sends (`sendServiceMessage`). */
  datatype ClientMessage =
    | HelloReply(version: int, authToken: string)
    | ConnectRequest(host: string, port: int)

  /** What `webSocket.send` is given: JSON text, or a binary buffer. */
  datatype Frame = TextFrame(message: ClientMessage) | BinaryFrame(payload: Bytes)

  /** What `onmessage` receives: a string (control) or binary data (payload). */
  datatype Incoming = ControlIn(msg: ServiceMessage) | PayloadIn(chunk: Bytes)

  /** The value given to `error$.next`. */
  datatype Failure = ResolverFailure(reason: string) | ServiceFailure(details: string)

  datatype Stream = ConnectStream | DataStream | ErrorStream | CloseStream

  /** A notification a subscriber receives. */
  datatype Event =
    | ConnectNext
    | DataNext(data: Bytes)
    | ErrorNext(failure: Failure)
    | CloseNext
    | Completed(stream: Stream)

  function StreamOf(e: Event): Stream
  {
    match e
    case ConnectNext => ConnectStream
    case DataNext(_) => DataStream
    case ErrorNext(_) => ErrorStream
    case CloseNext => CloseStream
    case Completed(s) => s
  }

  /** One observable side effect of a proxy, in the order it happened. */
  datatype Effect =
    | GatewayRequested
    | Sent(frame: Frame)
    | SocketCloseCalled
    | Emitted(event: Event)
}
