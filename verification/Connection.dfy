/**
 The connection (impl/connection) as a step machine: everything between two suspension points on the
 strand is one step, and the steps of the reader, the writer, the control loop, `connect`, `enqueue`
 and `close` interleave in any order.

 What the environment is taken to guarantee is in `Enabled`: an IO operation in flight when the
 socket is closed completes with an error; a write takes at most what it was offered; `connect` is
 called only while connecting or open, before the first connection, or after the previous actor has
 been reaped and the previous `connect` has returned; the actor completes only when its loops are
 done. Completing the handshake and becoming open are one step.
 */
module Connection {
  import opened Bytes
  import opened Kinds
  import opened Lexer
  import opened Parser
  import opened Streaming
  import opened Builder
  import opened Messages
  import opened Adapter
  import opened Sinks
  import opened Pipeline
  import opened Ledger

  datatype Config = Config(
    limits: Limits, maxRequests: nat, maxBytes: nat, timeout: Option<nat>, reconnect: bool, hooks: Hooks,
    hello: bytes, helloReplies: nat)

  datatype Phase = INIT | CONNECTING | OPEN | FAILED | RECONNECTING | CLOSING | CLOSED

  /** An operation on the socket: none, one that may still succeed, one whose socket has been closed. */
  datatype Flight = Idle | Live | Stale

  /** An attempt to connect, by `connect` (`initial`) or by the control loop. */
  datatype Attempt =
    | NoAttempt
    | Starting(initial: bool)
    | Shaking(initial: bool, live: bool)
    | CleaningUp

  /** The request and the bytes that the write in flight was given. */
  datatype Offered = Offered(tag: Tag, data: bytes)

  /** `said` are the bytes the server has taken in the current attempt, `reply` what it has sent, read by read. */
  datatype State = State(
    phase: Phase, stop: bool, actor: bool, attempt: Attempt, said: bytes, reply: seq<bytes>, now: int,
    core: Core, unread: bytes, book: Book,
    reading: Flight, writing: Flight, offered: Offered)

  function Initially(cfg: Config, now: int): State {
    State(INIT, false, false, NoAttempt, [], [], now, START, [],
          Book(Empty(cfg.maxRequests, cfg.maxBytes), 0, [], [], [], []),
          Idle, Idle, Offered(Handshake, []))
  }

  // ----- messages from bytes -----

  const NOTHING := Message(NullValue(Null), None)

  ghost function MessageOf(p: Parsed): Message {
    if Buildable(p) then Build(p.tree, p.root) else NOTHING
  }

  ghost function MessagesOf(ts: seq<Parsed>): (ms: seq<Message>)
    ensures |ms| == |ts|
  {
    seq(|ts|, i requires 0 <= i < |ts| => MessageOf(ts[i]))
  }

  /** All messages in the stream that was read as `chunks` by a fresh parser. */
  ghost function Stream(chunks: seq<bytes>, L: Limits): seq<Message> {
    MessagesOf(Feed(START, [], chunks, L).seen.trees)
  }

  function Pump(core: Core, d: bytes, L: Limits): Drained {
    if InRange(core) then Drain(core, d, L) else Drained(core, d, Observed([], None))
  }

  // ----- errors and shutdown -----

  function Stopped(f: Flight): Flight {
    if f == Idle then Idle else Stale
  }

  function CloseSocket(s: State): State {
    s.(reading := Stopped(s.reading), writing := Stopped(s.writing),
       attempt := if s.attempt.Shaking? then Shaking(s.attempt.initial, false) else s.attempt)
  }

  /** Fails everything in the pipeline and closes the socket. */
  function Drop(cfg: Config, s: State, e: ErrorInfo, phase: Phase): State {
    CloseSocket(s.(phase := phase, book := Abort(s.book, cfg.hooks, e)))
  }

  /** Only an open connection can fail; everything else already is on its way down. */
  function HandleError(cfg: Config, s: State, e: ErrorInfo): State {
    if s.phase == OPEN then Drop(cfg, s, e, FAILED) else s
  }

  function CloseNow(cfg: Config, s: State): State {
    if s.phase == CLOSED then s else Drop(cfg, s.(stop := true), ClientError(ConnectionClosed), CLOSING)
  }

  // ----- the reader -----

  /** Delivers the messages of one read, then the parse error that ended it, if any. */
  function HearAll(cfg: Config, s: State, ms: seq<Message>, error: Option<ProtocolError>): State
    decreases |ms|
  {
    if ms == [] then
      match error
      case None => s
      case Some(e) => HandleError(cfg, s.(book := HearError(s.book, cfg.hooks, ProtocolFailure(e))), ProtocolFailure(e))
    else if s.book.pipe.awaiting == [] then HandleError(cfg, s, ClientError(UnsolicitedMessage))
    else HearAll(cfg, s.(book := Hear(s.book, cfg.hooks, ms[0])), ms[1..], error)
  }

  // ----- the handshake -----

  /** The parser has taken in `chunk`, and so stands at `r`. */
  function Told(s: State, r: Drained, chunk: bytes): State {
    s.(core := r.core, unread := r.unread, reply := s.reply + [chunk])
  }

  /** The attempt is over: `connect` cleans up, the control loop goes back to `Failed`. */
  function Abandon(s: State): State {
    if s.attempt.CleaningUp? || s.attempt.NoAttempt? then s
    else if s.attempt.initial then s.(attempt := CleaningUp)
    else s.(phase := FAILED, attempt := NoAttempt)
  }

  function FailShake(cfg: Config, s: State, e: ErrorInfo): State {
    Abandon(s.(book := Abort(s.book, cfg.hooks, e)))
  }

  function BecomeOpen(s: State): State {
    s.(phase := OPEN, attempt := NoAttempt, book := Begin(s.book), core := START, unread := [])
  }

  /** All replies are in: any error among them fails the attempt. */
  function Greeted(cfg: Config, s: State, slots: seq<Sinks.Slot>): State {
    match FirstError(slots)
    case None => BecomeOpen(s)
    case Some(e) => if e.ServerError? then Abandon(s) else FailShake(cfg, s, ClientError(HandshakeFailed))
  }

  function Shake(cfg: Config, s: State, ms: seq<Message>, error: Option<ProtocolError>): State
    decreases |ms|
  {
    if ms == [] then
      match error
      case None => s
      case Some(e) => FailShake(cfg, s.(book := HearError(s.book, cfg.hooks, ProtocolFailure(e))), ProtocolFailure(e))
    else if s.book.pipe.awaiting == [] then FailShake(cfg, s, ClientError(UnsolicitedMessage))
    else
      var d := OnMessage(s.book.pipe, ms[0]);
      var s1 := s.(book := HelloHear(s.book, cfg.hooks, ms[0]));
      if d.settled == [] then Shake(cfg, s1, ms[1..], error) else Greeted(cfg, s1, d.settled[0].sink.slots)
  }

  // ----- enqueue -----

  function RefusalCode(phase: Phase): ClientCode {
    match phase
    case INIT => NotConnected
    case CONNECTING => NotConnected
    case FAILED => ConnectionLost
    case RECONNECTING => ConnectionLost
    case CLOSING => ConnectionClosed
    case CLOSED => ConnectionClosed
    case OPEN => QueueFull
  }

  function Deadline(cfg: Config, now: int): Option<int> {
    if cfg.timeout.Some? then Some(now + cfg.timeout.value) else None
  }

  function Enqueue(cfg: Config, s: State, wire: bytes, targets: seq<Target>): State {
    if s.phase == OPEN && HasRoom(s.book.pipe, wire) then
      s.(book := Admit(s.book, cfg.hooks, targets, wire, Deadline(cfg, s.now)))
    else
      s.(book := Refuse(s.book, cfg.hooks, targets, RefusalCode(s.phase)))
  }

  // ----- steps -----

  datatype Event =
    | Connect
    | HandshakeStart
    | HandshakeWrite(n: nat)
    | HandshakeRead(chunk: bytes)
    | AttemptFails(error: ErrorInfo)
    | CleanUp
    | EnqueueRequest(wire: bytes, targets: seq<Target>)
    | WriteStart
    | WriteEnd(n: nat)
    | WriteFails(aborted: bool)
    | ReadStart
    | ReadEnd(chunk: bytes)
    | ReadEof
    | ReadFails(aborted: bool)
    | Expire
    | GiveUp
    | Reconnect
    | Close
    | ActorExits
    | ActorThrows
    | ActorReaped
    | Tick(delta: nat)

  predicate ByControlLoop(a: Attempt) {
    (a.Starting? || a.Shaking?) && !a.initial
  }

  predicate Expired(s: State) {
    var d := NextDeadline(s.book.pipe);
    d.Some? && d.value <= s.now
  }

  predicate Enabled(cfg: Config, s: State, ev: Event) {
    match ev
    case Connect =>
      s.phase == INIT || s.phase == OPEN || s.phase == CONNECTING || (s.phase == CLOSED && !s.actor && s.attempt == NoAttempt) ||
      (s.stop && s.phase != CLOSED)
    case HandshakeStart => s.attempt.Starting? && !s.stop
    case HandshakeWrite(n) => s.attempt.Shaking? && s.attempt.live && OffersAtLeast(s.book.pipe, n)
    case HandshakeRead(chunk) => s.attempt.Shaking? && s.attempt.live && s.book.pipe.pending == [] && chunk != []
    case AttemptFails(_) => s.attempt.Starting? || s.attempt.Shaking?
    case CleanUp => s.attempt == CleaningUp
    case EnqueueRequest(_, targets) => |targets| >= 1
    case WriteStart => s.phase == OPEN && s.writing == Idle && OffersAtLeast(s.book.pipe, 0)
    case WriteEnd(n) => s.writing == Live && n <= |s.offered.data|
    case WriteFails(_) => s.writing != Idle
    case ReadStart => s.phase == OPEN && s.reading == Idle
    case ReadEnd(chunk) => s.reading == Live && chunk != []
    case ReadEof => s.reading == Live
    case ReadFails(_) => s.reading != Idle
    case Expire => s.phase == OPEN && cfg.timeout.Some? && Expired(s)
    case GiveUp => s.phase == FAILED && s.actor && !s.stop && !cfg.reconnect
    case Reconnect => s.phase == FAILED && s.actor && !s.stop && cfg.reconnect
    case Close => true
    case ActorExits => s.actor && s.stop && s.phase != CLOSED && s.reading == Idle && s.writing == Idle && !ByControlLoop(s.attempt)
    case ActorThrows => s.actor && s.phase != CLOSED && s.reading == Idle && s.writing == Idle && s.attempt == NoAttempt
    case ActorReaped => s.actor && s.phase == CLOSED
    case Tick(_) => true
  }

  ghost function Apply(cfg: Config, s: State, ev: Event): State
    requires Enabled(cfg, s, ev)
  {
    match ev
    case Connect =>
      if s.phase == CLOSED || (s.phase == INIT && !s.stop) then
        s.(phase := CONNECTING, stop := false, actor := true, attempt := Starting(true), said := [], reply := [], core := START, unread := [])
      else s
    case HandshakeStart =>
      if HasRoom(s.book.pipe, cfg.hello) then
        s.(book := HelloPush(s.book, cfg.helloReplies, cfg.hello), attempt := Shaking(s.attempt.initial, true))
      else Abandon(s)
    case HandshakeWrite(n) => s.(book := HelloWrite(s.book, n), said := s.said + Offer(s.book.pipe)[..n])
    case HandshakeRead(chunk) =>
      var r := Pump(s.core, s.unread + chunk, cfg.limits);
      Shake(cfg, Told(s, r, chunk), MessagesOf(r.seen.trees), r.seen.error)
    case AttemptFails(e) => if s.attempt.Starting? then Abandon(s) else FailShake(cfg, s, e)
    case CleanUp => CloseNow(cfg, s.(attempt := NoAttempt))
    case EnqueueRequest(wire, targets) => Enqueue(cfg, s, wire, targets)
    case WriteStart => s.(writing := Live, offered := Offered(s.book.pipe.pending[0].waiting.tag, Offer(s.book.pipe)))
    case WriteEnd(n) => s.(writing := Idle, book := Write(s.book, s.offered.data[..n]))
    case WriteFails(aborted) =>
      if aborted && (s.phase == CLOSING || s.phase == CLOSED) then s.(writing := Idle)
      else HandleError(cfg, s.(writing := Idle), ClientError(WriteError))
    case ReadStart => s.(reading := Live)
    case ReadEnd(chunk) =>
      var r := Pump(s.core, s.unread + chunk, cfg.limits);
      HearAll(cfg, s.(reading := Idle, core := r.core, unread := r.unread, book := Record(s.book, chunk)), MessagesOf(r.seen.trees), r.seen.error)
    case ReadEof => HandleError(cfg, s.(reading := Idle), ClientError(ConnectionReset))
    case ReadFails(aborted) =>
      if aborted && (s.phase == CLOSING || s.phase == CLOSED) then s.(reading := Idle)
      else HandleError(cfg, s.(reading := Idle), ClientError(ConnectionLost))
    case Expire => HandleError(cfg, s, ClientError(RequestTimeout))
    case GiveUp => s.(phase := CLOSING, stop := true)
    case Reconnect => s.(phase := RECONNECTING, attempt := Starting(false), said := [], reply := [], core := START, unread := [])
    case Close => CloseNow(cfg, s)
    case ActorExits => Drop(cfg, s, ClientError(ConnectionClosed), CLOSED)
    case ActorThrows => Drop(cfg, s, ClientError(InternalError), CLOSED).(actor := false)
    case ActorReaped => s.(actor := false)
    case Tick(delta) => s.(now := s.now + delta)
  }
}
