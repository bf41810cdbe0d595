/** What every step of the connection keeps: who may do what in which phase, and the ledger's balance. */
module Safety {
  import opened Bytes
  import opened Kinds
  import opened Parser
  import opened Builder
  import opened Adapter
  import opened Sinks
  import opened Pipeline
  import opened Epochs
  import opened Ledger
  import opened Connection

  // ----- control -----

  predicate Quiescent(s: State) {
    s.reading == Idle && s.writing == Idle
  }

  /** The phase a live attempt works in. */
  function AttemptPhase(a: Attempt): Phase
    requires a.Starting? || a.Shaking?
  {
    if a.initial then CONNECTING else RECONNECTING
  }

  /** Which attempts, flights and actors a phase admits. */
  predicate Control(s: State) {
    (s.phase == INIT ==> !s.actor && !s.stop && s.attempt == NoAttempt) &&
    (s.phase == CONNECTING ==> s.actor && !s.stop && s.attempt != NoAttempt && !ByControlLoop(s.attempt)) &&
    (s.phase == OPEN ==> s.actor && !s.stop && s.attempt == NoAttempt) &&
    (s.phase == FAILED ==> s.actor && s.attempt == NoAttempt) &&
    (s.phase == RECONNECTING ==> s.actor && !s.stop && ByControlLoop(s.attempt)) &&
    (s.phase == CLOSING ==> s.stop) &&
    (s.phase == CLOSED || s.phase == INIT || s.phase == CONNECTING || !s.actor ==> Quiescent(s)) &&
    (s.phase == CLOSED || !s.actor ==> !ByControlLoop(s.attempt)) &&
    (s.reading == Live || s.writing == Live ==> s.phase == OPEN) &&
    (s.attempt.Shaking? && s.attempt.live ==> s.phase == AttemptPhase(s.attempt)) &&
    (s.attempt.Starting? && !s.stop ==> s.phase == AttemptPhase(s.attempt))
  }

  // ----- the shape of the two read steps -----

  /** A runtime read leaves the connection as it was but for the ledger, or fails it. */
  lemma {:induction false} HearAllShape(cfg: Config, s: State, ms: seq<Message>, error: Option<ProtocolError>)
    requires s.phase == OPEN
    ensures
      var r := HearAll(cfg, s, ms, error);
      r == s.(book := r.book) || r == CloseSocket(s.(phase := FAILED, book := r.book))
    decreases |ms|
  {
    hide Hear, HearError, Abort;
    if ms != [] && s.book.pipe.awaiting != [] {
      HearAllShape(cfg, s.(book := Hear(s.book, cfg.hooks, ms[0])), ms[1..], error);
    }
  }

  lemma {:induction false} ShakeShape(cfg: Config, s: State, ms: seq<Message>, error: Option<ProtocolError>)
    requires s.attempt.Shaking?
    ensures ShookTo(s, Shake(cfg, s, ms, error))
    decreases |ms|
  {
    hide HelloHear, HearError, FailShake, Greeted, OnMessage, ShookTo;
    if ms == [] {
      if error.Some? {
        FailShakeShape(cfg, s, HearError(s.book, cfg.hooks, ProtocolFailure(error.value)), ProtocolFailure(error.value));
      } else {
        StillShaking(s, s.book);
      }
    } else if s.book.pipe.awaiting == [] {
      FailShakeShape(cfg, s, s.book, ClientError(UnsolicitedMessage));
    } else {
      var b, d := HelloHear(s.book, cfg.hooks, ms[0]), OnMessage(s.book.pipe, ms[0]);
      if d.settled == [] {
        ShakeShape(cfg, s.(book := b), ms[1..], error);
        ShookSame(s, b, Shake(cfg, s, ms, error));
      } else {
        GreetedShape(cfg, s, b, d.settled[0].sink.slots);
      }
    }
  }

  /** Apart from the ledger: nothing changed, the attempt is over, or the connection is open. */
  predicate ShookTo(s: State, r: State) {
    r == s.(book := r.book) || r == Abandon(s.(book := r.book)) ||
    r == s.(phase := OPEN, attempt := NoAttempt, book := r.book, core := START, unread := [])
  }

  lemma StillShaking(s: State, b: Book)
    ensures ShookTo(s, s.(book := b))
  {
  }

  lemma ShookSame(s: State, b: Book, r: State)
    requires ShookTo(s.(book := b), r)
    ensures ShookTo(s, r)
  {
  }

  lemma FailShakeShape(cfg: Config, s: State, b: Book, e: ErrorInfo)
    ensures ShookTo(s, FailShake(cfg, s.(book := b), e))
  {
    hide Abort;
  }

  lemma GreetedShape(cfg: Config, s: State, b: Book, slots: seq<Sinks.Slot>)
    ensures ShookTo(s, Greeted(cfg, s.(book := b), slots))
  {
    hide Begin, FirstError, FailShake;
    FailShakeShape(cfg, s, b, ClientError(HandshakeFailed));
  }

  lemma ReadControl(cfg: Config, s: State, ms: seq<Message>, error: Option<ProtocolError>)
    requires Control(s) && s.phase == OPEN
    ensures Control(HearAll(cfg, s, ms, error))
  {
    hide HearAll;
    HearAllShape(cfg, s, ms, error);
  }

  lemma ShakeControl(cfg: Config, s: State, ms: seq<Message>, error: Option<ProtocolError>)
    requires Control(s) && s.attempt.Shaking? && s.attempt.live
    ensures Control(Shake(cfg, s, ms, error))
  {
    hide Shake;
    ShakeShape(cfg, s, ms, error);
  }

  lemma DropsControl(cfg: Config, s: State, ev: Event)
    requires Control(s) && Enabled(cfg, s, ev) && IsDrop(ev)
    ensures Control(Apply(cfg, s, ev))
  {
    hide HearAll, Shake, FailShake, Abandon, Abort, Enqueue, Write, Record, HelloPush, HelloWrite, Pump, MessagesOf, HasRoom, OffersAtLeast, Expired, Offer;
  }

  lemma OtherControl(cfg: Config, s: State, ev: Event)
    requires Control(s) && Enabled(cfg, s, ev) && !ev.HandshakeRead? && !ev.ReadEnd? && !IsDrop(ev)
    ensures Control(Apply(cfg, s, ev))
  {
    hide HearAll, Shake, Abort, Admit, Refuse, Write, Record, HelloPush, HelloWrite, Pump, MessagesOf, HasRoom, OffersAtLeast, Expired, Offer, Drop, HandleError, CloseNow;
  }

  lemma ControlKeeps(cfg: Config, s: State, ev: Event)
    requires Control(s) && Enabled(cfg, s, ev)
    ensures Control(Apply(cfg, s, ev))
  {
    hide HearAll, Shake, Record, Pump, MessagesOf;
    if ev.HandshakeRead? {
      var r := Pump(s.core, s.unread + ev.chunk, cfg.limits);
      ShakeControl(cfg, Told(s, r, ev.chunk), MessagesOf(r.seen.trees), r.seen.error);
    } else if ev.ReadEnd? {
      var r := Pump(s.core, s.unread + ev.chunk, cfg.limits);
      ReadControl(cfg, s.(reading := Idle, core := r.core, unread := r.unread, book := Record(s.book, ev.chunk)), MessagesOf(r.seen.trees), r.seen.error);
    } else if IsDrop(ev) {
      DropsControl(cfg, s, ev);
    } else {
      OtherControl(cfg, s, ev);
    }
  }

  /** `handle_error` is never called before the connection has been open: nothing is in flight then. */
  lemma ErrorsOnlyAfterOpen(cfg: Config, s: State, ev: Event)
    requires Control(s) && Enabled(cfg, s, ev)
    requires ev.WriteFails? || ev.ReadFails? || ev.ReadEof? || ev.ReadEnd? || ev.Expire?
    ensures s.phase != INIT && s.phase != CONNECTING
  {
  }

  // ----- the ledger -----

  function ModeOf(s: State): Mode {
    if s.phase == OPEN then Serving else Quiet
  }

  /** Only the handshake of a live attempt may have a request in the pipeline while it is not open. */
  predicate Gate(s: State) {
    s.phase != OPEN ==>
      |Line(s.book.pipe)| <= 1 && (Line(s.book.pipe) != [] ==> s.attempt.Shaking? && s.attempt.live)
  }

  ghost predicate LedgerOk(cfg: Config, s: State) {
    Balanced(s.book, cfg.hooks, ModeOf(s)) && Gate(s)
  }

  /** What the write in flight was offered is still what the pipeline offers, from the same request. */
  predicate OfferHeld(s: State) {
    s.writing == Live ==>
      OffersAtLeast(s.book.pipe, 0) && s.book.pipe.pending[0].waiting.tag == s.offered.tag && Offer(s.book.pipe) == s.offered.data
  }

  lemma DropLedger(cfg: Config, s: State, e: ErrorInfo, phase: Phase)
    requires Balanced(s.book, cfg.hooks, ModeOf(s)) && ClientSide(e) && phase != OPEN
    ensures LedgerOk(cfg, Drop(cfg, s, e, phase)) && Line(Drop(cfg, s, e, phase).book.pipe) == []
  {
    hide Balanced, Line, Abort;
    AbortBalanced(s.book, cfg.hooks, ModeOf(s), e);
  }

  lemma ErrorLedger(cfg: Config, s: State, e: ErrorInfo)
    requires LedgerOk(cfg, s) && ClientSide(e)
    ensures LedgerOk(cfg, HandleError(cfg, s, e))
  {
    hide Balanced, Line, Abort, Drop;
    if s.phase == OPEN {
      DropLedger(cfg, s, e, FAILED);
    }
  }

  lemma CollapseLedger(cfg: Config, s: State, e: ProtocolError)
    requires Balanced(s.book, cfg.hooks, Serving) && s.phase == OPEN
    ensures LedgerOk(cfg, HandleError(cfg, s.(book := HearError(s.book, cfg.hooks, ProtocolFailure(e))), ProtocolFailure(e)))
  {
    hide Balanced, Line, Abort, HearError;
    var b := HearError(s.book, cfg.hooks, ProtocolFailure(e));
    ServingFails(s.book, cfg.hooks);
    ErrorBalanced(s.book, cfg.hooks, ProtocolFailure(e));
    AbortBalanced(b, cfg.hooks, Failing, ProtocolFailure(e));
  }

  lemma {:induction false} HearAllLedger(cfg: Config, s: State, ms: seq<Message>, error: Option<ProtocolError>)
    requires Balanced(s.book, cfg.hooks, Serving) && s.phase == OPEN
    ensures LedgerOk(cfg, HearAll(cfg, s, ms, error))
    decreases |ms|
  {
    hide Balanced, Line, Hear, HearError, HandleError;
    if ms == [] {
      if error.Some? {
        CollapseLedger(cfg, s, error.value);
      }
    } else if s.book.pipe.awaiting == [] {
      ErrorLedger(cfg, s, ClientError(UnsolicitedMessage));
    } else {
      HearBalanced(s.book, cfg.hooks, ms[0]);
      HearAllLedger(cfg, s.(book := Hear(s.book, cfg.hooks, ms[0])), ms[1..], error);
    }
  }

  /** In the middle of a handshake: its own request, or nothing, is in line. */
  ghost predicate Greeting(cfg: Config, s: State) {
    s.phase != OPEN && s.attempt.Shaking? && s.attempt.live && Balanced(s.book, cfg.hooks, Quiet) && |Line(s.book.pipe)| <= 1
  }

  lemma FailShakeLedger(cfg: Config, s: State, e: ErrorInfo)
    requires s.phase != OPEN && Balanced(s.book, cfg.hooks, Quiet)
    ensures LedgerOk(cfg, FailShake(cfg, s, e))
  {
    hide Balanced, Line, Abort;
    AbortQuiet(s.book, cfg.hooks, e);
  }

  lemma GreetedLedger(cfg: Config, s: State, slots: seq<Sinks.Slot>)
    requires Greeting(cfg, s) && Line(s.book.pipe) == []
    ensures LedgerOk(cfg, Greeted(cfg, s, slots))
  {
    hide Balanced, Line, Abort, Begin, FirstError, FailShake;
    BeginBalanced(s.book, cfg.hooks);
    FailShakeLedger(cfg, s, ClientError(HandshakeFailed));
  }

  lemma {:induction false} ShakeLedger(cfg: Config, s: State, ms: seq<Message>, error: Option<ProtocolError>)
    requires Greeting(cfg, s)
    ensures LedgerOk(cfg, Shake(cfg, s, ms, error))
    decreases |ms|
  {
    hide Balanced, Line, HelloHear, HearError, FailShake, Greeted, OnMessage;
    if ms == [] {
      if error.Some? {
        HelloErrorBalanced(s.book, cfg.hooks, ProtocolFailure(error.value));
        FailShakeLedger(cfg, s.(book := HearError(s.book, cfg.hooks, ProtocolFailure(error.value))), ProtocolFailure(error.value));
      }
    } else if s.book.pipe.awaiting == [] {
      FailShakeLedger(cfg, s, ClientError(UnsolicitedMessage));
    } else {
      ShakeOnce(cfg, s, ms[0]);
      var d := OnMessage(s.book.pipe, ms[0]);
      var s1 := s.(book := HelloHear(s.book, cfg.hooks, ms[0]));
      if d.settled == [] {
        ShakeLedger(cfg, s1, ms[1..], error);
      } else {
        GreetedLedger(cfg, s1, d.settled[0].sink.slots);
      }
    }
  }

  lemma ShakeOnce(cfg: Config, s: State, m: Message)
    requires Greeting(cfg, s) && s.book.pipe.awaiting != []
    ensures
      var s1 := s.(book := HelloHear(s.book, cfg.hooks, m));
      Greeting(cfg, s1) && (OnMessage(s.book.pipe, m).settled != [] ==> Line(s1.book.pipe) == [])
  {
    hide Balanced, Line, OnMessage;
    HelloHearBalanced(s.book, cfg.hooks, m);
  }

  /** The handshake always sends at least one command. */
  predicate ConfigOk(cfg: Config) {
    cfg.helloReplies >= 1
  }

  predicate IsDrop(ev: Event) {
    ev.CleanUp? || ev.WriteFails? || ev.ReadEof? || ev.ReadFails? || ev.Expire? || ev.Close? || ev.ActorExits? || ev.ActorThrows?
  }

  predicate IsHandshake(ev: Event) {
    ev.HandshakeStart? || ev.HandshakeWrite? || ev.HandshakeRead? || ev.AttemptFails?
  }

  predicate IsTraffic(ev: Event) {
    ev.EnqueueRequest? || ev.WriteEnd? || ev.ReadEnd?
  }

  lemma CloseLedger(cfg: Config, s: State)
    requires Balanced(s.book, cfg.hooks, ModeOf(s)) && (s.phase == CLOSED ==> Line(s.book.pipe) == [])
    ensures LedgerOk(cfg, CloseNow(cfg, s))
  {
    hide Balanced, Line, Drop;
    if s.phase != CLOSED {
      DropLedger(cfg, s.(stop := true), ClientError(ConnectionClosed), CLOSING);
    }
  }

  lemma DropsLedger(cfg: Config, s: State, ev: Event)
    requires Control(s) && LedgerOk(cfg, s) && Enabled(cfg, s, ev) && IsDrop(ev)
    ensures LedgerOk(cfg, Apply(cfg, s, ev))
  {
    hide Balanced, Line, Abort, Drop, HandleError, CloseNow, Expired, HearAll, Shake, FailShake, Abandon, Enqueue, Write, Record, HelloPush, HelloWrite, Pump, MessagesOf, Offer;
    match ev
    case CleanUp => CloseLedger(cfg, s.(attempt := NoAttempt));
    case WriteFails(_) => ErrorLedger(cfg, s.(writing := Idle), ClientError(WriteError));
    case ReadEof => ErrorLedger(cfg, s.(reading := Idle), ClientError(ConnectionReset));
    case ReadFails(_) => ErrorLedger(cfg, s.(reading := Idle), ClientError(ConnectionLost));
    case Expire => ErrorLedger(cfg, s, ClientError(RequestTimeout));
    case Close => CloseLedger(cfg, s);
    case ActorExits => DropLedger(cfg, s, ClientError(ConnectionClosed), CLOSED);
    case ActorThrows => DropLedger(cfg, s, ClientError(InternalError), CLOSED);
  }

  lemma HandshakeLedger(cfg: Config, s: State, ev: Event)
    requires ConfigOk(cfg) && Control(s) && LedgerOk(cfg, s) && Enabled(cfg, s, ev) && IsHandshake(ev)
    ensures LedgerOk(cfg, Apply(cfg, s, ev))
  {
    hide Balanced, Line, Abort, Shake, FailShake, HelloPush, HelloWrite, Pump, MessagesOf, HasRoom, OffersAtLeast;
    match ev
    case HandshakeStart =>
      if HasRoom(s.book.pipe, cfg.hello) {
        HelloPushBalanced(s.book, cfg.hooks, cfg.helloReplies, cfg.hello);
      }
    case HandshakeWrite(n) => HelloWriteBalanced(s.book, cfg.hooks, n);
    case HandshakeRead(chunk) =>
      var r := Pump(s.core, s.unread + chunk, cfg.limits);
      ShakeLedger(cfg, Told(s, r, chunk), MessagesOf(r.seen.trees), r.seen.error);
    case AttemptFails(e) => FailShakeLedger(cfg, s, e);
  }

  lemma TrafficLedger(cfg: Config, s: State, ev: Event)
    requires Control(s) && LedgerOk(cfg, s) && OfferHeld(s) && Enabled(cfg, s, ev) && IsTraffic(ev)
    ensures LedgerOk(cfg, Apply(cfg, s, ev))
  {
    hide Balanced, Line, HearAll, Admit, Refuse, Write, Record, Pump, MessagesOf, HasRoom;
    match ev
    case EnqueueRequest(wire, targets) =>
      if s.phase == OPEN && HasRoom(s.book.pipe, wire) {
        AdmitKeeps(s.book, cfg.hooks, targets, wire, Deadline(cfg, s.now));
      } else {
        RefuseKeeps(s.book, cfg.hooks, ModeOf(s), targets, RefusalCode(s.phase));
        RefuseLine(s.book, cfg.hooks, targets, RefusalCode(s.phase));
      }
    case WriteEnd(n) => WriteBalanced(s.book, cfg.hooks, n);
    case ReadEnd(chunk) =>
      var r := Pump(s.core, s.unread + chunk, cfg.limits);
      RecordBalanced(s.book, cfg.hooks, chunk);
      HearAllLedger(cfg, s.(reading := Idle, core := r.core, unread := r.unread, book := Record(s.book, chunk)), MessagesOf(r.seen.trees), r.seen.error);
  }

  lemma RefuseLine(b: Book, hooks: Hooks, targets: seq<Target>, code: ClientCode)
    ensures Refuse(b, hooks, targets, code).pipe == b.pipe
  {
  }

  lemma LedgerKeeps(cfg: Config, s: State, ev: Event)
    requires ConfigOk(cfg) && Control(s) && LedgerOk(cfg, s) && OfferHeld(s) && Enabled(cfg, s, ev)
    ensures LedgerOk(cfg, Apply(cfg, s, ev))
  {
    if IsDrop(ev) {
      DropsLedger(cfg, s, ev);
    } else if IsHandshake(ev) {
      HandshakeLedger(cfg, s, ev);
    } else if IsTraffic(ev) {
      TrafficLedger(cfg, s, ev);
    } else {
      OtherLedger(cfg, s, ev);
    }
  }

  lemma OtherLedger(cfg: Config, s: State, ev: Event)
    requires Control(s) && LedgerOk(cfg, s) && Enabled(cfg, s, ev) && !IsDrop(ev) && !IsHandshake(ev) && !IsTraffic(ev)
    ensures LedgerOk(cfg, Apply(cfg, s, ev))
  {
    hide Balanced, Line, OffersAtLeast, Offer;
  }

  // ----- write credit -----

  lemma {:induction false} HearAllPending(cfg: Config, s: State, ms: seq<Message>, error: Option<ProtocolError>)
    requires s.phase == OPEN && HearAll(cfg, s, ms, error).phase == OPEN
    ensures HearAll(cfg, s, ms, error).book.pipe.pending == s.book.pipe.pending
    decreases |ms|
  {
    hide Abort, Accept;
    if ms != [] && s.book.pipe.awaiting != [] {
      HearAllPending(cfg, s.(book := Hear(s.book, cfg.hooks, ms[0])), ms[1..], error);
    }
  }

  lemma ReadOffer(cfg: Config, s: State, ms: seq<Message>, error: Option<ProtocolError>)
    requires OfferHeld(s) && s.phase == OPEN
    ensures OfferHeld(HearAll(cfg, s, ms, error))
  {
    hide HearAll;
    HearAllShape(cfg, s, ms, error);
    if HearAll(cfg, s, ms, error).phase == OPEN {
      HearAllPending(cfg, s, ms, error);
    }
  }

  lemma ShakeOffer(cfg: Config, s: State, ms: seq<Message>, error: Option<ProtocolError>)
    requires Control(s) && s.attempt.Shaking? && s.attempt.live
    ensures OfferHeld(Shake(cfg, s, ms, error))
  {
    hide Shake;
    ShakeShape(cfg, s, ms, error);
  }

  lemma OtherOffer(cfg: Config, s: State, ev: Event)
    requires Control(s) && OfferHeld(s) && Enabled(cfg, s, ev) && !ev.HandshakeRead? && !ev.ReadEnd? && !ev.EnqueueRequest?
    ensures OfferHeld(Apply(cfg, s, ev))
  {
    hide HearAll, Shake, Abort, Write, Enqueue, Record, Pump, MessagesOf, Expired, HelloWrite, HelloPush, Begin, HasRoom;
  }

  lemma EnqueueOffer(cfg: Config, s: State, wire: bytes, targets: seq<Target>)
    requires OfferHeld(s)
    ensures OfferHeld(Enqueue(cfg, s, wire, targets))
  {
    hide Refuse;
    RefuseLine(s.book, cfg.hooks, targets, RefusalCode(s.phase));
  }

  /** Reads, requests and timeouts leave the offered request at the front of the queue. */
  lemma OfferKeeps(cfg: Config, s: State, ev: Event)
    requires Control(s) && OfferHeld(s) && Enabled(cfg, s, ev)
    ensures OfferHeld(Apply(cfg, s, ev))
  {
    hide HearAll, Shake, Pump, MessagesOf, Offer, Enqueue;
    if ev.HandshakeRead? {
      var r := Pump(s.core, s.unread + ev.chunk, cfg.limits);
      ShakeOffer(cfg, Told(s, r, ev.chunk), MessagesOf(r.seen.trees), r.seen.error);
    } else if ev.ReadEnd? {
      var r := Pump(s.core, s.unread + ev.chunk, cfg.limits);
      ReadOffer(cfg, s.(reading := Idle, core := r.core, unread := r.unread, book := Record(s.book, ev.chunk)), MessagesOf(r.seen.trees), r.seen.error);
    } else if ev.EnqueueRequest? {
      EnqueueOffer(cfg, s, ev.wire, ev.targets);
    } else {
      OtherOffer(cfg, s, ev);
    }
  }

  /** The next `n` bytes of the front request are the first `n` that were offered from it. */
  predicate Credited(s: State, n: nat) {
    OffersAtLeast(s.book.pipe, n) && n <= |s.offered.data| &&
    var front := s.book.pipe.pending[0];
    s.phase == OPEN && front.waiting.tag == s.offered.tag && s.offered.tag.User? &&
    s.offered.data[..n] == front.wire[front.written..front.written + n] && n <= s.book.pipe.pendingBytes
  }

  /** So a completed write is credited to the request whose bytes were offered, and fits what it has left. */
  lemma WriteCredit(cfg: Config, s: State, n: nat)
    requires Control(s) && OfferHeld(s) && LedgerOk(cfg, s) && Enabled(cfg, s, WriteEnd(n))
    ensures Credited(s, n)
  {
    hide Balanced, Books, PipeOk, Line, OfGen;
    var p, gen := s.book.pipe, |s.book.gens| - 1;
    ServingBooks(s.book, cfg.hooks);
    BooksGen(p, s.book.gens[gen], gen);
    PendingGen(p, gen);
    OfferCounted(p, n);
  }

  lemma ServingBooks(b: Book, hooks: Hooks)
    requires Balanced(b, hooks, Serving)
    ensures b.gens != [] && Books(b.pipe, b.gens[|b.gens| - 1], |b.gens| - 1)
  {
    hide Books, AllSound, EpochsOk, IdsOk, TracesOk;
  }

  lemma PendingGen(p: Pipe, gen: nat)
    requires OfGen(Line(p), gen) && p.pending != []
    ensures p.pending[0].waiting.tag.User?
  {
    assert Line(p)[|p.awaiting|] == p.pending[0].waiting;
  }

  // ----- the configured limits -----

  /** The pipeline works with the limits it was configured with. */
  predicate Configured(cfg: Config, s: State) {
    s.book.pipe.maxRequests == cfg.maxRequests && s.book.pipe.maxBytes == cfg.maxBytes
  }

  predicate SameLimits(p: Pipe, q: Pipe) {
    p.maxRequests == q.maxRequests && p.maxBytes == q.maxBytes
  }

  lemma BookLimits(b: Book, hooks: Hooks, e: ErrorInfo, m: Message)
    ensures SameLimits(b.pipe, Abort(b, hooks, e).pipe) && SameLimits(b.pipe, HearError(b, hooks, e).pipe)
    ensures b.pipe.awaiting != [] ==> SameLimits(b.pipe, Hear(b, hooks, m).pipe) && SameLimits(b.pipe, HelloHear(b, hooks, m).pipe)
  {
    hide Summaries, Pipeline.Fail, Accept, AcceptError;
  }

  lemma {:induction false} HearAllLimits(cfg: Config, s: State, ms: seq<Message>, error: Option<ProtocolError>)
    requires Configured(cfg, s)
    ensures Configured(cfg, HearAll(cfg, s, ms, error))
    decreases |ms|
  {
    hide Hear, HearError, Abort;
    if ms == [] {
      if error.Some? {
        BookLimits(s.book, cfg.hooks, ProtocolFailure(error.value), NOTHING);
        BookLimits(HearError(s.book, cfg.hooks, ProtocolFailure(error.value)), cfg.hooks, ProtocolFailure(error.value), NOTHING);
      }
    } else {
      BookLimits(s.book, cfg.hooks, ClientError(UnsolicitedMessage), ms[0]);
      if s.book.pipe.awaiting != [] {
        HearAllLimits(cfg, s.(book := Hear(s.book, cfg.hooks, ms[0])), ms[1..], error);
      }
    }
  }

  lemma FailShakeLimits(cfg: Config, s: State, e: ErrorInfo)
    requires Configured(cfg, s)
    ensures Configured(cfg, FailShake(cfg, s, e))
  {
    hide Abort;
    BookLimits(s.book, cfg.hooks, e, NOTHING);
  }

  lemma {:induction false} ShakeLimits(cfg: Config, s: State, ms: seq<Message>, error: Option<ProtocolError>)
    requires Configured(cfg, s)
    ensures Configured(cfg, Shake(cfg, s, ms, error))
    decreases |ms|
  {
    hide HelloHear, HearError, FailShake, OnMessage, FirstError;
    if ms == [] {
      if error.Some? {
        var e := ProtocolFailure(error.value);
        BookLimits(s.book, cfg.hooks, e, NOTHING);
        FailShakeLimits(cfg, s.(book := HearError(s.book, cfg.hooks, e)), e);
      }
    } else if s.book.pipe.awaiting == [] {
      FailShakeLimits(cfg, s, ClientError(UnsolicitedMessage));
    } else {
      var s1 := s.(book := HelloHear(s.book, cfg.hooks, ms[0]));
      BookLimits(s.book, cfg.hooks, ClientError(HandshakeFailed), ms[0]);
      FailShakeLimits(cfg, s1, ClientError(HandshakeFailed));
      if OnMessage(s.book.pipe, ms[0]).settled == [] {
        ShakeLimits(cfg, s1, ms[1..], error);
      }
    }
  }

  lemma FallLimits(cfg: Config, s: State, e: ErrorInfo)
    requires Configured(cfg, s)
    ensures Configured(cfg, HandleError(cfg, s, e)) && Configured(cfg, CloseNow(cfg, s)) && Configured(cfg, Drop(cfg, s, e, CLOSED))
  {
    hide Abort;
    BookLimits(s.book, cfg.hooks, e, NOTHING);
    BookLimits(s.book, cfg.hooks, ClientError(ConnectionClosed), NOTHING);
  }

  lemma DropsLimits(cfg: Config, s: State, ev: Event)
    requires Configured(cfg, s) && Enabled(cfg, s, ev) && IsDrop(ev)
    ensures Configured(cfg, Apply(cfg, s, ev))
  {
    hide HandleError, CloseNow, Drop, Expired, HearAll, Shake, FailShake, Abandon, Enqueue, Write, Record, HelloPush, HelloWrite, Pump, MessagesOf, Offer;
    match ev
    case CleanUp => FallLimits(cfg, s.(attempt := NoAttempt), ServerError([]));
    case WriteFails(_) => FallLimits(cfg, s.(writing := Idle), ClientError(WriteError));
    case ReadEof => FallLimits(cfg, s.(reading := Idle), ClientError(ConnectionReset));
    case ReadFails(_) => FallLimits(cfg, s.(reading := Idle), ClientError(ConnectionLost));
    case Expire => FallLimits(cfg, s, ClientError(RequestTimeout));
    case Close => FallLimits(cfg, s, ServerError([]));
    case ActorExits => FallLimits(cfg, s, ClientError(ConnectionClosed));
    case ActorThrows => FallLimits(cfg, s, ClientError(InternalError));
  }

  lemma OtherLimits(cfg: Config, s: State, ev: Event)
    requires Configured(cfg, s) && Enabled(cfg, s, ev) && !IsDrop(ev) && !ev.HandshakeRead? && !ev.ReadEnd?
    ensures Configured(cfg, Apply(cfg, s, ev))
  {
    hide HearAll, Shake, FailShake, Drop, HasRoom, OffersAtLeast, Expired, Pump, MessagesOf, Offer, Summaries, FailAll;
    if ev.AttemptFails? {
      FailShakeLimits(cfg, s, ev.error);
    }
  }

  /** No step changes the limits. */
  lemma ConfiguredKeeps(cfg: Config, s: State, ev: Event)
    requires Configured(cfg, s) && Enabled(cfg, s, ev)
    ensures Configured(cfg, Apply(cfg, s, ev))
  {
    hide HearAll, Shake, Pump, MessagesOf;
    if ev.HandshakeRead? {
      var r := Pump(s.core, s.unread + ev.chunk, cfg.limits);
      ShakeLimits(cfg, Told(s, r, ev.chunk), MessagesOf(r.seen.trees), r.seen.error);
    } else if ev.ReadEnd? {
      var r := Pump(s.core, s.unread + ev.chunk, cfg.limits);
      HearAllLimits(cfg, s.(reading := Idle, core := r.core, unread := r.unread, book := Record(s.book, ev.chunk)), MessagesOf(r.seen.trees), r.seen.error);
    } else if IsDrop(ev) {
      DropsLimits(cfg, s, ev);
    } else {
      OtherLimits(cfg, s, ev);
    }
  }
}
