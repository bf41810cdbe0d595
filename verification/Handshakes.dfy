/** The handshake of every attempt: what it was told and by whom, and when it opens the connection. */
module Handshakes {
  import opened Bytes
  import opened Kinds
  import opened Lexer
  import opened Parser
  import opened Streaming
  import opened Builder
  import opened Adapter
  import opened Sinks
  import opened Pipeline
  import opened Ledger
  import opened Connection
  import opened Safety
  import opened Replies

  predicate IsErrorReply(m: Message) {
    m.value.SimpleErrorValue? || m.value.BulkErrorValue?
  }

  predicate NoErrorReply(ms: seq<Message>) {
    forall i :: 0 <= i < |ms| ==> !IsErrorReply(ms[i])
  }

  // ----- the handshake's request -----

  function HelloSlots(ms: seq<Message>): (r: seq<Sinks.Slot>)
    ensures |r| == |ms| && forall i :: 0 <= i < |ms| ==> r[i] == SlotFromMessage(ms[i], Ignore)
  {
    seq(|ms|, i requires 0 <= i < |ms| => SlotFromMessage(ms[i], Ignore))
  }

  /** The handshake's request once `ms` have arrived for it. */
  function Greeter(replies: nat, ms: seq<Message>): Waiting {
    Hello(replies).(sink := Sink(Hello(replies).sink.targets, HelloSlots(ms)))
  }

  /** A reply that is ignored is a success unless it is an error. */
  lemma IgnoredSlot(m: Message)
    ensures SlotFromMessage(m, Ignore).Value? <==> !IsErrorReply(m)
    ensures IsErrorReply(m) ==> SlotFromMessage(m, Ignore) == Failed(ServerError(m.value.message))
  {
    assert Visits(m, Ignore) == [Visit([], m, Ignore, None)];
  }

  lemma SlotsTell(ms: seq<Message>)
    ensures FirstError(HelloSlots(ms)).None? <==> NoErrorReply(ms)
    ensures FirstError(HelloSlots(ms)).Some? ==> FirstError(HelloSlots(ms)).value.ServerError?
  {
    hide SlotFromMessage;
    forall i | 0 <= i < |ms|
      ensures HelloSlots(ms)[i].Value? <==> !IsErrorReply(ms[i])
      ensures HelloSlots(ms)[i].Failed? ==> HelloSlots(ms)[i].info.ServerError?
    {
      IgnoredSlot(ms[i]);
    }
  }

  // ----- one read -----

  /** The attempt has failed: `connect` will clean up, the control loop will try again. */
  predicate Over(s: State, r: State)
    requires s.attempt.Shaking?
  {
    r.phase != OPEN && if s.attempt.initial then r.attempt == CleaningUp && r.phase == s.phase else r.attempt == NoAttempt && r.phase == FAILED
  }

  /** How an attempt stands that has been sent `all` and then, perhaps, something malformed. */
  ghost predicate Judged(cfg: Config, s: State, r: State, all: seq<Message>, error: Option<ProtocolError>)
    requires s.attempt.Shaking?
  {
    if |all| >= cfg.helloReplies then
      (if NoErrorReply(all[..cfg.helloReplies]) then r.phase == OPEN && r.attempt == NoAttempt else Over(s, r)) &&
      r.book.settled == s.book.settled + [Greeter(cfg.helloReplies, all[..cfg.helloReplies])]
    else if error.Some? then Over(s, r)
    else r == s.(book := r.book) && r.book.pipe.pending == [] && r.book.pipe.awaiting == [Greeter(cfg.helloReplies, all)]
  }

  ghost predicate AwaitsReplies(cfg: Config, s: State, before: seq<Message>) {
    s.phase != OPEN && s.attempt.Shaking? && |before| < cfg.helloReplies &&
    s.book.pipe.pending == [] && s.book.pipe.awaiting == [Greeter(cfg.helloReplies, before)]
  }

  /** One more reply for the handshake's request. */
  lemma GreeterHears(p: Pipe, replies: nat, before: seq<Message>, m: Message)
    requires p.pending == [] && p.awaiting == [Greeter(replies, before)] && |before| < replies
    ensures
      var d, w := OnMessage(p, m), Greeter(replies, before + [m]);
      if |before| + 1 == replies then d == Delivery(p.(awaiting := []), [w]) else d == Delivery(p.(awaiting := [w]), [])
  {
    hide SlotFromMessage;
    var w := Greeter(replies, before + [m]);
    assert HelloSlots(before + [m]) == HelloSlots(before) + [SlotFromMessage(m, Ignore)];
    assert Accept(p.awaiting[0].sink, m) == w.sink;
    assert p.awaiting[0].(sink := w.sink) == w && p.awaiting[1..] == [] && p.awaiting[0 := w] == [w];
  }

  lemma FailShakeIsOver(cfg: Config, s: State, b: Book, e: ErrorInfo)
    requires s.phase != OPEN && s.attempt.Shaking?
    ensures Over(s, FailShake(cfg, s.(book := b), e)) && Over(s, Abandon(s.(book := b)))
  {
    hide Abort;
  }

  lemma GreetedJudges(cfg: Config, s: State, b: Book, ms: seq<Message>)
    requires s.phase != OPEN && s.attempt.Shaking?
    ensures
      var r := Greeted(cfg, s.(book := b), HelloSlots(ms));
      (if NoErrorReply(ms) then r.phase == OPEN && r.attempt == NoAttempt else Over(s, r)) && r.book.settled == b.settled
  {
    hide FirstError, FailShake, HelloSlots, Over, NoErrorReply;
    SlotsTell(ms);
    FailShakeIsOver(cfg, s, b, ClientError(HandshakeFailed));
  }

  lemma {:induction false} ShakeJudges(cfg: Config, s: State, before: seq<Message>, ms: seq<Message>, error: Option<ProtocolError>)
    requires AwaitsReplies(cfg, s, before)
    ensures Judged(cfg, s, Shake(cfg, s, ms, error), before + ms, error)
    decreases |ms|
  {
    hide OnMessage, FailShake, Greeted, Greeter, HearError, Over, NoErrorReply, HelloSlots;
    if ms == [] {
      assert before + ms == before;
      if error.Some? {
        FailShakeIsOver(cfg, s, HearError(s.book, cfg.hooks, ProtocolFailure(error.value)), ProtocolFailure(error.value));
      }
    } else {
      var m := ms[0];
      GreeterHears(s.book.pipe, cfg.helloReplies, before, m);
      assert before + ms == (before + [m]) + ms[1..];
      var s1 := s.(book := HelloHear(s.book, cfg.hooks, m));
      if |before| + 1 == cfg.helloReplies {
        assert (before + ms)[..cfg.helloReplies] == before + [m];
        GreeterSlots(cfg.helloReplies, before + [m]);
        GreetedJudges(cfg, s, s1.book, before + [m]);
      } else {
        ShakeJudges(cfg, s1, before + [m], ms[1..], error);
        JudgedElsewhere(cfg, s, s1, Shake(cfg, s, ms, error), before + ms, error);
      }
    }
  }

  lemma GreeterSlots(replies: nat, ms: seq<Message>)
    ensures Greeter(replies, ms).sink.slots == HelloSlots(ms)
  {
  }

  lemma JudgedElsewhere(cfg: Config, s: State, s1: State, r: State, all: seq<Message>, error: Option<ProtocolError>)
    requires s.attempt.Shaking? && s1 == s.(book := s1.book) && s1.book.settled == s.book.settled && Judged(cfg, s1, r, all, error)
    ensures Judged(cfg, s, r, all, error)
  {
    hide Greeter, NoErrorReply;
  }

  // ----- every attempt -----

  /** The parser stands where the reads of this attempt, and nothing before them, have brought it. */
  ghost predicate Follows(core: Core, unread: bytes, reply: seq<bytes>, L: Limits) {
    var f := Feed(START, [], reply, L);
    f.core == core && f.unread == unread && f.seen.error.None?
  }

  /** What is still to be written of the handshake's request. */
  function HelloLeft(p: Pipe): bytes {
    if p.pending == [] || p.pending[0].written > |p.pending[0].wire| then [] else p.pending[0].wire[p.pending[0].written..]
  }

  /** An attempt starts from nothing; while it shakes hands, its request holds all the server has said so far. */
  ghost predicate AttemptOk(cfg: Config, s: State) {
    (s.attempt.Starting? ==> s.core == START && s.unread == [] && s.said == [] && s.reply == []) &&
    (s.attempt.Shaking? && s.attempt.live ==>
      s.said + HelloLeft(s.book.pipe) == cfg.hello &&
      Follows(s.core, s.unread, s.reply, cfg.limits) && Line(s.book.pipe) == [Greeter(cfg.helloReplies, Stream(s.reply, cfg.limits))])
  }

  lemma SameAttempt(cfg: Config, s: State, r: State)
    requires AttemptOk(cfg, s) && r.core == s.core && r.unread == s.unread && r.said == s.said && r.reply == s.reply
    requires r.attempt == s.attempt || !(r.attempt.Starting? || (r.attempt.Shaking? && r.attempt.live))
    requires r.attempt.Shaking? && r.attempt.live ==> r.book.pipe == s.book.pipe
    ensures AttemptOk(cfg, r)
  {
    hide Line, Follows, Stream, Greeter;
  }

  lemma NoLiveAttempt(cfg: Config, s: State)
    requires !s.attempt.Starting? && !(s.attempt.Shaking? && s.attempt.live)
    ensures AttemptOk(cfg, s)
  {
  }

  lemma FreshAttempt(cfg: Config, s: State)
    requires s.attempt.Starting? && s.core == START && s.unread == [] && s.said == [] && s.reply == []
    ensures AttemptOk(cfg, s)
  {
  }

  lemma NothingSaid(L: Limits)
    ensures Stream([], L) == [] && Feed(START, [], [], L) == Drained(START, [], Observed([], None))
  {
  }

  lemma StartsGreeting(cfg: Config, s: State)
    requires s.attempt.Starting? && AttemptOk(cfg, s) && Line(s.book.pipe) == []
    ensures AttemptOk(cfg, s.(book := HelloPush(s.book, cfg.helloReplies, cfg.hello), attempt := Shaking(s.attempt.initial, true)))
  {
    NothingSaid(cfg.limits);
    var w := Hello(cfg.helloReplies);
    assert HelloSlots([]) == [] && Greeter(cfg.helloReplies, []) == w;
    PushLine(s.book.pipe, w, cfg.hello);
    assert [] + cfg.hello == cfg.hello;
    hide Line, Stream, Feed, Greeter, HelloLeft;
  }

  lemma PushLine(p: Pipe, w: Waiting, wire: bytes)
    requires Line(p) == []
    ensures Line(Pipeline.Push(p, w, wire)) == [w] && HelloLeft(Pipeline.Push(p, w, wire)) == wire
  {
    assert p.awaiting == [] && p.pending == [] by {
      assert |Line(p)| == |p.awaiting| + |p.pending|;
    }
    assert wire[0..] == wire;
  }

  /** Before a read: whose replies are awaited. */
  lemma ReadsReplies(cfg: Config, s: State)
    requires Control(s) && LedgerOk(cfg, s) && AttemptOk(cfg, s) && s.attempt.Shaking? && s.attempt.live && s.book.pipe.pending == []
    ensures AwaitsReplies(cfg, s, Stream(s.reply, cfg.limits))
  {
    hide Balanced, Follows, Stream, Greeter;
    var p := s.book.pipe;
    assert Line(p) == p.awaiting;
    QuietPipe(s.book, cfg.hooks);
    LineOk(p);
    assert Line(p)[0] == Greeter(cfg.helloReplies, Stream(s.reply, cfg.limits));
    GreeterOpen(cfg.helloReplies, Stream(s.reply, cfg.limits));
  }

  lemma QuietPipe(b: Book, hooks: Hooks)
    requires Balanced(b, hooks, Quiet)
    ensures PipeOk(b.pipe)
  {
    hide PipeOk, AllSound, EpochsOk, IdsOk, OwnersOk, TracesOk;
  }

  lemma GreeterOpen(replies: nat, ms: seq<Message>)
    ensures SinkOk(Greeter(replies, ms).sink) && !Complete(Greeter(replies, ms).sink) ==> |ms| < replies
  {
    hide SlotFromMessage;
  }

  /** What a read adds to what the server said. */
  lemma ReplyGrows(s: State, chunk: bytes, L: Limits)
    requires InRange(s.core) && Follows(s.core, s.unread, s.reply, L)
    ensures
      var r := Pump(s.core, s.unread + chunk, L);
      Stream(s.reply + [chunk], L) == Stream(s.reply, L) + MessagesOf(r.seen.trees) &&
      Feed(START, [], s.reply + [chunk], L).seen.error == r.seen.error &&
      (r.seen.error.None? ==> Follows(r.core, r.unread, s.reply + [chunk], L))
  {
    hide Drain, Feed, MessagesOf;
    FeedSnoc(START, [], s.reply, chunk, L);
    MessagesConcat(Feed(START, [], s.reply, L).seen.trees, Drain(s.core, s.unread + chunk, L).seen.trees);
  }

  /** A read during the handshake is judged by everything the server has said in this attempt. */
  lemma ReplyJudged(cfg: Config, s: State, chunk: bytes)
    requires Control(s) && LedgerOk(cfg, s) && AttemptOk(cfg, s) && InRange(s.core) && Enabled(cfg, s, HandshakeRead(chunk))
    ensures
      var all := s.reply + [chunk];
      Judged(cfg, Told(s, Pump(s.core, s.unread + chunk, cfg.limits), chunk), Apply(cfg, s, HandshakeRead(chunk)),
             Stream(all, cfg.limits), Feed(START, [], all, cfg.limits).seen.error)
  {
    hide LedgerOk, Follows, Stream, Feed, MessagesOf, Pump, Shake, Judged, Greeter, Line;
    var r := Pump(s.core, s.unread + chunk, cfg.limits);
    ReadsReplies(cfg, s);
    ReplyGrows(s, chunk, cfg.limits);
    ShakeJudges(cfg, Told(s, r, chunk), Stream(s.reply, cfg.limits), MessagesOf(r.seen.trees), r.seen.error);
  }

  // ----- every step -----

  lemma ReadAttempt(cfg: Config, s: State, chunk: bytes)
    requires Control(s) && LedgerOk(cfg, s) && AttemptOk(cfg, s) && InRange(s.core) && Enabled(cfg, s, HandshakeRead(chunk))
    ensures AttemptOk(cfg, Apply(cfg, s, HandshakeRead(chunk)))
  {
    hide LedgerOk, Follows, Stream, Feed, MessagesOf, Pump, Shake, Greeter, Apply, Control, Drain, NoErrorReply;
    var r := Apply(cfg, s, HandshakeRead(chunk));
    ReplyJudged(cfg, s, chunk);
    ReplyGrows(s, chunk, cfg.limits);
    if r.attempt.Shaking? {
      assert Line(r.book.pipe) == r.book.pipe.awaiting;
    }
  }

  lemma DropsAttempt(cfg: Config, s: State, ev: Event)
    requires Control(s) && AttemptOk(cfg, s) && Enabled(cfg, s, ev) && IsDrop(ev)
    ensures AttemptOk(cfg, Apply(cfg, s, ev))
  {
    hide AttemptOk, Line, Abort, Expired, HearAll, Shake, FailShake, Abandon, Enqueue, Write, Record, HelloPush, HelloWrite, Pump, MessagesOf, Offer, OffersAtLeast, HasRoom;
    DropsQuietly(cfg, s, ev);
    SameAttempt(cfg, s, Apply(cfg, s, ev));
  }

  lemma TrafficAttempt(cfg: Config, s: State, ev: Event)
    requires Control(s) && AttemptOk(cfg, s) && Enabled(cfg, s, ev) && !IsDrop(ev) && !IsHandshake(ev) && !ev.Connect? && !ev.Reconnect?
    ensures AttemptOk(cfg, Apply(cfg, s, ev))
  {
    hide AttemptOk, Line, Admit, Refuse, Write, Record, HelloPush, HelloWrite, Pump, MessagesOf, Offer, OffersAtLeast, HasRoom, HearAll, Shake, Drop, Expired;
    var r := Apply(cfg, s, ev);
    if s.phase == OPEN {
      NotShaking(cfg, s, ev);
      NoLiveAttempt(cfg, r);
    } else {
      if ev.EnqueueRequest? {
        RefuseLine(s.book, cfg.hooks, ev.targets, RefusalCode(s.phase));
      }
      SameAttempt(cfg, s, r);
    }
  }

  lemma NotShaking(cfg: Config, s: State, ev: Event)
    requires Control(s) && Enabled(cfg, s, ev) && s.phase == OPEN && !ev.Connect? && !ev.Reconnect?
    ensures !Apply(cfg, s, ev).attempt.Starting? && !Apply(cfg, s, ev).attempt.Shaking?
  {
    hide Admit, Refuse, Write, Record, HelloPush, HelloWrite, Pump, MessagesOf, Offer, OffersAtLeast, HasRoom, HearAll, Shake, Abort, Expired;
    if ev.ReadEnd? {
      var p := Pump(s.core, s.unread + ev.chunk, cfg.limits);
      HearAllShape(cfg, s.(reading := Idle, core := p.core, unread := p.unread, book := Record(s.book, ev.chunk)), MessagesOf(p.seen.trees), p.seen.error);
    }
  }

  lemma StartAttempt(cfg: Config, s: State, ev: Event)
    requires Control(s) && LedgerOk(cfg, s) && AttemptOk(cfg, s) && Enabled(cfg, s, ev)
    requires ev.Connect? || ev.Reconnect? || ev.HandshakeStart? || ev.AttemptFails? || ev.HandshakeWrite?
    ensures AttemptOk(cfg, Apply(cfg, s, ev))
  {
    hide AttemptOk, Balanced, Line, Abort, HelloPush, HelloWrite, OffersAtLeast, HasRoom, HearAll, Shake, Pump, MessagesOf, Drop, Enqueue, Write, Record, Offer, Expired;
    var r := Apply(cfg, s, ev);
    match ev
    case HandshakeStart =>
      if HasRoom(s.book.pipe, cfg.hello) {
        StartsGreeting(cfg, s);
      } else {
        NoLiveAttempt(cfg, r);
      }
    case HandshakeWrite(n) =>
      OffersCounted(s.book, cfg.hooks, n);
      WritesHello(cfg, s, n);
    case AttemptFails(_) => NoLiveAttempt(cfg, r);
    case _ =>
      if r.attempt.Starting? && r.said == [] && r.reply == [] && r.core == START && r.unread == [] {
        FreshAttempt(cfg, r);
      } else {
        SameAttempt(cfg, s, r);
      }
  }

  lemma OffersCounted(b: Book, hooks: Hooks, n: nat)
    requires Balanced(b, hooks, Quiet) && OffersAtLeast(b.pipe, n)
    ensures n <= b.pipe.pendingBytes
  {
    hide Balanced, PipeOk;
    QuietPipe(b, hooks);
    OfferCounted(b.pipe, n);
  }

  lemma WritesHello(cfg: Config, s: State, n: nat)
    requires s.attempt.Shaking? && AttemptOk(cfg, s) && OffersAtLeast(s.book.pipe, n) && n <= s.book.pipe.pendingBytes
    ensures AttemptOk(cfg, s.(book := HelloWrite(s.book, n), said := s.said + Offer(s.book.pipe)[..n]))
  {
    hide Line, Follows, Stream, Greeter, HelloLeft;
    WriteLine(s.book.pipe, n);
    if s.attempt.live {
      LineSize(s.book.pipe);
      HelloWritten(s.book.pipe, n, s.said);
    }
  }

  /** What was to be written is what has just been written and what is left. */
  lemma HelloWritten(p: Pipe, n: nat, said: bytes)
    requires OffersAtLeast(p, n) && n <= p.pendingBytes && |p.pending| == 1
    ensures said + HelloLeft(p) == said + Offer(p)[..n] + HelloLeft(WriteDone(p, n))
  {
    var front := p.pending[0];
    var rest := front.wire[front.written..];
    assert rest == rest[..n] + rest[n..];
    assert said + (rest[..n] + rest[n..]) == said + rest[..n] + rest[n..];
    if front.written + n == |front.wire| {
      assert rest[n..] == [];
    } else {
      assert rest[n..] == front.wire[front.written + n..];
    }
  }

  /** Every step keeps this. */
  lemma AttemptKeeps(cfg: Config, s: State, ev: Event)
    requires Control(s) && LedgerOk(cfg, s) && AttemptOk(cfg, s) && HearingOk(cfg, s) && Enabled(cfg, s, ev)
    ensures AttemptOk(cfg, Apply(cfg, s, ev))
  {
    hide Control, LedgerOk, AttemptOk, HearingOk, Apply, Enabled;
    HearingCore(cfg, s);
    if ev.HandshakeRead? {
      ReadAttempt(cfg, s, ev.chunk);
    } else if IsDrop(ev) {
      DropsAttempt(cfg, s, ev);
    } else if IsHandshake(ev) || ev.Connect? || ev.Reconnect? {
      StartAttempt(cfg, s, ev);
    } else {
      TrafficAttempt(cfg, s, ev);
    }
  }
}
