/** A run that gets somewhere: the connection opens, accepts a request and delivers its reply. */
module FirstReply {
  import opened Bytes
  import opened Kinds
  import opened Lexer
  import opened Parser
  import opened Streaming
  import opened Builder
  import opened Wire
  import opened RoundTrip
  import opened Messages
  import opened Adapter
  import opened Sinks
  import opened Pipeline
  import opened Epochs
  import opened Ledger
  import opened Connection
  import opened Runs

  /** `+OK` on the wire. */
  const OK: bytes := [43, 79, 75, 13, 10]

  const OK_WIRE := Wire([], Line(SimpleString, [79, 75]))

  const OK_MESSAGE := Message(SimpleStringValue([79, 75]), None)

  lemma OkEncodes(L: Limits)
    requires L.maxLineBytes >= 2
    ensures AllWellFormed([OK_WIRE], L) && EncodeAll([OK_WIRE]) == OK && Encode(OK_WIRE) + [] == OK
    ensures Faithful(OK_WIRE) && Msg(OK_WIRE, L) == OK_MESSAGE
  {
    assert EncodeGroups([]) == [] && EncodeBody(OK_WIRE.body) == OK;
    assert Encode(OK_WIRE) == OK;
    assert [OK_WIRE][1..] == [] && EncodeAll([]) == [];
    assert MsgGroups([], L) == [];
  }

  /** Reading `+OK` gives that one message. */
  lemma OkRead(L: Limits)
    requires L.maxLineBytes >= 2
    ensures
      var r := Pump(START, [] + OK, L);
      r.seen.error == None && MessagesOf(r.seen.trees) == [OK_MESSAGE]
  {
    hide Drain, Lay, Build, Msg, WellFormed, Faithful, Encode, EncodeAll, Run;
    OkEncodes(L);
    assert AllWellFormed([OK_WIRE], L) && [OK_WIRE][0] == OK_WIRE;
    DrainValues([OK_WIRE], L);
    FramingNeverSlips(OK_WIRE, [], L);
    RoundTripExact(OK_WIRE, [], L);
    ParsedIndex(OK_WIRE, L);
    assert [] + OK == OK;
  }

  /** One command in the handshake, and room for it and for one request. */
  predicate Roomy(cfg: Config, wire: bytes) {
    cfg.helloReplies == 1 && cfg.maxRequests >= 1 && |cfg.hello| <= cfg.maxBytes && |wire| <= cfg.maxBytes && cfg.limits.maxLineBytes >= 2
  }

  // ----- step by step -----

  predicate Greets(cfg: Config, s: State) {
    s.phase == CONNECTING && s.attempt == Shaking(true, true) && s.core == START && s.unread == [] &&
    s.book == Book(Pipe([], [Hello(1)], 0, cfg.maxRequests, cfg.maxBytes), 0, [], [], [], []) &&
    s.reading == Idle && s.writing == Idle
  }

  lemma Connects(cfg: Config, wire: bytes, now: int) returns (s: State)
    requires Roomy(cfg, wire)
    ensures Reachable(cfg, s) && Greets(cfg, s)
  {
    var s0 := Initially(cfg, now);
    ReachableStart(cfg, now);
    hide Reachable;
    var s1 := Apply(cfg, s0, Connect);
    ReachableNext(cfg, s0, Connect);
    var s2 := Apply(cfg, s1, HandshakeStart);
    ReachableNext(cfg, s1, HandshakeStart);
    s := Apply(cfg, s2, HandshakeWrite(|cfg.hello|));
    ReachableNext(cfg, s2, HandshakeWrite(|cfg.hello|));
  }

  predicate Ready(cfg: Config, s: State) {
    s.phase == OPEN && s.core == START && s.unread == [] && s.reading == Idle && s.writing == Idle &&
    s.book.pipe == Empty(cfg.maxRequests, cfg.maxBytes) && s.book.gens == [NEW_EPOCH] && s.book.issued == 0
  }

  lemma Opens(cfg: Config, wire: bytes, s: State) returns (r: State)
    requires Roomy(cfg, wire) && Reachable(cfg, s) && Greets(cfg, s)
    ensures Reachable(cfg, r) && Ready(cfg, r)
  {
    hide Reachable, Pump, MessagesOf;
    r := Apply(cfg, s, HandshakeRead(OK));
    ReachableNext(cfg, s, HandshakeRead(OK));
    OkRead(cfg.limits);
    OkGreets(cfg, Told(s, Pump(START, [] + OK, cfg.limits), OK));
  }

  lemma OkGreets(cfg: Config, s: State)
    requires s.book == Book(Pipe([], [Hello(1)], 0, cfg.maxRequests, cfg.maxBytes), 0, [], [], [], [])
    requires s.phase == CONNECTING && s.attempt == Shaking(true, true) && s.reading == Idle && s.writing == Idle
    ensures Ready(cfg, Shake(cfg, s, [OK_MESSAGE], None))
  {
    hide OnMessage, SlotFromMessage, Visits, FirstError;
    OkSlots();
    LastReply(s.book.pipe, Hello(1), OK_MESSAGE);
    NoErrors(Ignored);
  }

  lemma OkSlots()
    ensures SlotFromMessage(OK_MESSAGE, Ignore) == Value(Ignored) && SlotFromMessage(OK_MESSAGE, String) == Value(Text([79, 75]))
  {
  }

  lemma NoErrors(v: Adapted)
    ensures FirstError([Value(v)]) == None
  {
  }

  /** The only reply a request expects completes it. */
  lemma LastReply(p: Pipe, w: Waiting, m: Message)
    requires p.awaiting == [w] && |w.sink.targets| == 1 && w.sink.slots == []
    ensures
      var w' := w.(sink := Sink(w.sink.targets, [SlotFromMessage(m, w.sink.targets[0])]));
      OnMessage(p, m) == Delivery(p.(awaiting := []), [w'])
  {
    hide SlotFromMessage;
    var slot := SlotFromMessage(m, w.sink.targets[0]);
    assert Accept(w.sink, m).slots == [slot];
    assert p.awaiting[1..] == [];
    assert w.(sink := Accept(w.sink, m)) == w.(sink := Sink(w.sink.targets, [slot]));
  }

  /** The first request: slot 0 of generation 0, to be read as a string. */
  function Asked(cfg: Config, now: int): Waiting {
    Waiting(User(0, 0, 0), Sink([String], []), Deadline(cfg, now))
  }

  predicate HasSent(cfg: Config, s: State, w: Waiting) {
    s.phase == OPEN && s.core == START && s.unread == [] && s.reading == Idle && s.writing == Idle &&
    s.book.pipe == Pipe([], [w], 0, cfg.maxRequests, cfg.maxBytes) && |s.book.gens| == 1
  }

  predicate Asking(cfg: Config, s: State, w: Waiting, wire: bytes) {
    s.phase == OPEN && s.core == START && s.unread == [] && s.reading == Idle && s.writing == Idle &&
    s.book.pipe == Pipe([PendingItem(w, wire, 0)], [], |wire|, cfg.maxRequests, cfg.maxBytes) && |s.book.gens| == 1
  }

  lemma Asks(cfg: Config, wire: bytes, s: State) returns (r: State)
    requires Roomy(cfg, wire) && Reachable(cfg, s) && Ready(cfg, s)
    ensures Reachable(cfg, r) && Asking(cfg, r, Asked(cfg, s.now), wire)
  {
    hide Reachable;
    r := Apply(cfg, s, EnqueueRequest(wire, [String]));
    ReachableNext(cfg, s, EnqueueRequest(wire, [String]));
  }

  lemma Sends(cfg: Config, wire: bytes, s: State, w: Waiting) returns (r: State)
    requires Reachable(cfg, s) && Asking(cfg, s, w, wire)
    ensures Reachable(cfg, r) && HasSent(cfg, r, w)
  {
    hide Reachable, HearAll, Shake, Pump, MessagesOf, Drop;
    var s1 := Apply(cfg, s, WriteStart);
    ReachableNext(cfg, s, WriteStart);
    assert s1.offered.data == wire && wire[..|wire|] == wire;
    r := Apply(cfg, s1, WriteEnd(|wire|));
    ReachableNext(cfg, s1, WriteEnd(|wire|));
    WholeWrite(s1.book, w, wire);
  }

  lemma WholeWrite(b: Book, w: Waiting, wire: bytes)
    requires b.pipe.pending == [PendingItem(w, wire, 0)] && b.pipe.awaiting == [] && b.pipe.pendingBytes == |wire|
    ensures Write(b, wire).pipe == b.pipe.(pending := [], awaiting := [w], pendingBytes := 0) && |Write(b, wire).gens| == |b.gens|
  {
  }

  lemma Answers(cfg: Config, wire: bytes, s: State, w: Waiting) returns (r: State)
    requires Roomy(cfg, wire) && Reachable(cfg, s) && HasSent(cfg, s, w) && w.sink == Sink([String], [])
    ensures Reachable(cfg, r) && r.phase == OPEN && w.(sink := Sink([String], [Value(Text([79, 75]))])) in r.book.settled
  {
    hide Reachable, Pump, MessagesOf;
    var s1 := Apply(cfg, s, ReadStart);
    ReachableNext(cfg, s, ReadStart);
    r := Apply(cfg, s1, ReadEnd(OK));
    ReachableNext(cfg, s1, ReadEnd(OK));
    OkRead(cfg.limits);
    var p := Pump(START, [] + OK, cfg.limits);
    OkAnswers(cfg, s1.(reading := Idle, core := p.core, unread := p.unread, book := Record(s1.book, OK)), w);
  }

  lemma OkAnswers(cfg: Config, s: State, w: Waiting)
    requires s.phase == OPEN && s.book.pipe.pending == [] && s.book.pipe.awaiting == [w] && w.sink == Sink([String], [])
    ensures
      var r := HearAll(cfg, s, [OK_MESSAGE], None);
      r.phase == OPEN && w.(sink := Sink([String], [Value(Text([79, 75]))])) in r.book.settled
  {
    hide OnMessage, SlotFromMessage, Visits, Summaries;
    OkSlots();
    LastReply(s.book.pipe, w, OK_MESSAGE);
    var s1 := s.(book := Hear(s.book, cfg.hooks, OK_MESSAGE));
    var w' := w.(sink := Sink([String], [Value(Text([79, 75]))]));
    assert s1.book.settled == s.book.settled + [w'];
    assert [OK_MESSAGE][1..] == [] && HearAll(cfg, s1, [], None) == s1;
    assert HearAll(cfg, s, [OK_MESSAGE], None) == s1;
  }

  /** The run theorems speak of something: with room for a request, some run connects, sends it and gets its reply. */
  lemma SomeRunGetsItsReply(cfg: Config, wire: bytes, now: int) returns (s: State)
    requires Roomy(cfg, wire)
    ensures Reachable(cfg, s) && s.phase == OPEN
    ensures exists w :: w in s.book.settled && w.tag == User(0, 0, 0) && w.sink == Sink([String], [Value(Text([79, 75]))])
  {
    hide Reachable;
    var s1 := Connects(cfg, wire, now);
    var s2 := Opens(cfg, wire, s1);
    var s3 := Asks(cfg, wire, s2);
    var s4 := Sends(cfg, wire, s3, Asked(cfg, s2.now));
    s := Answers(cfg, wire, s4, Asked(cfg, s2.now));
  }
}
