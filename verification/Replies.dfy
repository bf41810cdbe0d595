/** Which bytes, messages and deadlines belong to which generation, in every reachable state. */
module Replies {
  import opened Bytes
  import opened Kinds
  import opened Lexer
  import opened Parser
  import opened Streaming
  import opened Discipline
  import opened Messages
  import opened Builder
  import opened Adapter
  import opened Sinks
  import opened Pipeline
  import opened Epochs
  import opened Ledger
  import opened Connection
  import opened Safety

  // ----- the stream of a generation -----

  lemma {:induction false} FeedSnoc(c: Core, unread: bytes, chunks: seq<bytes>, x: bytes, L: Limits)
    requires InRange(c) && Feed(c, unread, chunks, L).seen.error.None?
    ensures
      var f := Feed(c, unread, chunks, L);
      Feed(c, unread, chunks + [x], L) == After(f.seen.trees, Drain(f.core, f.unread + x, L))
    decreases |chunks|
  {
    hide Drain;
    if chunks == [] {
      FeedOne(c, unread, x, L);
    } else {
      var r := Drain(c, unread + chunks[0], L);
      assert (chunks + [x])[0] == chunks[0] && (chunks + [x])[1..] == chunks[1..] + [x];
      FeedSnoc(r.core, r.unread, chunks[1..], x, L);
      var f := Feed(r.core, r.unread, chunks[1..], L);
      BeforeBefore(r.seen.trees, f.seen.trees, Drain(f.core, f.unread + x, L).seen);
    }
  }

  lemma FeedOne(c: Core, unread: bytes, x: bytes, L: Limits)
    requires InRange(c)
    ensures Feed(c, unread, [x], L) == After([], Drain(c, unread + x, L))
  {
    hide Drain;
    var r := Drain(c, unread + x, L);
    assert [x][1..] == [];
    BeforeBefore([], [], r.seen);
    assert r.seen.trees + [] == r.seen.trees;
    assert r.seen.error.None? ==> After(r.seen.trees, Drained(r.core, r.unread, Observed([], None))) == r;
  }

  lemma MessagesConcat(a: seq<Parsed>, b: seq<Parsed>)
    ensures MessagesOf(a + b) == MessagesOf(a) + MessagesOf(b)
  {
    hide MessageOf;
  }

  /** The messages of a stream are what the builder makes of each tree the parser hands out. */
  lemma StreamIsRebuilt(chunks: seq<bytes>, L: Limits)
    ensures
      var trees := Feed(START, [], chunks, L).seen.trees;
      |Stream(chunks, L)| == |trees| &&
      forall i :: 0 <= i < |trees| ==> Buildable(trees[i]) && Stream(chunks, L)[i] == Build(trees[i].tree, trees[i].root)
  {
    hide Feed, Inv, Build, Buildable;
    InvStart();
    EveryTreeIsBuildable(START, [], chunks, L);
  }

  /** How the bytes were split into reads does not matter, unless a line has exactly the maximum length. */
  lemma StreamIsWhole(chunks: seq<bytes>, L: Limits)
    requires NoLineAtLimit(Armed(START), Concat(chunks), L)
    ensures Stream(chunks, L) == MessagesOf(Drain(START, Concat(chunks), L).seen.trees)
  {
    hide Feed, Drain, MessagesOf, NoLineAtLimit, CutSensitive;
    NoLineAtLimitSuffices(Armed(START), Concat(chunks), L);
    InsensitiveReads(Concat(chunks), chunks, L);
  }

  /** The parser stands where the generation's reads have brought it, and every message was delivered. */
  ghost predicate Tracks(core: Core, unread: bytes, e: Epoch, L: Limits) {
    var f := Feed(START, [], e.chunks, L);
    f.core == core && f.unread == unread && f.seen.error.None? && e.heard == MessagesOf(f.seen.trees)
  }

  /** Each generation heard a prefix of its own stream. */
  ghost predicate StreamsOk(gens: seq<Epoch>, L: Limits) {
    forall g :: 0 <= g < |gens| ==> gens[g].heard <= Stream(gens[g].chunks, L)
  }

  ghost predicate HearingOk(cfg: Config, s: State) {
    InRange(s.core) && StreamsOk(s.book.gens, cfg.limits) &&
    (s.phase == OPEN ==> s.book.gens != [] && Tracks(s.core, s.unread, s.book.gens[|s.book.gens| - 1], cfg.limits))
  }

  lemma TracksRead(core: Core, unread: bytes, e: Epoch, chunk: bytes, L: Limits)
    requires InRange(core) && Tracks(core, unread, e, L)
    ensures
      var r := Drain(core, unread + chunk, L);
      var e' := e.(chunks := e.chunks + [chunk]);
      Stream(e'.chunks, L) == e.heard + MessagesOf(r.seen.trees) &&
      (r.seen.error.None? ==> Tracks(r.core, r.unread, e'.(heard := e.heard + MessagesOf(r.seen.trees)), L))
  {
    hide Drain, Feed, MessagesOf;
    FeedSnoc(START, [], e.chunks, chunk, L);
    MessagesConcat(Feed(START, [], e.chunks, L).seen.trees, Drain(core, unread + chunk, L).seen.trees);
  }

  /** Delivering `ms` adds a prefix of them to what was heard, and all of them if the connection survives. */
  ghost predicate Listened(before: seq<Epoch>, after: seq<Epoch>, ms: seq<Message>, survived: bool) {
    before != [] && |after| == |before| &&
    var last := |before| - 1;
    after[..last] == before[..last] && after[last].chunks == before[last].chunks &&
    before[last].heard <= after[last].heard <= before[last].heard + ms &&
    (survived ==> after[last].heard == before[last].heard + ms)
  }

  lemma {:induction false} HearAllHeard(cfg: Config, s: State, ms: seq<Message>, error: Option<ProtocolError>)
    requires s.phase == OPEN && s.book.gens != []
    ensures
      var r := HearAll(cfg, s, ms, error);
      Listened(s.book.gens, r.book.gens, ms, r.phase == OPEN) && (r.phase == OPEN ==> error.None?)
    decreases |ms|
  {
    hide OnMessage, OnError, ClearAll, Summaries;
    if ms == [] {
    } else if s.book.pipe.awaiting != [] {
      var s1 := s.(book := Hear(s.book, cfg.hooks, ms[0]));
      HearAllHeard(cfg, s1, ms[1..], error);
      ListenOnce(s.book, cfg.hooks, ms, HearAll(cfg, s, ms, error).book.gens, HearAll(cfg, s, ms, error).phase == OPEN);
    }
  }

  lemma ListenOnce(b: Book, hooks: Hooks, ms: seq<Message>, after: seq<Epoch>, survived: bool)
    requires b.gens != [] && ms != [] && b.pipe.awaiting != []
    requires Listened(Hear(b, hooks, ms[0]).gens, after, ms[1..], survived)
    ensures Listened(b.gens, after, ms, survived)
  {
    hide OnMessage, Summaries;
    var last := |b.gens| - 1;
    var heard := b.gens[last].heard;
    assert heard + [ms[0]] + ms[1..] == heard + ms;
    assert Hear(b, hooks, ms[0]).gens[last].heard == heard + [ms[0]];
    assert heard <= heard + [ms[0]];
  }

  lemma ReadHearing(cfg: Config, s: State, chunk: bytes)
    requires HearingOk(cfg, s) && s.phase == OPEN
    ensures
      var r := Pump(s.core, s.unread + chunk, cfg.limits);
      var s1 := s.(reading := Idle, core := r.core, unread := r.unread, book := Record(s.book, chunk));
      HearingOk(cfg, HearAll(cfg, s1, MessagesOf(r.seen.trees), r.seen.error))
  {
    hide Drain, Feed, MessagesOf, HearAll, Stream, Tracks, InRange;
    var last := |s.book.gens| - 1;
    var e := s.book.gens[last];
    var r := Pump(s.core, s.unread + chunk, cfg.limits);
    var ms := MessagesOf(r.seen.trees);
    var s1 := s.(reading := Idle, core := r.core, unread := r.unread, book := Record(s.book, chunk));
    TracksRead(s.core, s.unread, e, chunk, cfg.limits);
    HearAllHeard(cfg, s1, ms, r.seen.error);
    HearAllShape(cfg, s1, ms, r.seen.error);
    var after := HearAll(cfg, s1, ms, r.seen.error);
    forall g | 0 <= g < |after.book.gens|
      ensures after.book.gens[g].heard <= Stream(after.book.gens[g].chunks, cfg.limits)
    {
      if g < last {
        assert after.book.gens[g] == after.book.gens[..last][g] == s1.book.gens[..last][g] == s.book.gens[g];
      }
    }
    TracksElsewhere(r.core, r.unread, e.(chunks := e.chunks + [chunk], heard := e.heard + ms), after.book.gens[last], cfg.limits);
  }

  /** Only the reads and the messages of a generation count here. */
  lemma TracksElsewhere(core: Core, unread: bytes, e: Epoch, e': Epoch, L: Limits)
    ensures e.chunks == e'.chunks && e.heard == e'.heard && Tracks(core, unread, e, L) ==> Tracks(core, unread, e', L)
  {
  }

  ghost predicate SameTalk(a: seq<Epoch>, b: seq<Epoch>) {
    |a| == |b| && forall g :: 0 <= g < |a| ==> a[g].heard == b[g].heard && a[g].chunks == b[g].chunks
  }

  lemma SameTalkHearing(cfg: Config, s: State, s': State)
    requires HearingOk(cfg, s) && SameTalk(s.book.gens, s'.book.gens) && InRange(s'.core)
    requires s'.phase == OPEN ==> s.phase == OPEN && s'.core == s.core && s'.unread == s.unread
    ensures HearingOk(cfg, s')
  {
    hide Feed, MessagesOf, Stream, InRange;
    forall g | 0 <= g < |s'.book.gens|
      ensures s'.book.gens[g].heard <= Stream(s'.book.gens[g].chunks, cfg.limits)
    {
      assert s.book.gens[g].heard <= Stream(s.book.gens[g].chunks, cfg.limits);
    }
  }

  lemma {:induction false} ShakeTalk(cfg: Config, s: State, ms: seq<Message>, error: Option<ProtocolError>)
    requires s.phase != OPEN
    ensures
      var r := Shake(cfg, s, ms, error);
      r.book.gens == s.book.gens + if r.phase == OPEN then [NEW_EPOCH] else []
    decreases |ms|
  {
    hide OnMessage, OnError, ClearAll, Summaries, FirstError;
    if ms != [] && s.book.pipe.awaiting != [] && OnMessage(s.book.pipe, ms[0]).settled == [] {
      ShakeTalk(cfg, s.(book := HelloHear(s.book, cfg.hooks, ms[0])), ms[1..], error);
    }
  }

  lemma OpenTracks(L: Limits)
    ensures Tracks(START, [], NEW_EPOCH, L) && InRange(START) && NEW_EPOCH.heard <= Stream(NEW_EPOCH.chunks, L)
  {
  }

  lemma ShakeHearing(cfg: Config, s: State, chunk: bytes)
    requires HearingOk(cfg, s) && s.phase != OPEN && s.attempt.Shaking?
    ensures
      var r := Pump(s.core, s.unread + chunk, cfg.limits);
      HearingOk(cfg, Shake(cfg, Told(s, r, chunk), MessagesOf(r.seen.trees), r.seen.error))
  {
    hide Drain, MessagesOf, Shake, Stream, Tracks, InRange;
    var r := Pump(s.core, s.unread + chunk, cfg.limits);
    var s1 := Told(s, r, chunk);
    ShakeShape(cfg, s1, MessagesOf(r.seen.trees), r.seen.error);
    ShakeTalk(cfg, s1, MessagesOf(r.seen.trees), r.seen.error);
    OpenTracks(cfg.limits);
    var after := Shake(cfg, s1, MessagesOf(r.seen.trees), r.seen.error);
    forall g | 0 <= g < |after.book.gens|
      ensures after.book.gens[g].heard <= Stream(after.book.gens[g].chunks, cfg.limits)
    {
      if g < |s.book.gens| {
        assert after.book.gens[g] == s.book.gens[g];
      }
    }
  }

  lemma BookTalk(b: Book, hooks: Hooks, e: ErrorInfo, targets: seq<Target>, code: ClientCode)
    ensures Abort(b, hooks, e).gens == b.gens && Refuse(b, hooks, targets, code).gens == b.gens
  {
    hide ClearAll, Summaries, FailAll;
  }

  lemma TrafficTalk(b: Book, hooks: Hooks, targets: seq<Target>, wire: bytes, deadline: Option<int>, taken: bytes)
    ensures SameTalk(b.gens, Admit(b, hooks, targets, wire, deadline).gens) && SameTalk(b.gens, Write(b, taken).gens)
  {
    hide Pipeline.Push, WriteDone;
  }

  /** Dropping a connection does not change what was said on it. */
  lemma DropsHearing(cfg: Config, s: State, ev: Event)
    requires Control(s) && HearingOk(cfg, s) && Enabled(cfg, s, ev) && IsDrop(ev)
    ensures HearingOk(cfg, Apply(cfg, s, ev))
  {
    hide HearingOk, Abort, Expired;
    DropsQuietly(cfg, s, ev);
    HearingCore(cfg, s);
    SameTalkSelf(s.book.gens);
    SameTalkHearing(cfg, s, Apply(cfg, s, ev));
  }

  /** `r` is `s` after a fall: not open, and nothing new was said. */
  ghost predicate Fallen(s: State, r: State) {
    r.book.gens == s.book.gens && r.core == s.core && r.unread == s.unread && r.said == s.said && r.reply == s.reply && r.phase != OPEN
  }

  /** `s1` is `s` with other control fields. */
  predicate SameBut(s: State, s1: State) {
    s1.book == s.book && s1.core == s.core && s1.unread == s.unread && s1.said == s.said && s1.reply == s.reply
  }

  lemma DropFalls(cfg: Config, s: State, s1: State, e: ErrorInfo, phase: Phase)
    requires SameBut(s, s1) && phase != OPEN
    ensures Fallen(s, Drop(cfg, s1, e, phase))
  {
    hide ClearAll, Summaries;
  }

  lemma ErrorFalls(cfg: Config, s: State, s1: State, e: ErrorInfo)
    requires SameBut(s, s1)
    ensures Fallen(s, HandleError(cfg, s1, e))
  {
    hide Drop;
    DropFalls(cfg, s, s1, e, FAILED);
  }

  lemma CloseFalls(cfg: Config, s: State, s1: State)
    requires SameBut(s, s1)
    ensures Fallen(s, CloseNow(cfg, s1))
  {
    hide Drop;
    DropFalls(cfg, s, s1.(stop := true), ClientError(ConnectionClosed), CLOSING);
  }

  lemma DropsQuietly(cfg: Config, s: State, ev: Event)
    requires Enabled(cfg, s, ev) && IsDrop(ev)
    ensures Fallen(s, Apply(cfg, s, ev))
  {
    hide HandleError, CloseNow, Drop, Expired, HearAll, Shake, FailShake, Abandon, Enqueue, Write, Record, HelloPush, HelloWrite, Pump, MessagesOf, Offer;
    match ev
    case CleanUp => CloseFalls(cfg, s, s.(attempt := NoAttempt));
    case WriteFails(_) => ErrorFalls(cfg, s, s.(writing := Idle), ClientError(WriteError));
    case ReadEof => ErrorFalls(cfg, s, s.(reading := Idle), ClientError(ConnectionReset));
    case ReadFails(_) => ErrorFalls(cfg, s, s.(reading := Idle), ClientError(ConnectionLost));
    case Expire => ErrorFalls(cfg, s, s, ClientError(RequestTimeout));
    case Close => CloseFalls(cfg, s, s);
    case ActorExits => DropFalls(cfg, s, s, ClientError(ConnectionClosed), CLOSED);
    case ActorThrows => DropFalls(cfg, s, s, ClientError(InternalError), CLOSED);
  }

  lemma SameTalkSelf(gens: seq<Epoch>)
    ensures SameTalk(gens, gens)
  {
  }

  lemma HelloTalk(b: Book, cfg: Config, ev: Event)
    ensures HelloPush(b, cfg.helloReplies, cfg.hello).gens == b.gens
    ensures ev.HandshakeWrite? ==> HelloWrite(b, ev.n).gens == b.gens
  {
    hide Pipeline.Push, WriteDone;
  }

  lemma QuietHearing(cfg: Config, s: State, ev: Event)
    requires Control(s) && HearingOk(cfg, s) && Enabled(cfg, s, ev) && !IsDrop(ev) && !ev.ReadEnd? && !ev.HandshakeRead?
    ensures HearingOk(cfg, Apply(cfg, s, ev))
  {
    hide HearingOk, SameTalk, Abort, Refuse, Admit, Write, HasRoom, OffersAtLeast, Drop, HearAll, Shake, Record, HelloPush, HelloWrite, Pump, MessagesOf, Offer, Expired;
    HelloTalk(s.book, cfg, ev);
    OpenTracks(cfg.limits);
    HearingCore(cfg, s);
    SameTalkSelf(s.book.gens);
    if ev.AttemptFails? {
      BookTalk(s.book, cfg.hooks, ev.error, [], NotConnected);
    } else if ev.EnqueueRequest? {
      BookTalk(s.book, cfg.hooks, ServerError([]), ev.targets, RefusalCode(s.phase));
      TrafficTalk(s.book, cfg.hooks, ev.targets, ev.wire, Deadline(cfg, s.now), []);
    } else if ev.WriteEnd? {
      TrafficTalk(s.book, cfg.hooks, [], [], None, s.offered.data[..ev.n]);
    }
    SameTalkHearing(cfg, s, Apply(cfg, s, ev));
  }

  lemma HearingKeeps(cfg: Config, s: State, ev: Event)
    requires Control(s) && HearingOk(cfg, s) && Enabled(cfg, s, ev)
    ensures HearingOk(cfg, Apply(cfg, s, ev))
  {
    hide HearingOk, HearAll, Shake, Pump, MessagesOf;
    if ev.ReadEnd? {
      ReadHearing(cfg, s, ev.chunk);
    } else if ev.HandshakeRead? {
      ShakeHearing(cfg, s, ev.chunk);
    } else if IsDrop(ev) {
      DropsHearing(cfg, s, ev);
    } else {
      QuietHearing(cfg, s, ev);
    }
  }

  lemma HearingCore(cfg: Config, s: State)
    requires HearingOk(cfg, s)
    ensures InRange(s.core)
  {
    hide Tracks, StreamsOk, InRange;
  }

  // ----- deadlines -----

  /** With a timeout configured every request has a deadline, at most one timeout away. */
  predicate Due(cfg: Config, now: int, d: Option<int>) {
    if cfg.timeout.None? then d.None? else d.Some? && d.value <= now + cfg.timeout.value
  }

  ghost predicate DuesOk(cfg: Config, s: State) {
    s.phase == OPEN ==> Sorted(Line(s.book.pipe)) && forall i :: 0 <= i < |Line(s.book.pipe)| ==> Due(cfg, s.now, Line(s.book.pipe)[i].deadline)
  }

  /** The deadlines of `b` are the last ones of `a`. */
  ghost predicate Later(a: seq<Waiting>, b: seq<Waiting>) {
    |b| <= |a| && forall i, j :: 0 <= i < |b| && j == |a| - |b| + i ==> b[i].deadline == a[j].deadline
  }

  lemma FrontLater(p: Pipe, s: Sink)
    requires p.awaiting != []
    ensures Later(Line(p), Line(UpdateFront(p, s).pipe))
  {
    var q := UpdateFront(p, s).pipe;
    if Complete(s) {
      assert Line(q) == Line(p)[1..];
    } else {
      assert Line(q) == Line(p)[0 := p.awaiting[0].(sink := s)];
    }
  }

  lemma LaterTrans(a: seq<Waiting>, b: seq<Waiting>, c: seq<Waiting>)
    requires Later(a, b) && Later(b, c)
    ensures Later(a, c)
  {
    forall i, j | 0 <= i < |c| && j == |a| - |c| + i
      ensures c[i].deadline == a[j].deadline
    {
      var k := |b| - |c| + i;
      assert c[i].deadline == b[k].deadline;
      assert b[k].deadline == a[j].deadline;
    }
  }

  lemma {:induction false} HearAllLater(cfg: Config, s: State, ms: seq<Message>, error: Option<ProtocolError>)
    requires s.phase == OPEN && HearAll(cfg, s, ms, error).phase == OPEN
    ensures Later(Line(s.book.pipe), Line(HearAll(cfg, s, ms, error).book.pipe))
    decreases |ms|
  {
    hide UpdateFront, Line, Abort, Summaries, Accept, Later;
    if ms == [] || s.book.pipe.awaiting == [] {
      LaterSelf(Line(s.book.pipe));
    } else {
      var s1 := s.(book := Hear(s.book, cfg.hooks, ms[0]));
      HearAllLater(cfg, s1, ms[1..], error);
      FrontLater(s.book.pipe, Accept(s.book.pipe.awaiting[0].sink, ms[0]));
      LaterTrans(Line(s.book.pipe), Line(s1.book.pipe), Line(HearAll(cfg, s, ms, error).book.pipe));
    }
  }

  lemma LaterSelf(a: seq<Waiting>)
    ensures Later(a, a)
  {
  }

  lemma DuesLater(cfg: Config, s: State, s': State)
    requires DuesOk(cfg, s) && s.phase == OPEN && Later(Line(s.book.pipe), Line(s'.book.pipe)) && s.now <= s'.now
    ensures DuesOk(cfg, s')
  {
    hide Line;
    var a, b := Line(s.book.pipe), Line(s'.book.pipe);
    var n := |a| - |b|;
    forall i | 0 <= i < |b|
      ensures b[i].deadline == a[n + i].deadline
    {
      var j := n + i;
      assert b[i].deadline == a[j].deadline;
    }
    forall i, j | 0 <= i <= j < |b|
      ensures NoLater(b[i].deadline, b[j].deadline)
    {
      assert NoLater(a[n + i].deadline, a[n + j].deadline);
    }
  }

  lemma EnqueueDues(cfg: Config, s: State, wire: bytes, targets: seq<Target>)
    requires DuesOk(cfg, s)
    ensures DuesOk(cfg, Enqueue(cfg, s, wire, targets))
  {
    var s' := Enqueue(cfg, s, wire, targets);
    if s.phase == OPEN && HasRoom(s.book.pipe, wire) {
      var w := Entering(s.book.issued, if s.book.gens == [] then 0 else |s.book.gens| - 1, Current(s.book), targets, Deadline(cfg, s.now));
      assert s'.book.pipe == Pipeline.Push(s.book.pipe, w, wire);
      assert Line(s'.book.pipe) == Line(s.book.pipe) + [w];
      hide Line, Enqueue;
    }
  }

  lemma WriteDues(cfg: Config, s: State, taken: bytes)
    requires DuesOk(cfg, s)
    ensures DuesOk(cfg, s.(writing := Idle, book := Write(s.book, taken)))
  {
    var p := s.book.pipe;
    if p.pending != [] && |taken| <= p.pendingBytes {
      WriteLine(p, |taken|);
      hide Line, WriteDone;
    }
  }

  /** The handshake leaves the line empty when it opens the connection. */
  lemma DuesKeep(cfg: Config, s: State, ev: Event)
    requires ConfigOk(cfg) && Control(s) && LedgerOk(cfg, s) && DuesOk(cfg, s) && Enabled(cfg, s, ev)
    ensures DuesOk(cfg, Apply(cfg, s, ev))
  {
    hide DuesOk, LedgerOk, HearAll, Shake, Write, Enqueue, Abort, HasRoom, OffersAtLeast, Expired, Pump, MessagesOf;
    match ev
    case ReadEnd(chunk) =>
      var r := Pump(s.core, s.unread + chunk, cfg.limits);
      ReadDues(cfg, s, s.(reading := Idle, core := r.core, unread := r.unread, book := Record(s.book, chunk)), MessagesOf(r.seen.trees), r.seen.error);
    case EnqueueRequest(wire, targets) => EnqueueDues(cfg, s, wire, targets);
    case WriteEnd(n) => WriteDues(cfg, s, s.offered.data[..n]);
    case HandshakeRead(chunk) => OpeningDues(cfg, s, chunk);
    case _ => OtherDues(cfg, s, ev);
  }

  lemma OtherDues(cfg: Config, s: State, ev: Event)
    requires Control(s) && DuesOk(cfg, s) && Enabled(cfg, s, ev)
    requires !ev.ReadEnd? && !ev.EnqueueRequest? && !ev.WriteEnd? && !ev.HandshakeRead?
    ensures DuesOk(cfg, Apply(cfg, s, ev))
  {
    hide DuesOk, HearAll, Shake, Write, Enqueue, Abort, HasRoom, OffersAtLeast, Expired, Pump, MessagesOf;
    if Apply(cfg, s, ev).phase == OPEN {
      SameDues(cfg, s, Apply(cfg, s, ev));
    } else {
      ClosedDues(cfg, Apply(cfg, s, ev));
    }
  }

  lemma SameDues(cfg: Config, s: State, s': State)
    requires DuesOk(cfg, s) && s'.phase == s.phase && s'.book.pipe == s.book.pipe && s.now <= s'.now
    ensures DuesOk(cfg, s')
  {
    hide Line;
  }

  lemma ClosedDues(cfg: Config, s: State)
    requires s.phase != OPEN
    ensures DuesOk(cfg, s)
  {
  }

  lemma ReadDues(cfg: Config, s: State, s1: State, ms: seq<Message>, error: Option<ProtocolError>)
    requires DuesOk(cfg, s) && s.phase == OPEN && s1.phase == OPEN && s1.now == s.now && s1.book.pipe == s.book.pipe
    ensures DuesOk(cfg, HearAll(cfg, s1, ms, error))
  {
    hide HearAll, Line, DuesOk;
    HearAllShape(cfg, s1, ms, error);
    if HearAll(cfg, s1, ms, error).phase == OPEN {
      HearAllLater(cfg, s1, ms, error);
      DuesLater(cfg, s, HearAll(cfg, s1, ms, error));
    } else {
      ClosedDues(cfg, HearAll(cfg, s1, ms, error));
    }
  }

  lemma OpeningDues(cfg: Config, s: State, chunk: bytes)
    requires ConfigOk(cfg) && Control(s) && LedgerOk(cfg, s) && Enabled(cfg, s, HandshakeRead(chunk))
    ensures DuesOk(cfg, Apply(cfg, s, HandshakeRead(chunk)))
  {
    hide HearAll, Shake, Line, Balanced, Pump, MessagesOf;
    if Apply(cfg, s, HandshakeRead(chunk)).phase == OPEN {
      OpensEmpty(cfg, s, HandshakeRead(chunk));
    }
  }

  lemma {:induction false} ShakeOpensEmpty(cfg: Config, s: State, ms: seq<Message>, error: Option<ProtocolError>)
    requires Greeting(cfg, s)
    ensures Shake(cfg, s, ms, error).phase == OPEN ==> Line(Shake(cfg, s, ms, error).book.pipe) == []
    decreases |ms|
  {
    hide Balanced, Line, HearError, OnMessage, FirstError, Abort;
    if ms != [] && s.book.pipe.awaiting != [] {
      ShakeOnce(cfg, s, ms[0]);
      if OnMessage(s.book.pipe, ms[0]).settled == [] {
        ShakeOpensEmpty(cfg, s.(book := HelloHear(s.book, cfg.hooks, ms[0])), ms[1..], error);
      }
    }
  }

  /** Nothing is left in the pipeline when a connection becomes open. */
  lemma OpensEmpty(cfg: Config, s: State, ev: Event)
    requires Control(s) && LedgerOk(cfg, s) && Enabled(cfg, s, ev) && s.phase != OPEN && Apply(cfg, s, ev).phase == OPEN
    ensures Line(Apply(cfg, s, ev).book.pipe) == [] && ev.HandshakeRead?
  {
    hide HearAll, Shake, Line, Balanced, Pump, MessagesOf, Abort, HasRoom, OffersAtLeast, Expired;
    if ev.HandshakeRead? {
      var r := Pump(s.core, s.unread + ev.chunk, cfg.limits);
      ShakeOpensEmpty(cfg, Told(s, r, ev.chunk), MessagesOf(r.seen.trees), r.seen.error);
    }
  }

  // ----- FAILED is for connections that were open -----

  /** Failing and reconnecting presuppose a generation. */
  predicate Seasoned(s: State) {
    s.phase == OPEN || s.phase == FAILED || s.phase == RECONNECTING || ByControlLoop(s.attempt) ==> s.book.gens != []
  }

  lemma ReadSeasoned(cfg: Config, s: State, ms: seq<Message>, error: Option<ProtocolError>)
    requires s.phase == OPEN && s.book.gens != []
    ensures Seasoned(HearAll(cfg, s, ms, error))
  {
    hide HearAll;
    HearAllHeard(cfg, s, ms, error);
  }

  lemma ShakeSeasoned(cfg: Config, s: State, ms: seq<Message>, error: Option<ProtocolError>)
    requires Seasoned(s) && Control(s) && s.attempt.Shaking? && s.attempt.live
    ensures Seasoned(Shake(cfg, s, ms, error))
  {
    hide Shake;
    ShakeShape(cfg, s, ms, error);
    ShakeTalk(cfg, s, ms, error);
  }

  lemma DropsSeasoned(cfg: Config, s: State, ev: Event)
    requires Control(s) && Seasoned(s) && Enabled(cfg, s, ev) && IsDrop(ev)
    ensures Seasoned(Apply(cfg, s, ev))
  {
    hide Abort, Expired, HearAll, Shake, FailShake, Abandon, Enqueue, Write, Record, HelloPush, HelloWrite, Pump, MessagesOf, Offer;
    DropsQuietly(cfg, s, ev);
  }

  lemma QuietSeasoned(cfg: Config, s: State, ev: Event)
    requires Control(s) && Seasoned(s) && Enabled(cfg, s, ev) && !IsDrop(ev) && !ev.ReadEnd? && !ev.HandshakeRead?
    ensures Seasoned(Apply(cfg, s, ev))
  {
    hide Abort, Refuse, HasRoom, OffersAtLeast, Drop, HearAll, Shake, Record, HelloPush, HelloWrite, Pump, MessagesOf, Offer, Expired, Pipeline.Push, WriteDone;
    HelloTalk(s.book, cfg, ev);
    if ev.AttemptFails? {
      BookTalk(s.book, cfg.hooks, ev.error, [], NotConnected);
    } else if ev.EnqueueRequest? {
      BookTalk(s.book, cfg.hooks, ServerError([]), ev.targets, RefusalCode(s.phase));
    }
  }

  /** A failed first connect never enters FAILED. */
  lemma SeasonedKeeps(cfg: Config, s: State, ev: Event)
    requires Control(s) && Seasoned(s) && Enabled(cfg, s, ev)
    ensures Seasoned(Apply(cfg, s, ev))
  {
    hide HearAll, Shake, Pump, MessagesOf;
    if ev.ReadEnd? {
      var r := Pump(s.core, s.unread + ev.chunk, cfg.limits);
      ReadSeasoned(cfg, s.(reading := Idle, core := r.core, unread := r.unread, book := Record(s.book, ev.chunk)), MessagesOf(r.seen.trees), r.seen.error);
    } else if ev.HandshakeRead? {
      var r := Pump(s.core, s.unread + ev.chunk, cfg.limits);
      ShakeSeasoned(cfg, Told(s, r, ev.chunk), MessagesOf(r.seen.trees), r.seen.error);
    } else if IsDrop(ev) {
      DropsSeasoned(cfg, s, ev);
    } else {
      QuietSeasoned(cfg, s, ev);
    }
  }
}
