/** What a request is told: why it was refused, and why its replies will not come. */
module Causes {
  import opened Bytes
  import opened Kinds
  import opened Streaming
  import opened Builder
  import opened Adapter
  import opened Sinks
  import opened Pipeline
  import opened Epochs
  import opened Ledger
  import opened Connection
  import opened Safety
  import opened Replies
  import opened Runs

  // ----- entering the line -----

  /** There is room for one more request, and for its bytes, within the configured limits. */
  ghost predicate Room(cfg: Config, p: Pipe, wire: bytes)
    requires PipeOk(p)
  {
    |Line(p)| + 1 <= cfg.maxRequests && |Owed(p)| + |wire| <= cfg.maxBytes
  }

  lemma RoomIsRoom(cfg: Config, p: Pipe, wire: bytes)
    requires PipeOk(p) && p.maxRequests == cfg.maxRequests && p.maxBytes == cfg.maxBytes
    ensures HasRoom(p, wire) <==> Room(cfg, p, wire)
  {
    hide Unwritten;
    PipeLimits(p);
  }

  /** Why a connection in this phase takes no request. */
  function Reason(phase: Phase): ClientCode {
    match phase
    case INIT | CONNECTING => NotConnected
    case FAILED | RECONNECTING => ConnectionLost
    case CLOSING | CLOSED => ConnectionClosed
    case OPEN => QueueFull
  }

  /** The new request stands last in line, with every reply to come and its deadline one timeout from now. */
  ghost predicate Enters(cfg: Config, s: State, r: State, wire: bytes, targets: seq<Target>)
    requires PipeOk(s.book.pipe) && PipeOk(r.book.pipe) && s.book.gens != []
  {
    var gen := |s.book.gens| - 1;
    var due := if cfg.timeout.Some? then Some(s.now + cfg.timeout.value) else None;
    var w := Waiting(User(s.book.issued, gen, s.book.gens[gen].total), Sink(targets, []), due);
    Line(r.book.pipe) == Line(s.book.pipe) + [w] && Owed(r.book.pipe) == Owed(s.book.pipe) + wire &&
    r.book.settled == s.book.settled && r.book.issued == s.book.issued + 1
  }

  /** The new request is settled at once: the reason in every slot. */
  ghost predicate TurnedAway(s: State, r: State, targets: seq<Target>, code: ClientCode) {
    r.book.pipe == s.book.pipe && r.book.issued == s.book.issued + 1 &&
    exists w ::
      r.book.settled == s.book.settled + [w] && w.tag == Refused(s.book.issued) && w.sink.targets == targets &&
      |w.sink.slots| == |targets| && forall i :: 0 <= i < |targets| ==> w.sink.slots[i] == Failed(ClientError(code))
  }

  lemma AdmitEnters(cfg: Config, s: State, wire: bytes, targets: seq<Target>)
    requires PipeOk(s.book.pipe) && HasRoom(s.book.pipe, wire) && |targets| >= 1 && s.book.gens != []
    ensures
      var r := s.(book := Admit(s.book, cfg.hooks, targets, wire, Deadline(cfg, s.now)));
      PipeOk(r.book.pipe) && Enters(cfg, s, r, wire, targets)
  {
    hide PipeOk, Line, Owed, HasRoom;
    var gen := |s.book.gens| - 1;
    PushKeeps(s.book.pipe, Entering(s.book.issued, gen, s.book.gens[gen], targets, Deadline(cfg, s.now)), wire);
  }

  lemma RefuseTurnsAway(cfg: Config, s: State, targets: seq<Target>, code: ClientCode)
    ensures TurnedAway(s, s.(book := Refuse(s.book, cfg.hooks, targets, code)), targets, code)
  {
    var r := s.(book := Refuse(s.book, cfg.hooks, targets, code));
    var w := Waiting(Refused(s.book.issued), FailAll(Sink(targets, []), ClientError(code)), None);
    assert r.book.settled == s.book.settled + [w];
  }

  /** A request is accepted exactly if the connection is open and there is room; otherwise it is told why. */
  lemma AcceptedIffRoom(cfg: Config, s: State, wire: bytes, targets: seq<Target>)
    requires Reachable(cfg, s) && |targets| >= 1
    ensures PipeOk(s.book.pipe)
    ensures
      var r := Apply(cfg, s, EnqueueRequest(wire, targets));
      if s.phase == OPEN && Room(cfg, s.book.pipe, wire) then
        s.book.gens != [] && PipeOk(r.book.pipe) && Enters(cfg, s, r, wire, targets)
      else TurnedAway(s, r, targets, Reason(s.phase))
  {
    hide Reachable, Control, Balanced, HearingOk, DuesOk, OfferHeld, Gate, Seasoned, PipeOk, Line, Owed, HasRoom, Room, Enters, TurnedAway, Admit, Refuse;
    SafeParts(cfg, s);
    BalancedFacts(s.book, cfg.hooks, ModeOf(s));
    RoomIsRoom(cfg, s.book.pipe, wire);
    if s.phase == OPEN && HasRoom(s.book.pipe, wire) {
      ServingBooks(s.book, cfg.hooks);
      AdmitEnters(cfg, s, wire, targets);
    } else {
      RefuseTurnsAway(cfg, s, targets, Reason(s.phase));
    }
  }

  // ----- expiry -----

  /** The control loop gives up on an open connection exactly when some request in it is overdue. */
  lemma ExpiresIffOverdue(cfg: Config, s: State)
    requires Reachable(cfg, s) && s.phase == OPEN && cfg.timeout.Some?
    ensures Enabled(cfg, s, Expire) <==> exists w :: w in Line(s.book.pipe) && w.deadline.Some? && w.deadline.value <= s.now
  {
    hide Reachable, Line, NextDeadline;
    EarliestDeadline(cfg, s);
    var d, line := NextDeadline(s.book.pipe), Line(s.book.pipe);
    if w :| w in line && w.deadline.Some? && w.deadline.value <= s.now {
      var i :| 0 <= i < |line| && line[i] == w;
      assert NoLater(d, line[i].deadline);
    }
    if d.Some? && d.value <= s.now {
      var i :| 0 <= i < |line| && line[i].deadline == d;
      assert line[i] in line;
    }
  }

  // ----- falling -----

  /** What a request in line is told, and the phase left behind, when an open connection falls. */
  function Cause(ev: Event): Option<(ClientCode, Phase)> {
    match ev
    case WriteFails(_) => Some((WriteError, FAILED))
    case ReadEof => Some((ConnectionReset, FAILED))
    case ReadFails(_) => Some((ConnectionLost, FAILED))
    case Expire => Some((RequestTimeout, FAILED))
    case Close => Some((ConnectionClosed, CLOSING))
    case ActorThrows => Some((InternalError, CLOSED))
    case _ => None
  }

  /** `w` has become `v`: what it had been given stays, and every other slot holds `e`. */
  predicate FailedWith(w: Waiting, v: Waiting, e: ErrorInfo) {
    v.tag == w.tag && v.sink.targets == w.sink.targets && |v.sink.slots| == |v.sink.targets| && w.sink.slots <= v.sink.slots &&
    forall i :: |w.sink.slots| <= i < |v.sink.slots| ==> v.sink.slots[i] == Failed(e)
  }

  /** Every request in line is settled with `e`, and nobody else. */
  ghost predicate AllFailedWith(line: seq<Waiting>, settled: seq<Waiting>, e: ErrorInfo) {
    |settled| == |line| && (forall i :: 0 <= i < |line| ==> IsTold(line[i], settled, e)) &&
    forall j :: 0 <= j < |settled| ==> WasInLine(settled[j], line, e)
  }

  ghost predicate IsTold(w: Waiting, settled: seq<Waiting>, e: ErrorInfo) {
    exists j :: 0 <= j < |settled| && FailedWith(w, settled[j], e)
  }

  ghost predicate WasInLine(v: Waiting, line: seq<Waiting>, e: ErrorInfo) {
    exists i :: 0 <= i < |line| && FailedWith(line[i], v, e)
  }

  lemma FailTells(w: Waiting, e: ErrorInfo)
    requires SinkOk(w.sink)
    ensures FailedWith(w, w.(sink := FailAll(w.sink, e)), e)
  {
  }

  /** Who comes where when the line is cleared: unwritten requests first. */
  lemma ClearOrder(p: Pipe, e: ErrorInfo)
    ensures
      var line, all := Line(p), ClearAll(p, e).settled;
      |all| == |line| &&
      (forall i :: 0 <= i < |p.awaiting| ==> all[|p.pending| + i] == line[i].(sink := FailAll(line[i].sink, e))) &&
      forall i :: |p.awaiting| <= i < |line| ==> all[i - |p.awaiting|] == line[i].(sink := FailAll(line[i].sink, e))
  {
    hide FailAll;
  }

  /** Turned round at `n`, two lines have the same members. */
  lemma TurnedRound(line: seq<Waiting>, all: seq<Waiting>, n: nat, e: ErrorInfo)
    requires |all| == |line| && n <= |line|
    requires forall i :: 0 <= i < |line| ==> FailedWith(line[i], all[if i < n then |line| - n + i else i - n], e)
    ensures AllFailedWith(line, all, e)
  {
    hide FailedWith;
    forall i | 0 <= i < |line|
      ensures IsTold(line[i], all, e)
    {
      var j := if i < n then |line| - n + i else i - n;
      assert FailedWith(line[i], all[j], e);
    }
    forall j | 0 <= j < |all|
      ensures WasInLine(all[j], line, e)
    {
      var i := if j < |line| - n then n + j else j - (|line| - n);
      assert FailedWith(line[i], all[if i < n then |line| - n + i else i - n], e);
    }
  }

  lemma ClearTells(p: Pipe, e: ErrorInfo)
    requires PipeOk(p)
    ensures AllFailedWith(Line(p), ClearAll(p, e).settled, e) && Line(ClearAll(p, e).pipe) == []
  {
    hide PipeOk, FailedWith, FailAll, Line, ClearAll, AllFailedWith;
    ClearKeeps(p, e);
    LineOk(p);
    ClearOrder(p, e);
    LineSize(p);
    var line, all, n := Line(p), ClearAll(p, e).settled, |p.awaiting|;
    forall i | 0 <= i < |line|
      ensures FailedWith(line[i], all[if i < n then |line| - n + i else i - n], e)
    {
      FailTells(line[i], e);
    }
    TurnedRound(line, all, n, e);
  }

  ghost predicate FellWith(s: State, r: State, e: ErrorInfo, phase: Phase) {
    r.phase == phase && Line(r.book.pipe) == [] && s.book.settled <= r.book.settled &&
    AllFailedWith(Line(s.book.pipe), r.book.settled[|s.book.settled|..], e)
  }

  lemma DropTells(cfg: Config, s: State, s1: State, e: ErrorInfo, phase: Phase)
    requires PipeOk(s.book.pipe) && s1.book == s.book
    ensures FellWith(s, Drop(cfg, s1, e, phase), e, phase)
  {
    hide PipeOk, AllFailedWith, ClearAll, Line, Summaries;
    ClearTells(s.book.pipe, e);
    var d := ClearAll(s.book.pipe, e);
    assert (s.book.settled + d.settled)[|s.book.settled|..] == d.settled;
  }

  /** Whatever makes an open connection fall, every request in line hears the cause. */
  lemma FallsTellWhy(cfg: Config, s: State, ev: Event)
    requires Reachable(cfg, s) && s.phase == OPEN && Enabled(cfg, s, ev) && Cause(ev).Some?
    ensures FellWith(s, Apply(cfg, s, ev), ClientError(Cause(ev).value.0), Cause(ev).value.1)
  {
    hide Reachable, Control, Balanced, HearingOk, DuesOk, OfferHeld, Gate, Seasoned, PipeOk, FellWith, Drop, Expired, HearAll, Shake, FailShake, Abandon, Enqueue, Write, Record, HelloPush, HelloWrite, Pump, MessagesOf, Offer;
    SafeParts(cfg, s);
    BalancedFacts(s.book, cfg.hooks, ModeOf(s));
    match ev
    case WriteFails(_) => DropTells(cfg, s, s.(writing := Idle), ClientError(WriteError), FAILED);
    case ReadEof => DropTells(cfg, s, s.(reading := Idle), ClientError(ConnectionReset), FAILED);
    case ReadFails(_) => DropTells(cfg, s, s.(reading := Idle), ClientError(ConnectionLost), FAILED);
    case Expire => DropTells(cfg, s, s, ClientError(RequestTimeout), FAILED);
    case Close => DropTells(cfg, s, s.(stop := true), ClientError(ConnectionClosed), CLOSING);
    case ActorThrows =>
      DropTells(cfg, s, s, ClientError(InternalError), CLOSED);
      FellElsewhere(s, Drop(cfg, s, ClientError(InternalError), CLOSED), ClientError(InternalError), CLOSED);
  }

  lemma FellElsewhere(s: State, r: State, e: ErrorInfo, phase: Phase)
    requires FellWith(s, r, e, phase)
    ensures FellWith(s, r.(actor := false), e, phase)
  {
    hide AllFailedWith;
  }

  // ----- falling in a read -----

  /** Replies that the written requests are still waiting for. */
  function OpenSlots(ws: seq<Waiting>): int {
    if ws == [] then 0 else |ws[0].sink.targets| - |ws[0].sink.slots| + OpenSlots(ws[1..])
  }

  /** Nothing in `w` but what was heard from the server, or else `e`. */
  predicate OnlyTold(w: Waiting, e: Option<ErrorInfo>) {
    forall i :: 0 <= i < |w.sink.slots| && Aborted(w.sink.slots[i]) ==> e.Some? && w.sink.slots[i] == Failed(e.value)
  }

  predicate AllTold(ws: seq<Waiting>, e: Option<ErrorInfo>) {
    forall i :: 0 <= i < |ws| ==> OnlyTold(ws[i], e)
  }

  lemma AllToldJoin(a: seq<Waiting>, b: seq<Waiting>, e: Option<ErrorInfo>)
    requires AllTold(a, e) && AllTold(b, e)
    ensures AllTold(a + b, e)
  {
    hide OnlyTold;
  }

  lemma AllToldMore(ws: seq<Waiting>, e: Option<ErrorInfo>)
    requires AllTold(ws, None)
    ensures AllTold(ws, e)
  {
    forall i | 0 <= i < |ws|
      ensures OnlyTold(ws[i], e)
    {
      assert OnlyTold(ws[i], None);
    }
  }

  /** More messages than replies awaited are unsolicited; short of that, only a protocol error ends the connection. */
  function FallReason(messages: nat, awaited: int, error: Option<ProtocolError>): Option<ErrorInfo> {
    if messages > awaited then Some(ClientError(UnsolicitedMessage))
    else if error.Some? then Some(ProtocolFailure(error.value))
    else None
  }

  /** A read keeps the connection open exactly if there is no reason to fall, and that reason is what everyone settled by it is told. */
  ghost predicate ReadTells(s: State, r: State, messages: nat, error: Option<ProtocolError>) {
    var reason := FallReason(messages, OpenSlots(s.book.pipe.awaiting), error);
    r.phase == (if reason.None? then OPEN else FAILED) && s.book.settled <= r.book.settled &&
    AllTold(r.book.settled[|s.book.settled|..], reason)
  }

  /** One message for the front of the line. */
  lemma FrontHears(p: Pipe, m: Message)
    requires PipeOk(p) && p.awaiting != [] && AllTold(Line(p), None)
    ensures
      var d := OnMessage(p, m);
      PipeOk(d.pipe) && OpenSlots(d.pipe.awaiting) == OpenSlots(p.awaiting) - 1 && AllTold(Line(d.pipe), None) && AllTold(d.settled, None)
  {
    FrontSink(p);
    hide PipeOk, SlotFromMessage, Line;
    var s := Accept(p.awaiting[0].sink, m);
    FrontKeeps(p, s);
    var w := p.awaiting[0].(sink := s);
    assert OnlyTold(Line(p)[0], None);
    assert OnlyTold(w, None) by {
      HeardTold(p.awaiting[0], m);
    }
    if Complete(s) {
      assert OpenSlots(p.awaiting) == 1 + OpenSlots(p.awaiting[1..]);
    } else {
      assert p.awaiting[0 := w][1..] == p.awaiting[1..];
    }
  }

  lemma HeardTold(w: Waiting, m: Message)
    requires OnlyTold(w, None)
    ensures OnlyTold(w.(sink := Accept(w.sink, m)), None)
  {
  }

  lemma OpenSlotsPositive(p: Pipe)
    requires PipeOk(p)
    ensures OpenSlots(p.awaiting) >= |p.awaiting|
  {
    hide Unwritten;
    EachOpen(p.awaiting);
  }

  lemma {:induction false} EachOpen(ws: seq<Waiting>)
    requires forall i :: 0 <= i < |ws| ==> SinkOk(ws[i].sink) && !Complete(ws[i].sink)
    ensures OpenSlots(ws) >= |ws|
    decreases |ws|
  {
    if ws != [] {
      EachOpen(ws[1..]);
    }
  }

  lemma ClearToldBy(p: Pipe, e: ErrorInfo)
    requires PipeOk(p) && AllTold(Line(p), Some(e))
    ensures AllTold(ClearAll(p, e).settled, Some(e))
  {
    hide PipeOk, Line, ClearAll, OnlyTold, FailedWith;
    ClearTells(p, e);
    var all, line := ClearAll(p, e).settled, Line(p);
    forall j | 0 <= j < |all|
      ensures OnlyTold(all[j], Some(e))
    {
      assert WasInLine(all[j], line, e);
      var i :| 0 <= i < |line| && FailedWith(line[i], all[j], e);
      FailedTold(line[i], all[j], e);
    }
  }

  lemma FailedTold(w: Waiting, v: Waiting, e: ErrorInfo)
    requires FailedWith(w, v, e) && OnlyTold(w, Some(e))
    ensures OnlyTold(v, Some(e))
  {
    forall i | 0 <= i < |v.sink.slots| && Aborted(v.sink.slots[i])
      ensures v.sink.slots[i] == Failed(e)
    {
      if i < |w.sink.slots| {
        assert v.sink.slots[i] == w.sink.slots[i];
      }
    }
  }

  /** The protocol error goes to the front first, then to everyone. */
  lemma ErrorTold(b: Book, hooks: Hooks, e: ErrorInfo)
    requires PipeOk(b.pipe) && AllTold(Line(b.pipe), None)
    ensures
      var c := HearError(b, hooks, e);
      PipeOk(c.pipe) && AllTold(Line(c.pipe), Some(e)) && b.settled <= c.settled && AllTold(c.settled[|b.settled|..], Some(e))
  {
    hide PipeOk, Line, Summaries;
    var p := b.pipe;
    AllToldMore(Line(p), Some(e));
    if p.awaiting != [] {
      FrontSink(p);
      var s := AcceptError(p.awaiting[0].sink, e);
      FrontKeeps(p, s);
      assert OnlyTold(Line(p)[0], Some(e));
      var w := p.awaiting[0].(sink := s);
      assert OnlyTold(w, Some(e));
      assert HearError(b, hooks, e).settled[|b.settled|..] == OnError(p, e).settled;
    }
  }

  lemma DropTold(cfg: Config, s: State, s1: State, e: ErrorInfo)
    requires s1.phase == OPEN && PipeOk(s1.book.pipe) && AllTold(Line(s1.book.pipe), Some(e)) && s.book.settled <= s1.book.settled
    requires AllTold(s1.book.settled[|s.book.settled|..], Some(e))
    ensures
      var r := HandleError(cfg, s1, e);
      r.phase == FAILED && s.book.settled <= r.book.settled && AllTold(r.book.settled[|s.book.settled|..], Some(e))
  {
    hide PipeOk, Line, AllTold, ClearAll, Summaries;
    ClearToldBy(s1.book.pipe, e);
    var d, n := ClearAll(s1.book.pipe, e), |s.book.settled|;
    AllToldJoin(s1.book.settled[n..], d.settled, Some(e));
    assert (s1.book.settled + d.settled)[n..] == s1.book.settled[n..] + d.settled;
  }

  lemma {:induction false} HearAllTells(cfg: Config, s: State, ms: seq<Message>, error: Option<ProtocolError>)
    requires s.phase == OPEN && PipeOk(s.book.pipe) && AllTold(Line(s.book.pipe), None)
    ensures ReadTells(s, HearAll(cfg, s, ms, error), |ms|, error)
    decreases |ms|
  {
    hide PipeOk, Line, AllTold, OnMessage, HearError, HandleError, Summaries, OpenSlots;
    OpenSlotsPositive(s.book.pipe);
    NoneTold(s.book.settled);
    if ms == [] {
      if error.Some? {
        var e := ProtocolFailure(error.value);
        ErrorTold(s.book, cfg.hooks, e);
        DropTold(cfg, s, s.(book := HearError(s.book, cfg.hooks, e)), e);
      }
    } else if s.book.pipe.awaiting == [] {
      NoOpenSlots();
      AllToldMore(Line(s.book.pipe), Some(ClientError(UnsolicitedMessage)));
      DropTold(cfg, s, s, ClientError(UnsolicitedMessage));
    } else {
      FrontHears(s.book.pipe, ms[0]);
      var s1 := s.(book := Hear(s.book, cfg.hooks, ms[0]));
      HearAllTells(cfg, s1, ms[1..], error);
      ToldLater(s, s1, HearAll(cfg, s, ms, error), OnMessage(s.book.pipe, ms[0]).settled, |ms|, error);
    }
  }

  lemma NoneTold(ws: seq<Waiting>)
    ensures forall e :: AllTold(ws[|ws|..], e)
  {
  }

  lemma NoOpenSlots()
    ensures OpenSlots([]) == 0
  {
  }

  lemma ToldLater(s: State, s1: State, r: State, ws: seq<Waiting>, messages: nat, error: Option<ProtocolError>)
    requires messages > 0 && ReadTells(s1, r, messages - 1, error) && s1.book.settled == s.book.settled + ws && AllTold(ws, None)
    requires OpenSlots(s1.book.pipe.awaiting) == OpenSlots(s.book.pipe.awaiting) - 1
    ensures ReadTells(s, r, messages, error)
  {
    hide AllTold, OpenSlots;
    var reason, n := FallReason(messages, OpenSlots(s.book.pipe.awaiting), error), |s.book.settled|;
    AllToldMore(ws, reason);
    AllToldJoin(ws, r.book.settled[|s1.book.settled|..], reason);
    assert r.book.settled[n..] == ws + r.book.settled[|s1.book.settled|..];
  }

  /** In an open connection nothing in line has been told of a fall yet. */
  lemma LineUntold(p: Pipe, e: Epoch, gen: nat)
    requires Books(p, e, gen)
    ensures PipeOk(p) && AllTold(Line(p), None)
  {
    LineOk(p);
    hide PipeOk, Line, TicketsOk, BytesOk, SlotFromMessage;
    forall i | 0 <= i < |Line(p)|
      ensures OnlyTold(Line(p)[i], None)
    {
      if i == 0 {
        assert Booked(Line(p)[0], e);
      }
    }
  }

  /**
   Reading on an open connection. With `ms` the messages of this read and `error` what ended it, the
   connection stays open exactly if no message comes without a reply being awaited and there is no
   error; if it falls, every slot this read did not fill with a message holds the reason.
   */
  lemma ReadsTellWhy(cfg: Config, s: State, chunk: bytes)
    requires Reachable(cfg, s) && Enabled(cfg, s, ReadEnd(chunk))
    ensures
      var d := Pump(s.core, s.unread + chunk, cfg.limits);
      s.phase == OPEN && ReadTells(s, Apply(cfg, s, ReadEnd(chunk)), |d.seen.trees|, d.seen.error)
  {
    hide Reachable, Balanced, HearingOk, DuesOk, OfferHeld, Gate, Seasoned, PipeOk, Line, HearAll, Pump, MessagesOf, Books, Shake, ReadTells, AllTold;
    SafeParts(cfg, s);
    ServingBooks(s.book, cfg.hooks);
    LineUntold(s.book.pipe, s.book.gens[|s.book.gens| - 1], |s.book.gens| - 1);
    var d := Pump(s.core, s.unread + chunk, cfg.limits);
    var s1 := s.(reading := Idle, core := d.core, unread := d.unread, book := Record(s.book, chunk));
    HearAllTells(cfg, s1, MessagesOf(d.seen.trees), d.seen.error);
    MessagesCount(d.seen.trees);
    ReadElsewhere(s, s1, Apply(cfg, s, ReadEnd(chunk)), |d.seen.trees|, d.seen.error);
  }

  lemma MessagesCount(ts: seq<Parsed>)
    ensures |MessagesOf(ts)| == |ts|
  {
  }

  lemma ReadElsewhere(s: State, s1: State, r: State, messages: nat, error: Option<ProtocolError>)
    requires ReadTells(s1, r, messages, error) && s1.book.settled == s.book.settled && s1.book.pipe == s.book.pipe
    ensures ReadTells(s, r, messages, error)
  {
    hide AllTold;
  }
}
