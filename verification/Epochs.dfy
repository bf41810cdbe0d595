/**
 The books of one connection generation: what was accepted, written and heard since the pipeline was
 last empty, and how the pipeline's two queues relate to it.
 */
module Epochs {
  import opened Bytes
  import opened Builder
  import opened Adapter
  import opened Sinks
  import opened Pipeline

  /** An accepted request: its reply slots are numbers `base` up to `base + size`. */
  datatype Ticket = Ticket(id: nat, base: nat, size: nat)

  /**
   `total` slots accepted so far; `wires` are all accepted bytes and `sent` the bytes the socket took;
   `chunks` are the reads and `heard` the messages delivered.
   */
  datatype Epoch = Epoch(tickets: seq<Ticket>, total: nat, wires: bytes, sent: bytes, chunks: seq<bytes>, heard: seq<Message>)

  const NEW_EPOCH := Epoch([], 0, [], [], [], [])

  /** In acceptance order, the tickets cut `0 .. total` into consecutive runs. */
  ghost predicate TicketsOk(ts: seq<Ticket>, total: nat) {
    (ts == [] ==> total == 0) &&
    (ts != [] ==> ts[0].base == 0 && ts[|ts| - 1].base + ts[|ts| - 1].size == total) &&
    (forall i, j :: 0 <= i < j < |ts| && j == i + 1 ==> ts[i].base + ts[i].size == ts[j].base && ts[i].id < ts[j].id)
  }

  ghost predicate Ticketed(w: Waiting, ts: seq<Ticket>) {
    w.tag.User? && Ticket(w.tag.id, w.tag.base, |w.sink.targets|) in ts
  }

  /** The requests in line hold the slots from the next one to be heard up to the last accepted. */
  ghost predicate Numbered(line: seq<Waiting>, heard: nat, total: nat, gen: nat) {
    (forall i :: 0 <= i < |line| ==> line[i].tag.User? && line[i].tag.gen == gen) &&
    (line == [] ==> heard == total) &&
    (line != [] ==> line[0].tag.base + |line[0].sink.slots| == heard &&
                    line[|line| - 1].tag.base + |line[|line| - 1].sink.targets| == total) &&
    (forall i, j :: 0 <= i < j < |line| && j == i + 1 ==> line[i].tag.base + |line[i].sink.targets| == line[j].tag.base)
  }

  /** Slot `base + i` holds message `base + i`, and an error of the client if there is no such message. */
  ghost predicate Matches(w: Waiting, heard: seq<Message>) {
    w.tag.User? && SinkOk(w.sink) &&
    forall i :: 0 <= i < |w.sink.slots| ==>
      if w.tag.base + i < |heard| then w.sink.slots[i] == SlotFromMessage(heard[w.tag.base + i], w.sink.targets[i])
      else Aborted(w.sink.slots[i])
  }

  ghost predicate Booked(w: Waiting, e: Epoch) {
    Matches(w, e.heard) && Ticketed(w, e.tickets)
  }

  /** A request that has all its replies. */
  ghost predicate Answered(w: Waiting, e: Epoch) {
    Booked(w, e) && Complete(w.sink) && w.tag.base + |w.sink.targets| <= |e.heard|
  }

  ghost predicate LineBooked(line: seq<Waiting>, e: Epoch) {
    forall i :: 0 <= i < |line| ==> Booked(line[i], e)
  }

  ghost predicate BytesOk(p: Pipe, e: Epoch)
    requires PipeOk(p)
  {
    e.sent + Owed(p) == e.wires
  }

  ghost predicate Books(p: Pipe, e: Epoch, gen: nat) {
    PipeOk(p) && Numbered(Line(p), |e.heard|, e.total, gen) && LineBooked(Line(p), e) && TicketsOk(e.tickets, e.total) && BytesOk(p, e)
  }

  // ----- the moves, with their entries -----

  function Entering(id: nat, gen: nat, e: Epoch, targets: seq<Target>, deadline: Option<int>): Waiting {
    Waiting(User(id, gen, e.total), Sink(targets, []), deadline)
  }

  function Accepted(e: Epoch, id: nat, targets: seq<Target>, wire: bytes): Epoch {
    e.(tickets := e.tickets + [Ticket(id, e.total, |targets|)], total := e.total + |targets|, wires := e.wires + wire)
  }

  function Sent(e: Epoch, b: bytes): Epoch {
    e.(sent := e.sent + b)
  }

  function Heard(e: Epoch, m: Message): Epoch {
    e.(heard := e.heard + [m])
  }

  lemma BooksOpen(p: Pipe, gen: nat)
    requires PipeOk(p) && Line(p) == []
    ensures Books(p, NEW_EPOCH, gen)
  {
    assert p.pending == [];
  }

  lemma TicketsGrow(ts: seq<Ticket>, total: nat, id: nat, size: nat)
    requires TicketsOk(ts, total) && forall i :: 0 <= i < |ts| ==> ts[i].id < id
    ensures TicketsOk(ts + [Ticket(id, total, size)], total + size)
  {
  }

  lemma BookedStays(w: Waiting, e: Epoch, id: nat, targets: seq<Target>, wire: bytes)
    requires Booked(w, e)
    ensures Booked(w, Accepted(e, id, targets, wire))
  {
  }

  lemma AcceptKeeps(p: Pipe, e: Epoch, gen: nat, id: nat, targets: seq<Target>, wire: bytes, deadline: Option<int>)
    requires Books(p, e, gen) && HasRoom(p, wire) && |targets| >= 1 && forall i :: 0 <= i < |e.tickets| ==> e.tickets[i].id < id
    ensures Books(Push(p, Entering(id, gen, e, targets, deadline), wire), Accepted(e, id, targets, wire), gen)
  {
    hide PipeOk, Owed, Line, LineBooked, Numbered, TicketsOk;
    var w := Entering(id, gen, e, targets, deadline);
    var e' := Accepted(e, id, targets, wire);
    PushKeeps(p, w, wire);
    TicketsGrow(e.tickets, e.total, id, |targets|);
    LineAccepts(Line(p), w, e, id, targets, wire);
    NumberedGrows(Line(p), |e.heard|, e.total, gen, w);
    assert e.sent + (Owed(p) + wire) == e.sent + Owed(p) + wire;
  }

  lemma NumberedGrows(line: seq<Waiting>, heard: nat, total: nat, gen: nat, w: Waiting)
    requires Numbered(line, heard, total, gen) && w.tag.User? && w.tag.gen == gen && w.tag.base == total && w.sink.slots == []
    ensures Numbered(line + [w], heard, total + |w.sink.targets|, gen)
  {
  }

  lemma LineAccepts(line: seq<Waiting>, w: Waiting, e: Epoch, id: nat, targets: seq<Target>, wire: bytes)
    requires LineBooked(line, e) && |targets| >= 1 && w.tag.User? && w.tag.id == id && w.tag.base == e.total && w.sink == Sink(targets, [])
    ensures LineBooked(line + [w], Accepted(e, id, targets, wire))
  {
    hide Booked;
    var e' := Accepted(e, id, targets, wire);
    forall i | 0 <= i < |line|
      ensures Booked(line[i], e')
    {
      BookedStays(line[i], e, id, targets, wire);
    }
    NewBooked(w, e', Ticket(id, e.total, |targets|));
  }

  lemma NewBooked(w: Waiting, e: Epoch, t: Ticket)
    requires w.tag.User? && w.sink.slots == [] && |w.sink.targets| >= 1
    requires t == Ticket(w.tag.id, w.tag.base, |w.sink.targets|) && t in e.tickets
    ensures Booked(w, e)
  {
  }

  lemma SentKeeps(p: Pipe, e: Epoch, gen: nat, n: nat)
    requires Books(p, e, gen) && p.pending != [] && n <= |Offer(p)|
    ensures n <= p.pendingBytes && Books(WriteDone(p, n), Sent(e, Offer(p)[..n]), gen)
  {
    hide PipeOk, Owed, Matches, TicketsOk, Numbered, Line;
    OfferOk(p);
    WriteKeeps(p, n);
    var rest := Owed(p);
    assert e.sent + rest[..n] + rest[n..] == e.sent + rest;
  }

  /** No request in line was passed over: its next slot is not before the next message. */
  lemma {:induction false} Ahead(line: seq<Waiting>, heard: nat, total: nat, gen: nat, i: nat)
    requires Numbered(line, heard, total, gen) && i < |line|
    requires forall k :: 0 <= k < |line| ==> |line[k].sink.slots| <= |line[k].sink.targets|
    requires forall k :: 0 < k < |line| ==> line[k].sink.slots == []
    ensures line[i].tag.base + |line[i].sink.slots| >= heard
  {
    if i > 0 {
      Ahead(line, heard, total, gen, i - 1);
      var j := i - 1;
      assert line[j].tag.base + |line[j].sink.targets| == line[i].tag.base;
    }
  }

  lemma MatchesMore(w: Waiting, heard: seq<Message>, m: Message)
    requires Matches(w, heard) && (w.tag.base + |w.sink.slots| <= |heard| || w.sink.slots == [])
    ensures Matches(w, heard + [m])
  {
    hide SlotFromMessage, Visits;
  }

  /** The next message fills the next slot. */
  lemma FrontMatches(w: Waiting, heard: seq<Message>, m: Message)
    requires Matches(w, heard) && w.tag.base + |w.sink.slots| == |heard| && !Complete(w.sink)
    ensures Matches(w.(sink := Accept(w.sink, m)), heard + [m]) && SinkOk(Accept(w.sink, m))
  {
    hide SlotFromMessage, Visits;
  }

  lemma NumberedPop(line: seq<Waiting>, heard: nat, total: nat, gen: nat)
    requires Numbered(line, heard, total, gen) && line != []
    requires |line[0].sink.slots| + 1 == |line[0].sink.targets|
    requires forall k :: 0 < k < |line| ==> line[k].sink.slots == []
    ensures Numbered(line[1..], heard + 1, total, gen)
  {
    if |line| > 1 {
      var z := 0;
      assert line[z].tag.base + |line[z].sink.targets| == line[1].tag.base;
    }
  }

  lemma NumberedStep(line: seq<Waiting>, heard: nat, total: nat, gen: nat, slot: Sinks.Slot)
    requires Numbered(line, heard, total, gen) && line != []
    ensures Numbered(line[0 := line[0].(sink := Fill(line[0].sink, slot))], heard + 1, total, gen)
  {
  }

  lemma HeardKeeps(p: Pipe, e: Epoch, gen: nat, m: Message)
    requires Books(p, e, gen) && p.awaiting != []
    ensures
      var d := OnMessage(p, m);
      Books(d.pipe, Heard(e, m), gen) && forall w :: w in d.settled ==> Answered(w, Heard(e, m)) && w.tag.gen == gen
  {
    hide PipeOk, Owed, Matches, TicketsOk, Numbered, SlotFromMessage, Visits;
    LineOk(p);
    var line, w := Line(p), p.awaiting[0];
    assert line[0] == w && Booked(w, e);
    var s := Accept(w.sink, m);
    NumberedFront(line, |e.heard|, e.total, gen);
    FrontMatches(w, e.heard, m);
    FrontKeeps(p, s);
    var d := UpdateFront(p, s);
    forall i | 0 < i < |line|
      ensures Booked(line[i], Heard(e, m))
    {
      MatchesMore(line[i], e.heard, m);
    }
    if Complete(s) {
      NumberedPop(line, |e.heard|, e.total, gen);
    } else {
      NumberedStep(line, |e.heard|, e.total, gen, SlotFromMessage(m, w.sink.targets[|w.sink.slots|]));
    }
  }

  lemma NumberedFront(line: seq<Waiting>, heard: nat, total: nat, gen: nat)
    requires Numbered(line, heard, total, gen) && line != []
    ensures line[0].tag.User? && line[0].tag.gen == gen && line[0].tag.base + |line[0].sink.slots| == heard
  {
  }

  // ----- the end of a generation -----

  /** A request that is finished one way or the other. */
  ghost predicate Settled(w: Waiting, e: Epoch) {
    Booked(w, e) && Complete(w.sink)
  }

  /** What is left open lies beyond the messages heard. */
  ghost predicate Unheard(line: seq<Waiting>, e: Epoch) {
    forall i :: 0 <= i < |line| ==> Booked(line[i], e) && line[i].tag.base + |line[i].sink.slots| >= |e.heard|
  }

  lemma BooksUnheard(p: Pipe, e: Epoch, gen: nat)
    requires Books(p, e, gen)
    ensures Unheard(Line(p), e)
  {
    LineOk(p);
    hide PipeOk, Line, Booked, Numbered, TicketsOk, BytesOk;
    forall i | 0 <= i < |Line(p)|
      ensures Line(p)[i].tag.User? && Line(p)[i].tag.base + |Line(p)[i].sink.slots| >= |e.heard|
    {
      Ahead(Line(p), |e.heard|, e.total, gen, i);
      BookedUser(Line(p)[i], e);
    }
  }

  lemma BookedUser(w: Waiting, e: Epoch)
    requires Booked(w, e)
    ensures w.tag.User? && SinkOk(w.sink)
  {
  }

  lemma FailSettles(w: Waiting, e: Epoch, err: ErrorInfo)
    requires Booked(w, e) && w.tag.base + |w.sink.slots| >= |e.heard| && ClientSide(err)
    ensures Settled(w.(sink := FailAll(w.sink, err)), e)
  {
    hide SlotFromMessage, Visits;
  }

  lemma ClearSettles(p: Pipe, e: Epoch, err: ErrorInfo)
    requires PipeOk(p) && Unheard(Line(p), e) && ClientSide(err)
    ensures forall w :: w in ClearAll(p, err).settled ==> Settled(w, e)
  {
    hide Booked, Settled, PipeOk, ClientSide;
    var n := |p.awaiting|;
    forall w | w in ClearAll(p, err).settled
      ensures Settled(w, e)
    {
      var i :| 0 <= i < |ClearAll(p, err).settled| && ClearAll(p, err).settled[i] == w;
      var k := if i < |p.pending| then n + i else i - |p.pending|;
      ClearedAt(p, err, i, k);
      hide ClearAll, Line;
      BookedUser(Line(p)[k], e);
      FailSettles(Line(p)[k], e, err);
    }
  }

  /** What is cleared `i`-th stood `k`-th in line. */
  lemma ClearedAt(p: Pipe, err: ErrorInfo, i: nat, k: nat)
    requires i < |ClearAll(p, err).settled| && k == if i < |p.pending| then |p.awaiting| + i else i - |p.pending|
    ensures k < |Line(p)| && ClearAll(p, err).settled[i] == Line(p)[k].(sink := FailAll(Line(p)[k].sink, err))
  {
  }

  lemma ErrorMatches(w: Waiting, e: Epoch, err: ErrorInfo)
    requires Booked(w, e) && w.tag.base + |w.sink.slots| >= |e.heard| && !Complete(w.sink) && ClientSide(err)
    ensures Booked(w.(sink := AcceptError(w.sink, err)), e) && SinkOk(AcceptError(w.sink, err))
  {
    hide SlotFromMessage, Visits;
  }

  /** A protocol error goes to the request waiting in front, and the line stays unheard. */
  lemma ErrorKeeps(p: Pipe, e: Epoch, err: ErrorInfo)
    requires PipeOk(p) && Unheard(Line(p), e) && p.awaiting != [] && ClientSide(err)
    ensures
      var d := OnError(p, err);
      PipeOk(d.pipe) && Unheard(Line(d.pipe), e) && forall w :: w in d.settled ==> Settled(w, e)
  {
    hide PipeOk, Booked, ClientSide;
    LineOk(p);
    var w := p.awaiting[0];
    assert Line(p)[0] == w;
    BookedUser(w, e);
    ErrorMatches(w, e, err);
    FrontKeeps(p, AcceptError(w.sink, err));
  }

  // ----- every request is in one place -----

  function IdOf(w: Waiting): multiset<nat> {
    match w.tag
    case Handshake => multiset{}
    case User(id, _, _) => multiset{id}
    case Refused(id) => multiset{id}
  }

  /** The user requests among `ws`. */
  function Ids(ws: seq<Waiting>): multiset<nat> {
    if ws == [] then multiset{} else Ids(ws[..|ws| - 1]) + IdOf(ws[|ws| - 1])
  }

  lemma {:induction false} IdsConcat(a: seq<Waiting>, b: seq<Waiting>)
    ensures Ids(a + b) == Ids(a) + Ids(b)
    decreases |b|
  {
    if b == [] {
      assert a + b == a;
    } else {
      assert (a + b)[..|a + b| - 1] == a + b[..|b| - 1];
      IdsConcat(a, b[..|b| - 1]);
    }
  }

  lemma {:induction false} SameIds(a: seq<Waiting>, b: seq<Waiting>)
    requires |a| == |b| && forall i :: 0 <= i < |a| ==> a[i].tag == b[i].tag
    ensures Ids(a) == Ids(b)
    decreases |a|
  {
    if a != [] {
      SameIds(a[..|a| - 1], b[..|b| - 1]);
    }
  }

  lemma IdsOne(w: Waiting)
    ensures Ids([w]) == IdOf(w)
  {
    assert [w][..0] == [];
  }

  lemma PushIds(p: Pipe, w: Waiting, wire: bytes)
    ensures Ids(Line(Push(p, w, wire))) == Ids(Line(p)) + IdOf(w)
  {
    assert Line(Push(p, w, wire)) == Line(p) + [w];
    hide Ids, Line;
    IdsConcat(Line(p), [w]);
    IdsOne(w);
  }

  lemma FrontIds(p: Pipe, s: Sink)
    requires p.awaiting != []
    ensures
      var d := UpdateFront(p, s);
      Ids(Line(p)) == Ids(d.settled) + Ids(Line(d.pipe))
  {
    var d, w := UpdateFront(p, s), p.awaiting[0].(sink := s);
    if Complete(s) {
      SameIds(Line(p), [w] + Line(d.pipe));
      hide Ids, Line;
      IdsConcat([w], Line(d.pipe));
    } else {
      SameIds(Line(p), Line(d.pipe));
      assert Ids([]) == multiset{};
    }
  }

  lemma ClearIds(p: Pipe, e: ErrorInfo)
    ensures Ids(ClearAll(p, e).settled) == Ids(Line(p))
  {
    hide Ids;
    var a, b := Fail(Pipeline.Waits(p.pending), e), Fail(p.awaiting, e);
    IdsConcat(a, b);
    IdsConcat(p.awaiting, Pipeline.Waits(p.pending));
    SameIds(a, Pipeline.Waits(p.pending));
    SameIds(b, p.awaiting);
  }

  // ----- every accepted slot has an owner -----

  /** The same request at another moment. */
  predicate Kin(w: Waiting, v: Waiting) {
    w.tag == v.tag && |w.sink.targets| == |v.sink.targets|
  }

  ghost predicate Among(w: Waiting, vs: seq<Waiting>) {
    exists j :: 0 <= j < |vs| && Kin(w, vs[j])
  }

  /** Every request of `ws` is still among `vs`. */
  ghost predicate Covers(ws: seq<Waiting>, vs: seq<Waiting>) {
    forall i :: 0 <= i < |ws| ==> Among(ws[i], vs)
  }

  /** `w` is the request that was given ticket `t` in generation `g`. */
  predicate Owns(w: Waiting, t: Ticket, g: nat) {
    w.tag == User(t.id, g, t.base) && |w.sink.targets| == t.size
  }

  ghost predicate Owned(t: Ticket, g: nat, ws: seq<Waiting>) {
    exists j :: 0 <= j < |ws| && Owns(ws[j], t, g)
  }

  ghost predicate AllOwned(gens: seq<Epoch>, ws: seq<Waiting>) {
    forall g, i :: 0 <= g < |gens| && 0 <= i < |gens[g].tickets| ==> Owned(gens[g].tickets[i], g, ws)
  }

  ghost predicate SameTickets(a: seq<Epoch>, b: seq<Epoch>) {
    |a| == |b| && forall g :: 0 <= g < |a| ==> a[g].tickets == b[g].tickets
  }

  lemma OwnedMoves(t: Ticket, g: nat, ws: seq<Waiting>, vs: seq<Waiting>)
    requires Owned(t, g, ws) && Covers(ws, vs)
    ensures Owned(t, g, vs)
  {
    var i :| 0 <= i < |ws| && Owns(ws[i], t, g);
    assert Among(ws[i], vs);
    var j :| 0 <= j < |vs| && Kin(ws[i], vs[j]);
    assert Owns(vs[j], t, g);
  }

  lemma AllOwnedMoves(a: seq<Epoch>, b: seq<Epoch>, ws: seq<Waiting>, vs: seq<Waiting>)
    requires AllOwned(a, ws) && SameTickets(a, b) && Covers(ws, vs)
    ensures AllOwned(b, vs)
  {
    hide Owned, Covers;
    forall g, i | 0 <= g < |b| && 0 <= i < |b[g].tickets|
      ensures Owned(b[g].tickets[i], g, vs)
    {
      assert Owned(a[g].tickets[i], g, ws);
      OwnedMoves(a[g].tickets[i], g, ws, vs);
    }
  }

  lemma CoversMore(ws: seq<Waiting>, before: seq<Waiting>, after: seq<Waiting>)
    ensures Covers(ws, before + ws + after)
  {
    var vs := before + ws + after;
    forall i | 0 <= i < |ws|
      ensures Among(ws[i], vs)
    {
      assert Kin(ws[i], vs[|before| + i]);
    }
  }

  lemma CoversTrans(a: seq<Waiting>, b: seq<Waiting>, c: seq<Waiting>)
    requires Covers(a, b) && Covers(b, c)
    ensures Covers(a, c)
  {
    forall i | 0 <= i < |a|
      ensures Among(a[i], c)
    {
      assert Among(a[i], b);
      var k :| 0 <= k < |b| && Kin(a[i], b[k]);
      assert Among(b[k], c);
      var j :| 0 <= j < |c| && Kin(b[k], c[j]);
      assert Kin(a[i], c[j]);
    }
  }

  lemma CoversBoth(a: seq<Waiting>, b: seq<Waiting>, c: seq<Waiting>)
    requires Covers(a, c) && Covers(b, c)
    ensures Covers(a + b, c)
  {
    forall i | 0 <= i < |a + b|
      ensures Among((a + b)[i], c)
    {
      if i < |a| {
        assert (a + b)[i] == a[i];
      } else {
        assert (a + b)[i] == b[i - |a|];
      }
    }
  }

  /** If a delivery loses nobody in line, nobody is lost. */
  lemma CoversSettled(settled: seq<Waiting>, line: seq<Waiting>, more: seq<Waiting>, line': seq<Waiting>)
    requires Covers(line, more + line')
    ensures Covers(settled + line, settled + more + line')
  {
    hide Covers;
    var all := settled + more + line';
    assert all == [] + settled + (more + line') && all == settled + (more + line') + [];
    CoversMore(settled, [], more + line');
    CoversMore(more + line', settled, []);
    CoversTrans(line, more + line', all);
    CoversBoth(settled, line, all);
  }

  lemma SameKin(ws: seq<Waiting>, vs: seq<Waiting>)
    requires |ws| == |vs| && forall i :: 0 <= i < |ws| ==> Kin(ws[i], vs[i])
    ensures Covers(ws, vs)
  {
    forall i | 0 <= i < |ws|
      ensures Among(ws[i], vs)
    {
      assert Kin(ws[i], vs[i]);
    }
  }

  lemma FrontCovers(p: Pipe, s: Sink)
    requires p.awaiting != [] && |s.targets| == |p.awaiting[0].sink.targets|
    ensures
      var d := UpdateFront(p, s);
      Covers(Line(p), d.settled + Line(d.pipe))
  {
    var d := UpdateFront(p, s);
    SameKin(Line(p), d.settled + Line(d.pipe));
  }

  lemma FailCovers(ws: seq<Waiting>, e: ErrorInfo)
    ensures Covers(ws, Fail(ws, e))
  {
    SameKin(ws, Fail(ws, e));
  }

  lemma CoversCrosswise(a: seq<Waiting>, b: seq<Waiting>, a': seq<Waiting>, b': seq<Waiting>)
    requires Covers(a, a') && Covers(b, b')
    ensures Covers(a + b, b' + a')
  {
    hide Covers;
    var all := b' + a';
    assert all == b' + a' + [] && all == [] + b' + a';
    CoversMore(a', b', []);
    CoversMore(b', [], a');
    CoversTrans(a, a', all);
    CoversTrans(b, b', all);
    CoversBoth(a, b, all);
  }

  lemma ClearCovers(p: Pipe, e: ErrorInfo)
    ensures Covers(Line(p), ClearAll(p, e).settled + Line(ClearAll(p, e).pipe))
  {
    hide Covers;
    FailCovers(p.awaiting, e);
    FailCovers(Pipeline.Waits(p.pending), e);
    CoversCrosswise(p.awaiting, Pipeline.Waits(p.pending), Fail(p.awaiting, e), Fail(Pipeline.Waits(p.pending), e));
    var d := ClearAll(p, e);
    assert d.settled + Line(d.pipe) == d.settled;
  }

  /** No more messages were delivered than slots accepted. */
  lemma HeardBound(p: Pipe, e: Epoch, gen: nat)
    requires Books(p, e, gen)
    ensures |e.heard| <= e.total
  {
    LineOk(p);
    hide PipeOk, Line, LineBooked, TicketsOk, BytesOk;
    var line := Line(p);
    if line != [] {
      Ahead(line, |e.heard|, e.total, gen, |line| - 1);
    }
  }

  /** Every slot accepted belongs to exactly the run of one ticket. */
  lemma {:induction false} TicketOfSlot(ts: seq<Ticket>, total: nat, n: nat) returns (i: nat)
    requires TicketsOk(ts, total) && n < total
    ensures i < |ts| && ts[i].base <= n < ts[i].base + ts[i].size
    decreases |ts|
  {
    var last := |ts| - 1;
    if ts[last].base <= n {
      i := last;
    } else {
      var before := ts[..last];
      if last > 0 {
        var prev := last - 1;
        assert ts[prev].base + ts[prev].size == ts[last].base;
      }
      i := TicketOfSlot(before, ts[last].base, n);
    }
  }
}
