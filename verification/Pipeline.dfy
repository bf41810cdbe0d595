/**
 The request pipeline (detail/pipeline.hpp, impl/pipeline.ipp): requests wait to be written, then
 wait for their replies, in order. The functions say what each operation does to the two queues;
 module `PipelineObject` holds the stateful form.
 */
module Pipeline {
  import opened Bytes
  import opened Builder
  import opened Sinks

  /**
   Whose request it is. For a user request: its number, the connection generation that accepted it
   and the position of its first reply slot among all slots accepted in that generation; only its
   number if it was refused. The pipeline itself never looks at it.
   */
  datatype Tag = Handshake | User(id: nat, gen: nat, base: nat) | Refused(id: nat)

  /** A deadline of `None` is `time_point::max()`: no timeout. */
  datatype Waiting = Waiting(tag: Tag, sink: Sink, deadline: Option<int>)

  datatype PendingItem = PendingItem(waiting: Waiting, wire: bytes, written: nat)

  datatype Pipe = Pipe(
    pending: seq<PendingItem>, awaiting: seq<Waiting>, pendingBytes: nat, maxRequests: nat, maxBytes: nat)

  function Empty(maxRequests: nat, maxBytes: nat): Pipe {
    Pipe([], [], 0, maxRequests, maxBytes)
  }

  // ----- operations -----

  predicate HasRoom(p: Pipe, wire: bytes) {
    |p.pending| + |p.awaiting| < p.maxRequests && |wire| <= p.maxBytes && p.pendingBytes <= p.maxBytes - |wire|
  }

  function Push(p: Pipe, w: Waiting, wire: bytes): Pipe {
    p.(pending := p.pending + [PendingItem(w, wire, 0)], pendingBytes := p.pendingBytes + |wire|)
  }

  /** What `next_write_buffer` offers to the socket. */
  function Offer(p: Pipe): bytes
    requires p.pending != [] && p.pending[0].written <= |p.pending[0].wire|
  {
    p.pending[0].wire[p.pending[0].written..]
  }

  function WriteDone(p: Pipe, n: nat): Pipe
    requires p.pending != [] && n <= p.pendingBytes
  {
    var front := p.pending[0];
    var left := p.pendingBytes - n;
    if front.written + n == |front.wire| then
      p.(awaiting := p.awaiting + [front.waiting], pending := p.pending[1..], pendingBytes := left)
    else
      p.(pending := p.pending[0 := front.(written := front.written + n)], pendingBytes := left)
  }

  /** The pipeline after some deliveries, and the requests they completed. */
  datatype Delivery = Delivery(pipe: Pipe, settled: seq<Waiting>)

  /** The sink at the front has become `s`. */
  function UpdateFront(p: Pipe, s: Sink): Delivery
    requires p.awaiting != []
  {
    var w := p.awaiting[0].(sink := s);
    if Complete(s) then Delivery(p.(awaiting := p.awaiting[1..]), [w])
    else Delivery(p.(awaiting := p.awaiting[0 := w]), [])
  }

  function OnMessage(p: Pipe, m: Message): Delivery
    requires p.awaiting != []
  {
    UpdateFront(p, Accept(p.awaiting[0].sink, m))
  }

  function OnError(p: Pipe, e: ErrorInfo): Delivery
    requires p.awaiting != []
  {
    UpdateFront(p, AcceptError(p.awaiting[0].sink, e))
  }

  function Fail(ws: seq<Waiting>, e: ErrorInfo): (r: seq<Waiting>)
    ensures |r| == |ws| && forall i :: 0 <= i < |ws| ==> r[i] == ws[i].(sink := FailAll(ws[i].sink, e))
  {
    seq(|ws|, i requires 0 <= i < |ws| => ws[i].(sink := FailAll(ws[i].sink, e)))
  }

  lemma FailNone(e: ErrorInfo)
    ensures Fail([], e) == []
  {
  }

  lemma FailNext(ws: seq<Waiting>, k: nat, e: ErrorInfo)
    requires k < |ws|
    ensures Fail(ws[..k + 1], e) == Fail(ws[..k], e) + [ws[k].(sink := FailAll(ws[k].sink, e))]
  {
    hide FailAll;
  }

  /** Every request fails: those not yet written first, then those waiting for replies. */
  function ClearAll(p: Pipe, e: ErrorInfo): Delivery {
    Delivery(p.(pending := [], awaiting := [], pendingBytes := 0), Fail(Waits(p.pending), e) + Fail(p.awaiting, e))
  }

  function Earlier(a: Option<int>, b: Option<int>): Option<int> {
    if a.None? then b else if b.None? then a else if b.value < a.value then b else a
  }

  function NextDeadline(p: Pipe): Option<int> {
    Earlier(
      if p.pending == [] then None else p.pending[0].waiting.deadline,
      if p.awaiting == [] then None else p.awaiting[0].deadline)
  }

  // ----- the whole line, from the next reply to the last request accepted -----

  function Waits(ps: seq<PendingItem>): (ws: seq<Waiting>)
    ensures |ws| == |ps| && forall i :: 0 <= i < |ps| ==> ws[i] == ps[i].waiting
  {
    seq(|ps|, i requires 0 <= i < |ps| => ps[i].waiting)
  }

  lemma WaitsFirst(ps: seq<PendingItem>)
    ensures |Waits(ps)| == |ps| && (ps != [] ==> Waits(ps)[0] == ps[0].waiting)
  {
  }

  lemma WaitsTail(ps: seq<PendingItem>)
    requires ps != []
    ensures Waits(ps[1..]) == Waits(ps)[1..]
  {
  }

  function Line(p: Pipe): seq<Waiting> {
    p.awaiting + Waits(p.pending)
  }

  lemma LineSize(p: Pipe)
    ensures |Line(p)| == |p.awaiting| + |p.pending|
  {
  }

  /** No request has been written beyond its end. */
  ghost predicate Counted(ps: seq<PendingItem>) {
    forall i :: 0 <= i < |ps| ==> ps[i].written <= |ps[i].wire|
  }

  /** The bytes still to be written, in order. */
  function Unwritten(ps: seq<PendingItem>): bytes
    requires Counted(ps)
  {
    if ps == [] then [] else ps[0].wire[ps[0].written..] + Unwritten(ps[1..])
  }

  /** What holds between any two operations. */
  ghost predicate PipeOk(p: Pipe) {
    Counted(p.pending) &&
    (forall i :: 0 < i < |p.pending| ==> p.pending[i].written == 0) &&
    (forall i :: 0 <= i < |p.pending| ==> |p.pending[i].waiting.sink.targets| >= 1 && p.pending[i].waiting.sink.slots == []) &&
    (forall i :: 0 <= i < |p.awaiting| ==> SinkOk(p.awaiting[i].sink) && !Complete(p.awaiting[i].sink)) &&
    (forall i :: 0 < i < |p.awaiting| ==> p.awaiting[i].sink.slots == []) &&
    p.pendingBytes == |Unwritten(p.pending)| <= p.maxBytes &&
    |p.pending| + |p.awaiting| <= p.maxRequests
  }

  ghost function Owed(p: Pipe): bytes
    requires PipeOk(p)
  {
    Unwritten(p.pending)
  }

  lemma {:induction false} UnwrittenSnoc(ps: seq<PendingItem>, q: PendingItem)
    requires Counted(ps)
    requires q.written <= |q.wire|
    ensures Unwritten(ps + [q]) == Unwritten(ps) + q.wire[q.written..]
    decreases |ps|
  {
    if ps == [] {
      assert ps + [q] == [q] && [q][1..] == [];
    } else {
      assert (ps + [q])[1..] == ps[1..] + [q];
      UnwrittenSnoc(ps[1..], q);
    }
  }

  lemma PushKeeps(p: Pipe, w: Waiting, wire: bytes)
    requires PipeOk(p) && HasRoom(p, wire) && |w.sink.targets| >= 1 && w.sink.slots == []
    ensures PipeOk(Push(p, w, wire)) && Line(Push(p, w, wire)) == Line(p) + [w]
    ensures Owed(Push(p, w, wire)) == Owed(p) + wire
  {
    UnwrittenSnoc(p.pending, PendingItem(w, wire, 0));
    hide Unwritten;
  }

  lemma UnwrittenFirst(ps: seq<PendingItem>)
    requires Counted(ps) && ps != []
    ensures Counted(ps[1..]) && Unwritten(ps) == ps[0].wire[ps[0].written..] + Unwritten(ps[1..])
  {
  }

  lemma DropConcat(a: bytes, b: bytes, n: nat)
    requires n <= |a|
    ensures (a + b)[n..] == a[n..] + b
  {
  }

  /** The front request is finished. */
  lemma FrontFinished(ps: seq<PendingItem>)
    requires Counted(ps) && ps != []
    ensures Counted(ps[1..]) && Unwritten(ps[1..]) == Unwritten(ps)[|ps[0].wire| - ps[0].written..]
  {
    hide Counted, Unwritten;
    UnwrittenFirst(ps);
    assert Counted(ps) && ps[0].written <= |ps[0].wire| by {
      FirstCounted(ps);
    }
    DropConcat(ps[0].wire[ps[0].written..], Unwritten(ps[1..]), |ps[0].wire| - ps[0].written);
  }

  lemma FirstCounted(ps: seq<PendingItem>)
    requires Counted(ps) && ps != []
    ensures ps[0].written <= |ps[0].wire|
  {
  }

  /** The front request has `n` bytes less to write. */
  lemma FrontAdvances(ps: seq<PendingItem>, n: nat)
    requires Counted(ps) && ps != [] && ps[0].written + n <= |ps[0].wire|
    ensures
      var qs := ps[0 := ps[0].(written := ps[0].written + n)];
      Counted(qs) && Unwritten(qs) == Unwritten(ps)[n..]
  {
    var front := ps[0].(written := ps[0].written + n);
    var qs := ps[0 := front];
    assert Counted(qs) && qs[1..] == ps[1..] && qs[0] == front;
    hide Counted, Unwritten;
    UnwrittenFirst(ps);
    UnwrittenFirst(qs);
    DropConcat(ps[0].wire[ps[0].written..], Unwritten(ps[1..]), n);
    DropAgain(ps[0].wire, ps[0].written, n);
  }

  lemma DropAgain(b: bytes, m: nat, n: nat)
    requires m + n <= |b|
    ensures b[m..][n..] == b[m + n..]
  {
  }

  lemma WriteRest(p: Pipe, n: nat)
    requires PipeOk(p) && p.pending != [] && n <= |Offer(p)|
    ensures n <= p.pendingBytes
    ensures Counted(WriteDone(p, n).pending) && Unwritten(WriteDone(p, n).pending) == Unwritten(p.pending)[n..]
  {
    hide Counted, Unwritten;
    PipeCounted(p);
    FirstCounted(p.pending);
    UnwrittenFirst(p.pending);
    if p.pending[0].written + n == |p.pending[0].wire| {
      FrontFinished(p.pending);
    } else {
      FrontAdvances(p.pending, n);
    }
  }

  lemma OfferCounted(p: Pipe, n: nat)
    requires PipeOk(p) && OffersAtLeast(p, n)
    ensures n <= p.pendingBytes
  {
    hide Counted, Unwritten;
    PipeCounted(p);
    UnwrittenFirst(p.pending);
  }

  /** `n` bytes can be taken from what is offered. */
  predicate OffersAtLeast(p: Pipe, n: nat) {
    p.pending != [] && p.pending[0].written <= |p.pending[0].wire| && n <= |Offer(p)|
  }

  lemma PipeCounted(p: Pipe)
    requires PipeOk(p)
    ensures Counted(p.pending) && p.pendingBytes == |Unwritten(p.pending)|
  {
    hide Unwritten;
  }

  /** Nobody changes place, whether or not the front request is finished. */
  lemma WriteLine(p: Pipe, n: nat)
    requires p.pending != [] && n <= p.pendingBytes
    ensures Line(WriteDone(p, n)) == Line(p)
  {
    var q := WriteDone(p, n);
    if p.pending[0].written + n == |p.pending[0].wire| {
      assert q.awaiting + Waits(q.pending) == p.awaiting + Waits(p.pending);
    } else {
      assert Waits(q.pending) == Waits(p.pending);
    }
  }

  /** `n` written bytes are the next `n` of the line. */
  lemma WriteKeeps(p: Pipe, n: nat)
    requires PipeOk(p) && p.pending != [] && n <= |Offer(p)|
    ensures n <= p.pendingBytes && PipeOk(WriteDone(p, n)) && Line(WriteDone(p, n)) == Line(p)
    ensures n <= |Owed(p)| && Offer(p)[..n] == Owed(p)[..n] && Owed(WriteDone(p, n)) == Owed(p)[n..]
  {
    hide PipeOk, Owed, Line;
    OfferIsNext(p);
    WriteRest(p, n);
    WriteLine(p, n);
    WriteOk(p, n);
  }

  lemma WriteOk(p: Pipe, n: nat)
    requires PipeOk(p) && p.pending != [] && n <= p.pendingBytes && n <= |Offer(p)|
    requires Counted(WriteDone(p, n).pending)
    requires Unwritten(WriteDone(p, n).pending) == Unwritten(p.pending)[n..]
    ensures PipeOk(WriteDone(p, n)) && Owed(WriteDone(p, n)) == Owed(p)[n..]
  {
    hide Unwritten;
  }

  lemma OfferOk(p: Pipe)
    requires PipeOk(p) && p.pending != []
    ensures p.pending[0].written <= |p.pending[0].wire|
  {
  }

  lemma OfferIsNext(p: Pipe)
    requires PipeOk(p) && p.pending != []
    ensures p.pending[0].written <= |p.pending[0].wire| && Offer(p) <= Owed(p) == Unwritten(p.pending)
  {
  }

  /** A delivery concerns the front of the line only. */
  lemma FrontKeeps(p: Pipe, s: Sink)
    requires PipeOk(p) && p.awaiting != [] && SinkOk(s)
    ensures
      var d := UpdateFront(p, s);
      var w := p.awaiting[0].(sink := s);
      PipeOk(d.pipe) && Owed(d.pipe) == Owed(p) && |Line(p)| > 0 && Line(p)[0] == p.awaiting[0] &&
      if Complete(s) then d.settled == [w] && Line(d.pipe) == Line(p)[1..]
      else d.settled == [] && Line(d.pipe) == Line(p)[0 := w]
  {
    hide Unwritten;
  }

  lemma LineOk(p: Pipe)
    requires PipeOk(p)
    ensures forall i :: 0 <= i < |Line(p)| ==> SinkOk(Line(p)[i].sink) && !Complete(Line(p)[i].sink)
    ensures forall i :: 0 < i < |Line(p)| ==> Line(p)[i].sink.slots == []
    ensures p.awaiting == [] && Line(p) != [] ==> Line(p)[0].sink.slots == []
  {
    hide Unwritten;
  }

  lemma ClearKeeps(p: Pipe, e: ErrorInfo)
    requires PipeOk(p)
    ensures PipeOk(ClearAll(p, e).pipe) && Line(ClearAll(p, e).pipe) == []
  {
  }

  // ----- deadlines -----

  predicate NoLater(a: Option<int>, b: Option<int>) {
    b.None? || (a.Some? && a.value <= b.value)
  }

  ghost predicate Sorted(line: seq<Waiting>) {
    forall i, j :: 0 <= i <= j < |line| ==> NoLater(line[i].deadline, line[j].deadline)
  }

  ghost predicate IsEarliest(d: Option<int>, line: seq<Waiting>) {
    (forall i :: 0 <= i < |line| ==> NoLater(d, line[i].deadline)) &&
    (d.Some? ==> exists i :: 0 <= i < |line| && line[i].deadline == d)
  }

  /** With sorted deadlines the two queue fronts decide: theirs is the earliest of all. */
  lemma NextDeadlineIsEarliest(p: Pipe)
    requires Sorted(Line(p))
    ensures IsEarliest(NextDeadline(p), Line(p))
  {
    var line := Line(p);
    if p.awaiting != [] {
      assert line[0] == p.awaiting[0];
      assert forall i :: 0 <= i < |line| ==> NoLater(line[0].deadline, line[i].deadline);
    }
    if p.pending != [] {
      assert line[|p.awaiting|] == p.pending[0].waiting;
      assert forall i :: |p.awaiting| <= i < |line| ==> NoLater(line[|p.awaiting|].deadline, line[i].deadline);
    }
  }

  /** One pipeline: its next deadline is the earliest exactly if each request in it is no earlier than some queue front. */
  lemma NextDeadlineExact(p: Pipe)
    ensures IsEarliest(NextDeadline(p), Line(p)) <==> forall i :: 0 <= i < |Line(p)| ==> BehindFront(p, Line(p)[i].deadline)
  {
    var line := Line(p);
    assert p.awaiting != [] ==> line[0] == p.awaiting[0];
    assert p.pending != [] ==> line[|p.awaiting|] == p.pending[0].waiting;
    hide Line;
    assert forall d :: NoLater(NextDeadline(p), d) && line != [] ==> BehindFront(p, d);
    assert forall d :: BehindFront(p, d) ==> NoLater(NextDeadline(p), d);
  }

  /** A queue front is due no later than `d`. */
  predicate BehindFront(p: Pipe, d: Option<int>) {
    (p.awaiting != [] && NoLater(p.awaiting[0].deadline, d)) || (p.pending != [] && NoLater(p.pending[0].waiting.deadline, d))
  }

  /** `p` is what is left of `line` after some replies, wherever writing stands. */
  ghost predicate LeftOver(p: Pipe, line: seq<Waiting>) {
    exists k :: 0 <= k <= |line| && Line(p) == line[k..]
  }

  ghost predicate NeverMisses(line: seq<Waiting>) {
    forall p: Pipe :: LeftOver(p, line) ==> IsEarliest(NextDeadline(p), Line(p))
  }

  /** All the way through a line of requests: the next deadline is always right exactly if the deadlines are sorted. */
  lemma SortedIffNeverMisses(line: seq<Waiting>)
    ensures NeverMisses(line) <==> Sorted(line)
  {
    if Sorted(line) {
      forall p: Pipe | LeftOver(p, line)
        ensures IsEarliest(NextDeadline(p), Line(p))
      {
        var k :| 0 <= k <= |line| && Line(p) == line[k..];
        NextDeadlineIsEarliest(p);
      }
    }
    if NeverMisses(line) {
      forall i, j | 0 <= i <= j < |line|
        ensures NoLater(line[i].deadline, line[j].deadline)
      {
        var p := Pipe([], line[i..], 0, |line|, 0);
        assert Line(p) == line[i..];
        assert LeftOver(p, line) && NextDeadline(p) == line[i].deadline;
        assert Line(p)[j - i] == line[j];
      }
    }
  }

  /** Pushed in another order, a later request may expire first and not be seen. */
  lemma NextDeadlineMissesUnsorted(w: Waiting, wire: bytes)
    requires w.deadline == Some(2)
    ensures
      var p := Push(Push(Empty(2, 2 * |wire|), w, wire), w.(deadline := Some(1)), wire);
      !IsEarliest(NextDeadline(p), Line(p))
  {
    var p := Push(Push(Empty(2, 2 * |wire|), w, wire), w.(deadline := Some(1)), wire);
    assert Line(p)[1].deadline == Some(1);
  }
}
