/** `class pipeline` as it runs: two ring queues and a byte count, updated in place. */
module PipelineObject {
  import opened Bytes
  import opened Builder
  import opened Sinks
  import opened RingQueue
  import P = Pipeline

  class Pipeline {
    const pendingWrite: RingQueue<P.PendingItem>
    const awaitingRead: RingQueue<P.Waiting>
    var pendingWriteBytes: nat
    const maxRequests: nat
    const maxPendingWriteBytes: nat
    /** Requests whose sink has been completed, in that order. */
    ghost var settled: seq<P.Waiting>

    /** The objects a pipeline owns. */
    ghost function Repr(): set<object>
      reads this, pendingWrite, awaitingRead
    {
      {this, pendingWrite, awaitingRead, pendingWrite.data, awaitingRead.data}
    }

    ghost predicate Owned()
      reads this, pendingWrite, awaitingRead
    {
      pendingWrite.Valid() && awaitingRead.Valid() && pendingWrite.data as object != awaitingRead.data as object
    }

    ghost function State(): P.Pipe
      reads this, pendingWrite, awaitingRead, pendingWrite.data, awaitingRead.data
      requires Owned()
    {
      P.Pipe(pendingWrite.Contents(), awaitingRead.Contents(), pendingWriteBytes, maxRequests, maxPendingWriteBytes)
    }

    ghost predicate Valid()
      reads this, pendingWrite, awaitingRead, pendingWrite.data, awaitingRead.data
    {
      Owned() && P.PipeOk(State())
    }

    constructor (maxRequests: nat, maxPendingWriteBytes: nat)
      ensures Valid() && State() == P.Empty(maxRequests, maxPendingWriteBytes) && settled == [] && fresh(Repr())
    {
      this.maxRequests, this.maxPendingWriteBytes := maxRequests, maxPendingWriteBytes;
      pendingWrite := new RingQueue();
      awaitingRead := new RingQueue();
      pendingWriteBytes, settled := 0, [];
    }

    /** Refuses the request if either limit would be exceeded. */
    method Push(w: P.Waiting, wire: bytes) returns (ok: bool)
      requires Valid() && |w.sink.targets| >= 1 && w.sink.slots == []
      modifies this`pendingWriteBytes, pendingWrite, pendingWrite.data
      ensures Valid() && fresh(Repr() - old(Repr())) && ok == P.HasRoom(old(State()), wire)
      ensures State() == if ok then P.Push(old(State()), w, wire) else old(State())
    {
      hide P.PipeOk;
      if pendingWrite.size + awaitingRead.size >= maxRequests {
        return false;
      }
      if |wire| > maxPendingWriteBytes || pendingWriteBytes > maxPendingWriteBytes - |wire| {
        return false;
      }
      P.PushKeeps(State(), w, wire);
      pendingWriteBytes := pendingWriteBytes + |wire|;
      pendingWrite.EmplaceBack(P.PendingItem(w, wire, 0));
      return true;
    }

    method HasPendingWrite() returns (r: bool)
      requires Owned()
      ensures r <==> State().pending != []
    {
      return pendingWrite.size != 0;
    }

    method HasPendingRead() returns (r: bool)
      requires Owned()
      ensures r <==> State().awaiting != []
    {
      return awaitingRead.size != 0;
    }

    method NextWriteBuffer() returns (view: bytes)
      requires Valid() && State().pending != []
      ensures view == P.Offer(State()) && view <= P.Owed(State())
    {
      P.OfferOk(State());
      P.OfferIsNext(State());
      hide P.PipeOk;
      var front := pendingWrite.Front();
      view := front.wire[front.written..];
    }

    method OnWriteDone(n: nat)
      requires Valid() && P.OffersAtLeast(State(), n)
      modifies Repr()
      ensures Valid() && fresh(Repr() - old(Repr())) && settled == old(settled)
      ensures n <= old(pendingWriteBytes) && State() == P.WriteDone(old(State()), n)
    {
      hide P.PipeOk;
      P.WriteKeeps(State(), n);
      var front := pendingWrite.Front();
      pendingWriteBytes := pendingWriteBytes - n;
      if front.written + n == |front.wire| {
        awaitingRead.EmplaceBack(front.waiting);
        pendingWrite.PopFront();
      } else {
        pendingWrite.SetFront(front.(written := front.written + n));
      }
    }

    /** The front sink has become `s`; it leaves if that completes it. */
    method StoreFront(s: Sink) returns (complete: bool)
      requires Valid() && State().awaiting != [] && SinkOk(s)
      modifies this`settled, awaitingRead`head, awaitingRead`size, awaitingRead.data
      ensures Valid() && Repr() == old(Repr())
      ensures
        var d := P.UpdateFront(old(State()), s);
        State() == d.pipe && settled == old(settled) + d.settled && complete == (d.settled != [])
    {
      complete := Complete(s);
      hide P.PipeOk;
      P.FrontKeeps(State(), s);
      var front := awaitingRead.Front();
      var w := front.(sink := s);
      if complete {
        settled := settled + [w];
        awaitingRead.PopFront();
      } else {
        awaitingRead.SetFront(w);
      }
    }

    method OnMessage(m: Message) returns (complete: bool)
      requires Valid() && State().awaiting != []
      modifies this`settled, awaitingRead`head, awaitingRead`size, awaitingRead.data
      ensures Valid() && Repr() == old(Repr())
      ensures
        var d := P.OnMessage(old(State()), m);
        State() == d.pipe && settled == old(settled) + d.settled && complete == (d.settled != [])
    {
      FrontSink();
      hide P.PipeOk;
      var front := awaitingRead.Front();
      complete := StoreFront(Accept(front.sink, m));
    }

    method OnError(e: ErrorInfo)
      requires Valid() && State().awaiting != []
      modifies this`settled, awaitingRead`head, awaitingRead`size, awaitingRead.data
      ensures Valid() && Repr() == old(Repr())
      ensures
        var d := P.OnError(old(State()), e);
        State() == d.pipe && settled == old(settled) + d.settled
    {
      FrontSink();
      hide P.PipeOk;
      var front := awaitingRead.Front();
      var _ := StoreFront(AcceptError(front.sink, e));
    }

    lemma FrontSink()
      requires Valid() && State().awaiting != []
      ensures SinkOk(State().awaiting[0].sink) && !Complete(State().awaiting[0].sink)
    {
    }

    /** Fails every request, from the front of each queue. */
    method ClearAll(e: ErrorInfo)
      requires Valid()
      modifies this, pendingWrite`head, pendingWrite`size, awaitingRead`head, awaitingRead`size
      ensures Valid() && Repr() == old(Repr())
      ensures
        var d := P.ClearAll(old(State()), e);
        State() == d.pipe && settled == old(settled) + d.settled
    {
      hide P.PipeOk;
      P.ClearKeeps(State(), e);
      ClearPending(e);
      pendingWriteBytes := 0;
      ClearAwaiting(e);
    }

    method ClearPending(e: ErrorInfo)
      requires Owned()
      modifies this`settled, pendingWrite`head, pendingWrite`size
      ensures Owned() && State().pending == [] && settled == old(settled) + P.Fail(P.Waits(old(State().pending)), e)
      ensures Repr() == old(Repr())
    {
      hide P.Fail, P.Waits, FailAll, Unwrapped;
      ghost var waits := P.Waits(pendingWrite.Contents());
      ghost var k := 0;
      P.FailNone(e);
      assert waits[..0] == [];
      while pendingWrite.size != 0
        invariant Owned() && pendingWrite.data == old(pendingWrite.data)
        invariant k <= |waits| && P.Waits(pendingWrite.Contents()) == waits[k..]
        invariant settled == old(settled) + P.Fail(waits[..k], e)
        decreases pendingWrite.size
      {
        var item := pendingWrite.Front();
        var w := item.waiting;
        P.WaitsFirst(pendingWrite.Contents());
        assert w == waits[k];
        P.FailNext(waits, k, e);
        settled := settled + [w.(sink := FailAll(w.sink, e))];
        P.WaitsTail(pendingWrite.Contents());
        assert waits[k..][1..] == waits[k + 1..];
        pendingWrite.PopFront();
        k := k + 1;
      }
      P.WaitsFirst(pendingWrite.Contents());
      assert waits[..k] == waits;
    }

    method ClearAwaiting(e: ErrorInfo)
      requires Owned()
      modifies this`settled, awaitingRead`head, awaitingRead`size
      ensures Owned() && State().awaiting == [] && settled == old(settled) + P.Fail(old(State().awaiting), e)
      ensures Repr() == old(Repr())
    {
      hide P.Fail, FailAll, Unwrapped;
      ghost var all := awaitingRead.Contents();
      ghost var k := 0;
      P.FailNone(e);
      assert all[..0] == [];
      while awaitingRead.size != 0
        invariant Owned() && awaitingRead.data == old(awaitingRead.data)
        invariant k <= |all| && awaitingRead.Contents() == all[k..]
        invariant settled == old(settled) + P.Fail(all[..k], e)
        decreases awaitingRead.size
      {
        var w := awaitingRead.Front();
        assert w == all[k];
        P.FailNext(all, k, e);
        settled := settled + [w.(sink := FailAll(w.sink, e))];
        assert all[k..][1..] == all[k + 1..];
        awaitingRead.PopFront();
        k := k + 1;
      }
      assert all[..k] == all;
    }

    method NextDeadline() returns (d: Option<int>)
      requires Owned()
      ensures d == P.NextDeadline(State())
      ensures P.Sorted(P.Line(State())) ==> P.IsEarliest(d, P.Line(State()))
    {
      if P.Sorted(P.Line(State())) {
        P.NextDeadlineIsEarliest(State());
      }
      hide P.Sorted, P.IsEarliest;
      d := None;
      var b: Option<int> := None;
      if pendingWrite.size != 0 {
        var item := pendingWrite.Front();
        d := item.waiting.deadline;
      }
      if awaitingRead.size != 0 {
        var w := awaitingRead.Front();
        b := w.deadline;
      }
      if b.Some? && (d.None? || b.value < d.value) {
        d := b;
      }
    }

    method HasExpired(now: int) returns (expired: bool)
      requires Owned()
      ensures expired <==> P.NextDeadline(State()).Some? && P.NextDeadline(State()).value <= now
    {
      var d := NextDeadline();
      return d.Some? && d.value <= now;
    }
  }
}
