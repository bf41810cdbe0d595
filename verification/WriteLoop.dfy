/**
 The write loop of `connection::do_write`, which is also how the handshake is flushed, on the pipeline
 object. What the socket answers to each write is given; it takes at most what it is offered.
 */
module WriteLoop {
  import opened Bytes
  import opened Sinks
  import opened Pipeline
  import opened Ledger
  import opened Connection
  import opened Runs
  import ReadLoop
  import QO = PipelineObject

  datatype Answer = Took(n: nat) | Broke(aborted: bool)

  /** The pipeline after writing, the bytes that went out, whether the socket broke, and how many answers it gave. */
  datatype Flushed = Flushed(pipe: Pipe, sent: bytes, broke: bool, used: nat)

  /** Bytes the socket takes of `offered`. */
  function Taken(offered: bytes, n: nat): bytes {
    if n <= |offered| then offered[..n] else offered
  }

  ghost function TakenOf(p: Pipe, n: nat): (r: bytes)
    requires PipeOk(p) && p.pending != []
    ensures p.pending[0].written <= |p.pending[0].wire| && |r| <= |Offer(p)| && r == Offer(p)[..|r|] && |r| <= p.pendingBytes
    ensures PipeOk(WriteDone(p, |r|))
  {
    hide PipeOk;
    OfferOk(p);
    WriteKeeps(p, |Taken(Offer(p), n)|);
    Taken(Offer(p), n)
  }

  /** Answer by answer, as long as there is something to write. */
  ghost function Flush(p: Pipe, answers: seq<Answer>): Flushed
    requires PipeOk(p)
    decreases |answers|
  {
    hide PipeOk;
    if answers == [] || p.pending == [] then Flushed(p, [], false, 0)
    else if answers[0].Broke? then Flushed(p, [], true, 1)
    else
      var taken := TakenOf(p, answers[0].n);
      var rest := Flush(WriteDone(p, |taken|), answers[1..]);
      rest.(sent := taken + rest.sent, used := rest.used + 1)
  }

  /** The bytes that went out are the next ones owed, and nobody in line changes place. */
  lemma {:induction false} FlushConserves(p: Pipe, answers: seq<Answer>)
    requires PipeOk(p)
    ensures
      var f := Flush(p, answers);
      PipeOk(f.pipe) && Owed(p) == f.sent + Owed(f.pipe) && Line(f.pipe) == Line(p) &&
      f.used <= |answers| && (f.used == |answers| || f.broke || f.pipe.pending == [])
    decreases |answers|
  {
    hide PipeOk, Owed, Line;
    if answers != [] && p.pending != [] && answers[0].Took? {
      var taken := TakenOf(p, answers[0].n);
      WriteKeeps(p, |taken|);
      FlushConserves(WriteDone(p, |taken|), answers[1..]);
    }
  }

  lemma FlushTurn(p: Pipe, answers: seq<Answer>, used: nat, taken: bytes)
    requires PipeOk(p) && p.pending != [] && used < |answers| && answers[used].Took? && taken == TakenOf(p, answers[used].n)
    ensures
      var f := Flush(WriteDone(p, |taken|), answers[used + 1..]);
      Flush(p, answers[used..]) == f.(sent := taken + f.sent, used := f.used + 1)
  {
    hide PipeOk, WriteDone;
    assert answers[used..][0] == answers[used] && answers[used..][1..] == answers[used + 1..];
  }

  lemma FlushEnds(p: Pipe, answers: seq<Answer>, used: nat)
    requires PipeOk(p) && used <= |answers| && (p.pending == [] || used == |answers| || answers[used].Broke?)
    ensures
      Flush(p, answers[used..]) ==
      if p.pending == [] || used == |answers| then Flushed(p, [], false, 0) else Flushed(p, [], true, 1)
  {
    hide PipeOk, WriteDone;
  }

  lemma TakenIs(p: Pipe, view: bytes, n: nat)
    requires PipeOk(p) && p.pending != [] && p.pending[0].written <= |p.pending[0].wire| && view == Offer(p)
    ensures Taken(view, n) == TakenOf(p, n) && OffersAtLeast(p, |Taken(view, n)|)
  {
    hide PipeOk;
  }

  method DoWrite(pipeline: QO.Pipeline, answers: seq<Answer>) returns (sent: bytes, broke: bool, used: nat)
    requires pipeline.Valid()
    modifies pipeline.Repr()
    ensures pipeline.Valid() && fresh(pipeline.Repr() - old(pipeline.Repr())) && pipeline.settled == old(pipeline.settled)
    ensures Flush(old(pipeline.State()), answers) == Flushed(pipeline.State(), sent, broke, used)
  {
    hide PipeOk, Flush, TakenOf, Taken, WriteDone, Offer, OffersAtLeast, Owed;
    sent, broke, used := [], false, 0;
    ghost var goal := Flush(pipeline.State(), answers);
    assert answers[0..] == answers;
    while used < |answers|
      invariant pipeline.Valid() && fresh(pipeline.Repr() - old(pipeline.Repr())) && pipeline.settled == old(pipeline.settled)
      invariant used <= |answers| && !broke
      invariant Earlier(sent, used, Flush(pipeline.State(), answers[used..])) == goal
      decreases |answers| - used
    {
      ghost var p, before := pipeline.State(), sent;
      var more := pipeline.HasPendingWrite();
      if !more {
        break;
      }
      OfferOk(p);
      var view := pipeline.NextWriteBuffer();
      var answer := answers[used];
      if answer.Broke? {
        FlushEnds(p, answers, used);
        used, broke := used + 1, true;
        return;
      }
      var taken := Taken(view, answer.n);
      TakenIs(p, view, answer.n);
      FlushTurn(p, answers, used, taken);
      pipeline.OnWriteDone(|taken|);
      sent, used := sent + taken, used + 1;
      EarlierNext(before, taken, used - 1, Flush(pipeline.State(), answers[used..]));
    }
    FlushEnds(pipeline.State(), answers, used);
  }

  function Earlier(sent: bytes, used: nat, f: Flushed): Flushed {
    f.(sent := sent + f.sent, used := used + f.used)
  }

  lemma EarlierNext(a: bytes, b: bytes, used: nat, f: Flushed)
    ensures Earlier(a, used, f.(sent := b + f.sent, used := f.used + 1)) == Earlier(a + b, used + 1, f)
  {
    assert a + (b + f.sent) == a + b + f.sent;
  }

  // ----- the same on the step machine -----

  /** The machine's steps for these answers. */
  ghost function Steps(p: Pipe, answers: seq<Answer>): seq<Event>
    requires PipeOk(p)
    decreases |answers|
  {
    hide PipeOk;
    if answers == [] || p.pending == [] then []
    else if answers[0].Broke? then [WriteStart, WriteFails(answers[0].aborted)]
    else var taken := TakenOf(p, answers[0].n); [WriteStart, WriteEnd(|taken|)] + Steps(WriteDone(p, |taken|), answers[1..])
  }

  function Ended(f: Flushed): ReadLoop.Outcome {
    ReadLoop.Outcome(f.pipe, [], if f.broke then Some(ClientError(WriteError)) else None)
  }

  ghost predicate CanWrite(s: State) {
    s.phase == OPEN && s.writing == Idle && PipeOk(s.book.pipe) && s.book.gens != []
  }

  /** One turn of the loop is the machine's two write steps, with the bytes entered in the books. */
  lemma TurnIsTwoSteps(cfg: Config, s: State, s1: State, n: nat)
    requires CanWrite(s) && s.book.pipe.pending != [] && OffersAtLeast(s.book.pipe, n)
    requires s1 == Apply(cfg, s, WriteStart)
    ensures Enabled(cfg, s1, WriteEnd(n)) && n <= s.book.pipe.pendingBytes
    ensures
      var r := Apply(cfg, s1, WriteEnd(n));
      r.phase == OPEN && r.writing == Idle && r.book.gens != [] && r.book.pipe == WriteDone(s.book.pipe, n) &&
      Current(r.book).sent == Current(s.book).sent + Offer(s.book.pipe)[..n] && r.book.settled == s.book.settled
  {
    hide HearAll, Shake, Drop, Pump, MessagesOf, PipeOk, Enqueue;
    OfferCounted(s.book.pipe, n);
  }

  lemma BreakIsTwoSteps(cfg: Config, s: State, s1: State, aborted: bool)
    requires CanWrite(s) && OffersAtLeast(s.book.pipe, 0)
    requires s1 == Apply(cfg, s, WriteStart)
    ensures Enabled(cfg, s1, WriteFails(aborted))
    ensures ReadLoop.StepIs(s, Apply(cfg, s1, WriteFails(aborted)), ReadLoop.Outcome(s.book.pipe, [], Some(ClientError(WriteError))))
  {
    hide HearAll, Shake, Pump, MessagesOf, PipeOk, Enqueue, ClearAll;
    assert s.book.settled + [] == s.book.settled;
  }

  lemma RunNone(cfg: Config, s: State)
    ensures Executable(cfg, s, []) && After(cfg, s, []) == s
  {
  }

  lemma RunTwo(cfg: Config, s: State, a: Event, b: Event, rest: seq<Event>)
    requires Enabled(cfg, s, a) && Enabled(cfg, Apply(cfg, s, a), b)
    requires Executable(cfg, Apply(cfg, Apply(cfg, s, a), b), rest)
    ensures Executable(cfg, s, [a, b] + rest)
    ensures After(cfg, s, [a, b] + rest) == After(cfg, Apply(cfg, Apply(cfg, s, a), b), rest)
  {
    hide Enabled, Apply;
    assert ([a, b] + rest)[1..] == [b] + rest && ([b] + rest)[1..] == rest;
  }

  /** The run `evs` from `s` has the effect `f`; a broken socket then fails the connection. */
  ghost predicate RunIs(cfg: Config, s: State, evs: seq<Event>, f: Flushed) {
    Executable(cfg, s, evs) && ReadLoop.StepIs(s, After(cfg, s, evs), Ended(f)) &&
    (!f.broke ==> Current(After(cfg, s, evs).book).sent == Current(s.book).sent + f.sent)
  }

  lemma RunEnds(cfg: Config, s: State)
    requires CanWrite(s)
    ensures RunIs(cfg, s, [], Flushed(s.book.pipe, [], false, 0))
  {
    hide Enabled, Apply, PipeOk;
    NothingWritten(s);
  }

  lemma RunBreaks(cfg: Config, s: State, aborted: bool)
    requires CanWrite(s) && s.book.pipe.pending != []
    ensures RunIs(cfg, s, [WriteStart, WriteFails(aborted)], Flushed(s.book.pipe, [], true, 1))
  {
    hide Enabled, Apply, PipeOk, Executable, After, ReadLoop.StepIs;
    Offers(cfg, s);
    var s1 := Apply(cfg, s, WriteStart);
    BreakIsTwoSteps(cfg, s, s1, aborted);
    RunNone(cfg, Apply(cfg, s1, WriteFails(aborted)));
    RunTwo(cfg, s, WriteStart, WriteFails(aborted), []);
    assert [WriteStart, WriteFails(aborted)] + [] == [WriteStart, WriteFails(aborted)];
  }

  lemma RunGoesOn(cfg: Config, s: State, r: State, n: nat, evs: seq<Event>, f: Flushed)
    requires CanWrite(s) && s.book.pipe.pending != [] && OffersAtLeast(s.book.pipe, n)
    requires r == TwoSteps(cfg, s, n) && RunIs(cfg, r, evs, f)
    ensures RunIs(cfg, s, [WriteStart, WriteEnd(n)] + evs, f.(sent := Offer(s.book.pipe)[..n] + f.sent, used := f.used + 1))
  {
    hide Enabled, Apply, PipeOk, Executable, After, ReadLoop.StepIs, WriteDone;
    Offers(cfg, s);
    var s1 := Apply(cfg, s, WriteStart);
    TurnIsTwoSteps(cfg, s, s1, n);
    RunTwo(cfg, s, WriteStart, WriteEnd(n), evs);
    SameSettled(s, r, After(cfg, r, evs), Ended(f));
  }

  /** The state after a write of `n` bytes. */
  ghost function TwoSteps(cfg: Config, s: State, n: nat): (r: State)
    requires CanWrite(s) && s.book.pipe.pending != [] && OffersAtLeast(s.book.pipe, n)
    ensures n <= s.book.pipe.pendingBytes && r.book.pipe == WriteDone(s.book.pipe, n)
    ensures r.phase == OPEN && r.writing == Idle && r.book.gens != []
  {
    hide Enabled, Apply, PipeOk, WriteDone;
    Offers(cfg, s);
    var s1 := Apply(cfg, s, WriteStart);
    TurnIsTwoSteps(cfg, s, s1, n);
    Apply(cfg, s1, WriteEnd(n))
  }

  /** The loop's effect is that of a run of the machine. */
  lemma {:induction false} WriteLoopIsARun(cfg: Config, s: State, answers: seq<Answer>)
    requires CanWrite(s)
    ensures RunIs(cfg, s, Steps(s.book.pipe, answers), Flush(s.book.pipe, answers))
    decreases |answers|
  {
    hide PipeOk, RunIs, TwoSteps, WriteDone;
    var p := s.book.pipe;
    if answers == [] || p.pending == [] {
      RunEnds(cfg, s);
    } else if answers[0].Broke? {
      RunBreaks(cfg, s, answers[0].aborted);
    } else {
      var taken := TakenOf(p, answers[0].n);
      var r := TwoSteps(cfg, s, |taken|);
      WriteLoopIsARun(cfg, r, answers[1..]);
      RunGoesOn(cfg, s, r, |taken|, Steps(r.book.pipe, answers[1..]), Flush(r.book.pipe, answers[1..]));
    }
  }

  lemma Offers(cfg: Config, s: State)
    requires CanWrite(s) && s.book.pipe.pending != []
    ensures OffersAtLeast(s.book.pipe, 0) && Enabled(cfg, s, WriteStart)
  {
    OfferOk(s.book.pipe);
  }

  lemma NothingWritten(s: State)
    requires s.phase == OPEN
    ensures ReadLoop.StepIs(s, s, ReadLoop.Outcome(s.book.pipe, [], None)) && Current(s.book).sent == Current(s.book).sent + []
  {
  }

  lemma SameSettled(s: State, s1: State, r: State, o: ReadLoop.Outcome)
    requires ReadLoop.StepIs(s1, r, o) && s1.book.settled == s.book.settled
    ensures ReadLoop.StepIs(s, r, o)
  {
    hide ClearAll;
  }
}
