/**
 The parse-and-deliver loop of `connection::do_read` (impl/connection/io.ipp) on the parser and
 pipeline objects. It works message by message; it is proved to have the effect the step machine
 gives it, where all messages of a read are parsed first and then delivered.
 */
module ReadLoop {
  import opened Bytes
  import opened Kinds
  import opened Lexer
  import opened Parser
  import opened Streaming
  import opened Discipline
  import opened Builder
  import opened Sinks
  import opened Pipeline
  import opened Ledger
  import opened Connection
  import PO = ParserObject
  import QO = PipelineObject

  /** The pipeline after a read, the requests it completed, and the error that ends the connection, if any. */
  datatype Outcome = Outcome(pipe: Pipe, settled: seq<Waiting>, error: Option<ErrorInfo>)

  function Earlier(settled: seq<Waiting>, o: Outcome): Outcome {
    o.(settled := settled + o.settled)
  }

  function Deliver(p: Pipe, ms: seq<Message>, error: Option<ProtocolError>): Outcome
    decreases |ms|
  {
    if ms == [] then
      match error
      case None => Outcome(p, [], None)
      case Some(e) =>
        if p.awaiting == [] then Outcome(p, [], Some(ProtocolFailure(e)))
        else var d := OnError(p, ProtocolFailure(e)); Outcome(d.pipe, d.settled, Some(ProtocolFailure(e)))
    else if p.awaiting == [] then Outcome(p, [], Some(ClientError(UnsolicitedMessage)))
    else var d := OnMessage(p, ms[0]); Earlier(d.settled, Deliver(d.pipe, ms[1..], error))
  }

  ghost function DeliverSeen(p: Pipe, o: Observed): Outcome {
    Deliver(p, MessagesOf(o.trees), o.error)
  }

  lemma EarlierEarlier(a: seq<Waiting>, b: seq<Waiting>, o: Outcome)
    ensures Earlier(a, Earlier(b, o)) == Earlier(a + b, o) && Earlier([], o) == o
  {
    assert a + (b + o.settled) == a + b + o.settled;
    assert [] + o.settled == o.settled;
  }

  lemma DeliverOne(p: Pipe, t: Parsed, o: Observed)
    requires p.awaiting != []
    ensures
      var d := OnMessage(p, MessageOf(t));
      DeliverSeen(p, Before([t], o)) == Earlier(d.settled, DeliverSeen(d.pipe, o))
  {
    hide OnMessage, MessageOf;
    assert MessagesOf([t] + o.trees)[1..] == MessagesOf(o.trees);
  }

  lemma DeliverEnds(p: Pipe, t: Parsed, o: Observed, e: ProtocolError)
    ensures DeliverSeen(p, Observed([], None)) == Outcome(p, [], None)
    ensures p.awaiting == [] ==> DeliverSeen(p, Before([t], o)) == Outcome(p, [], Some(ClientError(UnsolicitedMessage)))
    ensures
      DeliverSeen(p, Observed([], Some(e))) ==
      if p.awaiting == [] then Outcome(p, [], Some(ProtocolFailure(e)))
      else Outcome(OnError(p, ProtocolFailure(e)).pipe, OnError(p, ProtocolFailure(e)).settled, Some(ProtocolFailure(e)))
  {
    hide OnError, MessageOf;
  }

  // ----- the handshake's reading, which stops when its request is complete -----

  datatype Progress = Unfinished | GaveUp(error: ErrorInfo) | Finished

  datatype Greeting = Greeting(pipe: Pipe, settled: seq<Waiting>, progress: Progress)

  function Greet(p: Pipe, ms: seq<Message>, error: Option<ProtocolError>): Greeting
    decreases |ms|
  {
    if ms == [] then
      match error
      case None => Greeting(p, [], Unfinished)
      case Some(e) =>
        if p.awaiting == [] then Greeting(p, [], GaveUp(ProtocolFailure(e)))
        else var d := OnError(p, ProtocolFailure(e)); Greeting(d.pipe, d.settled, GaveUp(ProtocolFailure(e)))
    else if p.awaiting == [] then Greeting(p, [], GaveUp(ClientError(UnsolicitedMessage)))
    else
      var d := OnMessage(p, ms[0]);
      if d.settled == [] then Greet(d.pipe, ms[1..], error) else Greeting(d.pipe, d.settled, Finished)
  }

  ghost function GreetSeen(p: Pipe, o: Observed): Greeting {
    Greet(p, MessagesOf(o.trees), o.error)
  }

  function ProgressOf(error: Option<ErrorInfo>): Progress {
    if error.Some? then GaveUp(error.value) else Unfinished
  }

  lemma GreetOne(p: Pipe, t: Parsed, o: Observed)
    requires p.awaiting != []
    ensures
      var d := OnMessage(p, MessageOf(t));
      GreetSeen(p, Before([t], o)) == if d.settled == [] then GreetSeen(d.pipe, o) else Greeting(d.pipe, d.settled, Finished)
  {
    hide OnMessage, MessageOf;
    assert MessagesOf([t] + o.trees)[1..] == MessagesOf(o.trees);
  }

  lemma GreetEnds(p: Pipe, t: Parsed, o: Observed, e: ProtocolError)
    ensures GreetSeen(p, Observed([], None)) == Greeting(p, [], Unfinished)
    ensures p.awaiting == [] ==> GreetSeen(p, Before([t], o)) == Greeting(p, [], GaveUp(ClientError(UnsolicitedMessage)))
    ensures
      GreetSeen(p, Observed([], Some(e))) ==
      if p.awaiting == [] then Greeting(p, [], GaveUp(ProtocolFailure(e)))
      else Greeting(OnError(p, ProtocolFailure(e)).pipe, OnError(p, ProtocolFailure(e)).settled, GaveUp(ProtocolFailure(e)))
  {
    hide OnError, MessageOf;
  }

  /** One turn of the loop, seen from the parser. */
  lemma DrainUnfolds(c: Core, d: bytes, L: Limits)
    requires InRange(c)
    ensures
      var r := ParseOne(c, d, L);
      match r.outcome
      case Root(i) => Drain(c, d, L) == After([Parsed(r.core.tree, i)], Drain(START, r.unread, L))
      case Starved => Drain(c, d, L) == Drained(r.core, r.unread, Observed([], None))
      case Rejected(e) => Drain(c, d, L).seen == Observed([], Some(e))
  {
    hide Run;
  }

  /** The parser is no part of the pipeline. */
  ghost predicate Apart(parser: PO.Parser, pipeline: QO.Pipeline)
    reads pipeline, pipeline.pendingWrite, pipeline.awaitingRead
  {
    parser as object !in pipeline.Repr()
  }

  ghost function Remaining(parser: PO.Parser, pipeline: QO.Pipeline): Outcome
    reads parser, pipeline, pipeline.pendingWrite, pipeline.awaitingRead, pipeline.pendingWrite.data, pipeline.awaitingRead.data
    requires InRange(parser.Core()) && pipeline.Owned()
  {
    DeliverSeen(pipeline.State(), Drain(parser.Core(), parser.unread, parser.limits).seen)
  }

  ghost function GreetLeft(parser: PO.Parser, pipeline: QO.Pipeline): Greeting
    reads parser, pipeline, pipeline.pendingWrite, pipeline.awaitingRead, pipeline.pendingWrite.data, pipeline.awaitingRead.data
    requires InRange(parser.Core()) && pipeline.Owned()
  {
    GreetSeen(pipeline.State(), Drain(parser.Core(), parser.unread, parser.limits).seen)
  }

  /** Where the parser ends up. */
  ghost predicate EndsAt(parser: PO.Parser, core: Core, unread: bytes)
    reads parser
    requires InRange(parser.Core())
  {
    var r := Drain(parser.Core(), parser.unread, parser.limits);
    r.core == core && r.unread == unread
  }

  /** One turn of either loop; `ws` are the requests it completed. */
  method Turn(parser: PO.Parser, pipeline: QO.Pipeline)
    returns (again: bool, complete: bool, error: Option<ErrorInfo>, ghost ws: seq<Waiting>)
    requires Apart(parser, pipeline) && parser.Valid() && !parser.failed && !parser.treeReady && pipeline.Valid()
    modifies parser, pipeline`settled, pipeline.awaitingRead`head, pipeline.awaitingRead`size, pipeline.awaitingRead.data
    ensures pipeline.Valid() && pipeline.Repr() == old(pipeline.Repr()) && pipeline.settled == old(pipeline.settled) + ws
    ensures error.None? ==> parser.Valid() && !parser.failed && !parser.treeReady
    ensures again ==> error.None? && |parser.unread| < |old(parser.unread)|
    ensures again ==> old(Remaining(parser, pipeline)) == Earlier(ws, Remaining(parser, pipeline))
    ensures !again ==> old(Remaining(parser, pipeline)) == Outcome(pipeline.State(), ws, error)
    ensures again ==> old(GreetLeft(parser, pipeline)) == if complete then Greeting(pipeline.State(), ws, Finished) else GreetLeft(parser, pipeline)
    ensures again && !complete ==> ws == []
    ensures !again ==> old(GreetLeft(parser, pipeline)) == Greeting(pipeline.State(), ws, ProgressOf(error))
    ensures forall c, d :: again && old(EndsAt(parser, c, d)) ==> EndsAt(parser, c, d)
    ensures !again && error.None? ==> forall c, d :: old(EndsAt(parser, c, d)) ==> c == parser.Core() && d == parser.unread
  {
    hide Drain, DeliverSeen, GreetSeen, PipeOk, Inv, TreeReady, Build, OnMessage, OnError, ParseOne;
    again, complete, error, ws := false, false, None, [];
    ghost var p, o := pipeline.State(), Drain(parser.Core(), parser.unread, parser.limits).seen;
    DrainUnfolds(parser.Core(), parser.unread, parser.limits);
    var parsed := parser.ParseOne();
    match parsed
    case Error(e) =>
      DeliverEnds(p, Parsed(EMPTY_TREE, 0), o, e);
      GreetEnds(p, Parsed(EMPTY_TREE, 0), o, e);
      var pending := pipeline.HasPendingRead();
      if pending {
        ws := OnError(p, ProtocolFailure(e)).settled;
        pipeline.OnError(ProtocolFailure(e));
      }
      error := Some(ProtocolFailure(e));
    case NeedBytes =>
      DeliverEnds(p, Parsed(EMPTY_TREE, 0), o, InvalidState);
      GreetEnds(p, Parsed(EMPTY_TREE, 0), o, InvalidState);
    case Root(root) =>
      ghost var t, rest := Parsed(parser.Core().tree, root), Drain(START, parser.unread, parser.limits).seen;
      DeliverEnds(p, t, rest, InvalidState);
      GreetEnds(p, t, rest, InvalidState);
      var pending := pipeline.HasPendingRead();
      if !pending {
        error := Some(ClientError(UnsolicitedMessage));
      } else {
        var m := BuildMessage(parser.Core().tree, root);
        DeliverOne(p, t, rest);
        GreetOne(p, t, rest);
        ws := OnMessage(p, m).settled;
        complete := pipeline.OnMessage(m);
        parser.Reclaim();
        again := true;
      }
  }

  method DoRead(parser: PO.Parser, pipeline: QO.Pipeline, chunk: bytes) returns (error: Option<ErrorInfo>)
    requires Apart(parser, pipeline) && parser.Valid() && !parser.failed && !parser.treeReady && pipeline.Valid()
    modifies parser, pipeline`settled, pipeline.awaitingRead`head, pipeline.awaitingRead`size, pipeline.awaitingRead.data
    ensures pipeline.Valid() && pipeline.Repr() == old(pipeline.Repr())
    ensures
      var o := DeliverSeen(old(pipeline.State()), Drain(old(parser.Core()), old(parser.unread) + chunk, parser.limits).seen);
      pipeline.State() == o.pipe && pipeline.settled == old(pipeline.settled) + o.settled && error == o.error
    ensures error.None? ==> parser.Valid() && !parser.failed && !parser.treeReady
    ensures
      var r := Drain(old(parser.Core()), old(parser.unread) + chunk, parser.limits);
      error.None? ==> parser.Core() == r.core && parser.unread == r.unread
  {
    hide Drain, DeliverSeen, PipeOk, Inv;
    ghost var r := Drain(parser.Core(), parser.unread + chunk, parser.limits);
    parser.Commit(chunk);
    ghost var done: seq<Waiting>;
    error, done := Loop(parser, pipeline, r.core, r.unread);
  }

  /** The loop; `done` are the requests it completed. */
  method Loop(parser: PO.Parser, pipeline: QO.Pipeline, ghost core: Core, ghost unread: bytes)
    returns (error: Option<ErrorInfo>, ghost done: seq<Waiting>)
    requires Apart(parser, pipeline) && parser.Valid() && !parser.failed && !parser.treeReady && pipeline.Valid() && EndsAt(parser, core, unread)
    modifies parser, pipeline`settled, pipeline.awaitingRead`head, pipeline.awaitingRead`size, pipeline.awaitingRead.data
    ensures pipeline.Valid() && pipeline.Repr() == old(pipeline.Repr()) && pipeline.settled == old(pipeline.settled) + done
    ensures old(Remaining(parser, pipeline)) == Outcome(pipeline.State(), done, error)
    ensures error.None? ==> parser.Valid() && !parser.failed && !parser.treeReady && parser.Core() == core && parser.unread == unread
  {
    hide Remaining, GreetLeft, EndsAt, PipeOk, Inv;
    ghost var goal := Remaining(parser, pipeline);
    EarlierEarlier([], [], goal);
    done := [];
    while true
      invariant parser.Valid() && !parser.failed && !parser.treeReady && pipeline.Valid() && pipeline.Repr() == old(pipeline.Repr())
      invariant pipeline.awaitingRead.data == old(pipeline.awaitingRead.data)
      invariant pipeline.settled == old(pipeline.settled) + done
      invariant Earlier(done, Remaining(parser, pipeline)) == goal && EndsAt(parser, core, unread)
      decreases |parser.unread|
    {
      var again: bool;
      ghost var ws: seq<Waiting>;
      ghost var before := done;
      var complete: bool;
      again, complete, error, ws := Turn(parser, pipeline);
      done := done + ws;
      if !again {
        return;
      }
      EarlierEarlier(before, ws, Remaining(parser, pipeline));
    }
  }

  /** The handshake's reading of one chunk: it goes on until the request is complete, fails, or needs more bytes. */
  method ShakeRead(parser: PO.Parser, pipeline: QO.Pipeline, chunk: bytes) returns (progress: Progress)
    requires Apart(parser, pipeline) && parser.Valid() && !parser.failed && !parser.treeReady && pipeline.Valid()
    modifies parser, pipeline`settled, pipeline.awaitingRead`head, pipeline.awaitingRead`size, pipeline.awaitingRead.data
    ensures pipeline.Valid() && pipeline.Repr() == old(pipeline.Repr())
    ensures
      var g := GreetSeen(old(pipeline.State()), Drain(old(parser.Core()), old(parser.unread) + chunk, parser.limits).seen);
      pipeline.State() == g.pipe && pipeline.settled == old(pipeline.settled) + g.settled && progress == g.progress
    ensures progress.Unfinished? ==> parser.Valid() && !parser.failed && !parser.treeReady
  {
    hide Drain, GreetSeen, PipeOk, Inv;
    parser.Commit(chunk);
    ghost var done: seq<Waiting>;
    progress, done := ShakeLoop(parser, pipeline);
  }

  method ShakeLoop(parser: PO.Parser, pipeline: QO.Pipeline) returns (progress: Progress, ghost done: seq<Waiting>)
    requires Apart(parser, pipeline) && parser.Valid() && !parser.failed && !parser.treeReady && pipeline.Valid()
    modifies parser, pipeline`settled, pipeline.awaitingRead`head, pipeline.awaitingRead`size, pipeline.awaitingRead.data
    ensures pipeline.Valid() && pipeline.Repr() == old(pipeline.Repr()) && pipeline.settled == old(pipeline.settled) + done
    ensures old(GreetLeft(parser, pipeline)) == Greeting(pipeline.State(), done, progress)
    ensures progress.Unfinished? ==> parser.Valid() && !parser.failed && !parser.treeReady
  {
    hide GreetLeft, Remaining, EndsAt, PipeOk, Inv;
    while true
      invariant parser.Valid() && !parser.failed && !parser.treeReady && pipeline.Valid() && pipeline.Repr() == old(pipeline.Repr())
      invariant pipeline.awaitingRead.data == old(pipeline.awaitingRead.data)
      invariant pipeline.settled == old(pipeline.settled) && GreetLeft(parser, pipeline) == old(GreetLeft(parser, pipeline))
      decreases |parser.unread|
    {
      var again, complete, error;
      again, complete, error, done := Turn(parser, pipeline);
      if !again {
        return ProgressOf(error), done;
      }
      if complete {
        return Finished, done;
      }
    }
  }

  /** That is the machine's handshake step: the attempt then goes on, fails, or is judged by the replies. */
  lemma {:induction false} ShakeStepIsGreet(cfg: Config, s: State, ms: seq<Message>, error: Option<ProtocolError>)
    ensures
      var g := Greet(s.book.pipe, ms, error);
      var b := Settle(s.book, cfg.hooks, Delivery(g.pipe, g.settled));
      match g.progress
      case Unfinished => Shake(cfg, s, ms, error) == s.(book := b)
      case GaveUp(e) => Shake(cfg, s, ms, error) == FailShake(cfg, s.(book := b), e)
      case Finished => g.settled != [] && Shake(cfg, s, ms, error) == Connection.Greeted(cfg, s.(book := b), g.settled[0].sink.slots)
    decreases |ms|
  {
    hide OnMessage, OnError, FailShake, Connection.Greeted;
    SettleNothing(s.book, cfg.hooks);
    if ms != [] && s.book.pipe.awaiting != [] {
      var d := OnMessage(s.book.pipe, ms[0]);
      if d.settled == [] {
        SettleThen(s.book, cfg.hooks, d, Greet(d.pipe, ms[1..], error));
        ShakeStepIsGreet(cfg, s.(book := HelloHear(s.book, cfg.hooks, ms[0])), ms[1..], error);
      }
    }
  }

  lemma SettleNothing(b: Book, hooks: Hooks)
    ensures Settle(b, hooks, Delivery(b.pipe, [])) == b
  {
    assert b.settled + [] == b.settled && Summaries([]) == [] && b.finished + [] == b.finished;
  }

  lemma SettleThen(b: Book, hooks: Hooks, d: Delivery, g: Greeting)
    requires d.settled == []
    ensures Settle(Settle(b, hooks, d), hooks, Delivery(g.pipe, g.settled)) == Settle(b, hooks, Delivery(g.pipe, g.settled))
  {
    assert b.settled + [] == b.settled && Summaries([]) == [] && b.finished + [] == b.finished;
  }

  /** The machine went from `s` to `r` as `o` says; an error then failed the connection. */
  predicate StepIs(s: State, r: State, o: Outcome) {
    match o.error
    case None => r.phase == OPEN && r.book.pipe == o.pipe && r.book.settled == s.book.settled + o.settled
    case Some(e) =>
      var d := ClearAll(o.pipe, e);
      r.phase == FAILED && r.book.pipe == d.pipe && r.book.settled == s.book.settled + o.settled + d.settled
  }

  lemma ReadEnds(cfg: Config, s: State, ms: seq<Message>, error: Option<ProtocolError>)
    requires s.phase == OPEN && (ms == [] || s.book.pipe.awaiting == [])
    ensures StepIs(s, HearAll(cfg, s, ms, error), Deliver(s.book.pipe, ms, error))
  {
    hide OnMessage, OnError, ClearAll, Summaries, Hear;
  }

  lemma StepEarlier(s: State, s1: State, r: State, o: Outcome, ws: seq<Waiting>)
    requires StepIs(s1, r, o) && s1.book.settled == s.book.settled + ws
    ensures StepIs(s, r, Earlier(ws, o))
  {
    hide ClearAll;
  }

  /** This is what the step machine does with a read. */
  lemma {:induction false} ReadStepIsDeliver(cfg: Config, s: State, ms: seq<Message>, error: Option<ProtocolError>)
    requires s.phase == OPEN
    ensures StepIs(s, HearAll(cfg, s, ms, error), Deliver(s.book.pipe, ms, error))
    decreases |ms|
  {
    hide OnMessage, OnError, HandleError, Hear, HearError, StepIs;
    if ms == [] || s.book.pipe.awaiting == [] {
      ReadEnds(cfg, s, ms, error);
    } else {
      var s1 := s.(book := Hear(s.book, cfg.hooks, ms[0]));
      HearBook(s.book, cfg.hooks, ms[0]);
      ReadStepIsDeliver(cfg, s1, ms[1..], error);
      StepEarlier(s, s1, HearAll(cfg, s1, ms[1..], error), Deliver(s1.book.pipe, ms[1..], error), OnMessage(s.book.pipe, ms[0]).settled);
    }
  }

  lemma HearBook(b: Book, hooks: Hooks, m: Message)
    requires b.pipe.awaiting != []
    ensures Hear(b, hooks, m).pipe == OnMessage(b.pipe, m).pipe && Hear(b, hooks, m).settled == b.settled + OnMessage(b.pipe, m).settled
  {
    hide OnMessage, Summaries;
  }
}
