/** The main results about the connection: statements over every run, from the first step on. */
module Runs {
  import opened Bytes
  import opened Kinds
  import opened Parser
  import opened Streaming
  import opened Builder
  import opened Sinks
  import opened Pipeline
  import opened Epochs
  import opened Ledger
  import opened Connection
  import opened Safety
  import opened Replies
  import opened Handshakes

  // ----- runs -----

  ghost predicate Executable(cfg: Config, s: State, evs: seq<Event>)
    decreases |evs|
  {
    evs == [] || (Enabled(cfg, s, evs[0]) && Executable(cfg, Apply(cfg, s, evs[0]), evs[1..]))
  }

  ghost function After(cfg: Config, s: State, evs: seq<Event>): State
    requires Executable(cfg, s, evs)
    decreases |evs|
  {
    if evs == [] then s else After(cfg, Apply(cfg, s, evs[0]), evs[1..])
  }

  ghost predicate Safe(cfg: Config, s: State) {
    Control(s) && LedgerOk(cfg, s) && OfferHeld(s) && HearingOk(cfg, s) && DuesOk(cfg, s) && Seasoned(s) &&
    Configured(cfg, s) && AttemptOk(cfg, s)
  }

  lemma StepIsSafe(cfg: Config, s: State, ev: Event)
    requires ConfigOk(cfg) && Safe(cfg, s) && Enabled(cfg, s, ev)
    ensures Safe(cfg, Apply(cfg, s, ev))
  {
    hide Control, LedgerOk, OfferHeld, HearingOk, DuesOk, Seasoned, Configured, AttemptOk, Apply, Enabled;
    ControlKeeps(cfg, s, ev);
    LedgerKeeps(cfg, s, ev);
    OfferKeeps(cfg, s, ev);
    HearingKeeps(cfg, s, ev);
    DuesKeep(cfg, s, ev);
    SeasonedKeeps(cfg, s, ev);
    ConfiguredKeeps(cfg, s, ev);
    AttemptKeeps(cfg, s, ev);
  }

  lemma InitiallyBalanced(cfg: Config, now: int)
    ensures LedgerOk(cfg, Initially(cfg, now))
  {
    var b := Initially(cfg, now).book;
    assert Ids(b.settled) + Ids(Line(b.pipe)) == multiset(Upto(0));
    assert Upto(0) == [] && Summaries([]) == [];
  }

  lemma InitiallySafe(cfg: Config, now: int)
    ensures Safe(cfg, Initially(cfg, now))
  {
    hide LedgerOk;
    InitiallyBalanced(cfg, now);
    OpenTracks(cfg.limits);
  }

  lemma {:induction false} RunIsSafe(cfg: Config, s: State, evs: seq<Event>)
    requires ConfigOk(cfg) && Safe(cfg, s) && Executable(cfg, s, evs)
    ensures Safe(cfg, After(cfg, s, evs))
    decreases |evs|
  {
    hide Safe, Apply, Enabled;
    if evs != [] {
      StepIsSafe(cfg, s, evs[0]);
      RunIsSafe(cfg, Apply(cfg, s, evs[0]), evs[1..]);
    }
  }

  /** A state some run of the connection reaches. */
  ghost predicate Reachable(cfg: Config, s: State) {
    ConfigOk(cfg) &&
    exists now: int, evs: seq<Event> :: Executable(cfg, Initially(cfg, now), evs) && After(cfg, Initially(cfg, now), evs) == s
  }

  lemma ReachableStart(cfg: Config, now: int)
    requires ConfigOk(cfg)
    ensures Reachable(cfg, Initially(cfg, now))
  {
    assert Executable(cfg, Initially(cfg, now), []) && After(cfg, Initially(cfg, now), []) == Initially(cfg, now);
  }

  lemma {:induction false} RunOneMore(cfg: Config, s: State, evs: seq<Event>, ev: Event)
    requires Executable(cfg, s, evs) && Enabled(cfg, After(cfg, s, evs), ev)
    ensures Executable(cfg, s, evs + [ev]) && After(cfg, s, evs + [ev]) == Apply(cfg, After(cfg, s, evs), ev)
    decreases |evs|
  {
    hide Apply, Enabled;
    if evs == [] {
      assert [ev][1..] == [] && evs + [ev] == [ev];
    } else {
      assert (evs + [ev])[0] == evs[0] && (evs + [ev])[1..] == evs[1..] + [ev];
      RunOneMore(cfg, Apply(cfg, s, evs[0]), evs[1..], ev);
    }
  }

  /** What one more step leads to is reachable too. */
  lemma ReachableNext(cfg: Config, s: State, ev: Event)
    requires Reachable(cfg, s) && Enabled(cfg, s, ev)
    ensures Reachable(cfg, Apply(cfg, s, ev))
  {
    hide Executable, After, Apply, Enabled;
    var now: int, evs: seq<Event> :| Executable(cfg, Initially(cfg, now), evs) && After(cfg, Initially(cfg, now), evs) == s;
    RunOneMore(cfg, Initially(cfg, now), evs, ev);
  }

  lemma ReachableIsSafe(cfg: Config, s: State)
    requires Reachable(cfg, s)
    ensures Safe(cfg, s)
  {
    hide Safe, Executable, After;
    var now: int, evs: seq<Event> :| Executable(cfg, Initially(cfg, now), evs) && After(cfg, Initially(cfg, now), evs) == s;
    InitiallySafe(cfg, now);
    RunIsSafe(cfg, Initially(cfg, now), evs);
  }

  lemma SafeParts(cfg: Config, s: State)
    requires Reachable(cfg, s)
    ensures Control(s) && LedgerOk(cfg, s) && Balanced(s.book, cfg.hooks, ModeOf(s)) && OfferHeld(s)
    ensures HearingOk(cfg, s) && DuesOk(cfg, s) && Seasoned(s) && Configured(cfg, s) && AttemptOk(cfg, s)
  {
    hide Reachable, Control, Balanced, HearingOk, DuesOk, OfferHeld, Gate, Seasoned, Configured, AttemptOk;
    ReachableIsSafe(cfg, s);
  }

  // ----- opening -----

  /**
   In every run an attempt begins with a parser that has seen nothing, and what its parser holds and
   its request was told later comes from that attempt's own reads alone. The server is sent the
   handshake, and all of it before its replies are read.
   */
  lemma AttemptsHearTheirOwn(cfg: Config, s: State)
    requires Reachable(cfg, s)
    ensures s.attempt.Starting? ==> s.core == START && s.unread == [] && s.said == [] && s.reply == []
    ensures s.attempt.Shaking? && s.attempt.live ==> s.said <= cfg.hello && (s.book.pipe.pending == [] ==> s.said == cfg.hello)
    ensures s.attempt.Shaking? && s.attempt.live ==>
      var f := Feed(START, [], s.reply, cfg.limits);
      f.core == s.core && f.unread == s.unread && f.seen.error.None? &&
      |Line(s.book.pipe)| == 1 && Line(s.book.pipe)[0].tag == Handshake &&
      Line(s.book.pipe)[0].sink.slots == HelloSlots(Stream(s.reply, cfg.limits))
  {
    hide Reachable, Control, Balanced, HearingOk, DuesOk, OfferHeld, Gate, Seasoned, Configured, Feed, Stream, Line;
    SafeParts(cfg, s);
  }

  /**
   The verdict of a handshake. The connection opens exactly if the server has by now sent the number
   of replies expected, in this attempt, and none of them is an error reply; they are what the
   handshake's request was given. With an error among them, or with something malformed before they
   are complete, the attempt is over; otherwise it goes on.
   */
  lemma OpensIffGreeted(cfg: Config, s: State, chunk: bytes)
    requires Reachable(cfg, s) && Enabled(cfg, s, HandshakeRead(chunk))
    ensures
      var n, all := cfg.helloReplies, Stream(s.reply + [chunk], cfg.limits);
      var r := Apply(cfg, s, HandshakeRead(chunk));
      s.phase != OPEN &&
      (r.phase == OPEN <==> |all| >= n && forall i :: 0 <= i < n ==> !all[i].value.SimpleErrorValue? && !all[i].value.BulkErrorValue?) &&
      (|all| >= n ==> r.book.settled == s.book.settled + [Greeter(n, all[..n])]) &&
      (|all| >= n && r.phase != OPEN ==> Over(s, r)) &&
      (|all| < n && Feed(START, [], s.reply + [chunk], cfg.limits).seen.error.Some? ==> Over(s, r)) &&
      (|all| < n && Feed(START, [], s.reply + [chunk], cfg.limits).seen.error.None? ==> r.attempt == s.attempt && r.phase == s.phase)
  {
    hide Reachable, LedgerOk, HearingOk, DuesOk, OfferHeld, Gate, Seasoned, Configured, Feed, Stream, Line, Apply, Greeter, Pump, AttemptOk;
    SafeParts(cfg, s);
    HearingCore(cfg, s);
    ReplyJudged(cfg, s, chunk);
    var n, all := cfg.helloReplies, Stream(s.reply + [chunk], cfg.limits);
    if |all| >= n {
      assert forall i :: 0 <= i < n ==> all[..n][i] == all[i];
    }
  }

  // ----- settled exactly once -----

  lemma UptoOnce(n: nat, id: nat)
    requires id < n
    ensures multiset(Upto(n))[id] == 1
    decreases n
  {
    UptoNext(n - 1);
    if id < n - 1 {
      UptoOnce(n - 1, id);
    } else {
      UptoBelow(n - 1, id);
    }
  }

  lemma UptoBelow(n: nat, id: nat)
    requires id >= n
    ensures multiset(Upto(n))[id] == 0
  {
  }

  lemma {:induction false} HandshakeOnly(ws: seq<Waiting>)
    requires forall i :: 0 <= i < |ws| ==> ws[i].tag == Handshake
    ensures Ids(ws) == multiset{}
    decreases |ws|
  {
    if ws != [] {
      HandshakeOnly(ws[..|ws| - 1]);
    }
  }

  /**
   In every reachable state each request ever enqueued is in exactly one place: still in the pipeline
   with replies outstanding, or settled with exactly as many slots as it expected. While the
   connection is not open there is no user request in the pipeline, so all are settled.
   */
  lemma SettledExactlyOnce(cfg: Config, s: State)
    requires Reachable(cfg, s)
    ensures forall id :: 0 <= id < s.book.issued ==> (Ids(s.book.settled) + Ids(Line(s.book.pipe)))[id] == 1
    ensures forall w :: w in s.book.settled && w.tag != Handshake ==> SinkOk(w.sink) && Complete(w.sink)
    ensures forall w :: w in Line(s.book.pipe) ==> SinkOk(w.sink) && !Complete(w.sink)
    ensures s.phase != OPEN ==> Ids(Line(s.book.pipe)) == multiset{}
  {
    hide Reachable, HearingOk, Balanced, Ids, Line, Upto;
    SafeParts(cfg, s);
    BalancedFacts(s.book, cfg.hooks, ModeOf(s));
    LineOk(s.book.pipe);
    forall id | 0 <= id < s.book.issued
      ensures multiset(Upto(s.book.issued))[id] == 1
    {
      UptoOnce(s.book.issued, id);
    }
    if s.phase != OPEN {
      HandshakeOnly(Line(s.book.pipe));
    }
  }

  lemma BalancedFacts(b: Book, hooks: Hooks, mode: Mode)
    requires Balanced(b, hooks, mode)
    ensures PipeOk(b.pipe) && Ids(b.settled) + Ids(Line(b.pipe)) == multiset(Upto(b.issued))
    ensures forall w :: w in b.settled && w.tag != Handshake ==> SinkOk(w.sink) && Complete(w.sink)
    ensures mode == Quiet ==> forall i :: 0 <= i < |Line(b.pipe)| ==> Line(b.pipe)[i].tag == Handshake
  {
    hide Ids, Line, Upto, EpochsOk, PipeOk;
    forall w | w in b.settled && w.tag != Handshake
      ensures SinkOk(w.sink) && Complete(w.sink)
    {
      assert Sound(w, b.gens, mode == Serving);
    }
  }

  lemma {:induction false} HearAllSettles(cfg: Config, s: State, ms: seq<Message>, error: Option<ProtocolError>)
    ensures s.book.settled <= HearAll(cfg, s, ms, error).book.settled
    decreases |ms|
  {
    hide OnMessage, OnError, ClearAll, Summaries;
    if ms != [] && s.book.pipe.awaiting != [] {
      HearAllSettles(cfg, s.(book := Hear(s.book, cfg.hooks, ms[0])), ms[1..], error);
    }
  }

  lemma {:induction false} ShakeSettles(cfg: Config, s: State, ms: seq<Message>, error: Option<ProtocolError>)
    ensures s.book.settled <= Shake(cfg, s, ms, error).book.settled
    decreases |ms|
  {
    hide OnMessage, OnError, ClearAll, Summaries, FirstError;
    if ms != [] && s.book.pipe.awaiting != [] && OnMessage(s.book.pipe, ms[0]).settled == [] {
      ShakeSettles(cfg, s.(book := HelloHear(s.book, cfg.hooks, ms[0])), ms[1..], error);
    }
  }

  lemma DropSettles(cfg: Config, s: State, e: ErrorInfo)
    ensures s.book.settled <= HandleError(cfg, s, e).book.settled && s.book.settled <= CloseNow(cfg, s).book.settled
    ensures s.book.settled <= Drop(cfg, s, e, CLOSED).book.settled
  {
    hide ClearAll, Summaries;
  }

  lemma DropsSettle(cfg: Config, s: State, ev: Event)
    requires Enabled(cfg, s, ev) && IsDrop(ev)
    ensures s.book.settled <= Apply(cfg, s, ev).book.settled
  {
    hide HandleError, CloseNow, Drop, Expired, HearAll, Shake, FailShake, Abandon, Enqueue, Write, Record, HelloPush, HelloWrite, Pump, MessagesOf, Offer;
    match ev
    case CleanUp => DropSettles(cfg, s.(attempt := NoAttempt), ServerError([]));
    case WriteFails(_) => DropSettles(cfg, s.(writing := Idle), ClientError(WriteError));
    case ReadEof => DropSettles(cfg, s.(reading := Idle), ClientError(ConnectionReset));
    case ReadFails(_) => DropSettles(cfg, s.(reading := Idle), ClientError(ConnectionLost));
    case Expire => DropSettles(cfg, s, ClientError(RequestTimeout));
    case Close => DropSettles(cfg, s, ServerError([]));
    case ActorExits => DropSettles(cfg, s, ClientError(ConnectionClosed));
    case ActorThrows => DropSettles(cfg, s, ClientError(InternalError));
  }

  lemma OtherSettles(cfg: Config, s: State, ev: Event)
    requires Enabled(cfg, s, ev) && !ev.HandshakeRead? && !ev.ReadEnd? && !IsDrop(ev)
    ensures s.book.settled <= Apply(cfg, s, ev).book.settled
  {
    hide HearAll, Shake, ClearAll, Summaries, FailAll, HasRoom, OffersAtLeast, Expired, Pump, MessagesOf, Offer, WriteDone, Pipeline.Push, Drop, HandleError, CloseNow;
  }

  /** A settled request is never touched again. */
  lemma SettledForGood(cfg: Config, s: State, ev: Event)
    requires Enabled(cfg, s, ev)
    ensures s.book.settled <= Apply(cfg, s, ev).book.settled
  {
    hide HearAll, Shake, Pump, MessagesOf;
    if ev.HandshakeRead? {
      var r := Pump(s.core, s.unread + ev.chunk, cfg.limits);
      ShakeSettles(cfg, Told(s, r, ev.chunk), MessagesOf(r.seen.trees), r.seen.error);
    } else if ev.ReadEnd? {
      var r := Pump(s.core, s.unread + ev.chunk, cfg.limits);
      HearAllSettles(cfg, s.(reading := Idle, core := r.core, unread := r.unread, book := Record(s.book, ev.chunk)), MessagesOf(r.seen.trees), r.seen.error);
    } else if IsDrop(ev) {
      DropsSettle(cfg, s, ev);
    } else {
      OtherSettles(cfg, s, ev);
    }
  }

  /**
   A refused request is told the truth: `NotConnected` while the first connection is not up yet,
   `ConnectionLost` only if there was a connection and its actor still runs, `ConnectionClosed` only
   once a stop was requested or the connection has closed. In particular FAILED is never entered
   before the connection has been open.
   */
  lemma RefusalsTellWhy(cfg: Config, s: State)
    requires Reachable(cfg, s) && s.phase != OPEN
    ensures match RefusalCode(s.phase)
      case NotConnected => s.phase == INIT || (s.actor && s.attempt != NoAttempt && !ByControlLoop(s.attempt))
      case ConnectionLost => s.book.gens != [] && s.actor
      case _ => RefusalCode(s.phase) == ConnectionClosed && (s.stop || s.phase == CLOSED)
  {
    hide Reachable, HearingOk, Balanced, DuesOk;
    SafeParts(cfg, s);
  }

  // ----- replies, generation by generation -----

  /** Everyone who was ever enqueued, and the handshakes. */
  function Everyone(s: State): seq<Waiting> {
    s.book.settled + Line(s.book.pipe)
  }

  /** `w` holds slot number `n` of generation `g`. */
  predicate HoldsSlot(w: Waiting, g: nat, n: nat) {
    w.tag.User? && w.tag.gen == g && w.tag.base <= n < w.tag.base + |w.sink.targets|
  }

  predicate Holder(s: State, i: int, g: nat, n: nat) {
    0 <= i < |Everyone(s)| && HoldsSlot(Everyone(s)[i], g, n)
  }

  /** Slot `n` has message `n` of the stream if `n < k`; after that a client-side error, or nothing yet. */
  ghost predicate SlotRight(w: Waiting, n: nat, k: nat, stream: seq<Message>)
    requires w.tag.User? && w.tag.base <= n < w.tag.base + |w.sink.targets|
  {
    var i := n - w.tag.base;
    if n < k then n < |stream| && i < |w.sink.slots| && w.sink.slots[i] == SlotFromMessage(stream[n], w.sink.targets[i])
    else if Complete(w.sink) then Aborted(w.sink.slots[i])
    else |w.sink.slots| <= i
  }

  /** Slot `n` of generation `g` has exactly one holder, and that one has in it what it should. */
  ghost predicate SlotKept(cfg: Config, s: State, g: nat, n: nat)
    requires g < |s.book.gens|
  {
    var e := s.book.gens[g];
    (forall w :: w in Everyone(s) && HoldsSlot(w, g, n) ==>
      SlotRight(w, n, |e.heard|, Stream(e.chunks, cfg.limits)) && Ticketed(w, e.tickets) &&
      (Complete(w.sink) || (s.phase == OPEN && g == |s.book.gens| - 1))) &&
    (exists i :: Holder(s, i, g, n)) &&
    forall i, j :: Holder(s, i, g, n) && Holder(s, j, g, n) ==> i == j
  }

  /**
   For every generation there is a `k`, the number of messages delivered, such that of all the slots
   accepted in it, numbered in acceptance order, the first `k` hold the first `k` messages of its own
   stream, and the others hold client-side errors or, while it is the open generation, wait. Every
   slot has exactly one holder.
   */
  lemma RepliesMatchGenerations(cfg: Config, s: State, g: nat)
    requires Reachable(cfg, s) && g < |s.book.gens|
    ensures
      var e := s.book.gens[g];
      |e.heard| <= e.total && e.heard <= Stream(e.chunks, cfg.limits) && TicketsOk(e.tickets, e.total) &&
      forall n :: 0 <= n < e.total ==> SlotKept(cfg, s, g, n)
  {
    hide Reachable, Balanced, Control, Stream, Tracks, TicketsOk, DuesOk, OfferHeld, Gate, SlotKept, OwnersOk;
    SafeParts(cfg, s);
    var e := s.book.gens[g];
    GenerationFacts(s.book, cfg.hooks, ModeOf(s), g);
    assert e.heard <= Stream(e.chunks, cfg.limits);
    forall n | 0 <= n < e.total
      ensures SlotKept(cfg, s, g, n)
    {
      SlotIsKept(cfg, s, g, n);
    }
  }

  lemma SlotIsKept(cfg: Config, s: State, g: nat, n: nat)
    requires Balanced(s.book, cfg.hooks, ModeOf(s)) && OwnersOk(s.book) && g < |s.book.gens| && n < s.book.gens[g].total
    requires TicketsOk(s.book.gens[g].tickets, s.book.gens[g].total)
    requires s.book.gens[g].heard <= Stream(s.book.gens[g].chunks, cfg.limits)
    ensures SlotKept(cfg, s, g, n)
  {
    hide Everyone, Balanced, Stream, SlotRight, TicketsOk, Ticketed, OwnersOk;
    var e := s.book.gens[g];
    forall w | w in Everyone(s) && HoldsSlot(w, g, n)
      ensures SlotRight(w, n, |e.heard|, Stream(e.chunks, cfg.limits)) && Ticketed(w, e.tickets)
      ensures Complete(w.sink) || (s.phase == OPEN && g == |s.book.gens| - 1)
    {
      HolderIsRight(cfg, s, g, n, w);
    }
    SlotHasHolder(s, g, n);
    forall i, j | Holder(s, i, g, n) && Holder(s, j, g, n)
      ensures i == j
    {
      OneHolder(cfg, s, g, n, i, j);
    }
  }

  lemma GenerationFacts(b: Book, hooks: Hooks, mode: Mode, g: nat)
    requires Balanced(b, hooks, mode) && g < |b.gens|
    ensures TicketsOk(b.gens[g].tickets, b.gens[g].total) && |b.gens[g].heard| <= b.gens[g].total && OwnersOk(b)
  {
    hide TicketsOk, LineFor, AllSound, IdsOk, OwnersOk, TracesOk;
    EpochAt(b.gens, b.issued, g);
  }

  lemma SlotHasHolder(s: State, g: nat, n: nat)
    requires OwnersOk(s.book) && g < |s.book.gens|
    requires TicketsOk(s.book.gens[g].tickets, s.book.gens[g].total) && n < s.book.gens[g].total
    ensures exists i :: Holder(s, i, g, n)
  {
    hide TicketsOk, Line;
    var e := s.book.gens[g];
    var t := TicketOfSlot(e.tickets, e.total, n);
    assert Owned(s.book.gens[g].tickets[t], g, Everyone(s));
    var i :| 0 <= i < |Everyone(s)| && Owns(Everyone(s)[i], e.tickets[t], g);
    assert Holder(s, i, g, n);
  }

  lemma HolderIsRight(cfg: Config, s: State, g: nat, n: nat, w: Waiting)
    requires Balanced(s.book, cfg.hooks, ModeOf(s)) && g < |s.book.gens| && w in Everyone(s) && HoldsSlot(w, g, n)
    requires s.book.gens[g].heard <= Stream(s.book.gens[g].chunks, cfg.limits)
    ensures
      var e := s.book.gens[g];
      SlotRight(w, n, |e.heard|, Stream(e.chunks, cfg.limits)) && Ticketed(w, e.tickets) &&
      (Complete(w.sink) || (s.phase == OPEN && g == |s.book.gens| - 1))
  {
    hide Line, LineFor, EpochsOk, IdsOk, OwnersOk, TracesOk, Stream, Ticketed, Matches, SlotRight;
    var e := s.book.gens[g];
    if w in s.book.settled {
      assert Sound(w, s.book.gens, ModeOf(s) == Serving);
      FilledSlot(w, e, n, Stream(e.chunks, cfg.limits));
    } else {
      LineHolder(s.book, ModeOf(s), g, w);
      FilledSlot(w, e, n, Stream(e.chunks, cfg.limits));
    }
  }

  /** Filled slots hold what was heard, and what is not filled was not heard. */
  lemma FilledSlot(w: Waiting, e: Epoch, n: nat, stream: seq<Message>)
    requires Matches(w, e.heard) && w.tag.base <= n < w.tag.base + |w.sink.targets| && e.heard <= stream
    requires Complete(w.sink) || w.sink.slots == [] || w.tag.base + |w.sink.slots| == |e.heard|
    requires Complete(w.sink) || w.tag.base + |w.sink.slots| >= |e.heard|
    ensures SlotRight(w, n, |e.heard|, stream)
  {
    hide SlotFromMessage;
    var i := n - w.tag.base;
    assert i < |w.sink.slots| && n < |e.heard| ==> w.tag.base + i == n && e.heard[n] == stream[n];
  }

  lemma LineHolder(b: Book, mode: Mode, g: nat, w: Waiting)
    requires LineFor(mode, b.pipe, b.gens) && mode != Failing && w in Line(b.pipe) && w.tag.User? && w.tag.gen == g
    ensures mode == Serving && g == |b.gens| - 1 && Booked(w, b.gens[g]) && !Complete(w.sink)
    ensures w.sink.slots == [] || w.tag.base + |w.sink.slots| == |b.gens[g].heard|
    ensures w.tag.base + |w.sink.slots| >= |b.gens[g].heard|
  {
    hide PipeOk, Line, Matches, TicketsOk, Ticketed, BytesOk;
    var i :| 0 <= i < |Line(b.pipe)| && Line(b.pipe)[i] == w;
    if mode == Serving {
      BooksUnheard(b.pipe, b.gens[|b.gens| - 1], |b.gens| - 1);
      LineOk(b.pipe);
    }
  }

  // ----- one holder for each slot -----

  lemma {:induction false} BasesGrow(ts: seq<Ticket>, total: nat, i: nat, j: nat)
    requires TicketsOk(ts, total) && i < j < |ts|
    ensures ts[i].base + ts[i].size <= ts[j].base
    decreases j
  {
    var k := j - 1;
    assert ts[k].base + ts[k].size == ts[j].base;
    if i < k {
      BasesGrow(ts, total, i, k);
    }
  }

  lemma TicketsDisjoint(ts: seq<Ticket>, total: nat, t: Ticket, u: Ticket, n: nat)
    requires TicketsOk(ts, total) && t in ts && u in ts && t.base <= n < t.base + t.size && u.base <= n < u.base + u.size
    ensures t == u
  {
    var i :| 0 <= i < |ts| && ts[i] == t;
    var j :| 0 <= j < |ts| && ts[j] == u;
    hide TicketsOk;
    if i < j {
      BasesGrow(ts, total, i, j);
    } else if j < i {
      BasesGrow(ts, total, j, i);
    }
  }

  lemma {:induction false} IdCounted(ws: seq<Waiting>, i: nat)
    requires i < |ws| && ws[i].tag.User?
    ensures Ids(ws)[ws[i].tag.id] >= 1
    decreases |ws|
  {
    if i < |ws| - 1 {
      IdCounted(ws[..|ws| - 1], i);
    }
  }

  lemma {:induction false} IdCountedTwice(ws: seq<Waiting>, i: nat, j: nat)
    requires i < j < |ws| && ws[i].tag.User? && ws[j].tag.User? && ws[i].tag.id == ws[j].tag.id
    ensures Ids(ws)[ws[i].tag.id] >= 2
    decreases |ws|
  {
    if j == |ws| - 1 {
      IdCounted(ws[..|ws| - 1], i);
    } else {
      IdCountedTwice(ws[..|ws| - 1], i, j);
    }
  }

  lemma OneHolder(cfg: Config, s: State, g: nat, n: nat, i: nat, j: nat)
    requires Balanced(s.book, cfg.hooks, ModeOf(s)) && g < |s.book.gens| && i < |Everyone(s)| && j < |Everyone(s)|
    requires TicketsOk(s.book.gens[g].tickets, s.book.gens[g].total)
    requires HoldsSlot(Everyone(s)[i], g, n) && HoldsSlot(Everyone(s)[j], g, n)
    requires Ticketed(Everyone(s)[i], s.book.gens[g].tickets) && Ticketed(Everyone(s)[j], s.book.gens[g].tickets)
    ensures i == j
  {
    hide Line, LineFor, AllSound, EpochsOk, OwnersOk, TracesOk, TicketsOk, Ids, Upto;
    var ws, e := Everyone(s), s.book.gens[g];
    var w, v := ws[i], ws[j];
    TicketsDisjoint(e.tickets, e.total, Ticket(w.tag.id, w.tag.base, |w.sink.targets|), Ticket(v.tag.id, v.tag.base, |v.sink.targets|), n);
    IdsConcat(s.book.settled, Line(s.book.pipe));
    UptoAtMostOnce(s.book.issued, w.tag.id);
    if i < j {
      IdCountedTwice(ws, i, j);
    } else if j < i {
      IdCountedTwice(ws, j, i);
    }
  }

  lemma UptoAtMostOnce(n: nat, id: nat)
    ensures multiset(Upto(n))[id] <= 1
  {
    if id < n {
      UptoOnce(n, id);
    } else {
      UptoBelow(n, id);
    }
  }

  /** Requests still in line belong to the current generation and wait for exactly the next messages. */
  lemma LineWaitsForNext(cfg: Config, s: State)
    requires Reachable(cfg, s) && s.phase == OPEN
    ensures s.book.gens != []
    ensures
      var e := s.book.gens[|s.book.gens| - 1];
      Numbered(Line(s.book.pipe), |e.heard|, e.total, |s.book.gens| - 1) && Unheard(Line(s.book.pipe), e)
  {
    hide Reachable, Line, Balanced, Unheard, Numbered, PipeOk, BytesOk, LineBooked, TicketsOk, Control, HearingOk, DuesOk;
    SafeParts(cfg, s);
    ServingBooks(s.book, cfg.hooks);
    BooksUnheard(s.book.pipe, s.book.gens[|s.book.gens| - 1], |s.book.gens| - 1);
  }

  // ----- bytes -----

  /** The bytes a generation sent are the beginning of the bytes it accepted. */
  lemma SentInOrder(cfg: Config, s: State, g: nat)
    requires Reachable(cfg, s) && g < |s.book.gens|
    ensures s.book.gens[g].sent <= s.book.gens[g].wires
  {
    hide Reachable, HearingOk, Line, LineFor, AllSound, IdsOk, TracesOk;
    SafeParts(cfg, s);
    EpochAt(s.book.gens, s.book.issued, g);
  }

  /** The byte count is exact and within the configured limit, as is the number of requests; only the front is partly written. */
  lemma LimitsHold(cfg: Config, s: State)
    requires Reachable(cfg, s)
    ensures PipeOk(s.book.pipe) && s.book.pipe.pendingBytes == |Owed(s.book.pipe)| <= cfg.maxBytes
    ensures |s.book.pipe.pending| + |s.book.pipe.awaiting| <= cfg.maxRequests
    ensures forall i :: 0 < i < |s.book.pipe.pending| ==> s.book.pipe.pending[i].written == 0
    ensures s.phase == OPEN ==> s.book.gens != [] && Current(s.book).sent + Owed(s.book.pipe) == Current(s.book).wires
  {
    hide Reachable, Balanced, PipeOk, Owed, Books, Ids, Line, Upto, Control, HearingOk, DuesOk;
    SafeParts(cfg, s);
    BalancedFacts(s.book, cfg.hooks, ModeOf(s));
    PipeLimits(s.book.pipe);
    if s.phase == OPEN {
      ServingBooks(s.book, cfg.hooks);
      BooksBytes(s.book.pipe, Current(s.book), |s.book.gens| - 1);
    }
  }

  lemma PipeLimits(p: Pipe)
    requires PipeOk(p)
    ensures p.pendingBytes == |Owed(p)| <= p.maxBytes && |p.pending| + |p.awaiting| <= p.maxRequests
    ensures forall i :: 0 < i < |p.pending| ==> p.pending[i].written == 0
  {
    hide Unwritten;
  }

  lemma BooksBytes(p: Pipe, e: Epoch, gen: nat)
    requires Books(p, e, gen)
    ensures PipeOk(p) && e.sent + Owed(p) == e.wires
  {
    hide PipeOk, Line, Numbered, LineBooked, TicketsOk, Owed;
  }

  /** A completed write belongs to the request whose bytes were offered, and fits what it has left. */
  lemma WritesAreCredited(cfg: Config, s: State, n: nat)
    requires Reachable(cfg, s) && Enabled(cfg, s, WriteEnd(n))
    ensures Credited(s, n)
  {
    hide Reachable, Control, OfferHeld, LedgerOk, Balanced, HearingOk, DuesOk;
    SafeParts(cfg, s);
    WriteCredit(cfg, s, n);
  }

  // ----- deadlines -----

  /** The deadline the control loop waits for is the earliest of all requests in the pipeline. */
  lemma EarliestDeadline(cfg: Config, s: State)
    requires Reachable(cfg, s) && s.phase == OPEN
    ensures IsEarliest(NextDeadline(s.book.pipe), Line(s.book.pipe))
  {
    hide Reachable, HearingOk, Balanced, Line, Sorted, IsEarliest;
    SafeParts(cfg, s);
    NextDeadlineIsEarliest(s.book.pipe);
  }

  // ----- traces -----

  function FinishIds(fs: seq<Finish>): multiset<nat> {
    if fs == [] then multiset{} else FinishIds(fs[..|fs| - 1]) + multiset{fs[|fs| - 1].id}
  }

  lemma {:induction false} SummaryIds(ws: seq<Waiting>)
    ensures FinishIds(Summaries(ws)) == Ids(ws)
    decreases |ws|
  {
    if ws != [] {
      var n := |ws| - 1;
      SummaryIds(ws[..n]);
      if ws[n].tag != Handshake {
        assert Summaries(ws)[..|Summaries(ws)| - 1] == Summaries(ws[..n]);
      } else {
        assert Summaries(ws) == Summaries(ws[..n]);
      }
    }
  }

  lemma {:induction false} SummaryOf(ws: seq<Waiting>, f: Finish)
    requires f in Summaries(ws)
    ensures exists w :: w in ws && w.tag != Handshake && f == Summary(w.tag.id, w.sink.slots)
    decreases |ws|
  {
    var n := |ws| - 1;
    var w := ws[n];
    if w.tag != Handshake && f == Summary(w.tag.id, w.sink.slots) {
      assert w in ws;
    } else {
      SummaryOf(ws[..n], f);
    }
  }

  lemma NoFinishes()
    ensures FinishIds([]) == multiset{}
  {
  }

  /** The finish event of `w`: its number, and one count for each reply it expected. */
  predicate Accounts(f: Finish, w: Waiting) {
    w.tag != Handshake && f == Summary(w.tag.id, w.sink.slots) && f.okCount + f.errorCount == |w.sink.targets|
  }

  /**
   One start per request, in order; one finish per settled request and none for the others; and each
   finish accounts for every reply that was expected. A hook that is not set is never called.
   */
  lemma TracesBalance(cfg: Config, s: State)
    requires Reachable(cfg, s)
    ensures s.book.started == if cfg.hooks.onStart then Upto(s.book.issued) else []
    ensures FinishIds(s.book.finished) == if cfg.hooks.onFinish then Ids(s.book.settled) else multiset{}
    ensures forall f :: f in s.book.finished ==> exists w :: w in s.book.settled && Accounts(f, w)
  {
    hide Reachable, Ids, Line, Upto, LineFor, AllSound, EpochsOk, Summaries, FinishIds, IdsOk, HearingOk, Summary;
    SafeParts(cfg, s);
    BalancedFacts(s.book, cfg.hooks, ModeOf(s));
    SummaryIds(s.book.settled);
    NoFinishes();
    forall f | f in s.book.finished
      ensures exists w :: w in s.book.settled && Accounts(f, w)
    {
      SummaryOf(s.book.settled, f);
      var w :| w in s.book.settled && w.tag != Handshake && f == Summary(w.tag.id, w.sink.slots);
      assert Accounts(f, w);
    }
  }
}
