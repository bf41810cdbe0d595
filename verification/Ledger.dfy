/**
 The ledger of a connection: its pipeline and everything that ever happened to a request. What the
 connection does to requests is a handful of moves on this record; each keeps it balanced.
 */
module Ledger {
  import opened Bytes
  import opened Builder
  import opened Adapter
  import opened Sinks
  import opened Pipeline
  import opened Epochs

  /** Which trace hooks are set. */
  datatype Hooks = Hooks(onStart: bool, onFinish: bool)

  /** `settled` lists completed requests in order, `started` and `finished` the calls of the trace hooks. */
  datatype Book = Book(
    pipe: Pipe, issued: nat, settled: seq<Waiting>, gens: seq<Epoch>, started: seq<nat>, finished: seq<Finish>)

  // ----- tracing -----

  /** One finish event per user request among `ws`. */
  function Summaries(ws: seq<Waiting>): seq<Finish> {
    if ws == [] then []
    else
      var w := ws[|ws| - 1];
      Summaries(ws[..|ws| - 1]) +
      match w.tag
      case Handshake => []
      case User(id, _, _) => [Summary(id, w.sink.slots)]
      case Refused(id) => [Summary(id, w.sink.slots)]
  }

  lemma {:induction false} SummariesConcat(a: seq<Waiting>, b: seq<Waiting>)
    ensures Summaries(a + b) == Summaries(a) + Summaries(b)
    decreases |b|
  {
    if b == [] {
      assert a + b == a;
    } else {
      assert (a + b)[..|a + b| - 1] == a + b[..|b| - 1];
      SummariesConcat(a, b[..|b| - 1]);
    }
  }

  function Upto(n: nat): (s: seq<nat>)
    ensures |s| == n && forall i :: 0 <= i < n ==> s[i] == i
  {
    seq(n, i => i)
  }

  // ----- moves -----

  function Current(b: Book): Epoch {
    if b.gens == [] then NEW_EPOCH else b.gens[|b.gens| - 1]
  }

  function WithCurrent(b: Book, e: Epoch): Book {
    if b.gens == [] then b else b.(gens := b.gens[|b.gens| - 1 := e])
  }

  /** Completed sinks report to `on_finish`. */
  function Settle(b: Book, hooks: Hooks, d: Delivery): Book {
    b.(pipe := d.pipe, settled := b.settled + d.settled,
       finished := b.finished + if hooks.onFinish then Summaries(d.settled) else [])
  }

  function Issue(b: Book, hooks: Hooks): Book {
    b.(issued := b.issued + 1, started := b.started + if hooks.onStart then [b.issued] else [])
  }

  /** A rejected request: its finish event is emitted before its sink fails. */
  function Refuse(b: Book, hooks: Hooks, targets: seq<Target>, code: ClientCode): Book {
    var e := ClientError(code);
    Issue(b, hooks).(
      settled := b.settled + [Waiting(Refused(b.issued), FailAll(Sink(targets, []), e), None)],
      finished := b.finished + if hooks.onFinish then [Finish(b.issued, 0, |targets|, Some(e))] else [])
  }

  function Admit(b: Book, hooks: Hooks, targets: seq<Target>, wire: bytes, deadline: Option<int>): Book {
    var w := Entering(b.issued, if b.gens == [] then 0 else |b.gens| - 1, Current(b), targets, deadline);
    WithCurrent(Issue(b, hooks).(pipe := Push(b.pipe, w, wire)), Accepted(Current(b), b.issued, targets, wire))
  }

  /** The socket took `taken`, the beginning of what it was offered. */
  function Write(b: Book, taken: bytes): Book {
    if b.pipe.pending == [] || |taken| > b.pipe.pendingBytes then b
    else WithCurrent(b.(pipe := WriteDone(b.pipe, |taken|)), Sent(Current(b), taken))
  }

  function Hear(b: Book, hooks: Hooks, m: Message): Book
    requires b.pipe.awaiting != []
  {
    WithCurrent(Settle(b, hooks, OnMessage(b.pipe, m)), Heard(Current(b), m))
  }

  function HearError(b: Book, hooks: Hooks, e: ErrorInfo): Book {
    if b.pipe.awaiting == [] then b else Settle(b, hooks, OnError(b.pipe, e))
  }

  function Abort(b: Book, hooks: Hooks, e: ErrorInfo): Book {
    Settle(b, hooks, ClearAll(b.pipe, e))
  }

  function Begin(b: Book): Book {
    b.(gens := b.gens + [NEW_EPOCH])
  }

  function Record(b: Book, chunk: bytes): Book {
    WithCurrent(b, Current(b).(chunks := Current(b).chunks + [chunk]))
  }

  /** The handshake's request: every reply is expected and ignored. */
  function Hello(replies: nat): Waiting {
    Waiting(Handshake, Sink(seq(replies, _ => Ignore), []), None)
  }

  function HelloPush(b: Book, replies: nat, wire: bytes): Book {
    b.(pipe := Push(b.pipe, Hello(replies), wire))
  }

  function HelloWrite(b: Book, n: nat): Book {
    if b.pipe.pending == [] || n > b.pipe.pendingBytes then b else b.(pipe := WriteDone(b.pipe, n))
  }

  function HelloHear(b: Book, hooks: Hooks, m: Message): Book
    requires b.pipe.awaiting != []
  {
    Settle(b, hooks, OnMessage(b.pipe, m))
  }

  // ----- the balance -----

  /** Serving user requests; failing them; or quiet, with at most the handshake's own request. */
  datatype Mode = Serving | Failing | Quiet

  ghost predicate LineFor(mode: Mode, p: Pipe, gens: seq<Epoch>) {
    match mode
    case Serving => gens != [] && Books(p, gens[|gens| - 1], |gens| - 1)
    case Failing => gens != [] && PipeOk(p) && Unheard(Line(p), gens[|gens| - 1]) && OfGen(Line(p), |gens| - 1)
    case Quiet => PipeOk(p) && forall i :: 0 <= i < |Line(p)| ==> Line(p)[i].tag == Handshake
  }

  ghost predicate OfGen(line: seq<Waiting>, gen: nat) {
    forall i :: 0 <= i < |line| ==> line[i].tag.User? && line[i].tag.gen == gen
  }

  /** A settled request got exactly its replies, each slot from its own generation's stream or a client error. */
  ghost predicate Sound(w: Waiting, gens: seq<Epoch>, serving: bool) {
    match w.tag
    case Handshake => true
    case Refused(_) => SinkOk(w.sink) && Complete(w.sink) && forall i :: 0 <= i < |w.sink.slots| ==> Aborted(w.sink.slots[i])
    case User(_, gen, _) =>
      gen < |gens| && Settled(w, gens[gen]) && (serving && gen == |gens| - 1 ==> Answered(w, gens[gen]))
  }

  ghost predicate AllSound(ws: seq<Waiting>, gens: seq<Epoch>, serving: bool) {
    forall i :: 0 <= i < |ws| ==> Sound(ws[i], gens, serving)
  }

  /** Tickets are numbered, no message went without a slot, and the bytes sent are the beginning of the bytes accepted. */
  ghost predicate EpochOk(e: Epoch, issued: nat) {
    TicketsOk(e.tickets, e.total) && |e.heard| <= e.total && e.sent <= e.wires && forall i :: 0 <= i < |e.tickets| ==> e.tickets[i].id < issued
  }

  ghost predicate EpochsOk(gens: seq<Epoch>, issued: nat) {
    forall g :: 0 <= g < |gens| ==> EpochOk(gens[g], issued)
  }

  /** Every request ever issued is in exactly one place. */
  ghost predicate IdsOk(b: Book) {
    Ids(b.settled) + Ids(Line(b.pipe)) == multiset(Upto(b.issued))
  }

  /** The slots of every ticket ever given are held by a request of that generation. */
  ghost predicate OwnersOk(b: Book) {
    AllOwned(b.gens, b.settled + Line(b.pipe))
  }

  /** One start per request and one finish per settled request, each if its hook is set. */
  ghost predicate TracesOk(b: Book, hooks: Hooks) {
    b.started == (if hooks.onStart then Upto(b.issued) else []) && b.finished == if hooks.onFinish then Summaries(b.settled) else []
  }

  ghost predicate Balanced(b: Book, hooks: Hooks, mode: Mode) {
    LineFor(mode, b.pipe, b.gens) && AllSound(b.settled, b.gens, mode == Serving) && EpochsOk(b.gens, b.issued) &&
    IdsOk(b) && OwnersOk(b) && TracesOk(b, hooks)
  }

  // ----- settling -----

  lemma IdsSettle(b: Book, hooks: Hooks, d: Delivery)
    requires IdsOk(b) && OwnersOk(b) && TracesOk(b, hooks)
    requires Ids(Line(b.pipe)) == Ids(d.settled) + Ids(Line(d.pipe)) && Covers(Line(b.pipe), d.settled + Line(d.pipe))
    ensures IdsOk(Settle(b, hooks, d)) && OwnersOk(Settle(b, hooks, d)) && TracesOk(Settle(b, hooks, d), hooks)
  {
    hide Ids, Line, Summaries, Upto, AllOwned, Covers;
    IdsConcat(b.settled, d.settled);
    SummariesConcat(b.settled, d.settled);
    CoversSettled(b.settled, Line(b.pipe), d.settled, Line(d.pipe));
    TicketsStay(b.gens);
    AllOwnedMoves(b.gens, b.gens, b.settled + Line(b.pipe), b.settled + d.settled + Line(d.pipe));
  }

  lemma TicketsStay(gens: seq<Epoch>)
    ensures SameTickets(gens, gens)
  {
  }

  /** More requests, settled or in line, take nobody's slots away. */
  lemma OwnersMore(b: Book, c: Book, settled: seq<Waiting>, line: seq<Waiting>)
    requires OwnersOk(b) && SameTickets(b.gens, c.gens)
    requires c.settled == b.settled + settled && Line(c.pipe) == Line(b.pipe) + line
    ensures OwnersOk(c)
  {
    hide Line, AllOwned, Covers, SameTickets;
    var l := Line(b.pipe);
    assert settled + (l + line) == settled + l + line;
    CoversMore(l, settled, line);
    CoversSettled(b.settled, l, settled, l + line);
    AllOwnedMoves(b.gens, c.gens, b.settled + l, c.settled + Line(c.pipe));
  }

  lemma SoundConcat(a: seq<Waiting>, b: seq<Waiting>, gens: seq<Epoch>, serving: bool)
    requires AllSound(a, gens, serving) && forall w :: w in b ==> Sound(w, gens, serving)
    ensures AllSound(a + b, gens, serving)
  {
    hide Sound;
    forall i | 0 <= i < |a + b|
      ensures Sound((a + b)[i], gens, serving)
    {
      if i >= |a| {
        assert b[i - |a|] in b;
      }
    }
  }

  // ----- refusing and admitting -----

  lemma UptoNext(n: nat)
    ensures multiset(Upto(n + 1)) == multiset(Upto(n)) + multiset{n}
    ensures Upto(n + 1) == Upto(n) + [n]
  {
    assert Upto(n + 1) == Upto(n) + [n];
  }

  lemma {:induction false} FailedSummary(slots: seq<Sinks.Slot>, e: ErrorInfo)
    requires forall i :: 0 <= i < |slots| ==> slots[i] == Failed(e)
    ensures CountOk(slots) == 0 && (slots != [] ==> FirstError(slots) == Some(e))
    decreases |slots|
  {
    if slots != [] {
      FailedSummary(slots[..|slots| - 1], e);
    }
  }

  /** The event of a rejection is what the failed sink itself would have reported. */
  lemma RefusalSummary(id: nat, targets: seq<Target>, e: ErrorInfo)
    requires |targets| >= 1
    ensures Summary(id, FailAll(Sink(targets, []), e).slots) == Finish(id, 0, |targets|, Some(e))
  {
    FailedSummary(FailAll(Sink(targets, []), e).slots, e);
  }

  lemma SummariesOne(w: Waiting)
    requires !w.tag.Handshake?
    ensures Summaries([w]) == [Summary(w.tag.id, w.sink.slots)]
  {
    assert [w][..0] == [];
  }

  lemma EpochsLater(gens: seq<Epoch>, issued: nat)
    requires EpochsOk(gens, issued)
    ensures EpochsOk(gens, issued + 1)
  {
    hide TicketsOk;
    forall g | 0 <= g < |gens|
      ensures EpochOk(gens[g], issued + 1)
    {
      assert EpochOk(gens[g], issued);
    }
  }

  lemma RefuseKeeps(b: Book, hooks: Hooks, mode: Mode, targets: seq<Target>, code: ClientCode)
    requires Balanced(b, hooks, mode) && |targets| >= 1
    ensures Balanced(Refuse(b, hooks, targets, code), hooks, mode)
  {
    hide LineFor, Line, EpochsOk, Sound, Summaries, Ids, Upto, OwnersOk;
    TicketsStay(b.gens);
    var e := ClientError(code);
    var w := Waiting(Refused(b.issued), FailAll(Sink(targets, []), e), None);
    RefusedSound(w, b.gens, mode == Serving, e);
    SoundConcat(b.settled, [w], b.gens, mode == Serving);
    EpochsLater(b.gens, b.issued);
    UptoNext(b.issued);
    RefuseIds(b, w);
    SummariesConcat(b.settled, [w]);
    SummariesOne(w);
    RefusalSummary(b.issued, targets, e);
    OwnersMore(b, Refuse(b, hooks, targets, code), [w], []);
  }

  lemma RefusedSound(w: Waiting, gens: seq<Epoch>, serving: bool, e: ErrorInfo)
    requires w.tag.Refused? && |w.sink.targets| >= 1 && w.sink == FailAll(Sink(w.sink.targets, []), e) && ClientSide(e)
    ensures Sound(w, gens, serving)
  {
  }

  lemma RefuseIds(b: Book, w: Waiting)
    requires IdsOk(b) && w.tag == Refused(b.issued)
    ensures Ids(b.settled + [w]) + Ids(Line(b.pipe)) == multiset(Upto(b.issued + 1))
  {
    hide Ids, Line, Upto;
    IdsConcat(b.settled, [w]);
    IdsOne(w);
    UptoNext(b.issued);
  }

  lemma SoundAccepted(ws: seq<Waiting>, gens: seq<Epoch>, e: Epoch)
    requires AllSound(ws, gens, true) && gens != []
    requires forall w :: Answered(w, gens[|gens| - 1]) ==> Answered(w, e)
    ensures AllSound(ws, gens[|gens| - 1 := e], true)
  {
    hide Booked, Complete;
    var gens' := gens[|gens| - 1 := e];
    forall i | 0 <= i < |ws|
      ensures Sound(ws[i], gens', true)
    {
      assert Sound(ws[i], gens, true);
      if ws[i].tag.User? && ws[i].tag.gen == |gens| - 1 {
        assert Answered(ws[i], gens[|gens| - 1]);
        assert Answered(ws[i], e);
      }
    }
  }

  lemma EpochsWith(gens: seq<Epoch>, e: Epoch, issued: nat)
    requires EpochsOk(gens, issued) && gens != [] && EpochOk(e, issued)
    ensures EpochsOk(gens[|gens| - 1 := e], issued)
  {
    hide EpochOk;
  }

  lemma AcceptedEpoch(e: Epoch, issued: nat, targets: seq<Target>, wire: bytes)
    requires EpochOk(e, issued)
    ensures EpochOk(Accepted(e, issued, targets, wire), issued + 1)
  {
    TicketsGrow(e.tickets, e.total, issued, |targets|);
    hide TicketsOk;
  }

  lemma AnsweredStays(w: Waiting, e: Epoch, id: nat, targets: seq<Target>, wire: bytes)
    requires Answered(w, e)
    ensures Answered(w, Accepted(e, id, targets, wire))
  {
    hide Matches;
  }

  lemma AdmitKeeps(b: Book, hooks: Hooks, targets: seq<Target>, wire: bytes, deadline: Option<int>)
    requires Balanced(b, hooks, Serving) && |targets| >= 1 && HasRoom(b.pipe, wire)
    ensures Balanced(Admit(b, hooks, targets, wire, deadline), hooks, Serving)
  {
    hide Books, Line, EpochsOk, AllSound, Summaries, Ids, Upto, EpochOk, Answered, OwnersOk;
    var gen := |b.gens| - 1;
    var e := b.gens[gen];
    var e' := Accepted(e, b.issued, targets, wire);
    EpochAt(b.gens, b.issued, gen);
    AcceptKeeps(b.pipe, e, gen, b.issued, targets, wire, deadline);
    EpochsLater(b.gens, b.issued);
    AcceptedEpoch(e, b.issued, targets, wire);
    EpochsWith(b.gens, e', b.issued + 1);
    forall w | Answered(w, e)
      ensures Answered(w, e')
    {
      AnsweredStays(w, e, b.issued, targets, wire);
    }
    SoundAccepted(b.settled, b.gens, e');
    PushIds(b.pipe, Entering(b.issued, gen, e, targets, deadline), wire);
    UptoNext(b.issued);
    AdmitOwners(b, hooks, targets, wire, deadline);
  }

  /** The new ticket belongs to the new request. */
  lemma AdmitOwners(b: Book, hooks: Hooks, targets: seq<Target>, wire: bytes, deadline: Option<int>)
    requires OwnersOk(b) && b.gens != []
    ensures OwnersOk(Admit(b, hooks, targets, wire, deadline))
  {
    var c, gen := Admit(b, hooks, targets, wire, deadline), |b.gens| - 1;
    var w := Entering(b.issued, gen, b.gens[gen], targets, deadline);
    var old', all := b.settled + Line(b.pipe), c.settled + Line(c.pipe);
    assert all == old' + [w];
    hide Line, Admit;
    forall g, i | 0 <= g < |c.gens| && 0 <= i < |c.gens[g].tickets|
      ensures Owned(c.gens[g].tickets[i], g, all)
    {
      if g == gen && i == |b.gens[gen].tickets| {
        assert Owns(all[|old'|], c.gens[g].tickets[i], g);
      } else {
        assert c.gens[g].tickets[i] == b.gens[g].tickets[i];
        OwnedMore(b.gens[g].tickets[i], g, old', [w]);
      }
    }
  }

  lemma OwnedMore(t: Ticket, g: nat, ws: seq<Waiting>, more: seq<Waiting>)
    requires Owned(t, g, ws)
    ensures Owned(t, g, ws + more)
  {
    var j :| 0 <= j < |ws| && Owns(ws[j], t, g);
    assert Owns((ws + more)[j], t, g);
  }

  lemma EpochAt(gens: seq<Epoch>, issued: nat, g: nat)
    requires EpochsOk(gens, issued) && g < |gens|
    ensures EpochOk(gens[g], issued) && forall i :: 0 <= i < |gens[g].tickets| ==> gens[g].tickets[i].id < issued
  {
    hide TicketsOk;
  }

  // ----- writing and hearing -----

  /** The socket took the beginning of what the pipeline offers. */
  lemma WriteBalanced(b: Book, hooks: Hooks, n: nat)
    requires Balanced(b, hooks, Serving) && b.pipe.pending != [] && OffersAtLeast(b.pipe, n)
    ensures Balanced(Write(b, Offer(b.pipe)[..n]), hooks, Serving)
  {
    hide Books, Line, EpochsOk, AllSound, Summaries, Ids, Upto, Answered, OwnersOk;
    var gen := |b.gens| - 1;
    var e := b.gens[gen];
    var taken := Offer(b.pipe)[..n];
    BooksPipe(b.pipe, e, gen);
    Epochs.SentKeeps(b.pipe, e, gen, n);
    SentPrefix(WriteDone(b.pipe, n), Sent(e, taken), gen);
    EpochAt(b.gens, b.issued, gen);
    EpochsWith(b.gens, Sent(e, taken), b.issued);
    AnsweredSent(e, taken);
    SoundAccepted(b.settled, b.gens, Sent(e, taken));
    WriteLine(b.pipe, n);
    OwnersMore(b, Write(b, taken), [], []);
  }

  lemma BooksPipe(p: Pipe, e: Epoch, gen: nat)
    requires Books(p, e, gen)
    ensures PipeOk(p)
  {
  }

  lemma SentPrefix(p: Pipe, e: Epoch, gen: nat)
    requires Books(p, e, gen)
    ensures e.sent <= e.wires
  {
    hide PipeOk, Line, Numbered, Booked, TicketsOk, Owed;
  }

  lemma AnsweredSent(e: Epoch, taken: bytes)
    ensures forall w :: Answered(w, e) ==> Answered(w, Sent(e, taken))
  {
    hide Matches;
  }

  lemma AnsweredHeard(e: Epoch, m: Message)
    ensures forall w :: Answered(w, e) ==> Answered(w, Heard(e, m))
  {
    forall w | Answered(w, e)
      ensures Answered(w, Heard(e, m))
    {
      MatchesMore(w, e.heard, m);
      hide Matches;
    }
  }

  lemma HearBalanced(b: Book, hooks: Hooks, m: Message)
    requires Balanced(b, hooks, Serving) && b.pipe.awaiting != []
    ensures Balanced(Hear(b, hooks, m), hooks, Serving)
  {
    hide Books, Line, EpochsOk, AllSound, TracesOk, IdsOk, Answered, UpdateFront, Ids, OwnersOk, Covers;
    var gen := |b.gens| - 1;
    var e := b.gens[gen];
    var d := OnMessage(b.pipe, m);
    Epochs.HeardKeeps(b.pipe, e, gen, m);
    HeardBound(d.pipe, Heard(e, m), gen);
    HearEpochs(b.gens, b.issued, m);
    HearSound(b.settled, d.settled, b.gens, m);
    FrontIds(b.pipe, Accept(b.pipe.awaiting[0].sink, m));
    FrontCovers(b.pipe, Accept(b.pipe.awaiting[0].sink, m));
    IdsSettle(b, hooks, d);
    TracesElsewhere(Settle(b, hooks, d), Hear(b, hooks, m), hooks);
  }

  lemma HearEpochs(gens: seq<Epoch>, issued: nat, m: Message)
    requires EpochsOk(gens, issued) && gens != [] && |gens[|gens| - 1].heard| < gens[|gens| - 1].total
    ensures EpochsOk(gens[|gens| - 1 := Heard(gens[|gens| - 1], m)], issued)
  {
    hide EpochsOk, TicketsOk;
    EpochAt(gens, issued, |gens| - 1);
    EpochsWith(gens, Heard(gens[|gens| - 1], m), issued);
  }

  lemma HearSound(ws: seq<Waiting>, more: seq<Waiting>, gens: seq<Epoch>, m: Message)
    requires AllSound(ws, gens, true) && gens != []
    requires forall w :: w in more ==> Answered(w, Heard(gens[|gens| - 1], m)) && w.tag.gen == |gens| - 1
    ensures AllSound(ws + more, gens[|gens| - 1 := Heard(gens[|gens| - 1], m)], true)
  {
    hide AllSound, Answered;
    var e' := Heard(gens[|gens| - 1], m);
    AnsweredHeard(gens[|gens| - 1], m);
    SoundAccepted(ws, gens, e');
    AnsweredIsSound(more, gens[|gens| - 1 := e'], |gens| - 1);
    SoundConcat(ws, more, gens[|gens| - 1 := e'], true);
  }

  lemma AnsweredIsSound(ws: seq<Waiting>, gens: seq<Epoch>, gen: nat)
    requires gen < |gens| && forall w :: w in ws ==> Answered(w, gens[gen]) && w.tag.gen == gen
    ensures forall w :: w in ws ==> Sound(w, gens, true)
  {
    hide Matches;
  }

  lemma TracesElsewhere(b: Book, c: Book, hooks: Hooks)
    requires IdsOk(b) && OwnersOk(b) && TracesOk(b, hooks) && c == b.(gens := c.gens) && SameTickets(b.gens, c.gens)
    ensures IdsOk(c) && OwnersOk(c) && TracesOk(c, hooks)
  {
    hide AllOwned, Line, SameTickets;
    OwnersMore(b, c, [], []);
  }

  // ----- failing -----

  lemma ServingFails(b: Book, hooks: Hooks)
    requires Balanced(b, hooks, Serving)
    ensures Balanced(b, hooks, Failing)
  {
    hide Books, EpochsOk, TracesOk, IdsOk, OwnersOk, Unheard, Line, Settled, Answered, OfGen;
    BooksUnheard(b.pipe, b.gens[|b.gens| - 1], |b.gens| - 1);
    BooksGen(b.pipe, b.gens[|b.gens| - 1], |b.gens| - 1);
    forall i | 0 <= i < |b.settled|
      ensures Sound(b.settled[i], b.gens, false)
    {
      assert Sound(b.settled[i], b.gens, true);
    }
  }

  lemma BooksGen(p: Pipe, e: Epoch, gen: nat)
    requires Books(p, e, gen)
    ensures PipeOk(p) && OfGen(Line(p), gen)
  {
    hide PipeOk, Line, TicketsOk, Booked;
  }

  lemma SettledIsSound(ws: seq<Waiting>, gens: seq<Epoch>, gen: nat)
    requires gen < |gens| && forall w :: w in ws ==> Settled(w, gens[gen]) && w.tag.User? && w.tag.gen == gen
    ensures forall w :: w in ws ==> Sound(w, gens, false)
  {
    hide Matches;
  }

  lemma ErrorBalanced(b: Book, hooks: Hooks, e: ErrorInfo)
    requires Balanced(b, hooks, Failing) && ClientSide(e)
    ensures Balanced(HearError(b, hooks, e), hooks, Failing)
  {
    hide EpochsOk, AllSound, TracesOk, IdsOk, OwnersOk, Covers, Unheard, Line, Settled, PipeOk, ClientSide;
    if b.pipe.awaiting != [] {
      var gen := |b.gens| - 1;
      var d := OnError(b.pipe, e);
      ErrorKeeps(b.pipe, b.gens[gen], e);
      ErrorGen(b.pipe, gen, e);
      SettledIsSound(d.settled, b.gens, gen);
      SoundConcat(b.settled, d.settled, b.gens, false);
      FrontIds(b.pipe, AcceptError(b.pipe.awaiting[0].sink, e));
      FrontCovers(b.pipe, AcceptError(b.pipe.awaiting[0].sink, e));
      IdsSettle(b, hooks, d);
    }
  }

  lemma ErrorGen(p: Pipe, gen: nat, e: ErrorInfo)
    requires OfGen(Line(p), gen) && p.awaiting != []
    ensures
      var d := OnError(p, e);
      OfGen(Line(d.pipe), gen) && forall w :: w in d.settled ==> w.tag.User? && w.tag.gen == gen
  {
    assert Line(p)[0] == p.awaiting[0];
    var d := OnError(p, e);
    if d.settled == [] {
      assert forall i :: 0 < i < |Line(p)| ==> Line(d.pipe)[i] == Line(p)[i];
    } else {
      assert Line(d.pipe) == Line(p)[1..];
    }
  }

  lemma ClearTags(p: Pipe, e: ErrorInfo)
    ensures forall w :: w in ClearAll(p, e).settled ==> exists k :: 0 <= k < |Line(p)| && Line(p)[k].tag == w.tag
  {
    var all := ClearAll(p, e).settled;
    forall w | w in all
      ensures exists k :: 0 <= k < |Line(p)| && Line(p)[k].tag == w.tag
    {
      var i :| 0 <= i < |all| && all[i] == w;
      var k := if i < |p.pending| then |p.awaiting| + i else i - |p.pending|;
      assert Line(p)[k].tag == w.tag;
    }
  }

  lemma ClearGen(p: Pipe, gen: nat, e: ErrorInfo)
    requires OfGen(Line(p), gen)
    ensures forall w :: w in ClearAll(p, e).settled ==> w.tag.User? && w.tag.gen == gen
  {
    hide Line, ClearAll;
    ClearTags(p, e);
  }

  lemma AbortFailing(b: Book, hooks: Hooks, e: ErrorInfo)
    requires Balanced(b, hooks, Failing) && ClientSide(e)
    ensures Balanced(Abort(b, hooks, e), hooks, Quiet) && Line(Abort(b, hooks, e).pipe) == []
  {
    hide EpochsOk, AllSound, TracesOk, IdsOk, OwnersOk, Covers, Unheard, Line, Settled, PipeOk, ClientSide, ClearAll, OfGen;
    var gen := |b.gens| - 1;
    var d := ClearAll(b.pipe, e);
    ClearKeeps(b.pipe, e);
    ClearSettles(b.pipe, b.gens[gen], e);
    ClearGen(b.pipe, gen, e);
    SettledIsSound(d.settled, b.gens, gen);
    SoundConcat(b.settled, d.settled, b.gens, false);
    ClearIds(b.pipe, e);
    ClearCovers(b.pipe, e);
    NoIds();
    IdsSettle(b, hooks, d);
  }

  lemma NoIds()
    ensures Ids([]) == multiset{}
  {
  }

  lemma AbortQuiet(b: Book, hooks: Hooks, e: ErrorInfo)
    requires Balanced(b, hooks, Quiet)
    ensures Balanced(Abort(b, hooks, e), hooks, Quiet) && Line(Abort(b, hooks, e).pipe) == []
  {
    hide EpochsOk, AllSound, TracesOk, IdsOk, OwnersOk, Covers, Line, PipeOk, ClearAll;
    var d := ClearAll(b.pipe, e);
    ClearKeeps(b.pipe, e);
    ClearTags(b.pipe, e);
    SoundConcat(b.settled, d.settled, b.gens, false);
    ClearIds(b.pipe, e);
    ClearCovers(b.pipe, e);
    NoIds();
    IdsSettle(b, hooks, d);
  }

  /** However the connection stands, aborting settles every request and empties the line. */
  lemma AbortBalanced(b: Book, hooks: Hooks, mode: Mode, e: ErrorInfo)
    requires Balanced(b, hooks, mode) && ClientSide(e)
    ensures Balanced(Abort(b, hooks, e), hooks, Quiet) && Line(Abort(b, hooks, e).pipe) == []
  {
    hide Balanced, Abort, Line;
    match mode
    case Serving =>
      ServingFails(b, hooks);
      AbortFailing(b, hooks, e);
    case Failing => AbortFailing(b, hooks, e);
    case Quiet => AbortQuiet(b, hooks, e);
  }

  // ----- opening -----

  lemma BeginBalanced(b: Book, hooks: Hooks)
    requires Balanced(b, hooks, Quiet) && Line(b.pipe) == []
    ensures Balanced(Begin(b), hooks, Serving)
  {
    hide Line, Summaries, Ids, Upto, Books, PipeOk, Settled, Answered, TicketsOk, OwnersOk;
    BeginOwners(b);
    BooksOpen(b.pipe, |b.gens|);
    assert TicketsOk([], 0) by {
      NoTickets();
    }
    forall i | 0 <= i < |b.settled|
      ensures Sound(b.settled[i], b.gens + [NEW_EPOCH], true)
    {
      assert Sound(b.settled[i], b.gens, false);
    }
  }

  lemma BeginOwners(b: Book)
    requires OwnersOk(b)
    ensures OwnersOk(Begin(b))
  {
    hide Owned, Line;
    forall g, i | 0 <= g < |Begin(b).gens| && 0 <= i < |Begin(b).gens[g].tickets|
      ensures Owned(Begin(b).gens[g].tickets[i], g, b.settled + Line(b.pipe))
    {
      assert g < |b.gens| && Begin(b).gens[g] == b.gens[g];
    }
  }

  lemma NoTickets()
    ensures TicketsOk([], 0)
  {
  }

  // ----- the handshake -----

  lemma HelloPushBalanced(b: Book, hooks: Hooks, replies: nat, wire: bytes)
    requires Balanced(b, hooks, Quiet) && replies >= 1 && HasRoom(b.pipe, wire)
    ensures Balanced(HelloPush(b, replies, wire), hooks, Quiet)
    ensures Line(HelloPush(b, replies, wire).pipe) == Line(b.pipe) + [Hello(replies)]
  {
    hide Line, Summaries, Ids, Upto, PipeOk, AllSound, EpochsOk, OwnersOk;
    PushKeeps(b.pipe, Hello(replies), wire);
    PushIds(b.pipe, Hello(replies), wire);
    TicketsStay(b.gens);
    OwnersMore(b, HelloPush(b, replies, wire), [], [Hello(replies)]);
  }

  lemma HelloWriteBalanced(b: Book, hooks: Hooks, n: nat)
    requires Balanced(b, hooks, Quiet) && OffersAtLeast(b.pipe, n)
    ensures Balanced(HelloWrite(b, n), hooks, Quiet) && Line(HelloWrite(b, n).pipe) == Line(b.pipe)
  {
    hide Line, Summaries, Ids, Upto, PipeOk, AllSound, EpochsOk, OwnersOk;
    WriteKeeps(b.pipe, n);
    TicketsStay(b.gens);
    OwnersMore(b, HelloWrite(b, n), [], []);
  }

  lemma QuietFront(b: Book, hooks: Hooks, s: Sink)
    requires Balanced(b, hooks, Quiet) && b.pipe.awaiting != [] && SinkOk(s) && s.targets == b.pipe.awaiting[0].sink.targets
    ensures
      var d := UpdateFront(b.pipe, s);
      Balanced(Settle(b, hooks, d), hooks, Quiet) && |Line(d.pipe)| <= |Line(b.pipe)| &&
      (d.settled != [] ==> Complete(s) && d.settled == [b.pipe.awaiting[0].(sink := s)] && |Line(d.pipe)| == |Line(b.pipe)| - 1)
  {
    hide Line, Summaries, Ids, Upto, PipeOk, AllSound, EpochsOk, IdsOk, OwnersOk, Covers, TracesOk;
    var d := UpdateFront(b.pipe, s);
    FrontKeeps(b.pipe, s);
    assert Line(b.pipe)[0].tag == Handshake;
    SoundConcat(b.settled, d.settled, b.gens, false);
    FrontIds(b.pipe, s);
    FrontCovers(b.pipe, s);
    IdsSettle(b, hooks, d);
  }

  lemma HelloHearBalanced(b: Book, hooks: Hooks, m: Message)
    requires Balanced(b, hooks, Quiet) && b.pipe.awaiting != []
    ensures
      var d := OnMessage(b.pipe, m);
      Balanced(HelloHear(b, hooks, m), hooks, Quiet) && |Line(d.pipe)| <= |Line(b.pipe)| &&
      (d.settled != [] ==> Complete(d.settled[0].sink) && |Line(d.pipe)| == |Line(b.pipe)| - 1)
  {
    FrontSink(b.pipe);
    hide Balanced, Line, PipeOk, SlotFromMessage;
    QuietFront(b, hooks, Accept(b.pipe.awaiting[0].sink, m));
  }

  lemma FrontSink(p: Pipe)
    requires PipeOk(p) && p.awaiting != []
    ensures SinkOk(p.awaiting[0].sink) && !Complete(p.awaiting[0].sink)
  {
  }

  lemma HelloErrorBalanced(b: Book, hooks: Hooks, e: ErrorInfo)
    requires Balanced(b, hooks, Quiet)
    ensures Balanced(HearError(b, hooks, e), hooks, Quiet) && |Line(HearError(b, hooks, e).pipe)| <= |Line(b.pipe)|
  {
    if b.pipe.awaiting != [] {
      FrontSink(b.pipe);
      hide Balanced, Line, PipeOk;
      QuietFront(b, hooks, AcceptError(b.pipe.awaiting[0].sink, e));
    }
  }

  lemma RecordBalanced(b: Book, hooks: Hooks, chunk: bytes)
    requires Balanced(b, hooks, Serving)
    ensures Balanced(Record(b, chunk), hooks, Serving)
  {
    hide Books, Line, EpochsOk, AllSound, TracesOk, IdsOk, OwnersOk, Answered;
    var gen := |b.gens| - 1;
    var e := b.gens[gen];
    var e' := e.(chunks := e.chunks + [chunk]);
    BooksElsewhere(b.pipe, e, e', gen);
    EpochAt(b.gens, b.issued, gen);
    EpochsWith(b.gens, e', b.issued);
    AnsweredElsewhere(e, e');
    SoundAccepted(b.settled, b.gens, e');
    TracesElsewhere(b, Record(b, chunk), hooks);
  }

  lemma BooksElsewhere(p: Pipe, e: Epoch, e': Epoch, gen: nat)
    requires Books(p, e, gen) && e' == e.(chunks := e'.chunks)
    ensures Books(p, e', gen)
  {
    hide Line, PipeOk, Owed, Matches, Numbered, TicketsOk;
  }

  lemma AnsweredElsewhere(e: Epoch, e': Epoch)
    requires e' == e.(chunks := e'.chunks)
    ensures forall w :: Answered(w, e) ==> Answered(w, e')
  {
    hide Matches;
  }
}
