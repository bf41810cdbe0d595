/**
 Chunk independence for streams of well-formed values: it fails exactly if some line or length text
 in them has the maximum length.
 */
module Cuts {
  import opened Bytes
  import opened Kinds
  import opened Lexer
  import opened Parser
  import opened Streaming
  import opened Wire
  import opened Framing
  import opened Messages

  // ----- lines at the limit, token by token -----

  /** No token on the way through `d` starts with a line of exactly the maximum length. */
  predicate LinesOffLimit(d: bytes, L: Limits)
    decreases |d|
  {
    !AtLineLimit(d, L) && (Lex(d, L).Tok? ==> LinesOffLimit(d[Lex(d, L).size..], L))
  }

  /** A run that meets no error reads every token, whatever state it starts from. */
  lemma {:induction false} SensitiveIffAtLimit(c: Core, d: bytes, L: Limits)
    requires InRange(c) && DrainFrom(c, d, L).seen.error.None?
    ensures CutSensitive(c, d, L) <==> !LinesOffLimit(d, L)
    decreases |d|, if c.stack != [] && Top(c).state != ValueFrame then 1 else 0
  {
    hide Lex, Consume, AtLineLimit;
    if c.stack == [] {
    } else if Top(c).state != ValueFrame {
      assert DrainFrom(c, d, L) == DrainFrom(PushFrame(c, VALUE), d, L);
      SensitiveIffAtLimit(PushFrame(c, VALUE), d, L);
    } else if Lex(d, L).Tok? {
      DrainToken(c, d, L);
      var s, rest := Consume(c, Lex(d, L).token, L), d[Lex(d, L).size..];
      SensitiveIffAtLimit(if s.Produced? then Armed(START) else s.core, rest, L);
    }
  }

  // ----- the texts of a value -----

  /** No line or length text of the value has the maximum length. */
  predicate TextsOffLimit(w: Wire, L: Limits)
    decreases w, 2
  {
    GroupsOffLimit(w.attrs, L) &&
    match w.body
    case Line(_, text) => |text| != L.maxLineBytes
    case Bulk(_, h, _) => |h| != L.maxLineBytes
    case TypedNull(_, h) => |h| != L.maxLineBytes
    case List(_, h, items) => |h| != L.maxLineBytes && AllOffLimit(items, L)
    case Entries(h, items) => |h| != L.maxLineBytes && AllOffLimit(items, L)
    case _ => true
  }

  predicate GroupsOffLimit(gs: seq<Group>, L: Limits)
    decreases gs, 1
  {
    forall i :: 0 <= i < |gs| ==> |gs[i].header| != L.maxLineBytes && AllOffLimit(gs[i].items, L)
  }

  predicate AllOffLimit(ws: seq<Wire>, L: Limits)
    decreases ws, 0
  {
    forall i :: 0 <= i < |ws| ==> TextsOffLimit(ws[i], L)
  }

  lemma HeaderLine(k: Kind, h: bytes, len: int, rest: bytes, L: Limits)
    requires HeaderText(h, len, L) && (k == Attribute || IsContainerKind(k))
    ensures LinesOffLimit(EncodeHeader(k, h) + rest, L) <==> |h| != L.maxLineBytes && LinesOffLimit(rest, L)
  {
    NumberIsLineText(h);
    LineOf(k, h, rest);
    LexOpen(k, h, len, rest, L);
    PrefixRoundTrip(k);
    hide Lex, EncodeHeader, FindCrlf;
  }

  /** A childless body is one token; null and boolean have no line. */
  lemma ScalarLine(b: Body, rest: bytes, L: Limits)
    requires BodyText(b, L) && !b.List? && !b.Entries? && !(b.TypedNull? && IsContainerKind(b.kind))
    ensures
      var d := EncodeBody(b) + rest;
      LinesOffLimit(d, L) <==> TextsOffLimit(Wire([], b), L) && LinesOffLimit(rest, L)
  {
    LexScalarBody(b, rest, L);
    ScalarAtLimit(b, rest, L);
    hide Lex, EncodeBody, AtLineLimit;
  }

  lemma LineAtLimit(k: Kind, text: bytes, rest: bytes, L: Limits)
    requires LineText(text) && k != Null && k != Boolean
    ensures AtLineLimit(EncodeHeader(k, text) + rest, L) <==> |text| == L.maxLineBytes
  {
    PrefixRoundTrip(k);
    LineOf(k, text, rest);
    hide FindCrlf, EncodeHeader, PrefixToKind;
  }

  lemma ScalarAtLimit(b: Body, rest: bytes, L: Limits)
    requires BodyText(b, L) && !b.List? && !b.Entries?
    ensures AtLineLimit(EncodeBody(b) + rest, L) <==> !TextsOffLimit(Wire([], b), L)
  {
    match b
    case Line(k, text) =>
      hide AtLineLimit, EncodeHeader;
      LineAtLimit(k, text, rest, L);
    case Bulk(k, h, payload) =>
      hide AtLineLimit, EncodeHeader;
      NumberIsLineText(h);
      LineAtLimit(k, h, payload + CRLF + rest, L);
      BulkRest(EncodeHeader(k, h), payload, rest);
    case TypedNull(k, h) =>
      hide AtLineLimit, EncodeHeader;
      NumberIsLineText(h);
      LineAtLimit(k, h, rest, L);
    case Flag(_) => PrefixRoundTrip(Boolean);
    case Nil => PrefixRoundTrip(Null);
  }

  lemma BulkRest(head: bytes, payload: bytes, rest: bytes)
    ensures head + payload + CRLF + rest == head + (payload + CRLF + rest)
  {
  }

  lemma {:induction false} LinesOfWire(w: Wire, rest: bytes, L: Limits)
    requires WellFormed(w, L)
    ensures LinesOffLimit(Encode(w) + rest, L) <==> TextsOffLimit(w, L) && LinesOffLimit(rest, L)
    decreases w, 4
  {
    hide LinesOffLimit, EncodeBody, EncodeGroups, GroupsOffLimit;
    ConcatAssoc(EncodeGroups(w.attrs), EncodeBody(w.body), rest);
    LinesOfGroups(w.attrs, EncodeBody(w.body) + rest, L);
    LinesOfBody(w.body, rest, L);
    NoGroups(L);
  }

  lemma NoGroups(L: Limits)
    ensures GroupsOffLimit([], L)
  {
  }

  lemma {:induction false} LinesOfBody(b: Body, rest: bytes, L: Limits)
    requires BodyText(b, L) && (b.List? || b.Entries? ==> AllWellFormed(b.items, L))
    ensures LinesOffLimit(EncodeBody(b) + rest, L) <==> TextsOffLimit(Wire([], b), L) && LinesOffLimit(rest, L)
    decreases b, 3
  {
    if b.List? || b.Entries? {
      var k := if b.List? then b.kind else Map;
      var len := if b.List? then |b.items| else |b.items| / 2;
      hide LinesOffLimit, EncodeHeader, EncodeAll, AllOffLimit;
      ConcatAssoc(EncodeHeader(k, b.header), EncodeAll(b.items), rest);
      HeaderLine(k, b.header, len, EncodeAll(b.items) + rest, L);
      LinesOfAll(b.items, rest, L);
    } else if b.TypedNull? && IsContainerKind(b.kind) {
      HeaderLine(b.kind, b.header, -1, rest, L);
    } else {
      ScalarLine(b, rest, L);
    }
  }

  lemma {:induction false} LinesOfGroups(gs: seq<Group>, rest: bytes, L: Limits)
    requires forall i :: 0 <= i < |gs| ==> PairCount(gs[i].header, gs[i].items, L) && AllWellFormed(gs[i].items, L)
    ensures LinesOffLimit(EncodeGroups(gs) + rest, L) <==> GroupsOffLimit(gs, L) && LinesOffLimit(rest, L)
    decreases gs, 2
  {
    hide LinesOffLimit, EncodeHeader, EncodeAll, AllOffLimit;
    if gs == [] {
      assert EncodeGroups(gs) + rest == rest;
    } else {
      var g, rest1 := gs[0], EncodeGroups(gs[1..]) + rest;
      assert EncodeGroups(gs) + rest == EncodeHeader(Attribute, g.header) + (EncodeAll(g.items) + rest1);
      HeaderLine(Attribute, g.header, |g.items| / 2, EncodeAll(g.items) + rest1, L);
      LinesOfAll(g.items, rest1, L);
      LinesOfGroups(gs[1..], rest, L);
      GroupsTail(gs, L);
    }
  }

  lemma GroupsTail(gs: seq<Group>, L: Limits)
    requires gs != []
    ensures GroupsOffLimit(gs, L) <==> |gs[0].header| != L.maxLineBytes && AllOffLimit(gs[0].items, L) && GroupsOffLimit(gs[1..], L)
  {
    hide AllOffLimit;
    assert forall i :: 0 <= i < |gs| ==> gs[i] == if i == 0 then gs[0] else gs[1..][i - 1];
  }

  lemma {:induction false} LinesOfAll(ws: seq<Wire>, rest: bytes, L: Limits)
    requires AllWellFormed(ws, L)
    ensures LinesOffLimit(EncodeAll(ws) + rest, L) <==> AllOffLimit(ws, L) && LinesOffLimit(rest, L)
    decreases ws, 1
  {
    hide LinesOffLimit, Encode, TextsOffLimit, WellFormed;
    if ws == [] {
      assert EncodeAll(ws) + rest == rest;
    } else {
      var rest1 := EncodeAll(ws[1..]) + rest;
      assert EncodeAll(ws) + rest == Encode(ws[0]) + rest1;
      LinesOfWire(ws[0], rest1, L);
      LinesOfAll(ws[1..], rest, L);
      assert forall i :: 0 <= i < |ws| ==> ws[i] == if i == 0 then ws[0] else ws[1..][i - 1];
    }
  }

  // ----- the exact condition -----

  /**
   For a stream of well-formed values the reads do not matter if and only if no line or length text
   in it has exactly the maximum length.
   */
  lemma ReadsMatterIffAtLimit(ws: seq<Wire>, L: Limits)
    requires AllWellFormed(ws, L)
    ensures ReadsDoNotMatter(EncodeAll(ws), L) <==> AllOffLimit(ws, L)
  {
    hide CutSensitive, ReadsDoNotMatter, LinesOffLimit, AllOffLimit, DrainFrom, AllWellFormed, EncodeAll;
    var d := EncodeAll(ws);
    ChunkIndependence(d, L);
    DrainValues(ws, L);
    SensitiveIffAtLimit(Armed(START), d, L);
    LinesOfAll(ws, [], L);
    assert d + [] == d;
    NothingOffLimit(L);
  }

  lemma NothingOffLimit(L: Limits)
    ensures LinesOffLimit([], L)
  {
  }

  // ----- a stream for which they matter -----

  /** `+OK`, CR, LF: with lines of at most two bytes, a cut between CR and LF turns a value into an error. */
  lemma CutBetweenCrAndLf(L: Limits)
    requires L.maxLineBytes == 2
    ensures Feed(START, [], [[43, 79, 75, 13], [10]], L).seen == Observed([], Some(InvalidLength))
    ensures Drain(START, [43, 79, 75, 13, 10], L).seen.error == None
    ensures CutSensitive(Armed(START), [43, 79, 75, 13, 10], L)
  {
    var w := Wire([], Line(SimpleString, [79, 75]));
    OkIsWellFormed(w, L);
    var d: bytes := [43, 79, 75, 13, 10];
    DrainValues([w], L);
    ReadsMatterIffAtLimit([w], L);
    ChunkIndependence(d, L);
    CutIsRefused([43, 79, 75, 13], L);
    FeedStopsAtError([43, 79, 75, 13], [[10]], L);
  }

  lemma OkIsWellFormed(w: Wire, L: Limits)
    requires w == Wire([], Line(SimpleString, [79, 75])) && L.maxLineBytes == 2
    ensures AllWellFormed([w], L) && EncodeAll([w]) == [43, 79, 75, 13, 10] && !AllOffLimit([w], L)
  {
    assert !TextsOffLimit([w][0], L);
    assert EncodeGroups([]) == [] && EncodeBody(w.body) == [43, 79, 75, 13, 10];
    assert [w][1..] == [] && EncodeAll([]) == [];
    assert Encode(w) == [43, 79, 75, 13, 10];
  }

  /** Without its LF the line looks too long. */
  lemma CutIsRefused(d: bytes, L: Limits)
    requires d == [43, 79, 75, 13] && L.maxLineBytes == 2
    ensures DrainFrom(Armed(START), d, L).seen == Observed([], Some(InvalidLength))
  {
    assert FindCrlf(d[1..]).None?;
    assert PrefixToKind(d[0]) == Some(SimpleString);
    hide FindCrlf, PrefixToKind;
    assert Lex(d, L) == Bad(InvalidLength);
  }
}
