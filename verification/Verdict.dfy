/**
 What `parse_one` makes of any bytes, said of the bytes: when it waits, which error it reports and
 where a value ends, without a lexer and without a stack. A single number, how many values are still
 to come, takes the place of the stack.
 */
module Verdict {
  import opened Bytes
  import opened Kinds
  import opened Lexer
  import opened Parser
  import opened Discipline
  import opened Builder

  // ----- one token, by its bytes -----

  predicate IsTypeByte(c: char) {
    c in {'+', '-', ':', ',', '#', '(', '_', '$', '!', '=', '*', '%', '~', '|', '>'}
  }

  predicate IsBulkByte(c: char) {
    c in {'$', '!', '='}
  }

  /** Types whose line is a length: bulk texts, containers and attributes. */
  predicate HasLength(c: char) {
    IsBulkByte(c) || c in {'*', '%', '~', '|', '>'}
  }

  function TypeOf(d: bytes): char
    requires d != []
  {
    d[0] as char
  }

  /** Where the first line ends: the CRLF is at this position and nowhere before. */
  function LineEnd(d: bytes): Option<nat>
    requires d != []
  {
    if FindCrlf(d[1..]).Some? then Some(1 + FindCrlf(d[1..]).value) else None
  }

  function Line(d: bytes): bytes
    requires d != [] && LineEnd(d).Some?
  {
    d[1..][..LineEnd(d).value - 1]
  }

  /** No CRLF has come, and the line could still be short enough. */
  predicate LineOpen(d: bytes, L: Limits)
    requires d != []
  {
    LineEnd(d).None? && |d| - 1 <= L.maxLineBytes
  }

  predicate LineTooLong(d: bytes, L: Limits)
    requires d != []
  {
    if LineEnd(d).Some? then LineEnd(d).value - 1 > L.maxLineBytes else |d| - 1 > L.maxLineBytes
  }

  predicate LineShort(d: bytes, L: Limits)
    requires d != []
  {
    LineEnd(d).Some? && LineEnd(d).value - 1 <= L.maxLineBytes
  }

  /** The 64-bit integer a short enough line spells. */
  function Declared(d: bytes, L: Limits): (r: Option<int>)
    requires d != []
  {
    if LineShort(d, L) then ParseI64(Line(d)) else None
  }

  lemma DeclaredIsSpelled(d: bytes, v: int, L: Limits)
    requires d != []
    ensures Declared(d, L) == Some(v) <==>
      LineShort(d, L) && Denotes(Line(d), v) && -0x8000_0000_0000_0000 <= v <= 0x7FFF_FFFF_FFFF_FFFF
  {
    if LineShort(d, L) {
      ParsesIffDenotes(Line(d), v);
    }
  }

  /** Lengths that are accepted; -1 spells null, except for attributes. */
  predicate LengthOk(c: char, len: int, L: Limits) {
    if IsBulkByte(c) then -1 <= len <= L.maxBulkBytes
    else if c == '|' then 0 <= len <= L.maxContainerLen && len <= 0x7FFF_FFFF
    else if c == '%' then -1 <= len <= L.maxContainerLen && len <= 0x7FFF_FFFF
    else -1 <= len <= L.maxContainerLen && len <= 0xFFFF_FFFF
  }

  /** The length of a bulk text that is not null and not too long. */
  function BulkLength(d: bytes, L: Limits): (r: Option<nat>)
    requires d != []
  {
    var len := Declared(d, L);
    if IsBulkByte(TypeOf(d)) && len.Some? && 0 <= len.value <= L.maxBulkBytes then Some(len.value) else None
  }

  function PayloadStart(d: bytes): nat
    requires d != [] && LineEnd(d).Some?
  {
    LineEnd(d).value + 2
  }

  /** The payload of a bulk text and the two bytes behind it are all there. */
  predicate PayloadHere(d: bytes, L: Limits)
    requires d != []
  {
    BulkLength(d, L).Some? && PayloadStart(d) + BulkLength(d, L).value + 2 <= |d|
  }

  /** One past the payload. */
  function PayloadEnd(d: bytes, L: Limits): nat
    requires d != [] && PayloadHere(d, L)
  {
    PayloadStart(d) + BulkLength(d, L).value
  }

  predicate TrailerOk(d: bytes, L: Limits)
    requires d != [] && PayloadHere(d, L)
  {
    d[PayloadEnd(d, L)..PayloadEnd(d, L) + 2] == CRLF
  }

  /** A verbatim text starts with three bytes and a colon. */
  predicate FormatOk(d: bytes, L: Limits)
    requires d != [] && PayloadHere(d, L)
  {
    TypeOf(d) == '=' ==> BulkLength(d, L).value >= 4 && d[PayloadStart(d) + 3] as char == ':'
  }

  /** More bytes are needed: what is there is the beginning of a token. */
  predicate Unfinished(d: bytes, L: Limits) {
    d == [] ||
    match TypeOf(d)
    case '_' => |d| < 3
    case '#' => |d| < 4
    case c => IsTypeByte(c) && (LineOpen(d, L) || (BulkLength(d, L).Some? && !PayloadHere(d, L)))
  }

  /** The first token is refused with `e`. */
  predicate Faulty(d: bytes, e: ProtocolError, L: Limits) {
    d != [] &&
    var c := TypeOf(d);
    match e
    case InvalidTypeByte => !IsTypeByte(c)
    case InvalidNull => c == '_' && |d| >= 3 && d[1..3] != CRLF
    case InvalidBoolean => c == '#' && |d| >= 4 && (d[2..4] != CRLF || d[1] as char !in {'t', 'f'})
    case InvalidInteger => c == ':' && LineShort(d, L) && Declared(d, L).None?
    case InvalidDouble => c == ',' && LineShort(d, L) && !L.isDouble(Line(d))
    case InvalidLength =>
      IsTypeByte(c) && c != '_' && c != '#' &&
      (LineTooLong(d, L) || (HasLength(c) && LineShort(d, L) && (Declared(d, L).None? || !LengthOk(c, Declared(d, L).value, L))))
    case InvalidBulkTrailer => PayloadHere(d, L) && !TrailerOk(d, L)
    case InvalidVerbatim => PayloadHere(d, L) && TrailerOk(d, L) && !FormatOk(d, L)
    case _ => false
  }

  /** The first token is complete and sound: it takes `n` bytes, and `more` further values belong to it. */
  predicate Takes(d: bytes, n: nat, more: nat, L: Limits) {
    d != [] &&
    var c := TypeOf(d);
    if c == '_' then n == 3 <= |d| && d[1..3] == CRLF && more == 0
    else if c == '#' then n == 4 <= |d| && d[2..4] == CRLF && d[1] as char in {'t', 'f'} && more == 0
    else if PayloadHere(d, L) then TrailerOk(d, L) && FormatOk(d, L) && n == PayloadEnd(d, L) + 2 && more == 0
    else
      IsTypeByte(c) && LineShort(d, L) && n == LineEnd(d).value + 2 &&
      if IsBulkByte(c) then Declared(d, L) == Some(-1) && more == 0
      else if HasLength(c) then Declared(d, L).Some? && LengthOk(c, Declared(d, L).value, L) && more == Further(c, Declared(d, L).value)
      else (c == ':' ==> Declared(d, L).Some?) && (c == ',' ==> L.isDouble(Line(d))) && more == 0
  }

  /** How many values a header announces: a map's pairs count twice, an attribute is followed by the value it belongs to. */
  function Further(c: char, len: int): nat {
    if len < 0 then 0 else if c == '%' then 2 * len else if c == '|' then 2 * len + 1 else len
  }

  // ----- the lexer agrees -----

  /** What the parser does with the first token. */
  datatype Judgement = Waits | Refuses(error: ProtocolError) | Reads(size: nat, more: nat)

  function TokenMore(t: Token): int {
    match t
    case Scalar(_) => 0
    case Open(k, len) => if len < 0 then 0 else if k == Map then 2 * len else len
    case Attr(len) => 2 * len + 1
  }

  /** The token's length is one that `parse_value` goes on with. */
  predicate TokenOk(t: Token, L: Limits) {
    match t
    case Scalar(_) => true
    case Open(k, len) => len <= L.maxContainerLen && (len == -1 || RepresentableLength(k, len))
    case Attr(len) => len <= L.maxContainerLen && RepresentableLength(Attribute, len)
  }

  function Judge(d: bytes, L: Limits): (r: Judgement)
    ensures r.Reads? ==> 0 < r.size <= |d|
  {
    match Lex(d, L)
    case NeedMore => Waits
    case Bad(e) => Refuses(e)
    case Tok(t, n) => if TokenOk(t, L) && TokenMore(t) >= 0 then Reads(n, TokenMore(t)) else Refuses(InvalidLength)
  }

  /** What is said of the bytes is what happens. */
  ghost predicate Agrees(d: bytes, j: Judgement, L: Limits) {
    (Unfinished(d, L) <==> j == Waits) &&
    (forall e :: Faulty(d, e, L) <==> j == Refuses(e)) &&
    forall n: nat, more: nat :: Takes(d, n, more, L) <==> j == Reads(n, more)
  }

  lemma HeaderAgrees(d: bytes, L: Limits)
    requires d != []
    ensures
      match ParseHeader(d, L)
      case HeaderNeedMore => LineOpen(d, L)
      case HeaderBad => LineTooLong(d, L) || (LineShort(d, L) && Declared(d, L).None?)
      case HeaderOk(len, size) => LineShort(d, L) && Declared(d, L) == Some(len) && size == PayloadStart(d)
  {
    hide ParseI64;
  }

  /** Which kind of token each type byte starts. */
  lemma KindsByByte(d: bytes)
    requires d != [] && IsTypeByte(TypeOf(d))
    ensures PrefixToKind(d[0]).Some?
    ensures
      var c, k := TypeOf(d), PrefixToKind(d[0]).value;
      (k == Null <==> c == '_') && (k == Boolean <==> c == '#') && (IsBulkKind(k) <==> IsBulkByte(c)) &&
      (k == VerbatimString <==> c == '=') && (k == Attribute <==> c == '|') && (k == Map <==> c == '%') &&
      (k == Integer <==> c == ':') && (k == DoubleNumber <==> c == ',') && (IsListKind(k) <==> c in {'*', '~', '>'}) &&
      (IsLineKind(k) <==> c in {'+', '-', '('})
  {
  }

  lemma PairIs(d: bytes, i: nat)
    requires i + 2 <= |d|
    ensures d[i..i + 2] == CRLF <==> d[i] == CR && d[i + 1] == LF
  {
  }

  lemma NotBulk(d: bytes, L: Limits)
    requires d != [] && !IsBulkByte(TypeOf(d))
    ensures !PayloadHere(d, L) && BulkLength(d, L).None?
  {
    hide Declared;
  }

  lemma NullAgrees(d: bytes, L: Limits)
    requires d != [] && TypeOf(d) == '_'
    ensures Agrees(d, Judge(d, L), L)
  {
    hide PrefixToKind, KindToPrefix, LexBulk, LexLine, LexBoolean, ParseHeader, LineShort, LineTooLong, LineOpen, PayloadHere, Declared, LineEnd;
    KindsByByte(d);
    NotBulk(d, L);
    if |d| >= 3 {
      PairIs(d, 1);
    }
  }

  lemma BooleanAgrees(d: bytes, L: Limits)
    requires d != [] && TypeOf(d) == '#'
    ensures Agrees(d, Judge(d, L), L)
  {
    hide PrefixToKind, KindToPrefix, LexBulk, LexLine, LexNull, ParseHeader, LineShort, LineTooLong, LineOpen, PayloadHere, Declared, LineEnd;
    KindsByByte(d);
    NotBulk(d, L);
    if |d| >= 4 {
      PairIs(d, 2);
    }
  }

  lemma LineAgrees(d: bytes, L: Limits)
    requires d != [] && TypeOf(d) in {'+', '-', '(', ':', ','}
    ensures Agrees(d, Judge(d, L), L)
  {
    hide PrefixToKind, KindToPrefix, ParseI64, FindCrlf, LexBulk, ParseHeader, LexNull, LexBoolean;
    KindsByByte(d);
  }

  /** The lexer's answer for a bulk text, by what is there of it. */
  lemma BulkLexed(d: bytes, k: Kind, L: Limits)
    requires d != [] && IsBulkByte(TypeOf(d)) && (k == VerbatimString <==> TypeOf(d) == '=')
    ensures
      var r := LexBulk(d, k, L);
      if LineOpen(d, L) then r == NeedMore
      else if Declared(d, L).None? || !LengthOk(TypeOf(d), Declared(d, L).value, L) then r == Bad(InvalidLength)
      else if BulkLength(d, L).None? then r.Tok? && r.token.Scalar? && r.size == PayloadStart(d)
      else if !PayloadHere(d, L) then r == NeedMore
      else if !TrailerOk(d, L) then r == Bad(InvalidBulkTrailer)
      else if !FormatOk(d, L) then r == Bad(InvalidVerbatim)
      else r.Tok? && r.token.Scalar? && r.size == PayloadEnd(d, L) + 2
  {
    hide ParseHeader, ParseI64, FindCrlf;
    HeaderAgrees(d, L);
  }

  lemma LineCases(d: bytes, L: Limits)
    requires d != []
    ensures LineOpen(d, L) ==> !LineTooLong(d, L) && !LineShort(d, L)
    ensures LineTooLong(d, L) ==> !LineShort(d, L)
    ensures LineOpen(d, L) || LineTooLong(d, L) || LineShort(d, L)
    ensures Declared(d, L).Some? ==> LineShort(d, L)
    ensures PayloadHere(d, L) ==> BulkLength(d, L).Some?
    ensures BulkLength(d, L).Some? ==> IsBulkByte(TypeOf(d)) && Declared(d, L).Some? && 0 <= Declared(d, L).value <= L.maxBulkBytes
  {
    hide ParseI64, FindCrlf;
  }

  lemma BulkAgrees(d: bytes, L: Limits)
    requires d != [] && IsBulkByte(TypeOf(d))
    ensures Agrees(d, Judge(d, L), L)
  {
    hide PrefixToKind, KindToPrefix, LexBulk, LexLine, LexNull, LexBoolean, ParseHeader, LineOpen, LineShort, LineTooLong, Declared, LineEnd, TrailerOk, FormatOk, Line;
    KindsByByte(d);
    BulkLexed(d, PrefixToKind(d[0]).value, L);
    LineCases(d, L);
  }

  lemma LengthAgrees(c: char, k: Kind, len: int, L: Limits)
    requires c in {'*', '%', '~', '|', '>'} && (k == Attribute <==> c == '|') && (k == Map <==> c == '%') && (IsListKind(k) <==> c in {'*', '~', '>'})
    ensures
      var t := if k == Attribute then Attr(len) else Open(k, len);
      (TokenOk(t, L) <==> LengthOk(c, len, L)) && (TokenOk(t, L) ==> TokenMore(t) == Further(c, len))
  {
  }

  lemma ContainerAgrees(d: bytes, L: Limits)
    requires d != [] && TypeOf(d) in {'*', '%', '~', '|', '>'}
    ensures Agrees(d, Judge(d, L), L)
  {
    hide PrefixToKind, KindToPrefix, ParseHeader, LexBulk, LexLine, LexNull, LexBoolean, LineOpen, LineShort, LineTooLong, Declared, LineEnd, PayloadHere, BulkLength, LengthOk, TokenOk, TokenMore, Further;
    KindsByByte(d);
    HeaderAgrees(d, L);
    LineCases(d, L);
    NotBulk(d, L);
    if ParseHeader(d, L).HeaderOk? {
      LengthAgrees(TypeOf(d), PrefixToKind(d[0]).value, ParseHeader(d, L).len, L);
    }
  }

  lemma TokenAgrees(d: bytes, L: Limits)
    ensures Agrees(d, Judge(d, L), L)
  {
    if d != [] {
      TypeBytes(d[0]);
    }
    hide Agrees, Judge, KindToPrefix, PrefixToKind;
    if d == [] || !IsTypeByte(TypeOf(d)) {
      OtherAgrees(d, L);
    } else if TypeOf(d) == '_' {
      NullAgrees(d, L);
    } else if TypeOf(d) == '#' {
      BooleanAgrees(d, L);
    } else if IsBulkByte(TypeOf(d)) {
      BulkAgrees(d, L);
    } else if HasLength(TypeOf(d)) {
      ContainerAgrees(d, L);
    } else {
      LineAgrees(d, L);
    }
  }

  lemma OtherAgrees(d: bytes, L: Limits)
    requires d == [] || !IsTypeByte(TypeOf(d))
    ensures Agrees(d, Judge(d, L), L)
  {
    hide FindCrlf, ParseI64;
  }

  /** What a token says is what its bytes spell. */
  lemma TokenSays(d: bytes, L: Limits)
    requires Lex(d, L).Tok?
    ensures d != []
    ensures
      match Lex(d, L).token
      case Open(k, len) => PrefixToKind(d[0]) == Some(k) && Declared(d, L) == Some(len)
      case Attr(len) => TypeOf(d) == '|' && Declared(d, L) == Some(len)
      case Scalar(n) =>
        PrefixToKind(d[0]) == Some(n.kind) && !IsContainerKind(n.kind) && n.kind != Attribute &&
        match TypeOf(d)
        case '_' => true
        case '#' => n.boolean == (d[1] as char == 't')
        case ':' => Declared(d, L) == Some(n.i64)
        case c =>
          if PayloadHere(d, L) then n.text == d[PayloadStart(d)..PayloadEnd(d, L)] && n.i64 == |n.text|
          else if IsBulkByte(c) then n.i64 == -1 && n.text == []
          else LineEnd(d).Some? && n.text == Line(d)
  {
    hide PrefixToKind, KindToPrefix, ParseI64, FindCrlf, ParseHeader, LexBulk, LexLine, Declared, PayloadHere, PayloadStart, PayloadEnd, LineEnd, Line;
    KnownByte(d);
    KindsByByte(d);
    HeaderAgrees(d, L);
    var k := PrefixToKind(d[0]).value;
    if IsBulkKind(k) {
      BulkSays(d, k, L);
    } else if k != Null && k != Boolean && k != Attribute && !IsContainerKind(k) {
      NotBulk(d, L);
      LineSays(d, k, L);
    }
  }

  lemma KnownByte(d: bytes)
    requires d != []
    ensures PrefixToKind(d[0]).Some? ==> IsTypeByte(TypeOf(d))
  {
  }

  lemma BulkSays(d: bytes, k: Kind, L: Limits)
    requires d != [] && IsBulkByte(TypeOf(d)) && LexBulk(d, k, L).Tok?
    ensures
      var t := LexBulk(d, k, L).token;
      t.Scalar? && t.node.kind == k &&
      if PayloadHere(d, L) then t.node.text == d[PayloadStart(d)..PayloadEnd(d, L)] && t.node.i64 == |t.node.text|
      else t.node.i64 == -1 && t.node.text == []
  {
    hide ParseI64, FindCrlf, ParseHeader;
    HeaderAgrees(d, L);
  }

  lemma LineSays(d: bytes, k: Kind, L: Limits)
    requires d != [] && LexLine(d, k, L).Tok?
    ensures
      var t := LexLine(d, k, L).token;
      t.Scalar? && t.node.kind == k && LineEnd(d).Some? && t.node.text == Line(d) && (k == Integer ==> Declared(d, L) == Some(t.node.i64))
  {
    hide ParseI64, FindCrlf;
  }

  // ----- counting instead of a stack -----

  datatype Result = Ends(rest: bytes) | Needs(rest: bytes) | Fails(error: ProtocolError)

  /** Reads tokens until no value is missing any more. */
  ghost function Count(d: bytes, missing: nat, L: Limits): Result
    decreases |d|
  {
    if missing == 0 then Ends(d)
    else if Unfinished(d, L) then Needs(d)
    else if exists e :: Faulty(d, e, L) then
      var e :| Faulty(d, e, L);
      Fails(e)
    else
      TokenFound(d, L);
      var n: nat, more: nat :| Takes(d, n, more, L) && 0 < n <= |d|;
      Count(d[n..], missing - 1 + more, L)
  }

  lemma TokenFound(d: bytes, L: Limits)
    requires !Unfinished(d, L) && !exists e :: Faulty(d, e, L)
    ensures exists n: nat, more: nat :: Takes(d, n, more, L) && 0 < n <= |d|
  {
    hide Unfinished, Faulty, Takes, Judge;
    TokenAgrees(d, L);
    var j := Judge(d, L);
    assert j.Reads?;
    assert Takes(d, j.size, j.more, L);
  }

  /** One token further. */
  lemma CountStep(d: bytes, missing: nat, L: Limits)
    requires missing > 0
    ensures
      Count(d, missing, L) ==
      match Judge(d, L)
      case Waits => Needs(d)
      case Refuses(e) => Fails(e)
      case Reads(n, more) => Count(d[n..], missing - 1 + more, L)
  {
    hide Unfinished, Faulty, Takes, Judge;
    TokenAgrees(d, L);
  }

  /** Values still to come inside an open frame, the one being read included. */
  function Remaining(f: Frame): int {
    match f.state
    case ValueFrame => 1
    case ListFrame => f.expected - f.produced
    case MapKeyFrame => 2 * (f.expected - f.produced)
    case MapValueFrame => 2 * (f.expected - f.produced) - 1
    case AttributeFrame => 2 * (f.expected - f.produced) - if f.hasPendingKey then 1 else 0
  }

  /** The value being read inside a container is counted by the frame above it. */
  function Share(f: Frame): int {
    if f.state == ValueFrame then 1 else Remaining(f) - 1
  }

  function Shares(s: seq<Frame>): int {
    if s == [] then 0 else Shares(s[..|s| - 1]) + Share(s[|s| - 1])
  }

  /** Values the stack is waiting for. */
  function Missing(c: Core): int {
    Shares(c.stack) + if c.stack != [] && Top(c).state != ValueFrame then 1 else 0
  }

  ghost predicate Shaped(s: seq<Frame>) {
    StackShape(s) && forall i :: 0 <= i < |s| ==> FrameShape(s[i])
  }

  lemma {:induction false} SharesPositive(s: seq<Frame>)
    requires Shaped(s)
    ensures Shares(s) >= 0 && (s != [] && s[|s| - 1].state == ValueFrame ==> Shares(s) > 0)
    decreases |s|
  {
    if s != [] {
      SharesPositive(s[..|s| - 1]);
    }
  }

  lemma SharesPush(s: seq<Frame>, f: Frame)
    ensures Shares(s + [f]) == Shares(s) + Share(f)
  {
    assert (s + [f])[..|s|] == s;
  }

  lemma SharesSet(s: seq<Frame>, f: Frame)
    requires s != []
    ensures Shares(s[|s| - 1 := f]) == Shares(s[..|s| - 1]) + Share(f)
  {
    assert s[|s| - 1 := f][..|s| - 1] == s[..|s| - 1];
  }

  /** Attaching a finished value does not change what is missing; nothing is missing exactly if the value was the root. */
  ghost predicate AttachedTo(s: seq<Frame>, r: Step) {
    !r.Fail? && Shaped(r.core.stack) && Shares(r.core.stack) == Shares(s) && (r.Produced? <==> r.core.stack == []) &&
    (r.core.stack != [] ==> Top(r.core).state == ValueFrame)
  }

  lemma ShapedParts(s: seq<Frame>)
    requires Shaped(s) && s != []
    ensures Shaped(s[..|s| - 1]) && FrameShape(s[|s| - 1])
    ensures |s| > 1 ==> (s[|s| - 2].state == ValueFrame <==> s[|s| - 1].state == AttributeFrame)
    ensures |s| == 1 ==> s[0].state != AttributeFrame
  {
  }

  /** `f` may stand on `s`. */
  predicate MayStandOn(s: seq<Frame>, f: Frame) {
    FrameShape(f) && if s == [] then f.state != AttributeFrame else (s[|s| - 1].state == ValueFrame <==> f.state == AttributeFrame)
  }

  lemma ShapedPush(s: seq<Frame>, f: Frame)
    requires Shaped(s) && MayStandOn(s, f)
    ensures Shaped(s + [f])
  {
    var t := s + [f];
    forall i, j | 0 <= i < j < |t| && j == i + 1
      ensures t[i].state == ValueFrame <==> t[j].state == AttributeFrame
    {
      if j < |s| {
        assert s[i].state == ValueFrame <==> s[j].state == AttributeFrame;
      }
    }
  }

  lemma ShapedSet(s: seq<Frame>, f: Frame)
    requires Shaped(s) && s != [] && FrameShape(f) && (f.state == AttributeFrame <==> s[|s| - 1].state == AttributeFrame)
    ensures Shaped(s[|s| - 1 := f])
  {
    hide Shaped;
    ShapedParts(s);
    ShapedPush(s[..|s| - 1], f);
    assert s[..|s| - 1] + [f] == s[|s| - 1 := f];
  }

  /** The top frame moves on by one value, and a new value is awaited above it. */
  lemma NextValue(s: seq<Frame>, f: Frame, core: Core)
    requires Shaped(s) && s != [] && f.state != ValueFrame && FrameShape(f) && (f.state == AttributeFrame <==> s[|s| - 1].state == AttributeFrame)
    requires Share(f) == Share(s[|s| - 1]) - 1 && core.stack == s[|s| - 1 := f] + [VALUE]
    ensures AttachedTo(s, Continue(core))
  {
    hide Shaped, Shares, FrameShape;
    var t := s[|s| - 1 := f];
    ShapedSet(s, f);
    assert FrameShape(VALUE) by {
      ValueShape();
    }
    ShapedPush(t, VALUE);
    SharesSet(s, f);
    SharesSet(s, s[|s| - 1]);
    assert s[|s| - 1 := s[|s| - 1]] == s;
    SharesPush(t, VALUE);
  }

  lemma ValueShape()
    ensures FrameShape(VALUE)
  {
  }

  /** The top frame is done, and what it was a value for goes on. */
  lemma FrameDone(s: seq<Frame>, r: Step)
    requires s != [] && Share(s[|s| - 1]) == 0 && AttachedTo(s[..|s| - 1], r)
    ensures AttachedTo(s, r)
  {
    hide Shaped;
  }

  lemma LinkStack(c: Core, node: nat, children: seq<nat>, count: nat)
    requires InRange(c) && c.stack != [] && node < |c.tree.nodes|
    ensures LinkChildren(c, node, children, count).stack == c.stack && InRange(PopTop(LinkChildren(c, node, children, count)))
  {
  }

  lemma {:induction false} AttachCounts(c: Core, child: nat)
    requires InRange(c) && Shaped(c.stack) && (c.stack != [] ==> Top(c).state != ValueFrame)
    ensures AttachedTo(c.stack, Attach(c, child))
    decreases |c.stack|
  {
    if c.stack == [] {
      assert Shares([]) == 0;
    } else {
      hide Shaped, Shares, LinkChildren, AttachedTo;
      var p, r := Top(c), Attach(c, child);
      ShapedParts(c.stack);
      match p.state
      case ListFrame => AttachLinksCount(c, child, [child], p.produced + 1);
      case MapKeyFrame => NextValue(c.stack, p.(pendingKey := child, hasPendingKey := true, state := MapValueFrame), r.core);
      case MapValueFrame => AttachLinksCount(c, child, [p.pendingKey, child], (p.produced + 1) * 2);
      case AttributeFrame => AttributeCounts(c, child);
    }
  }

  lemma {:induction false} AttachLinksCount(c: Core, child: nat, children: seq<nat>, count: nat)
    requires InRange(c) && Shaped(c.stack) && c.stack != []
    requires Top(c).state == ListFrame || Top(c).state == MapValueFrame
    requires children == if Top(c).state == ListFrame then [child] else [Top(c).pendingKey, child]
    requires count == if Top(c).state == ListFrame then Top(c).produced + 1 else (Top(c).produced + 1) * 2
    ensures AttachedTo(c.stack, Attach(c, child))
    decreases |c.stack|, 0
  {
    hide Shaped, Shares, LinkChildren, AttachedTo;
    var p, r := Top(c), Attach(c, child);
    ShapedParts(c.stack);
    LinkStack(c, p.node, children, count);
    if p.produced + 1 == p.expected {
      AttachCounts(PopTop(LinkChildren(c, p.node, children, count)), p.node);
      FrameDone(c.stack, r);
    } else if p.state == ListFrame {
      NextValue(c.stack, p.(produced := p.produced + 1), r.core);
    } else {
      NextValue(c.stack, p.(produced := p.produced + 1, hasPendingKey := false, state := MapKeyFrame), r.core);
    }
  }

  lemma AttributeCounts(c: Core, child: nat)
    requires InRange(c) && Shaped(c.stack) && c.stack != [] && Top(c).state == AttributeFrame
    ensures AttachedTo(c.stack, Attach(c, child))
  {
    hide Shaped, Shares, AttachedTo;
    var p, r := Top(c), Attach(c, child);
    ShapedParts(c.stack);
    if !p.hasPendingKey {
      NextValue(c.stack, p.(pendingKey := child, hasPendingKey := true), r.core);
    } else if p.produced + 1 < p.expected {
      NextValue(c.stack, p.(produced := p.produced + 1, hasPendingKey := false), r.core);
    } else {
      AttributeDone(c.stack, r.core);
    }
  }

  lemma AttributeDone(s: seq<Frame>, core: Core)
    requires Shaped(s) && s != [] && s[|s| - 1].state == AttributeFrame && Share(s[|s| - 1]) == 0 && core.stack == s[..|s| - 1]
    ensures AttachedTo(s, Continue(core))
  {
    hide Shaped;
    ShapedParts(s);
  }

  /** A token supplies one of the missing values and announces `more`. */
  ghost predicate Counted(missing: int, more: int, r: Step) {
    !r.Fail? && Shaped(r.core.stack) && Missing(r.core) == missing - 1 + more && (r.Produced? <==> r.core.stack == [])
  }

  lemma FinishedCounts(c: Core, index: nat)
    requires InRange(c) && Shaped(c.stack) && c.stack != [] && Top(c).state == ValueFrame
    ensures InRange(PopTop(c)) && Counted(Missing(c), 0, Attach(PopTop(c), index))
  {
    hide Shaped, Shares, AttachedTo, InRange;
    ShapedParts(c.stack);
    PopRange(c);
    AttachCounts(PopTop(c), index);
    AttachedMeans(c.stack[..|c.stack| - 1], Attach(PopTop(c), index));
    SharesSet(c.stack, Top(c));
    assert c.stack[|c.stack| - 1 := Top(c)] == c.stack;
  }

  lemma PopRange(c: Core)
    requires InRange(c) && c.stack != []
    ensures InRange(PopTop(c))
  {
  }

  lemma AttachedMeans(s: seq<Frame>, r: Step)
    requires AttachedTo(s, r)
    ensures !r.Fail? && Shaped(r.core.stack) && Missing(r.core) == Shares(s) && (r.Produced? <==> r.core.stack == [])
  {
    hide Shaped;
  }

  lemma OpenedCounts(c: Core, core: Core, f: Frame)
    requires Shaped(c.stack) && c.stack != [] && Top(c).state == ValueFrame
    requires f.state == ListFrame || f.state == MapKeyFrame
    requires FrameShape(f) && core.stack == c.stack[|c.stack| - 1 := f]
    ensures Counted(Missing(c), Remaining(f), Continue(core))
  {
    hide Shaped, Shares;
    ShapedSet(c.stack, f);
    SharesSet(c.stack, f);
    SharesSet(c.stack, Top(c));
    assert c.stack[|c.stack| - 1 := Top(c)] == c.stack;
  }

  lemma AttributeOpens(c: Core, core: Core, f: Frame)
    requires Shaped(c.stack) && c.stack != [] && Top(c).state == ValueFrame
    requires f.state == AttributeFrame && FrameShape(f) && core.stack == c.stack + [f]
    ensures Counted(Missing(c), Remaining(f) + 1, Continue(core))
  {
    hide Shaped, Shares;
    ShapedPush(c.stack, f);
    SharesPush(c.stack, f);
  }

  lemma ConsumeCounts(c: Core, t: Token, L: Limits)
    requires InRange(c) && Shaped(c.stack) && c.stack != [] && Top(c).state == ValueFrame
    requires t.Open? ==> IsContainerKind(t.kind)
    ensures if TokenOk(t, L) then Counted(Missing(c), TokenMore(t), Consume(c, t, L)) else Consume(c, t, L).Fail? && Consume(c, t, L).error == InvalidLength
  {
    hide Shaped, Shares, Attach, Counted, Missing;
    match t
    case Scalar(n) =>
      AddStack(c, n);
      FinishedCounts(AddNode(c, n), |c.tree.nodes|);
      SameStack(c, AddNode(c, n));
    case Open(k, len) => OpenCounts(c, k, len, L);
    case Attr(len) =>
      if TokenOk(t, L) {
        if len == 0 {
          SkipCounts(c);
        } else {
          AttributeOpens(c, Consume(c, t, L).core, Frame(AttributeFrame, Attribute, len, 0, 0, 0, false));
        }
      }
  }

  lemma OpenCounts(c: Core, k: Kind, len: int, L: Limits)
    requires InRange(c) && Shaped(c.stack) && c.stack != [] && Top(c).state == ValueFrame && IsContainerKind(k)
    ensures
      var r := Consume(c, Open(k, len), L);
      if TokenOk(Open(k, len), L) then Counted(Missing(c), TokenMore(Open(k, len)), r) else r.Fail? && r.error == InvalidLength
  {
    hide Shaped, Shares, Attach, Counted, Missing;
    if TokenOk(Open(k, len), L) {
      var n := if len == -1 then Leaf(k, [], -1, false) else OpenNode(k, len, |c.tree.links|);
      AddStack(c, n);
      if len <= 0 {
        FinishedCounts(AddNode(c, n), |c.tree.nodes|);
        SameStack(c, AddNode(c, n));
      } else {
        var f := Frame(if k == Map then MapKeyFrame else ListFrame, k, len, 0, |c.tree.nodes|, 0, false);
        OpenedCounts(c, SetTop(AddNode(c, n), f), f);
      }
    }
  }

  lemma AddStack(c: Core, n: Node)
    requires InRange(c)
    ensures AddNode(c, n).stack == c.stack && InRange(AddNode(c, n))
  {
  }

  lemma SameStack(c: Core, c': Core)
    requires c.stack == c'.stack
    ensures Missing(c) == Missing(c')
  {
  }

  /** An empty attribute is as good as not there. */
  lemma SkipCounts(c: Core)
    requires Shaped(c.stack) && c.stack != []
    ensures Counted(Missing(c), 1, Continue(c))
  {
  }

  // ----- the machine is the counter -----

  ghost predicate EndsAs(r: RunResult, v: Result) {
    match v
    case Ends(rest) => r.outcome.Root? && r.unread == rest
    case Needs(rest) => r.outcome == Starved && r.unread == rest
    case Fails(e) => r.outcome == Rejected(e)
  }

  lemma MissingPositive(c: Core)
    requires Shaped(c.stack) && c.stack != []
    ensures Missing(c) > 0
  {
    SharesPositive(c.stack);
  }

  lemma NoneMissing(c: Core)
    requires c.stack == []
    ensures Missing(c) == 0
  {
  }

  lemma ValueOnTop(c: Core)
    requires Shaped(c.stack) && c.stack != [] && Top(c).state != ValueFrame && InRange(c)
    ensures Shaped(PushFrame(c, VALUE).stack) && Missing(PushFrame(c, VALUE)) == Missing(c) && InRange(PushFrame(c, VALUE))
  {
    hide Shaped;
    ValueShape();
    ShapedPush(c.stack, VALUE);
    SharesPush(c.stack, VALUE);
  }

  /** From any state of the stack: the run ends, waits or fails as counting the missing values says. */
  lemma {:induction false} RunCounts(c: Core, d: bytes, L: Limits)
    requires InRange(c) && Shaped(c.stack) && c.stack != []
    ensures Missing(c) > 0 && EndsAs(Run(c, d, L), Count(d, Missing(c), L))
    decreases |d|, if Top(c).state != ValueFrame then 1 else 0
  {
    hide Shaped, Missing, Consume, Lex, Counted, Count;
    MissingPositive(c);
    if Top(c).state != ValueFrame {
      ValueOnTop(c);
      RunCounts(PushFrame(c, VALUE), d, L);
    } else {
      CountStep(d, Missing(c), L);
      if Lex(d, L).Tok? {
        var t, n := Lex(d, L).token, Lex(d, L).size;
        OpensContainer(d, L);
        ConsumeCounts(c, t, L);
        if TokenOk(t, L) {
          var r := Consume(c, t, L);
          CountedMeans(Missing(c), TokenMore(t), r);
          if r.Continue? {
            RunCounts(r.core, d[n..], L);
          } else {
            NoneMissing(r.core);
            CountNone(d[n..], L);
          }
        }
      }
    }
  }

  lemma CountedMeans(missing: int, more: int, r: Step)
    requires Counted(missing, more, r)
    ensures !r.Fail? && Shaped(r.core.stack) && Missing(r.core) == missing - 1 + more && (r.Produced? <==> r.core.stack == [])
  {
  }

  lemma CountNone(d: bytes, L: Limits)
    ensures Count(d, 0, L) == Ends(d)
  {
  }

  lemma OpensContainer(d: bytes, L: Limits)
    requires Lex(d, L).Tok?
    ensures Lex(d, L).token.Open? ==> IsContainerKind(Lex(d, L).token.kind)
  {
  }

  /**
   On any bytes, `parse_one` finds a value, waits or reports an error exactly as reading the tokens
   off the bytes and counting what is missing does.
   */
  lemma OutcomeByCounting(d: bytes, L: Limits)
    ensures EndsAs(ParseOne(START, d, L), Count(d, 1, L))
  {
    var c := PushFrame(START, VALUE);
    SharesPush([], VALUE);
    assert c.stack == [] + [VALUE] && Shares([]) == 0;
    RunCounts(c, d, L);
  }

  /** The first token by itself. */
  lemma FirstToken(d: bytes, L: Limits)
    ensures Unfinished(d, L) ==> ParseOne(START, d, L).outcome == Starved && ParseOne(START, d, L).unread == d
    ensures forall e :: Faulty(d, e, L) ==> ParseOne(START, d, L).outcome == Rejected(e)
    ensures forall n: nat :: Takes(d, n, 0, L) ==> n <= |d| && ParseOne(START, d, L).outcome.Root? && ParseOne(START, d, L).unread == d[n..]
  {
    hide Unfinished, Faulty, Takes, Judge, ParseOne;
    OutcomeByCounting(d, L);
    CountStep(d, 1, L);
    TokenAgrees(d, L);
    if Judge(d, L).Reads? && Judge(d, L).more == 0 {
      CountNone(d[Judge(d, L).size..], L);
    }
  }

  // ----- what a value without parts says -----

  function Payload(d: bytes, L: Limits): bytes
    requires d != [] && PayloadHere(d, L)
  {
    d[PayloadStart(d)..PayloadEnd(d, L)]
  }

  /** The value spelled by the first token, if nothing further belongs to it. */
  function ValueAt(d: bytes, n: nat, L: Limits): Value
    requires Takes(d, n, 0, L)
  {
    var c := TypeOf(d);
    if c == '_' then NullValue(Null)
    else if c == '#' then BooleanValue(d[1] as char == 't')
    else if c == '$' then if PayloadHere(d, L) then BulkStringValue(Payload(d, L)) else NullValue(BulkString)
    else if c == '!' then if PayloadHere(d, L) then BulkErrorValue(Payload(d, L)) else NullValue(BulkError)
    else if c == '=' then if PayloadHere(d, L) then VerbatimValue(Payload(d, L)[..3], Payload(d, L)[4..]) else NullValue(VerbatimString)
    else if c == '*' then if Declared(d, L) == Some(0) then ArrayValue([]) else NullValue(Array)
    else if c == '~' then if Declared(d, L) == Some(0) then SetValue([]) else NullValue(Set)
    else if c == '>' then if Declared(d, L) == Some(0) then PushValue([]) else NullValue(Push)
    else if c == '%' then if Declared(d, L) == Some(0) then MapValue([]) else NullValue(Map)
    else if c == '+' then SimpleStringValue(Line(d))
    else if c == '-' then SimpleErrorValue(Line(d))
    else if c == '(' then BigNumberValue(Line(d))
    else if c == ',' then DoubleValue(Line(d))
    else IntegerValue(Declared(d, L).value)
  }

  /** The node of a token without parts. */
  function NodeOf(t: Token): Node
    requires !t.Attr?
  {
    match t
    case Scalar(n) => n
    case Open(k, len) => if len == -1 then Leaf(k, [], -1, false) else OpenNode(k, len, 0)
  }

  predicate Alone(t: Token, L: Limits) {
    !t.Attr? && TokenOk(t, L) && TokenMore(t) == 0
  }

  /** A node that completes the only value awaited. */
  lemma RootAttached(c: Core, n: Node)
    requires c == PushFrame(START, VALUE)
    ensures
      var c' := PopTop(AddNode(c, n));
      InRange(c') && c'.tree == Tree([n], []) && Attach(c', 0) == Produced(c', 0)
  {
    assert c.stack == [VALUE];
    assert PopTop(AddNode(c, n)).stack == [];
  }

  lemma RootConsumed(c: Core, t: Token, L: Limits)
    requires c == PushFrame(START, VALUE) && Alone(t, L)
    ensures c.stack != [] && InRange(c) && Consume(c, t, L) == Produced(PopTop(AddNode(c, NodeOf(t))), 0)
  {
    hide Attach, AddNode;
    assert c.stack == [VALUE] && |c.tree.nodes| == 0 && |c.tree.links| == 0;
    RootAttached(c, NodeOf(t));
  }

  lemma RootNode(d: bytes, L: Limits)
    requires Lex(d, L).Tok? && Alone(Lex(d, L).token, L)
    ensures
      var r := ParseOne(START, d, L);
      r.outcome == Root(0) && r.core.tree == Tree([NodeOf(Lex(d, L).token)], [])
  {
    hide Lex, Consume, AddNode, Attach, TokenOk, TokenMore, NodeOf;
    var c, t := PushFrame(START, VALUE), Lex(d, L).token;
    assert c.stack == [VALUE] && Top(c).state == ValueFrame;
    RootConsumed(c, t, L);
    RootAttached(c, NodeOf(t));
  }

  lemma LeafBuilds(n: Node)
    requires NodeShape(n) && n.childCount == 0 && n.attrCount == 0 && TreeReady(Tree([n], []))
    ensures Build(Tree([n], []), 0) == Message(ValueOf(n, []), None)
  {
  }

  function TypeChar(k: Kind): char {
    match k
    case SimpleString => '+'
    case SimpleError => '-'
    case Integer => ':'
    case DoubleNumber => ','
    case Boolean => '#'
    case BigNumber => '('
    case Null => '_'
    case BulkString => '$'
    case BulkError => '!'
    case VerbatimString => '='
    case Array => '*'
    case Map => '%'
    case Set => '~'
    case Attribute => '|'
    case Push => '>'
  }

  lemma ByKind(d: bytes, k: Kind)
    requires d != [] && PrefixToKind(d[0]) == Some(k)
    ensures TypeOf(d) == TypeChar(k)
  {
  }

  lemma AloneScalar(d: bytes, n: nat, node: Node, L: Limits)
    requires Takes(d, n, 0, L) && Lex(d, L).Tok? && Lex(d, L).token == Scalar(node) && NodeShape(node)
    ensures ValueOf(node, []) == ValueAt(d, n, L)
  {
    hide Lex, Takes, PrefixToKind, KindToPrefix, Declared, PayloadHere, LineEnd, Line, PayloadStart, PayloadEnd, ValueOf;
    TokenSays(d, L);
    ByKind(d, node.kind);
    ScalarSays(node);
    LineCases(d, L);
  }

  lemma ScalarSays(n: Node)
    requires NodeShape(n)
    ensures
      var v := ValueOf(n, []);
      match n.kind
      case SimpleString => v == SimpleStringValue(n.text)
      case SimpleError => v == SimpleErrorValue(n.text)
      case Integer => v == IntegerValue(n.i64)
      case DoubleNumber => v == DoubleValue(n.text)
      case Boolean => v == BooleanValue(n.boolean)
      case BigNumber => v == BigNumberValue(n.text)
      case Null => v == NullValue(Null)
      case BulkString => v == if n.i64 == -1 then NullValue(BulkString) else BulkStringValue(n.text)
      case BulkError => v == if n.i64 == -1 then NullValue(BulkError) else BulkErrorValue(n.text)
      case VerbatimString => n.i64 == -1 || |n.text| >= 4
      case _ => true
    ensures n.kind == VerbatimString ==>
      ValueOf(n, []) == if n.i64 == -1 then NullValue(VerbatimString) else VerbatimValue(n.text[..3], n.text[4..])
  {
  }

  lemma AloneOpen(d: bytes, n: nat, k: Kind, len: int, L: Limits)
    requires Takes(d, n, 0, L) && Lex(d, L).Tok? && Lex(d, L).token == Open(k, len) && IsContainerKind(k) && (len == 0 || len == -1)
    ensures NodeShape(NodeOf(Open(k, len))) && ValueOf(NodeOf(Open(k, len)), []) == ValueAt(d, n, L)
  {
    hide Lex, Takes, PrefixToKind, KindToPrefix, Declared, PayloadHere, LineEnd, Line, PayloadStart, PayloadEnd;
    TokenSays(d, L);
    ByKind(d, k);
  }

  /** A value without parts is parsed and built to what its bytes spell. */
  lemma ValueAlone(d: bytes, n: nat, L: Limits)
    requires Takes(d, n, 0, L)
    ensures
      var r := ParseOne(START, d, L);
      r.outcome == Root(0) && r.unread == d[n..] && TreeReady(r.core.tree) && |r.core.tree.nodes| == 1 &&
      Build(r.core.tree, 0) == Message(ValueAt(d, n, L), None)
  {
    hide Lex, Takes, ValueAt, ValueOf, ParseOne, NodeShape, TreeReady, Build;
    FirstToken(d, L);
    AloneLexed(d, n, L);
    var t := Lex(d, L).token;
    RootNode(d, L);
    AloneReady(d, L);
    match t
    case Scalar(node) =>
      AloneScalar(d, n, node, L);
      LeafBuilds(node);
    case Open(k, len) =>
      AloneOpen(d, n, k, len, L);
      LeafBuilds(NodeOf(t));
  }

  lemma AloneLexed(d: bytes, n: nat, L: Limits)
    requires Takes(d, n, 0, L)
    ensures Lex(d, L).Tok? && Alone(Lex(d, L).token, L) && TokenShape(Lex(d, L).token)
    ensures Lex(d, L).token.Open? ==> Lex(d, L).token.len in {0, -1}
  {
    hide Lex, Takes, Unfinished, Faulty;
    TokenAgrees(d, L);
    LexedShape(d, L);
  }

  lemma AloneReady(d: bytes, L: Limits)
    ensures TreeReady(ParseOne(START, d, L).core.tree)
  {
    hide Run, Inv;
    InvStart();
    RunKeeps(Armed(START), d, L);
    InvReady(ParseOne(START, d, L).core);
  }
}
