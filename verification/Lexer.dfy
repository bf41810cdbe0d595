/**
 The byte-level half of `parser::parse_value`: recognising one header, line or bulk payload at the
 front of the unread bytes, without touching the parse stack.
 */
module Lexer {
  import opened Bytes
  import opened Kinds

  /** Configured limits; `isDouble` stands for the floating-point syntax check. */
  datatype Limits = Limits(maxBulkBytes: nat, maxContainerLen: nat, maxLineBytes: nat, isDouble: bytes -> bool)

  /** A node of the raw tree; `text` holds the bytes its view spells. */
  datatype Node = Node(
    kind: Kind, text: bytes, i64: int, boolean: bool,
    firstChild: nat, childCount: nat, firstAttr: nat, attrCount: nat)

  function Leaf(kind: Kind, text: bytes, i64: int, boolean: bool): Node {
    Node(kind, text, i64, boolean, 0, 0, 0, 0)
  }

  datatype Token =
    | Scalar(node: Node)
    | Open(kind: Kind, len: int)
    | Attr(len: int)

  datatype Lexed =
    | NeedMore
    | Bad(error: ProtocolError)
    | Tok(token: Token, size: nat)

  datatype Header =
    | HeaderNeedMore
    | HeaderBad
    | HeaderOk(len: int, size: nat)

  /** `parse_length_after_type`: the decimal length between the type byte and CRLF. */
  function ParseHeader(d: bytes, L: Limits): (h: Header)
    requires |d| > 0
    ensures h.HeaderOk? ==> 3 <= h.size <= |d|
  {
    var line := d[1..];
    match FindCrlf(line)
    case None => if |line| > L.maxLineBytes then HeaderBad else HeaderNeedMore
    case Some(pos) =>
      if pos > L.maxLineBytes then HeaderBad
      else match ParseI64(line[..pos])
        case None => HeaderBad
        case Some(len) => HeaderOk(len, 1 + pos + 2)
  }

  function LexBulk(d: bytes, k: Kind, L: Limits): (r: Lexed)
    requires |d| > 0
    ensures r.Tok? ==> 3 <= r.size <= |d|
  {
    match ParseHeader(d, L)
    case HeaderNeedMore => NeedMore
    case HeaderBad => Bad(InvalidLength)
    case HeaderOk(len, size) =>
      if len < -1 || len > L.maxBulkBytes then Bad(InvalidLength)
      else if len == -1 then Tok(Scalar(Leaf(k, [], -1, false)), size)
      else if |d| < size + len + 2 then NeedMore
      else
        var payload := d[size..size + len];
        if d[size + len..size + len + 2] != CRLF then Bad(InvalidBulkTrailer)
        else if k == VerbatimString && !IsVerbatimPayload(payload) then Bad(InvalidVerbatim)
        else Tok(Scalar(Leaf(k, payload, len, false)), size + len + 2)
  }

  function LexLine(d: bytes, k: Kind, L: Limits): (r: Lexed)
    requires |d| > 0
    ensures r.Tok? ==> 3 <= r.size <= |d|
  {
    var rest := d[1..];
    match FindCrlf(rest)
    case None => if |rest| > L.maxLineBytes then Bad(InvalidLength) else NeedMore
    case Some(pos) =>
      if pos > L.maxLineBytes then Bad(InvalidLength)
      else
        var line := rest[..pos];
        var size := 1 + pos + 2;
        if IsLineKind(k) then Tok(Scalar(Leaf(k, line, 0, false)), size)
        else if k == Integer then
          match ParseI64(line)
          case None => Bad(InvalidInteger)
          case Some(v) => Tok(Scalar(Leaf(Integer, line, v, false)), size)
        else if k == DoubleNumber then
          if L.isDouble(line) then Tok(Scalar(Leaf(DoubleNumber, line, 0, false)), size)
          else Bad(InvalidDouble)
        else Bad(InvalidTypeByte)
  }

  function LexNull(d: bytes): (r: Lexed)
    ensures r.Tok? ==> 3 <= r.size <= |d|
  {
    if |d| < 3 then NeedMore
    else if d[1] != CR || d[2] != LF then Bad(InvalidNull)
    else Tok(Scalar(Leaf(Null, [], 0, false)), 3)
  }

  function LexBoolean(d: bytes): (r: Lexed)
    ensures r.Tok? ==> 3 <= r.size <= |d|
  {
    if |d| < 4 then NeedMore
    else if d[2] != CR || d[3] != LF then Bad(InvalidBoolean)
    else if d[1] == 116 then Tok(Scalar(Leaf(Boolean, [], 0, true)), 4)
    else if d[1] == 102 then Tok(Scalar(Leaf(Boolean, [], 0, false)), 4)
    else Bad(InvalidBoolean)
  }

  /** One token at the front of the unread bytes. */
  function Lex(d: bytes, L: Limits): (r: Lexed)
    ensures r.Tok? ==> 3 <= r.size <= |d|
  {
    if d == [] then NeedMore
    else match PrefixToKind(d[0])
      case None => Bad(InvalidTypeByte)
      case Some(k) =>
        if k == Attribute || IsContainerKind(k) then
          match ParseHeader(d, L)
          case HeaderNeedMore => NeedMore
          case HeaderBad => Bad(InvalidLength)
          case HeaderOk(len, size) => Tok(if k == Attribute then Attr(len) else Open(k, len), size)
        else if k == Null then LexNull(d)
        else if k == Boolean then LexBoolean(d)
        else if IsBulkKind(k) then LexBulk(d, k, L)
        else LexLine(d, k, L)
  }

  // ----- how a token depends on the bytes that follow -----

  /** The token's first line has exactly the maximum number of payload bytes. */
  predicate AtLineLimit(d: bytes, L: Limits) {
    d != [] &&
    PrefixToKind(d[0]).Some? &&
    PrefixToKind(d[0]).value != Null && PrefixToKind(d[0]).value != Boolean &&
    FindCrlf(d[1..]) == Some(L.maxLineBytes)
  }

  /** `d` and `e` start with the same `n` bytes. */
  ghost predicate Agree(d: bytes, e: bytes, n: nat) {
    n <= |d| && n <= |e| && d[..n] == e[..n]
  }

  lemma AgreeSlice(d: bytes, e: bytes, n: nat, lo: nat, hi: nat)
    requires Agree(d, e, n) && lo <= hi <= n
    ensures d[lo..hi] == e[lo..hi]
  {
    assert d[lo..hi] == d[..n][lo..hi];
    assert e[lo..hi] == e[..n][lo..hi];
  }

  lemma LineLocal(d: bytes, e: bytes, n: nat)
    requires |d| > 0 && FindCrlf(d[1..]).Some?
    requires FindCrlf(d[1..]).value + 3 <= n && Agree(d, e, n)
    ensures e[0] == d[0]
    ensures FindCrlf(e[1..]) == FindCrlf(d[1..])
    ensures e[1..][..FindCrlf(d[1..]).value] == d[1..][..FindCrlf(d[1..]).value]
  {
    var p := FindCrlf(d[1..]).value;
    AgreeSlice(d, e, n, 0, 1);
    assert d[0] == d[0..1][0] && e[0] == e[0..1][0];
    AgreeSlice(d, e, n, 1, p + 3);
    assert d[1..][..p + 2] == d[1..p + 3] && e[1..][..p + 2] == e[1..p + 3];
    FindCrlfLocal(d[1..], e[1..]);
    AgreeSlice(d, e, n, 1, p + 1);
    assert d[1..][..p] == d[1..p + 1] && e[1..][..p] == e[1..p + 1];
  }

  lemma LexBulkLocal(d: bytes, e: bytes, k: Kind, L: Limits)
    requires |d| > 0 && LexBulk(d, k, L).Tok?
    requires Agree(d, e, LexBulk(d, k, L).size)
    ensures LexBulk(e, k, L) == LexBulk(d, k, L)
  {
    var n := LexBulk(d, k, L).size;
    var h := ParseHeader(d, L);
    LineLocal(d, e, n);
    if h.len != -1 {
      AgreeSlice(d, e, n, h.size, h.size + h.len);
      AgreeSlice(d, e, n, h.size + h.len, h.size + h.len + 2);
    }
  }

  lemma LexFixedLocal(d: bytes, e: bytes)
    requires |d| > 0
    ensures LexNull(d).Tok? && Agree(d, e, LexNull(d).size) ==> LexNull(e) == LexNull(d)
    ensures LexBoolean(d).Tok? && Agree(d, e, LexBoolean(d).size) ==> LexBoolean(e) == LexBoolean(d)
  {
    if Agree(d, e, 3) {
      assert forall i :: 0 <= i < 3 ==> d[i] == d[..3][i] && e[i] == e[..3][i];
    }
    if Agree(d, e, 4) {
      assert forall i :: 0 <= i < 4 ==> d[i] == d[..4][i] && e[i] == e[..4][i];
    }
  }

  /** A token reads only the bytes it consumes: nothing after them can change it. */
  lemma LexTokLocal(d: bytes, e: bytes, L: Limits)
    requires Lex(d, L).Tok? && Agree(d, e, Lex(d, L).size)
    ensures Lex(e, L) == Lex(d, L)
  {
    var n := Lex(d, L).size;
    AgreeSlice(d, e, n, 0, 1);
    assert d[0] == d[0..1][0] && e[0] == e[0..1][0];
    var k := PrefixToKind(d[0]).value;
    if k == Null || k == Boolean {
      LexFixedLocal(d, e);
    } else if IsBulkKind(k) {
      LexBulkLocal(d, e, k, L);
    } else {
      LineLocal(d, e, n);
    }
  }

  lemma LexBulkBadExtends(d: bytes, more: bytes, k: Kind, L: Limits)
    requires |d| > 0 && LexBulk(d, k, L).Bad? && FindCrlf(d[1..]).Some?
    ensures LexBulk(d + more, k, L) == LexBulk(d, k, L)
  {
    hide ParseHeader, FindCrlf, IsVerbatimPayload;
    var e := d + more;
    var h := ParseHeader(d, L);
    HeaderExtends(d, more, L);
    if h.HeaderOk? && 0 <= h.len && h.size + h.len + 2 <= |d| {
      assert e[h.size..h.size + h.len] == d[h.size..h.size + h.len];
      assert e[h.size + h.len..h.size + h.len + 2] == d[h.size + h.len..h.size + h.len + 2];
    }
  }

  lemma HeaderExtends(d: bytes, more: bytes, L: Limits)
    requires |d| > 0 && FindCrlf(d[1..]).Some?
    ensures ParseHeader(d + more, L) == ParseHeader(d, L)
  {
    assert Agree(d, d + more, |d|);
    hide Agree;
    LineLocal(d, d + more, |d|);
    hide FindCrlf, ParseI64;
  }

  lemma CrlfAppearsAtTheCut(s: bytes, more: bytes)
    requires FindCrlf(s).None? && FindCrlf(s + more).Some?
    ensures |s| <= FindCrlf(s + more).value + 1
  {
    var p := FindCrlf(s + more).value;
    assert CrlfAt(s, p) <==> p + 1 < |s|;
  }

  /** A rejection is final too, except for a line of exactly the maximum length cut between CR and LF. */
  lemma LexBadExtends(d: bytes, more: bytes, L: Limits)
    requires Lex(d, L).Bad?
    ensures Lex(d + more, L) == Lex(d, L) || (Lex(d, L).error == InvalidLength && AtLineLimit(d + more, L))
  {
    hide ParseHeader, LexBulk, LexLine, LexNull, LexBoolean, FindCrlf, PrefixToKind;
    if d != [] && PrefixToKind(d[0]).Some? {
      var k := PrefixToKind(d[0]).value;
      if k == Null || k == Boolean {
        FixedBadExtends(d, more);
      } else if FindCrlf(d[1..]).Some? {
        HeaderExtends(d, more, L);
        LexLineExtends(d, more, k, L);
        if IsBulkKind(k) && LexBulk(d, k, L).Bad? {
          LexBulkBadExtends(d, more, k, L);
        }
      } else {
        LineUnfinished(d, k, L);
        if |d| - 1 > L.maxLineBytes {
          LineStaysLong(d, more, k, L);
        }
      }
    }
  }

  lemma FixedBadExtends(d: bytes, more: bytes)
    requires |d| > 0
    ensures LexNull(d).Bad? ==> LexNull(d + more) == LexNull(d)
    ensures LexBoolean(d).Bad? ==> LexBoolean(d + more) == LexBoolean(d)
  {
  }

  lemma LexLineExtends(d: bytes, more: bytes, k: Kind, L: Limits)
    requires |d| > 0 && FindCrlf(d[1..]).Some?
    ensures LexLine(d + more, k, L) == LexLine(d, k, L)
  {
    assert Agree(d, d + more, |d|);
    hide Agree;
    LineLocal(d, d + more, |d|);
    hide FindCrlf, ParseI64;
  }

  /** Without a CRLF the line is waited for, or rejected as too long. */
  lemma LineUnfinished(d: bytes, k: Kind, L: Limits)
    requires |d| > 0 && FindCrlf(d[1..]).None?
    ensures |d| - 1 <= L.maxLineBytes ==> ParseHeader(d, L).HeaderNeedMore? && LexLine(d, k, L).NeedMore? && LexBulk(d, k, L).NeedMore?
    ensures |d| - 1 > L.maxLineBytes ==> TooLong(d, k, L)
  {
    hide FindCrlf;
  }

  ghost predicate TooLong(d: bytes, k: Kind, L: Limits)
    requires |d| > 0
  {
    ParseHeader(d, L).HeaderBad? && LexLine(d, k, L) == Bad(InvalidLength) && LexBulk(d, k, L) == Bad(InvalidLength)
  }

  /** A line too long without its CRLF is too long with it, but for the one that just fits. */
  lemma LineStaysLong(d: bytes, more: bytes, k: Kind, L: Limits)
    requires |d| > 0 && FindCrlf(d[1..]).None? && |d| - 1 > L.maxLineBytes
    ensures TooLong(d + more, k, L) || FindCrlf((d + more)[1..]) == Some(L.maxLineBytes)
  {
    var e := d + more;
    assert e[1..] == d[1..] + more;
    if FindCrlf(e[1..]).Some? {
      CrlfAppearsAtTheCut(d[1..], more);
    }
    hide FindCrlf;
  }

  /** Cutting a maximum-length line between its CR and its LF makes the lexer reject it. */
  lemma LexCutAtLimit(d: bytes, L: Limits)
    requires AtLineLimit(d, L)
    ensures L.maxLineBytes + 2 <= |d|
    ensures Lex(d[..L.maxLineBytes + 2], L) == Bad(InvalidLength)
  {
    var e := d[..L.maxLineBytes + 2];
    assert e[0] == d[0] && e[1..] == d[1..][..L.maxLineBytes + 1];
    assert forall i :: CrlfAt(e[1..], i) ==> CrlfAt(d[1..], i);
  }
}
