/**
 A recursive-descent reading of the same bytes, and the proof that the incremental stack machine
 refines it: same value, same end, same error. It follows that `parse_one` accepts exactly the
 encodings of well-formed values.
 */
module Descent {
  import opened Bytes
  import opened Kinds
  import opened Lexer
  import opened Parser
  import opened Wire
  import opened Framing

  // ----- recursive descent -----

  /** A value and what follows it, or how reading stopped inside it. */
  datatype Scan<T> = Whole(value: T, rest: bytes) | Stopped(outcome: Outcome)

  /** The text between the type byte and the first CRLF. */
  function LineAt(d: bytes): bytes {
    if d != [] && FindCrlf(d[1..]).Some? then d[1..][..FindCrlf(d[1..]).value] else []
  }

  /** What a childless token spells. */
  function BodyAt(d: bytes, n: Node): Body {
    if n.kind == Null then Nil
    else if n.kind == Boolean then Flag(n.boolean)
    else if IsBulkKind(n.kind) then if n.i64 == -1 then TypedNull(n.kind, LineAt(d)) else Bulk(n.kind, LineAt(d), n.text)
    else Line(n.kind, n.text)
  }

  function ScanWire(d: bytes, L: Limits): (r: Scan<Wire>)
    ensures r.Whole? ==> |r.rest| < |d|
    ensures r.Stopped? ==> !r.outcome.Root?
    decreases |d|, 0, 0
  {
    match Lex(d, L)
    case NeedMore => Stopped(Starved)
    case Bad(e) => Stopped(Rejected(e))
    case Tok(t, n) =>
      match t
      case Scalar(node) => Whole(Wire([], BodyAt(d, node)), d[n..])
      case Open(k, len) => (
        if len < -1 || len > L.maxContainerLen then Stopped(Rejected(InvalidLength))
        else if len == -1 then Whole(Wire([], TypedNull(k, LineAt(d))), d[n..])
        else if !RepresentableLength(k, len) then Stopped(Rejected(InvalidLength))
        else match ScanItems(d[n..], if k == Map then 2 * len else len, L)
          case Stopped(o) => Stopped(o)
          case Whole(items, rest) =>
            Whole(Wire([], if k == Map then Entries(LineAt(d), items) else List(k, LineAt(d), items)), rest))
      case Attr(len) =>
        if len < 0 || len > L.maxContainerLen || !RepresentableLength(Attribute, len) then Stopped(Rejected(InvalidLength))
        else match ScanItems(d[n..], 2 * len, L)
          case Stopped(o) => Stopped(o)
          case Whole(items, rest) =>
            match ScanWire(rest, L)
            case Stopped(o) => Stopped(o)
            case Whole(w, rest') => Whole(Wire([Group(LineAt(d), items)] + w.attrs, w.body), rest')
  }

  function ScanItems(d: bytes, n: nat, L: Limits): (r: Scan<seq<Wire>>)
    ensures r.Whole? ==> |r.rest| <= |d| && |r.value| == n
    ensures r.Stopped? ==> !r.outcome.Root?
    decreases |d|, 1, n
  {
    if n == 0 then Whole([], d)
    else match ScanWire(d, L)
      case Stopped(o) => Stopped(o)
      case Whole(w, rest) =>
        match ScanItems(rest, n - 1, L)
        case Stopped(o) => Stopped(o)
        case Whole(ws, rest') => Whole([w] + ws, rest')
  }

  // ----- what is read is what was written -----

  lemma HeaderSplit(d: bytes, L: Limits)
    requires |d| > 0 && ParseHeader(d, L).HeaderOk?
    ensures
      var h := ParseHeader(d, L);
      HeaderText(LineAt(d), h.len, L) && h.size == |LineAt(d)| + 3 && d == [d[0]] + LineAt(d) + CRLF + d[h.size..]
  {
    LineSplit(d);
  }

  lemma LineSplit(d: bytes)
    requires |d| > 0 && FindCrlf(d[1..]).Some?
    ensures LineText(LineAt(d)) && |LineAt(d)| + 3 <= |d| && d == [d[0]] + LineAt(d) + CRLF + d[|LineAt(d)| + 3..]
  {
    var p := FindCrlf(d[1..]).value;
    assert CrlfAt(d[1..], p);
    assert d[p + 1] == CR && d[p + 2] == LF;
    forall i | 0 <= i < p
      ensures !CrlfAt(LineAt(d), i)
    {
      assert !CrlfAt(d[1..], i);
    }
    assert d[p + 1..p + 3] == CRLF;
    assert d == d[..1] + d[1..p + 1] + d[p + 1..p + 3] + d[p + 3..];
  }

  /** The header of a token of kind `k`, as it was written. */
  lemma HeaderOf(d: bytes, k: Kind, L: Limits)
    requires |d| > 0 && ParseHeader(d, L).HeaderOk? && d[0] == KindToPrefix(k)
    ensures HeaderText(LineAt(d), ParseHeader(d, L).len, L) && d == EncodeHeader(k, LineAt(d)) + d[ParseHeader(d, L).size..]
  {
    hide ParseHeader, LineAt, HeaderText;
    HeaderSplit(d, L);
    HeaderEncoding(d, k, LineAt(d), ParseHeader(d, L).size);
  }

  lemma BulkSplit(d: bytes, k: Kind, L: Limits)
    requires |d| > 0 && LexBulk(d, k, L).Tok? && IsBulkKind(k) && d[0] == KindToPrefix(k)
    ensures
      var t := LexBulk(d, k, L);
      t.token.Scalar? && BodyText(BodyAt(d, t.token.node), L) && d == EncodeBody(BodyAt(d, t.token.node)) + d[t.size..]
  {
    hide ParseHeader, LexBulk, LineAt, FindCrlf, IsVerbatimPayload, EncodeHeader, KindToPrefix, HeaderText, BodyText, EncodeBody, BodyAt;
    BulkParts(d, k, L);
    HeaderOf(d, k, L);
    var h := ParseHeader(d, L);
    if h.len == -1 {
      NullSplit(d, k, h.size, L);
    } else {
      PayloadSplit(EncodeHeader(k, LineAt(d)), d, h.size, h.size + h.len);
      PayloadBody(d, k, h.size, h.len, L);
    }
  }

  lemma NullSplit(d: bytes, k: Kind, size: nat, L: Limits)
    requires IsBulkKind(k) && HeaderText(LineAt(d), -1, L) && size <= |d| && d == EncodeHeader(k, LineAt(d)) + d[size..]
    ensures
      var b := BodyAt(d, Leaf(k, [], -1, false));
      BodyText(b, L) && d == EncodeBody(b) + d[size..]
  {
    hide LineAt, EncodeHeader, HeaderText;
  }

  lemma PayloadBody(d: bytes, k: Kind, a: nat, len: nat, L: Limits)
    requires IsBulkKind(k) && HeaderText(LineAt(d), len, L) && len <= L.maxBulkBytes && a + len + 2 <= |d|
    requires k == VerbatimString ==> IsVerbatimPayload(d[a..a + len])
    requires d == EncodeHeader(k, LineAt(d)) + d[a..a + len] + CRLF + d[a + len + 2..]
    ensures
      var b := BodyAt(d, Leaf(k, d[a..a + len], len, false));
      BodyText(b, L) && d == EncodeBody(b) + d[a + len + 2..]
  {
    hide LineAt, EncodeHeader, HeaderText, IsVerbatimPayload;
  }

  /** The payload of a bulk token and what was checked about it. */
  lemma BulkParts(d: bytes, k: Kind, L: Limits)
    requires |d| > 0 && LexBulk(d, k, L).Tok?
    ensures ParseHeader(d, L).HeaderOk? && -1 <= ParseHeader(d, L).len <= L.maxBulkBytes
    ensures
      var t, h := LexBulk(d, k, L), ParseHeader(d, L);
      var end := h.size + h.len;
      if h.len == -1 then t == Tok(Scalar(Leaf(k, [], -1, false)), h.size)
      else
        end + 2 <= |d| && d[end..end + 2] == CRLF && (k == VerbatimString ==> IsVerbatimPayload(d[h.size..end])) &&
        t == Tok(Scalar(Leaf(k, d[h.size..end], h.len, false)), end + 2)
  {
    hide ParseHeader, IsVerbatimPayload;
  }

  lemma HeaderEncoding(d: bytes, k: Kind, line: bytes, size: nat)
    requires |d| > 0 && d[0] == KindToPrefix(k) && size <= |d| && d == [d[0]] + line + CRLF + d[size..]
    ensures d == EncodeHeader(k, line) + d[size..]
  {
  }

  lemma PayloadSplit(head: bytes, d: bytes, a: nat, b: nat)
    requires a <= b && b + 2 <= |d| && d[b..b + 2] == CRLF && d == head + d[a..]
    ensures d == head + d[a..b] + CRLF + d[b + 2..]
  {
    assert d[a..] == d[a..b] + (CRLF + d[b + 2..]);
    ConcatAssoc(head, d[a..b], CRLF + d[b + 2..]);
    ConcatAssoc(head + d[a..b], CRLF, d[b + 2..]);
  }

  lemma LineBodySplit(d: bytes, k: Kind, L: Limits)
    requires |d| > 0 && LexLine(d, k, L).Tok? && d[0] == KindToPrefix(k)
    ensures
      var t := LexLine(d, k, L);
      t.token.Scalar? && BodyText(BodyAt(d, t.token.node), L) && d == EncodeBody(BodyAt(d, t.token.node)) + d[t.size..]
  {
    LineSplit(d);
    hide FindCrlf;
  }

  lemma FixedSplit(d: bytes)
    requires |d| > 0
    ensures d[0] == KindToPrefix(Null) && LexNull(d).Tok? ==> d == EncodeBody(Nil) + d[3..]
    ensures d[0] == KindToPrefix(Boolean) && LexBoolean(d).Tok? ==> d == EncodeBody(Flag(d[1] == 116)) + d[4..]
  {
  }

  /** A token spells its body or its header, and nothing more. */
  lemma TokenSplit(d: bytes, L: Limits)
    requires Lex(d, L).Tok?
    ensures
      var t, n := Lex(d, L).token, Lex(d, L).size;
      match t
      case Scalar(node) => BodyText(BodyAt(d, node), L) && d == EncodeBody(BodyAt(d, node)) + d[n..] &&
                           !BodyAt(d, node).List? && !BodyAt(d, node).Entries?
      case Open(k, len) => IsContainerKind(k) && HeaderText(LineAt(d), len, L) && d == EncodeHeader(k, LineAt(d)) + d[n..]
      case Attr(len) => HeaderText(LineAt(d), len, L) && d == EncodeHeader(Attribute, LineAt(d)) + d[n..]
  {
    hide ParseHeader, LexBulk, LexLine, LineAt, FindCrlf;
    var k := PrefixToKind(d[0]).value;
    if k == Attribute || IsContainerKind(k) {
      HeaderSplit(d, L);
    } else if IsBulkKind(k) {
      BulkSplit(d, k, L);
    } else if k == Null || k == Boolean {
      FixedSplit(d);
    } else {
      LineBodySplit(d, k, L);
    }
  }

  lemma {:induction false} ScanSound(d: bytes, L: Limits)
    requires ScanWire(d, L).Whole?
    ensures WellFormed(ScanWire(d, L).value, L) && d == Encode(ScanWire(d, L).value) + ScanWire(d, L).rest
    decreases |d|, 1
  {
    hide Lex, LineAt, BodyAt, ScanItems, EncodeHeader;
    TokenSplit(d, L);
    var t, n := Lex(d, L).token, Lex(d, L).size;
    match t
    case Scalar(node) => PlainSound(BodyAt(d, node), d[n..], L);
    case Open(k, len) => OpenSound(d, k, len, n, L);
    case Attr(len) => AttrSound(d, len, n, L);
  }

  lemma PlainSound(b: Body, rest: bytes, L: Limits)
    requires BodyText(b, L) && (b.List? || b.Entries? ==> AllWellFormed(b.items, L))
    ensures WellFormed(Wire([], b), L) && Encode(Wire([], b)) + rest == EncodeBody(b) + rest
  {
    hide EncodeBody;
    assert EncodeGroups([]) == [];
  }

  lemma {:induction false} OpenSound(d: bytes, k: Kind, len: int, n: nat, L: Limits)
    requires ScanWire(d, L).Whole? && Lex(d, L) == Tok(Open(k, len), n)
    ensures WellFormed(ScanWire(d, L).value, L) && d == Encode(ScanWire(d, L).value) + ScanWire(d, L).rest
    decreases |d|, 0
  {
    hide Lex, LineAt, ScanWire, ScanItems, EncodeHeader, HeaderText, WellFormed, Encode;
    OpenScan(d, k, len, n, L);
    TokenSplit(d, L);
    var h, r := LineAt(d), ScanWire(d, L);
    if len == -1 {
      PlainSound(TypedNull(k, h), d[n..], L);
    } else {
      var items := ScanItems(d[n..], if k == Map then 2 * len else len, L);
      ItemsSound(d[n..], if k == Map then 2 * len else len, L);
      hide EncodeAll, AllWellFormed;
      PlainSound(r.value.body, r.rest, L);
      ConcatAssoc(EncodeHeader(k, h), EncodeAll(items.value), items.rest);
    }
  }

  lemma {:induction false} AttrSound(d: bytes, len: int, n: nat, L: Limits)
    requires ScanWire(d, L).Whole? && Lex(d, L) == Tok(Attr(len), n)
    ensures WellFormed(ScanWire(d, L).value, L) && d == Encode(ScanWire(d, L).value) + ScanWire(d, L).rest
    decreases |d|, 0
  {
    hide Lex, LineAt, ScanWire, ScanItems, EncodeHeader, HeaderText, WellFormed, Encode, EncodeAll, AllWellFormed;
    AttrScan(d, len, n, L);
    TokenSplit(d, L);
    var items := ScanItems(d[n..], 2 * len, L);
    ItemsSound(d[n..], 2 * len, L);
    ScanSound(items.rest, L);
    PrefixSound(Group(LineAt(d), items.value), ScanWire(items.rest, L).value, ScanWire(items.rest, L).rest, L);
  }

  lemma AttrScan(d: bytes, len: int, n: nat, L: Limits)
    requires Lex(d, L) == Tok(Attr(len), n)
    ensures n <= |d|
    ensures
      var r := ScanWire(d, L);
      if len < 0 || len > L.maxContainerLen || !RepresentableLength(Attribute, len) then r == Stopped(Rejected(InvalidLength))
      else
        var items := ScanItems(d[n..], 2 * len, L);
        if items.Stopped? then r == Stopped(items.outcome)
        else
          var inner := ScanWire(items.rest, L);
          if inner.Stopped? then r == Stopped(inner.outcome)
          else r == Whole(Wire([Group(LineAt(d), items.value)] + inner.value.attrs, inner.value.body), inner.rest)
  {
    hide Lex, ScanItems, LineAt;
  }

  lemma OpenScan(d: bytes, k: Kind, len: int, n: nat, L: Limits)
    requires Lex(d, L) == Tok(Open(k, len), n)
    ensures n <= |d|
    ensures
      var r := ScanWire(d, L);
      if len < -1 || len > L.maxContainerLen || (len >= 0 && !RepresentableLength(k, len)) then r == Stopped(Rejected(InvalidLength))
      else if len == -1 then r == Whole(Wire([], TypedNull(k, LineAt(d))), d[n..])
      else
        var items := ScanItems(d[n..], if k == Map then 2 * len else len, L);
        if items.Stopped? then r == Stopped(items.outcome)
        else r == Whole(Wire([], if k == Map then Entries(LineAt(d), items.value) else List(k, LineAt(d), items.value)), items.rest)
  {
    hide Lex, ScanItems, LineAt;
  }

  lemma PrefixSound(g: Group, w: Wire, rest: bytes, L: Limits)
    requires WellFormed(w, L) && PairCount(g.header, g.items, L) && AllWellFormed(g.items, L)
    ensures
      var v := Wire([g] + w.attrs, w.body);
      WellFormed(v, L) && Encode(v) + rest == EncodeHeader(Attribute, g.header) + (EncodeAll(g.items) + (Encode(w) + rest))
  {
    hide EncodeBody, EncodeHeader, EncodeAll, AllWellFormed, PairCount, BodyText;
    var gs := [g] + w.attrs;
    assert gs[1..] == w.attrs;
    assert EncodeGroups(gs) == EncodeHeader(Attribute, g.header) + EncodeAll(g.items) + EncodeGroups(w.attrs);
  }

  lemma {:induction false} ItemsSound(d: bytes, n: nat, L: Limits)
    requires ScanItems(d, n, L).Whole?
    ensures AllWellFormed(ScanItems(d, n, L).value, L) && d == EncodeAll(ScanItems(d, n, L).value) + ScanItems(d, n, L).rest
    decreases |d|, 2, n
  {
    hide ScanWire, Encode, WellFormed;
    if n > 0 {
      ScanSound(d, L);
      var first := ScanWire(d, L);
      ItemsSound(first.rest, n - 1, L);
      var later := ScanItems(first.rest, n - 1, L);
      var ws := [first.value] + later.value;
      assert ws[1..] == later.value;
      ConcatAssoc(Encode(first.value), EncodeAll(later.value), later.rest);
    }
  }

  // ----- where the descent stops, the machine stops -----

  lemma {:induction false} WireStops(c: Core, stack: seq<Frame>, d: bytes, L: Limits)
    requires Fits(stack, c) && ScanWire(d, L).Stopped?
    ensures Fits(stack + [VALUE], c) && Run(On(c, stack + [VALUE]), d, L).outcome == ScanWire(d, L).outcome
    decreases |d|, 1
  {
    FitsMore(stack, c, c);
    match Lex(d, L)
    case NeedMore =>
    case Bad(_) =>
    case Tok(t, n) =>
      hide Run, ScanItems;
      match t
      case Scalar(_) =>
      case Open(k, len) => OpenStops(c, stack, d, k, len, n, L);
      case Attr(len) => AttrStops(c, stack, d, len, n, L);
  }

  lemma {:induction false} OpenStops(c: Core, stack: seq<Frame>, d: bytes, k: Kind, len: int, n: nat, L: Limits)
    requires Fits(stack, c) && ScanWire(d, L).Stopped? && Lex(d, L) == Tok(Open(k, len), n)
    ensures Fits(stack + [VALUE], c) && Run(On(c, stack + [VALUE]), d, L).outcome == ScanWire(d, L).outcome
    decreases |d|, 0
  {
    hide Run, Lex, ScanWire, ScanItems, Attach, LineAt, EncodeHeader;
    OpenScan(d, k, len, n, L);
    TokenSplit(d, L);
    if len > L.maxContainerLen || len < -1 || !RepresentableLength(k, len) {
      RunToken(c, stack, d, L);
    } else {
      assert len > 0 by {
        NoItemsWhole(d[n..], L);
      }
      ParseOpen(c, stack, k, len, LineAt(d), d[n..], L);
      var c1 := AddNode(c, OpenNode(k, len, |c.tree.links|));
      var f := OpenFrame(k, len, |c.tree.nodes|);
      if k == Map {
        EntriesStop(c1, stack, f, d[n..], 2 * len, L);
      } else {
        ItemsStop(c1, stack, f, d[n..], len, L);
      }
    }
  }

  lemma NoItemsWhole(d: bytes, L: Limits)
    ensures ScanItems(d, 0, L).Whole?
  {
  }

  lemma {:induction false} ItemsStop(c: Core, stack: seq<Frame>, f: Frame, d: bytes, n: nat, L: Limits)
    requires Fits(stack, c) && ScanItems(d, n, L).Stopped?
    requires f.state == ListFrame && f.node < |c.tree.nodes| && f.produced + n == f.expected && n > 0
    ensures Fits(stack + [f] + [VALUE], c) && Run(On(c, stack + [f] + [VALUE]), d, L).outcome == ScanItems(d, n, L).outcome
    decreases |d|, 2, n
  {
    hide Run, Attach, ScanWire, Lay, LinkChildren, Encode, WellFormed;
    NodeFits(c, stack, f);
    var first := ScanWire(d, L);
    if first.Stopped? {
      WireStops(c, stack + [f], d, L);
    } else {
      ScanSound(d, L);
      var item := Lay(c, first.value);
      ParseWire(c, stack + [f], first.value, first.rest, L);
      FitsMore(stack, c, item.core);
      AttachItem(item.core, stack, f, item.index);
      LinkNodes(item.core, f.node, [item.index], f.produced + 1);
      assert n > 1 by {
        NoItemsWhole(first.rest, L);
      }
      ItemsStop(LinkChildren(item.core, f.node, [item.index], f.produced + 1), stack, f.(produced := f.produced + 1), first.rest, n - 1, L);
    }
  }

  lemma {:induction false} EntriesStop(c: Core, stack: seq<Frame>, f: Frame, d: bytes, n: nat, L: Limits)
    requires Fits(stack, c) && ScanItems(d, n, L).Stopped? && n % 2 == 0
    requires f.state == MapKeyFrame && f.node < |c.tree.nodes| && f.produced + n / 2 == f.expected && n > 0
    ensures Fits(stack + [f] + [VALUE], c) && Run(On(c, stack + [f] + [VALUE]), d, L).outcome == ScanItems(d, n, L).outcome
    decreases |d|, 2, n
  {
    hide Run, Attach, ScanWire, Lay, LinkChildren, Encode, WellFormed;
    NodeFits(c, stack, f);
    var first := ScanWire(d, L);
    if first.Stopped? {
      WireStops(c, stack + [f], d, L);
    } else {
      ScanSound(d, L);
      var key := Lay(c, first.value);
      ParseWire(c, stack + [f], first.value, first.rest, L);
      AttachMapKey(key.core, stack, f, key.index);
      FitsMore(stack, c, key.core);
      EntryStops(key.core, stack, f.(pendingKey := key.index, hasPendingKey := true, state := MapValueFrame), first.rest, n - 1, L);
    }
  }

  lemma {:induction false} EntryStops(c: Core, stack: seq<Frame>, f: Frame, d: bytes, n: nat, L: Limits)
    requires Fits(stack, c) && ScanItems(d, n, L).Stopped? && n % 2 == 1
    requires f.state == MapValueFrame && f.hasPendingKey && f.node < |c.tree.nodes| && f.produced + (n + 1) / 2 == f.expected
    ensures Fits(stack + [f] + [VALUE], c) && Run(On(c, stack + [f] + [VALUE]), d, L).outcome == ScanItems(d, n, L).outcome
    decreases |d|, 2, n
  {
    hide Run, Attach, ScanWire, Lay, LinkChildren, Encode, WellFormed;
    NodeFits(c, stack, f);
    var first := ScanWire(d, L);
    if first.Stopped? {
      WireStops(c, stack + [f], d, L);
    } else {
      ScanSound(d, L);
      var value := Lay(c, first.value);
      var children, count := [f.pendingKey, value.index], (f.produced + 1) * 2;
      ParseWire(c, stack + [f], first.value, first.rest, L);
      FitsMore(stack, c, value.core);
      AttachMapValue(value.core, stack, f, value.index);
      LinkNodes(value.core, f.node, children, count);
      assert n > 1 by {
        NoItemsWhole(first.rest, L);
      }
      EntriesStop(LinkChildren(value.core, f.node, children, count), stack,
        f.(produced := f.produced + 1, hasPendingKey := false, state := MapKeyFrame), first.rest, n - 1, L);
    }
  }

  lemma {:induction false} AttrStops(c: Core, stack: seq<Frame>, d: bytes, len: int, n: nat, L: Limits)
    requires Fits(stack, c) && ScanWire(d, L).Stopped? && Lex(d, L) == Tok(Attr(len), n)
    ensures Fits(stack + [VALUE], c) && Run(On(c, stack + [VALUE]), d, L).outcome == ScanWire(d, L).outcome
    decreases |d|, 0
  {
    hide Run, Lex, ScanWire, ScanItems, Attach, LineAt, EncodeHeader, EncodeAll, AllWellFormed;
    AttrScan(d, len, n, L);
    if 0 <= len <= L.maxContainerLen && RepresentableLength(Attribute, len) {
      var items := ScanItems(d[n..], 2 * len, L);
      if items.Stopped? {
        assert len > 0 by {
          NoItemsWhole(d[n..], L);
        }
        AttrOpens(c, stack, d, len, n, L);
        AttrsStop(c, stack, Frame(AttributeFrame, Attribute, len, 0, 0, 0, false), d[n..], 2 * len, L);
      } else {
        TokenSplit(d, L);
        ItemsSound(d[n..], 2 * len, L);
        ParseGroup(c, stack, Group(LineAt(d), items.value), items.rest, L);
        FitsMore(stack, c, LayAttrs(c, items.value));
        WireStops(LayAttrs(c, items.value), stack, items.rest, L);
      }
    } else {
      RunToken(c, stack, d, L);
    }
  }

  lemma AttrOpens(c: Core, stack: seq<Frame>, d: bytes, len: nat, n: nat, L: Limits)
    requires Fits(stack, c) && Lex(d, L) == Tok(Attr(len), n) && n <= |d|
    requires 0 < len <= L.maxContainerLen && RepresentableLength(Attribute, len)
    ensures
      var f := Frame(AttributeFrame, Attribute, len, 0, 0, 0, false);
      Fits(stack + [VALUE], c) && Fits(stack + [VALUE] + [f] + [VALUE], c) &&
      Run(On(c, stack + [VALUE]), d, L) == Run(On(c, stack + [VALUE] + [f] + [VALUE]), d[n..], L)
  {
    hide Run, Lex, Attach;
    var f := Frame(AttributeFrame, Attribute, len, 0, 0, 0, false);
    RunToken(c, stack, d, L);
    OnOps(c, stack + [VALUE], f, f);
    AttrFits(c, stack, f);
    RunPushesValue(c, stack + [VALUE] + [f], d[n..], L);
  }

  lemma {:induction false} AttrsStop(c: Core, stack: seq<Frame>, f: Frame, d: bytes, n: nat, L: Limits)
    requires Fits(stack, c) && ScanItems(d, n, L).Stopped? && n % 2 == 0
    requires f.state == AttributeFrame && !f.hasPendingKey && f.produced + n / 2 == f.expected && n > 0
    ensures Fits(stack + [VALUE] + [f] + [VALUE], c)
    ensures Run(On(c, stack + [VALUE] + [f] + [VALUE]), d, L).outcome == ScanItems(d, n, L).outcome
    decreases |d|, 2, n
  {
    hide Run, Attach, ScanWire, Lay, Encode, WellFormed;
    AttrFits(c, stack, f);
    var first := ScanWire(d, L);
    if first.Stopped? {
      WireStops(c, stack + [VALUE] + [f], d, L);
    } else {
      ScanSound(d, L);
      var key := Lay(c, first.value);
      ParseWire(c, stack + [VALUE] + [f], first.value, first.rest, L);
      AttachAttrKey(key.core, stack + [VALUE], f, key.index);
      FitsMore(stack, c, key.core);
      AttrStopsHalfway(key.core, stack, f.(pendingKey := key.index, hasPendingKey := true), first.rest, n - 1, L);
    }
  }

  lemma {:induction false} AttrStopsHalfway(c: Core, stack: seq<Frame>, f: Frame, d: bytes, n: nat, L: Limits)
    requires Fits(stack, c) && ScanItems(d, n, L).Stopped? && n % 2 == 1
    requires f.state == AttributeFrame && f.hasPendingKey && f.produced + (n + 1) / 2 == f.expected
    ensures Fits(stack + [VALUE] + [f] + [VALUE], c)
    ensures Run(On(c, stack + [VALUE] + [f] + [VALUE]), d, L).outcome == ScanItems(d, n, L).outcome
    decreases |d|, 2, n
  {
    hide Run, Attach, ScanWire, Lay, PendingPush, Encode, WellFormed;
    AttrFits(c, stack, f);
    var first := ScanWire(d, L);
    if first.Stopped? {
      WireStops(c, stack + [VALUE] + [f], d, L);
    } else {
      ScanSound(d, L);
      var value := Lay(c, first.value);
      ParseWire(c, stack + [VALUE] + [f], first.value, first.rest, L);
      AttachAttrValue(value.core, stack + [VALUE], f, value.index);
      PendingPushNodes(value.core, f.pendingKey, value.index);
      var c1 := PendingPush(PendingPush(value.core, f.pendingKey), value.index);
      FitsMore(stack, c, c1);
      assert n > 1 by {
        NoItemsWhole(first.rest, L);
      }
      AttrsStop(c1, stack, f.(produced := f.produced + 1, hasPendingKey := false), first.rest, n - 1, L);
    }
  }

  // ----- the machine refines the descent -----

  /**
   `parse_one` on a fresh parser does what the recursive descent does: it hands out the layout of the
   value read, leaving what follows, or it stops with the same error or the same need for bytes.
   */
  lemma StackRefinesDescent(d: bytes, L: Limits)
    ensures
      var r := ParseOne(START, d, L);
      match ScanWire(d, L)
      case Whole(w, rest) => r == RunResult(On(Lay(START, w).core, []), rest, Root(Lay(START, w).index))
      case Stopped(o) => r.outcome == o
  {
    hide Run, Lay, ScanWire, WellFormed, Encode;
    assert Armed(START) == On(START, [] + [VALUE]);
    if ScanWire(d, L).Whole? {
      ScanSound(d, L);
      ParseWire(START, [], ScanWire(d, L).value, ScanWire(d, L).rest, L);
    } else {
      WireStops(START, [], d, L);
    }
  }

  /** A root is produced exactly on the encodings of well-formed values. */
  lemma AcceptsExactlyWellFormed(d: bytes, L: Limits)
    ensures ParseOne(START, d, L).outcome.Root? <==> exists w: Wire, rest: bytes :: WellFormed(w, L) && d == Encode(w) + rest
  {
    hide Run, Lay, ScanWire, WellFormed, Encode, ParseOne;
    StackRefinesDescent(d, L);
    if ScanWire(d, L).Whole? {
      ScanSound(d, L);
    }
    forall w: Wire, rest: bytes | WellFormed(w, L) && d == Encode(w) + rest
      ensures ParseOne(START, d, L).outcome.Root?
    {
      WellFormedIsAccepted(w, rest, L);
    }
  }

  lemma WellFormedIsAccepted(w: Wire, rest: bytes, L: Limits)
    requires WellFormed(w, L)
    ensures ParseOne(START, Encode(w) + rest, L) == RunResult(On(Lay(START, w).core, []), rest, Root(Lay(START, w).index))
  {
    hide Run, Lay, WellFormed, Encode;
    assert Armed(START) == On(START, [] + [VALUE]);
    ParseWire(START, [], w, rest, L);
  }

  /** No encoding is the beginning of another: where a value ends is decided by the bytes alone. */
  lemma EncodingsArePrefixFree(w: Wire, rest: bytes, w': Wire, rest': bytes, L: Limits)
    requires WellFormed(w, L) && WellFormed(w', L) && Encode(w) + rest == Encode(w') + rest'
    ensures rest == rest' && Encode(w) == Encode(w')
  {
    hide ParseOne, Lay, WellFormed, Encode;
    WellFormedIsAccepted(w, rest, L);
    WellFormedIsAccepted(w', rest', L);
    var d := Encode(w) + rest;
    assert Encode(w) == d[..|d| - |rest|] && Encode(w') == d[..|d| - |rest'|];
  }
}
