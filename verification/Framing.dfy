/** The parser consumes exactly one value's encoding and leaves exactly its layout behind. */
module Framing {
  import opened Bytes
  import opened Kinds
  import opened Lexer
  import opened Parser
  import opened Wire

  // ----- tokens of an encoding -----

  lemma NumberIsLineText(s: bytes)
    requires ParseI64(s).Some?
    ensures LineText(s)
  {
    forall i | 0 <= i < |s|
      ensures !CrlfAt(s, i)
    {
      if s[0] == MINUS && i > 0 {
        assert IsDigit(s[1..][i - 1]);
      } else if s[0] != MINUS {
        assert IsDigit(s[i]);
      }
    }
  }

  lemma LineOf(k: Kind, text: bytes, rest: bytes)
    requires LineText(text)
    ensures
      var d := EncodeHeader(k, text) + rest;
      d[0] == KindToPrefix(k) && FindCrlf(d[1..]) == Some(|text|) && d[1..][..|text|] == text && |EncodeHeader(k, text)| == |text| + 3 && d[|text| + 3..] == rest
  {
    var d := EncodeHeader(k, text) + rest;
    assert d[1..] == text + CRLF + rest;
    FindCrlfOfLine(text, rest);
  }

  lemma PrefixRoundTrip(k: Kind)
    ensures PrefixToKind(KindToPrefix(k)) == Some(k)
  {
  }

  lemma LexHeader(k: Kind, header: bytes, len: int, rest: bytes, L: Limits)
    requires HeaderText(header, len, L)
    ensures
      var d := EncodeHeader(k, header) + rest;
      ParseHeader(d, L) == HeaderOk(len, |header| + 3) && d[|header| + 3..] == rest && d[0] == KindToPrefix(k)
  {
    NumberIsLineText(header);
    LineOf(k, header, rest);
  }

  lemma LexOpen(k: Kind, header: bytes, len: int, rest: bytes, L: Limits)
    requires HeaderText(header, len, L) && (k == Attribute || IsContainerKind(k))
    ensures
      var d := EncodeHeader(k, header) + rest;
      Lex(d, L) == Tok(if k == Attribute then Attr(len) else Open(k, len), |header| + 3) && d[|header| + 3..] == rest
  {
    LexHeader(k, header, len, rest, L);
    PrefixRoundTrip(k);
  }

  lemma LexLineBody(k: Kind, text: bytes, rest: bytes, L: Limits)
    requires BodyText(Line(k, text), L)
    ensures
      var d := EncodeHeader(k, text) + rest;
      Lex(d, L) == Tok(Scalar(LeafOf(Line(k, text))), |text| + 3) && d[|text| + 3..] == rest
  {
    LineOf(k, text, rest);
    PrefixRoundTrip(k);
  }

  lemma ThreeParts(a: bytes, b: bytes, c: bytes)
    ensures (a + b + c)[|a|..|a| + |b|] == b && (a + b + c)[|a| + |b|..] == c
  {
  }

  lemma LexBulkBody(k: Kind, h: bytes, payload: bytes, rest: bytes, L: Limits)
    requires BodyText(Bulk(k, h, payload), L)
    ensures
      var d := EncodeHeader(k, h) + payload + CRLF + rest;
      var n := |h| + 3 + |payload| + 2;
      Lex(d, L) == Tok(Scalar(LeafOf(Bulk(k, h, payload))), n) && d[n..] == rest
  {
    hide ParseHeader, ParseI64, FindCrlf;
    var d := EncodeHeader(k, h) + payload + CRLF + rest;
    assert d == EncodeHeader(k, h) + (payload + CRLF + rest);
    LexHeader(k, h, |payload|, payload + CRLF + rest, L);
    PrefixRoundTrip(k);
    ThreeParts(EncodeHeader(k, h), payload, CRLF + rest);
    assert d == EncodeHeader(k, h) + payload + (CRLF + rest);
    ThreeParts(EncodeHeader(k, h) + payload, CRLF, rest);
  }

  lemma LexBulkNull(k: Kind, h: bytes, rest: bytes, L: Limits)
    requires IsBulkKind(k) && HeaderText(h, -1, L)
    ensures
      var d := EncodeHeader(k, h) + rest;
      Lex(d, L) == Tok(Scalar(Leaf(k, [], -1, false)), |h| + 3) && d[|h| + 3..] == rest
  {
    LexHeader(k, h, -1, rest, L);
    PrefixRoundTrip(k);
  }

  /** A body without children is one token, unless it is a null container. */
  lemma LexScalarBody(b: Body, rest: bytes, L: Limits)
    requires BodyText(b, L) && !b.List? && !b.Entries? && !(b.TypedNull? && IsContainerKind(b.kind))
    ensures
      var d := EncodeBody(b) + rest;
      Lex(d, L) == Tok(Scalar(LeafOf(b)), |EncodeBody(b)|) && d[|EncodeBody(b)|..] == rest
  {
    match b
    case Line(k, text) => LexLineBody(k, text, rest, L);
    case Bulk(k, h, payload) => LexBulkBody(k, h, payload, rest, L);
    case TypedNull(k, h) => LexBulkNull(k, h, rest, L);
    case Flag(_) =>
    case Nil =>
  }

  // ----- running the parser over an encoding -----

  /** `c` with another stack. */
  function On(c: Core, stack: seq<Frame>): Core {
    c.(stack := stack)
  }

  /** What `parse_one` goes on to do after a step, on the bytes that are left. */
  function GoOn(s: Step, rest: bytes, L: Limits): RunResult
    requires InRange(s.core)
  {
    match s
    case Produced(c, root) => RunResult(c, rest, Root(root))
    case Continue(c) => Run(c, rest, L)
    case Fail(c, e) => RunResult(c, rest, Rejected(e))
  }

  predicate Fits(stack: seq<Frame>, c: Core) {
    InRange(On(c, stack))
  }

  lemma FitsMore(stack: seq<Frame>, c: Core, c': Core)
    requires Fits(stack, c) && |c.tree.nodes| <= |c'.tree.nodes|
    ensures Fits(stack, c') && Fits(stack + [VALUE], c')
  {
  }

  lemma RunToken(c: Core, stack: seq<Frame>, d: bytes, L: Limits)
    requires Fits(stack, c) && Lex(d, L).Tok?
    ensures Fits(stack + [VALUE], c)
    ensures Run(On(c, stack + [VALUE]), d, L) == GoOn(Consume(On(c, stack + [VALUE]), Lex(d, L).token, L), d[Lex(d, L).size..], L)
  {
    FitsMore(stack, c, c);
  }

  lemma RunPushesValue(c: Core, stack: seq<Frame>, d: bytes, L: Limits)
    requires Fits(stack, c) && stack != [] && stack[|stack| - 1].state != ValueFrame
    ensures Fits(stack + [VALUE], c) && Run(On(c, stack), d, L) == Run(On(c, stack + [VALUE]), d, L)
  {
    FitsMore(stack, c, c);
  }

  /** Laying out `w` finishes a node that is then attached to whatever is on the stack. */
  ghost predicate Parses(c: Core, stack: seq<Frame>, w: Wire, rest: bytes, L: Limits) {
    Fits(stack, c) && Fits(stack + [VALUE], c) && Fits(stack, Lay(c, w).core) &&
    Run(On(c, stack + [VALUE]), Encode(w) + rest, L) == GoOn(Attach(On(Lay(c, w).core, stack), Lay(c, w).index), rest, L)
  }

  lemma ParseScalar(c: Core, stack: seq<Frame>, b: Body, rest: bytes, L: Limits)
    requires Fits(stack, c) && BodyText(b, L) && !b.List? && !b.Entries?
    ensures Fits(stack + [VALUE], c) && Fits(stack, LayBody(c, b).core)
    ensures Run(On(c, stack + [VALUE]), EncodeBody(b) + rest, L) == GoOn(Attach(On(LayBody(c, b).core, stack), LayBody(c, b).index), rest, L)
  {
    hide Lex, Attach;
    var d := EncodeBody(b) + rest;
    FitsMore(stack, c, LayBody(c, b).core);
    if b.TypedNull? && IsContainerKind(b.kind) {
      LexOpen(b.kind, b.header, -1, rest, L);
    } else {
      LexScalarBody(b, rest, L);
    }
    RunToken(c, stack, d, L);
    assert (stack + [VALUE])[..|stack|] == stack;
  }

  lemma OnOps(c: Core, stack: seq<Frame>, f: Frame, f': Frame)
    ensures PushFrame(On(c, stack), f) == On(c, stack + [f])
    ensures Top(On(c, stack + [f])) == f
    ensures PopTop(On(c, stack + [f])) == On(c, stack)
    ensures SetTop(On(c, stack + [f]), f') == On(c, stack + [f'])
  {
    assert (stack + [f])[|stack| := f'] == stack + [f'];
  }

  // ----- attributes -----

  lemma AttachAttrKey(c: Core, stack: seq<Frame>, f: Frame, child: nat)
    requires Fits(stack + [f], c) && f.state == AttributeFrame && !f.hasPendingKey
    ensures Attach(On(c, stack + [f]), child) == Continue(On(c, stack + [f.(pendingKey := child, hasPendingKey := true)] + [VALUE]))
  {
    var f' := f.(pendingKey := child, hasPendingKey := true);
    OnOps(c, stack, f, f');
    OnOps(c, stack + [f'], VALUE, VALUE);
  }

  lemma AttachAttrValue(c: Core, stack: seq<Frame>, f: Frame, child: nat)
    requires Fits(stack + [f], c) && f.state == AttributeFrame && f.hasPendingKey
    ensures
      var c' := PendingPush(PendingPush(c, f.pendingKey), child);
      Attach(On(c, stack + [f]), child) == Continue(
        if f.produced + 1 == f.expected then On(c', stack)
        else On(c', stack + [f.(produced := f.produced + 1, hasPendingKey := false)] + [VALUE]))
  {
    var f' := f.(produced := f.produced + 1, hasPendingKey := false);
    var c' := PendingPush(PendingPush(c, f.pendingKey), child);
    OnOps(c, stack, f, f');
    OnOps(c', stack, f, f');
    OnOps(c', stack + [f'], VALUE, VALUE);
    assert PendingPush(PendingPush(On(c, stack + [f]), f.pendingKey), child) == On(c', stack + [f]);
  }

  // ----- containers -----

  lemma AttachItem(c: Core, stack: seq<Frame>, f: Frame, child: nat)
    requires Fits(stack + [f], c) && Fits(stack, c) && f.state == ListFrame && f.node < |c.tree.nodes|
    ensures
      var c' := LinkChildren(c, f.node, [child], f.produced + 1);
      Fits(stack, c') &&
      Attach(On(c, stack + [f]), child) ==
        if f.produced + 1 == f.expected then Attach(On(c', stack), f.node)
        else Continue(On(c', stack + [f.(produced := f.produced + 1)] + [VALUE]))
  {
    var f' := f.(produced := f.produced + 1);
    var c' := LinkChildren(c, f.node, [child], f.produced + 1);
    OnOps(c, stack, f, f');
    OnOps(c', stack, f, f');
    OnOps(c', stack + [f'], VALUE, VALUE);
    assert LinkChildren(On(c, stack + [f]), f.node, [child], f.produced + 1) == On(c', stack + [f]);
  }

  lemma AttachMapKey(c: Core, stack: seq<Frame>, f: Frame, child: nat)
    requires Fits(stack + [f], c) && f.state == MapKeyFrame
    ensures Attach(On(c, stack + [f]), child) == Continue(On(c, stack + [f.(pendingKey := child, hasPendingKey := true, state := MapValueFrame)] + [VALUE]))
  {
    var f' := f.(pendingKey := child, hasPendingKey := true, state := MapValueFrame);
    OnOps(c, stack, f, f');
    OnOps(c, stack + [f'], VALUE, VALUE);
  }

  lemma AttachMapValue(c: Core, stack: seq<Frame>, f: Frame, child: nat)
    requires Fits(stack + [f], c) && Fits(stack, c) && f.state == MapValueFrame && f.hasPendingKey && f.node < |c.tree.nodes|
    ensures
      var c' := LinkChildren(c, f.node, [f.pendingKey, child], (f.produced + 1) * 2);
      Fits(stack, c') &&
      Attach(On(c, stack + [f]), child) ==
        if f.produced + 1 == f.expected then Attach(On(c', stack), f.node)
        else Continue(On(c', stack + [f.(produced := f.produced + 1, hasPendingKey := false, state := MapKeyFrame)] + [VALUE]))
  {
    var f' := f.(produced := f.produced + 1, hasPendingKey := false, state := MapKeyFrame);
    var c' := LinkChildren(c, f.node, [f.pendingKey, child], (f.produced + 1) * 2);
    OnOps(c, stack, f, f');
    OnOps(c', stack, f, f');
    OnOps(c', stack + [f'], VALUE, VALUE);
    assert LinkChildren(On(c, stack + [f]), f.node, [f.pendingKey, child], (f.produced + 1) * 2) == On(c', stack + [f]);
  }

  // ----- whole values -----

  /** One value: every byte of its encoding is consumed, and nothing else. */
  lemma {:induction false} ParseWire(c: Core, stack: seq<Frame>, w: Wire, rest: bytes, L: Limits)
    requires WellFormed(w, L) && Fits(stack, c)
    ensures Parses(c, stack, w, rest, L)
    decreases w, 4
  {
    hide Run, Attach, GoOn, LayBody, LayGroups, EncodeBody, EncodeGroups;
    var c1 := LayGroups(c, w.attrs);
    assert Encode(w) + rest == EncodeGroups(w.attrs) + (EncodeBody(w.body) + rest);
    ParseGroups(c, stack, w.attrs, EncodeBody(w.body) + rest, L);
    FitsMore(stack, c, c1);
    ParseBody(c1, stack, w.body, rest, L);
  }

  lemma {:induction false} ParseGroups(c: Core, stack: seq<Frame>, gs: seq<Group>, rest: bytes, L: Limits)
    requires Fits(stack, c)
    requires forall i :: 0 <= i < |gs| ==> PairCount(gs[i].header, gs[i].items, L) && AllWellFormed(gs[i].items, L)
    ensures Fits(stack + [VALUE], c) && Fits(stack + [VALUE], LayGroups(c, gs))
    ensures Run(On(c, stack + [VALUE]), EncodeGroups(gs) + rest, L) == Run(On(LayGroups(c, gs), stack + [VALUE]), rest, L)
    decreases gs, 3
  {
    hide Run, Attach, GoOn, LayAttrs, EncodeAll, EncodeHeader;
    FitsMore(stack, c, c);
    if gs == [] {
      assert EncodeGroups(gs) + rest == rest;
    } else {
      var g, rest1 := gs[0], EncodeGroups(gs[1..]) + rest;
      assert EncodeGroups(gs) + rest == EncodeHeader(Attribute, g.header) + (EncodeAll(g.items) + rest1);
      ParseGroup(c, stack, g, rest1, L);
      FitsMore(stack, c, LayAttrs(c, g.items));
      ParseGroups(LayAttrs(c, g.items), stack, gs[1..], rest, L);
    }
  }

  lemma {:induction false} ParseGroup(c: Core, stack: seq<Frame>, g: Group, rest: bytes, L: Limits)
    requires Fits(stack, c) && PairCount(g.header, g.items, L) && AllWellFormed(g.items, L)
    ensures Fits(stack + [VALUE], c) && Fits(stack + [VALUE], LayAttrs(c, g.items))
    ensures Run(On(c, stack + [VALUE]), EncodeHeader(Attribute, g.header) + (EncodeAll(g.items) + rest), L) == Run(On(LayAttrs(c, g.items), stack + [VALUE]), rest, L)
    decreases g, 2
  {
    hide Run, Attach, Lex, EncodeHeader;
    FitsMore(stack, c, c);
    FitsMore(stack, c, LayAttrs(c, g.items));
    var rest1 := EncodeAll(g.items) + rest;
    LexOpen(Attribute, g.header, |g.items| / 2, rest1, L);
    RunToken(c, stack, EncodeHeader(Attribute, g.header) + rest1, L);
    if g.items == [] {
      assert rest1 == rest;
    } else {
      var f := Frame(AttributeFrame, Attribute, |g.items| / 2, 0, 0, 0, false);
      OnOps(c, stack + [VALUE], f, f);
      AttrFits(c, stack, f);
      RunPushesValue(c, stack + [VALUE] + [f], rest1, L);
      ParseAttrs(c, stack, f, g.items, rest, L);
    }
  }

  lemma AttrFits(c: Core, stack: seq<Frame>, f: Frame)
    requires Fits(stack, c) && f.state == AttributeFrame
    ensures Fits(stack + [VALUE], c) && Fits(stack + [VALUE] + [f], c) && Fits(stack + [VALUE] + [f] + [VALUE], c)
  {
    FitsMore(stack, c, c);
  }

  lemma {:induction false} ParseAttrs(c: Core, stack: seq<Frame>, f: Frame, items: seq<Wire>, rest: bytes, L: Limits)
    requires Fits(stack, c) && AllWellFormed(items, L) && |items| >= 2 && |items| % 2 == 0
    requires f.state == AttributeFrame && !f.hasPendingKey && f.produced + |items| / 2 == f.expected
    ensures Fits(stack + [VALUE], LayAttrs(c, items)) && Fits(stack + [VALUE] + [f] + [VALUE], c)
    ensures Run(On(c, stack + [VALUE] + [f] + [VALUE]), EncodeAll(items) + rest, L) == Run(On(LayAttrs(c, items), stack + [VALUE]), rest, L)
    decreases items, 1
  {
    hide Run, Attach, Lex, Lay, Encode, PendingPush;
    var key := Lay(c, items[0]);
    var value := Lay(key.core, items[1]);
    var rest2 := EncodeAll(items[2..]) + rest;
    EncodeTwo(items, rest);
    AttrFits(c, stack, f);
    ParseWire(c, stack + [VALUE] + [f], items[0], Encode(items[1]) + rest2, L);
    AttachAttrKey(key.core, stack + [VALUE], f, key.index);
    var f1 := f.(pendingKey := key.index, hasPendingKey := true);
    FitsMore(stack, c, key.core);
    AttrFits(key.core, stack, f1);
    ParseWire(key.core, stack + [VALUE] + [f1], items[1], rest2, L);
    AttachAttrValue(value.core, stack + [VALUE], f1, value.index);
    var c2 := PendingPush(PendingPush(value.core, key.index), value.index);
    PendingPushNodes(value.core, key.index, value.index);
    FitsMore(stack, c, c2);
    if |items| == 2 {
      assert items[2..] == [] && rest2 == rest;
    } else {
      ParseAttrs(c2, stack, f1.(produced := f.produced + 1, hasPendingKey := false), items[2..], rest, L);
    }
  }

  lemma PendingPushNodes(c: Core, key: nat, value: nat)
    ensures PendingPush(PendingPush(c, key), value).tree.nodes == c.tree.nodes
  {
  }

  lemma EncodeTwo(items: seq<Wire>, rest: bytes)
    requires |items| >= 2
    ensures EncodeAll(items) + rest == Encode(items[0]) + (Encode(items[1]) + (EncodeAll(items[2..]) + rest))
  {
    EncodeFirst(items);
    EncodeFirst(items[1..]);
    assert items[1..][1..] == items[2..];
    hide Encode, EncodeAll;
    ConcatAssoc(Encode(items[0]), EncodeAll(items[1..]), rest);
    ConcatAssoc(Encode(items[1]), EncodeAll(items[2..]), rest);
  }

  lemma ConcatAssoc(a: bytes, b: bytes, c: bytes)
    ensures a + b + c == a + (b + c)
  {
  }

  lemma EncodeFirst(items: seq<Wire>)
    requires items != []
    ensures EncodeAll(items) == Encode(items[0]) + EncodeAll(items[1..])
  {
  }

  lemma {:induction false} ParseBody(c: Core, stack: seq<Frame>, b: Body, rest: bytes, L: Limits)
    requires Fits(stack, c) && BodyText(b, L)
    requires b.List? || b.Entries? ==> AllWellFormed(b.items, L)
    ensures Fits(stack + [VALUE], c) && Fits(stack, LayBody(c, b).core)
    ensures Run(On(c, stack + [VALUE]), EncodeBody(b) + rest, L) == GoOn(Attach(On(LayBody(c, b).core, stack), LayBody(c, b).index), rest, L)
    decreases b, 3
  {
    match b
    case List(k, h, items) => ParseList(c, stack, b, rest, L);
    case Entries(h, items) => ParseMap(c, stack, b, rest, L);
    case _ => ParseScalar(c, stack, b, rest, L);
  }

  lemma ParseEmpty(c: Core, stack: seq<Frame>, k: Kind, h: bytes, rest: bytes, L: Limits)
    requires Fits(stack, c) && HeaderText(h, 0, L) && IsContainerKind(k)
    ensures
      var c1 := AddNode(c, OpenNode(k, 0, |c.tree.links|));
      Fits(stack + [VALUE], c) && Fits(stack, c1) &&
      Run(On(c, stack + [VALUE]), EncodeHeader(k, h) + rest, L) == GoOn(Attach(On(c1, stack), |c.tree.nodes|), rest, L)
  {
    hide Run, Attach, Lex, EncodeHeader;
    var c1 := AddNode(c, OpenNode(k, 0, |c.tree.links|));
    FitsMore(stack, c, c1);
    LexOpen(k, h, 0, rest, L);
    RunToken(c, stack, EncodeHeader(k, h) + rest, L);
    OnOps(c1, stack, VALUE, VALUE);
  }

  function OpenFrame(k: Kind, len: nat, node: nat): Frame {
    Frame(if k == Map then MapKeyFrame else ListFrame, k, len, 0, node, 0, false)
  }

  lemma ParseOpen(c: Core, stack: seq<Frame>, k: Kind, len: nat, h: bytes, rest: bytes, L: Limits)
    requires Fits(stack, c) && HeaderText(h, len, L) && IsContainerKind(k) && 0 < len <= L.maxContainerLen && RepresentableLength(k, len)
    ensures
      var c1 := AddNode(c, OpenNode(k, len, |c.tree.links|));
      var f := OpenFrame(k, len, |c.tree.nodes|);
      Fits(stack + [VALUE], c) && Fits(stack, c1) && Fits(stack + [f] + [VALUE], c1) &&
      Run(On(c, stack + [VALUE]), EncodeHeader(k, h) + rest, L) == Run(On(c1, stack + [f] + [VALUE]), rest, L)
  {
    hide Run, Attach, Lex, EncodeHeader;
    var c1 := AddNode(c, OpenNode(k, len, |c.tree.links|));
    var f := OpenFrame(k, len, |c.tree.nodes|);
    FitsMore(stack, c, c1);
    LexOpen(k, h, len, rest, L);
    RunToken(c, stack, EncodeHeader(k, h) + rest, L);
    OnOps(c1, stack, VALUE, f);
    RunPushesValue(c1, stack + [f], rest, L);
  }

  lemma {:induction false} ParseList(c: Core, stack: seq<Frame>, b: Body, rest: bytes, L: Limits)
    requires Fits(stack, c) && b.List? && BodyText(b, L) && AllWellFormed(b.items, L)
    ensures Fits(stack + [VALUE], c) && Fits(stack, LayBody(c, b).core)
    ensures Run(On(c, stack + [VALUE]), EncodeBody(b) + rest, L) == GoOn(Attach(On(LayBody(c, b).core, stack), LayBody(c, b).index), rest, L)
    decreases b, 2
  {
    hide Run, Attach, Lex, EncodeHeader, GoOn;
    assert EncodeBody(b) + rest == EncodeHeader(b.kind, b.header) + (EncodeAll(b.items) + rest);
    if b.items == [] {
      assert EncodeAll(b.items) + rest == rest;
      ParseEmpty(c, stack, b.kind, b.header, rest, L);
    } else {
      ParseOpen(c, stack, b.kind, |b.items|, b.header, EncodeAll(b.items) + rest, L);
      ParseItems(AddNode(c, OpenNode(b.kind, |b.items|, |c.tree.links|)), stack, OpenFrame(b.kind, |b.items|, |c.tree.nodes|), b.items, rest, L);
    }
  }

  lemma {:induction false} ParseItems(c: Core, stack: seq<Frame>, f: Frame, items: seq<Wire>, rest: bytes, L: Limits)
    requires Fits(stack, c) && AllWellFormed(items, L) && items != []
    requires f.state == ListFrame && f.node < |c.tree.nodes| && f.produced + |items| == f.expected
    ensures Fits(stack, LayItems(c, f.node, items, f.produced)) && Fits(stack + [f] + [VALUE], c)
    ensures Run(On(c, stack + [f] + [VALUE]), EncodeAll(items) + rest, L) == GoOn(Attach(On(LayItems(c, f.node, items, f.produced), stack), f.node), rest, L)
    decreases items, 1
  {
    hide Run, Attach, Lex, Lay, Encode, LinkChildren;
    var item := Lay(c, items[0]);
    var rest1 := EncodeAll(items[1..]) + rest;
    assert EncodeAll(items) + rest == Encode(items[0]) + rest1;
    NodeFits(c, stack, f);
    ParseWire(c, stack + [f], items[0], rest1, L);
    FitsMore(stack, c, item.core);
    AttachItem(item.core, stack, f, item.index);
    var c1 := LinkChildren(item.core, f.node, [item.index], f.produced + 1);
    LinkNodes(item.core, f.node, [item.index], f.produced + 1);
    if |items| == 1 {
      assert items[1..] == [] && rest1 == rest;
    } else {
      ParseItems(c1, stack, f.(produced := f.produced + 1), items[1..], rest, L);
    }
  }

  lemma NodeFits(c: Core, stack: seq<Frame>, f: Frame)
    requires Fits(stack, c) && f.node < |c.tree.nodes|
    ensures Fits(stack + [f], c) && Fits(stack + [f] + [VALUE], c)
  {
  }

  lemma LinkNodes(c: Core, node: nat, children: seq<nat>, n: nat)
    requires node < |c.tree.nodes|
    ensures |LinkChildren(c, node, children, n).tree.nodes| == |c.tree.nodes|
  {
  }

  lemma {:induction false} ParseMap(c: Core, stack: seq<Frame>, b: Body, rest: bytes, L: Limits)
    requires Fits(stack, c) && b.Entries? && BodyText(b, L) && AllWellFormed(b.items, L)
    ensures Fits(stack + [VALUE], c) && Fits(stack, LayBody(c, b).core)
    ensures Run(On(c, stack + [VALUE]), EncodeBody(b) + rest, L) == GoOn(Attach(On(LayBody(c, b).core, stack), LayBody(c, b).index), rest, L)
    decreases b, 2
  {
    hide Run, Attach, Lex, EncodeHeader, GoOn;
    assert EncodeBody(b) + rest == EncodeHeader(Map, b.header) + (EncodeAll(b.items) + rest);
    if b.items == [] {
      assert EncodeAll(b.items) + rest == rest;
      ParseEmpty(c, stack, Map, b.header, rest, L);
    } else {
      var n := |b.items| / 2;
      ParseOpen(c, stack, Map, n, b.header, EncodeAll(b.items) + rest, L);
      ParseEntries(AddNode(c, OpenNode(Map, n, |c.tree.links|)), stack, OpenFrame(Map, n, |c.tree.nodes|), b.items, rest, L);
    }
  }

  lemma {:induction false} ParseEntries(c: Core, stack: seq<Frame>, f: Frame, items: seq<Wire>, rest: bytes, L: Limits)
    requires Fits(stack, c) && AllWellFormed(items, L) && |items| >= 2 && |items| % 2 == 0
    requires f.state == MapKeyFrame && f.node < |c.tree.nodes| && f.produced + |items| / 2 == f.expected
    ensures Fits(stack, LayEntries(c, f.node, items, f.produced)) && Fits(stack + [f] + [VALUE], c)
    ensures Run(On(c, stack + [f] + [VALUE]), EncodeAll(items) + rest, L) == GoOn(Attach(On(LayEntries(c, f.node, items, f.produced), stack), f.node), rest, L)
    decreases items, 1
  {
    hide Run, Attach, Lex, Lay, Encode, LinkChildren;
    var key := Lay(c, items[0]);
    var value := Lay(key.core, items[1]);
    var rest2 := EncodeAll(items[2..]) + rest;
    EncodeTwo(items, rest);
    NodeFits(c, stack, f);
    ParseWire(c, stack + [f], items[0], Encode(items[1]) + rest2, L);
    AttachMapKey(key.core, stack, f, key.index);
    var f1 := f.(pendingKey := key.index, hasPendingKey := true, state := MapValueFrame);
    FitsMore(stack, c, key.core);
    NodeFits(key.core, stack, f1);
    ParseWire(key.core, stack + [f1], items[1], rest2, L);
    FitsMore(stack, c, value.core);
    AttachMapValue(value.core, stack, f1, value.index);
    LinkNodes(value.core, f.node, [key.index, value.index], (f.produced + 1) * 2);
    var c2 := LinkChildren(value.core, f.node, [key.index, value.index], (f.produced + 1) * 2);
    if |items| == 2 {
      assert items[2..] == [] && rest2 == rest;
    } else {
      ParseEntries(c2, stack, f1.(produced := f.produced + 1, hasPendingKey := false, state := MapKeyFrame), items[2..], rest, L);
    }
  }
}
