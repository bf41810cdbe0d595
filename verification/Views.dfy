/**
 Parser and read buffer together: the parser records where a node's text lies in the buffer instead
 of copying it. Every recorded view spells the node's text from the moment the node is made until
 the tree is reclaimed.
 */
module Views {
  import opened Bytes
  import opened Kinds
  import opened Lexer
  import opened Parser
  import B = Buffer

  /** A range of the bytes written since the buffer was last compacted. */
  datatype View = View(offset: nat, length: nat)

  predicate Spells(v: View, written: bytes, text: bytes) {
    v.offset + v.length <= |written| && written[v.offset..v.offset + v.length] == text
  }

  // ----- the text of a token -----

  /** Where a token at the front of `d` has its text: after the type byte, or after the length header. */
  function TextStart(d: bytes, n: Node, L: Limits): nat
    requires |d| > 0
  {
    if n.text == [] then 0
    else if IsBulkKind(n.kind) then (match ParseHeader(d, L) case HeaderOk(_, size) => size case _ => 0)
    else 1
  }

  lemma BulkTextAt(d: bytes, k: Kind, L: Limits)
    requires |d| > 0 && LexBulk(d, k, L).Tok? && IsBulkKind(k)
    ensures
      var t := LexBulk(d, k, L);
      t.token.Scalar? && t.size <= |d| && Spells(View(TextStart(d, t.token.node, L), |t.token.node.text|), d[..t.size], t.token.node.text)
  {
    hide ParseHeader;
    var t := LexBulk(d, k, L);
    var h := ParseHeader(d, L);
    if h.len >= 0 {
      assert d[..t.size][h.size..h.size + h.len] == d[h.size..h.size + h.len];
    }
  }

  lemma LineTextAt(d: bytes, k: Kind, L: Limits)
    requires |d| > 0 && LexLine(d, k, L).Tok?
    ensures
      var t := LexLine(d, k, L);
      t.token.Scalar? && t.size <= |d| && Spells(View(TextStart(d, t.token.node, L), |t.token.node.text|), d[..t.size], t.token.node.text)
  {
    hide ParseI64, ParseHeader;
    var p := FindCrlf(d[1..]).value;
    assert CrlfAt(d[1..], p);
    assert d[1..][..p] == d[1..p + 1] == d[..p + 3][1..p + 1];
  }

  /** A scalar token's text lies within the bytes it consumes. */
  lemma TextAt(d: bytes, L: Limits)
    requires Lex(d, L).Tok? && Lex(d, L).token.Scalar?
    ensures
      var node, n := Lex(d, L).token.node, Lex(d, L).size;
      n <= |d| && Spells(View(TextStart(d, node, L), |node.text|), d[..n], node.text)
  {
    hide ParseHeader, LexBulk, LexLine, FindCrlf, TextStart;
    var k := PrefixToKind(d[0]).value;
    if IsBulkKind(k) {
      BulkTextAt(d, k, L);
    } else if k == Null || k == Boolean {
      NoTextAt(d, Lex(d, L).token.node, L);
    } else {
      LineTextAt(d, k, L);
    }
  }

  lemma NoTextAt(d: bytes, n: Node, L: Limits)
    requires |d| > 0 && n.text == []
    ensures TextStart(d, n, L) == 0
  {
  }

  // ----- which nodes a token makes -----

  function Texts(nodes: seq<Node>): (ts: seq<bytes>)
    ensures |ts| == |nodes| && forall i :: 0 <= i < |nodes| ==> ts[i] == nodes[i].text
  {
    seq(|nodes|, i requires 0 <= i < |nodes| => nodes[i].text)
  }

  lemma LinkTexts(c: Core, node: nat, children: seq<nat>, count: nat)
    requires node < |c.tree.nodes|
    ensures Texts(LinkChildren(c, node, children, count).tree.nodes) == Texts(c.tree.nodes)
  {
  }

  lemma AddTexts(c: Core, n: Node)
    ensures Texts(AddNode(c, n).tree.nodes) == Texts(c.tree.nodes) + [n.text]
  {
  }

  /** Attaching changes counts and links, no text. */
  lemma {:induction false} AttachTexts(c: Core, child: nat)
    requires InRange(c)
    ensures Texts(Attach(c, child).core.tree.nodes) == Texts(c.tree.nodes)
    decreases |c.stack|
  {
    hide LinkChildren, Texts;
    if c.stack != [] {
      var p := Top(c);
      if p.state == ListFrame {
        var c1 := LinkChildren(c, p.node, [child], p.produced + 1);
        LinkTexts(c, p.node, [child], p.produced + 1);
        LinkedRange(c, p.node, [child], p.produced + 1);
        if p.produced + 1 == p.expected {
          AttachTexts(PopTop(c1), p.node);
        }
      } else if p.state == MapValueFrame && p.hasPendingKey {
        var c1 := LinkChildren(c, p.node, [p.pendingKey, child], (p.produced + 1) * 2);
        LinkTexts(c, p.node, [p.pendingKey, child], (p.produced + 1) * 2);
        LinkedRange(c, p.node, [p.pendingKey, child], (p.produced + 1) * 2);
        if p.produced + 1 == p.expected {
          AttachTexts(PopTop(c1), p.node);
        }
      }
    }
  }

  lemma LinkedRange(c: Core, node: nat, children: seq<nat>, count: nat)
    requires InRange(c) && c.stack != [] && node < |c.tree.nodes|
    ensures InRange(PopTop(LinkChildren(c, node, children, count))) && LinkChildren(c, node, children, count).stack == c.stack
  {
  }

  /** The text of the node a token makes, if it makes one. */
  function NewText(t: Token, L: Limits): Option<bytes> {
    match t
    case Scalar(n) => Some(n.text)
    case Open(k, len) => if len == -1 || (0 <= len && RepresentableLength(k, len)) then (if len <= L.maxContainerLen then Some([]) else None) else None
    case Attr(_) => None
  }

  function Listed(t: Option<bytes>): seq<bytes> {
    if t.Some? then [t.value] else []
  }

  lemma ConsumeTexts(c: Core, t: Token, L: Limits)
    requires c.stack != [] && InRange(c)
    ensures Texts(Consume(c, t, L).core.tree.nodes) == Texts(c.tree.nodes) + Listed(NewText(t, L))
  {
    hide Attach, AddNode, Texts;
    var s := ApplyToken(c, t, L);
    ApplyTexts(c, t, L);
    if s.Produced? {
      ApplyRange(c, t, L);
      AttachTexts(PopTop(s.core), s.index);
    }
  }

  lemma ApplyTexts(c: Core, t: Token, L: Limits)
    requires c.stack != []
    ensures Texts(ApplyToken(c, t, L).core.tree.nodes) == Texts(c.tree.nodes) + Listed(NewText(t, L))
  {
    hide AddNode;
    match t
    case Scalar(n) => AddTexts(c, n);
    case Open(k, len) =>
      AddTexts(c, Leaf(k, [], -1, false));
      AddTexts(c, OpenNode(k, len, |c.tree.links|));
    case Attr(_) =>
  }

  lemma ApplyRange(c: Core, t: Token, L: Limits)
    requires c.stack != [] && InRange(c) && ApplyToken(c, t, L).Produced?
    ensures ApplyToken(c, t, L).core.stack == c.stack && InRange(PopTop(ApplyToken(c, t, L).core))
  {
  }

  // ----- recording views while parsing -----

  /** The view recorded for a token that starts at position `at` of the buffer. */
  function NewViews(d: bytes, at: nat, t: Token, L: Limits): seq<View>
    requires |d| > 0
  {
    if NewText(t, L).None? then []
    else if t.Scalar? then [View(at + TextStart(d, t.node, L), |t.node.text|)]
    else [View(at, 0)]
  }

  /** The views after the loop of `parse_one` on `d`, which starts at position `at`. */
  function Track(c: Core, at: nat, d: bytes, L: Limits, vs: seq<View>): seq<View>
    requires InRange(c)
    decreases |d|, if c.stack != [] && Top(c).state != ValueFrame then 1 else 0
  {
    if c.stack == [] then vs
    else if Top(c).state != ValueFrame then Track(PushFrame(c, VALUE), at, d, L, vs)
    else match Lex(d, L)
      case NeedMore => vs
      case Bad(_) => vs
      case Tok(t, n) =>
        var vs' := vs + NewViews(d, at, t, L);
        match Consume(c, t, L)
        case Continue(c') => Track(c', at + n, d[n..], L, vs')
        case _ => vs'
  }

  /** Each view spells the text of its node. */
  ghost predicate AllSpell(vs: seq<View>, written: bytes, texts: seq<bytes>) {
    |vs| == |texts| && forall i :: 0 <= i < |vs| ==> Spells(vs[i], written, texts[i])
  }

  /** What is spelled in an initial part of the unread bytes is spelled in the buffer, `at` bytes further on. */
  lemma SpellsShifted(written: bytes, at: nat, n: nat, v: View, text: bytes)
    requires at <= |written| && n <= |written| - at && Spells(v, written[at..][..n], text)
    ensures Spells(View(at + v.offset, v.length), written, text)
  {
    var part, i, j := written[at..][..n], v.offset, v.offset + v.length;
    forall k | 0 <= k < v.length
      ensures part[i..j][k] == written[at + i..at + j][k]
    {
      assert part[i + k] == written[at + i + k];
    }
    assert part[i..j] == written[at + i..at + j];
  }

  lemma OneSpells(v: View, written: bytes, text: bytes)
    requires Spells(v, written, text)
    ensures AllSpell([v], written, [text])
  {
  }

  lemma NewViewsSpell(written: bytes, at: nat, L: Limits)
    requires at <= |written| && Lex(written[at..], L).Tok?
    ensures
      var d := written[at..];
      AllSpell(NewViews(d, at, Lex(d, L).token, L), written, Listed(NewText(Lex(d, L).token, L)))
  {
    hide Lex, TextStart, Spells, AllSpell;
    var d := written[at..];
    var t, n := Lex(d, L).token, Lex(d, L).size;
    NoneSpell(written);
    if t.Scalar? {
      TextAt(d, L);
      SpellsShifted(written, at, n, View(TextStart(d, t.node, L), |t.node.text|), t.node.text);
      OneSpells(View(at + TextStart(d, t.node, L), |t.node.text|), written, t.node.text);
    } else {
      EmptySpells(written, at);
      OneSpells(View(at, 0), written, []);
    }
  }

  lemma NoneSpell(written: bytes)
    ensures AllSpell([], written, [])
  {
  }

  lemma EmptySpells(written: bytes, at: nat)
    requires at <= |written|
    ensures Spells(View(at, 0), written, [])
  {
  }

  lemma AllSpellJoin(vs: seq<View>, ws: seq<View>, written: bytes, ts: seq<bytes>, us: seq<bytes>)
    requires AllSpell(vs, written, ts) && AllSpell(ws, written, us)
    ensures AllSpell(vs + ws, written, ts + us)
  {
    hide Spells;
  }

  /** What was recorded for the unread bytes of the buffer is right when the loop ends, and the rest is still unread. */
  lemma {:induction false} TrackSpells(c: Core, written: bytes, at: nat, L: Limits, vs: seq<View>)
    requires InRange(c) && at <= |written| && AllSpell(vs, written, Texts(c.tree.nodes))
    ensures
      var r := Run(c, written[at..], L);
      AllSpell(Track(c, at, written[at..], L, vs), written, Texts(r.core.tree.nodes)) && vs <= Track(c, at, written[at..], L, vs) &&
      at <= |written| - |r.unread| && r.unread == written[|written| - |r.unread|..]
    decreases |written| - at, if c.stack != [] && Top(c).state != ValueFrame then 1 else 0
  {
    hide AllSpell, Texts, Consume, Lex, NewViews;
    var d := written[at..];
    if c.stack == [] {
    } else if Top(c).state != ValueFrame {
      TrackSpells(PushFrame(c, VALUE), written, at, L, vs);
    } else if Lex(d, L).Tok? {
      var t, n := Lex(d, L).token, Lex(d, L).size;
      var s, vs' := Consume(c, t, L), vs + NewViews(d, at, t, L);
      NewViewsSpell(written, at, L);
      ConsumeTexts(c, t, L);
      AllSpellJoin(vs, NewViews(d, at, t, L), written, Texts(c.tree.nodes), Listed(NewText(t, L)));
      assert d[n..] == written[at + n..];
      if s.Continue? {
        TrackSpells(s.core, written, at + n, L, vs');
      }
    }
  }

  // ----- a parser with its buffer -----

  datatype Session = Session(log: B.Log, core: Core, views: seq<View>)

  const NEW_SESSION := Session(B.Log([], 0), START, [])

  datatype Op = Receive(chunk: bytes) | ParseNext | Reclaim

  /** Bytes arrive; a value is parsed from the unread ones; the tree is dropped and the buffer compacted. */
  function Perform(s: Session, op: Op, L: Limits): Session
    requires B.LogOk(s.log) && InRange(s.core)
  {
    match op
    case Receive(chunk) => s.(log := B.Apply(s.log, B.Commit(chunk)))
    case ParseNext =>
      var d := B.Unread(s.log);
      var r := ParseOne(s.core, d, L);
      Session(
        B.Apply(s.log, B.Consume(|d| - |r.unread|)), r.core, Track(Armed(s.core), s.log.read, d, L, s.views))
    case Reclaim => Session(B.Apply(s.log, B.Compact), START, [])
  }

  /** Every node of the tree can be read through its view. */
  ghost predicate Readable(s: Session) {
    B.LogOk(s.log) && InRange(s.core) && AllSpell(s.views, s.log.written, Texts(s.core.tree.nodes))
  }

  lemma SpellMore(vs: seq<View>, written: bytes, chunk: bytes, texts: seq<bytes>)
    requires AllSpell(vs, written, texts)
    ensures AllSpell(vs, written + chunk, texts)
  {
    forall i | 0 <= i < |vs|
      ensures Spells(vs[i], written + chunk, texts[i])
    {
      assert Spells(vs[i], written, texts[i]);
      assert (written + chunk)[vs[i].offset..vs[i].offset + vs[i].length] == written[vs[i].offset..vs[i].offset + vs[i].length];
    }
  }

  /** Receiving and parsing keep every view recorded so far, and parsing leaves exactly the rest unread. */
  lemma PerformKeeps(s: Session, op: Op, L: Limits)
    requires Readable(s)
    ensures Readable(Perform(s, op, L))
    ensures !op.Reclaim? ==> s.views <= Perform(s, op, L).views && s.log.written <= Perform(s, op, L).log.written
    ensures op.ParseNext? ==> B.Unread(Perform(s, op, L).log) == ParseOne(s.core, B.Unread(s.log), L).unread
  {
    hide AllSpell, Run, Track;
    match op
    case Receive(chunk) => SpellMore(s.views, s.log.written, chunk, Texts(s.core.tree.nodes));
    case ParseNext => ParseNextKeeps(s, L);
    case Reclaim => NothingToSpell(B.Unread(s.log));
  }

  lemma NothingToSpell(written: bytes)
    ensures AllSpell([], written, Texts([]))
  {
  }

  lemma ParseNextKeeps(s: Session, L: Limits)
    requires Readable(s)
    ensures Readable(Perform(s, ParseNext, L)) && s.views <= Perform(s, ParseNext, L).views
    ensures B.Unread(Perform(s, ParseNext, L).log) == ParseOne(s.core, B.Unread(s.log), L).unread
  {
    hide AllSpell, Run, Track;
    var d := B.Unread(s.log);
    TrackSpells(Armed(s.core), s.log.written, s.log.read, L, s.views);
  }

  /** The state after `ops`; every operation is possible in every readable state. */
  ghost function After(s: Session, ops: seq<Op>, L: Limits): (r: Session)
    requires Readable(s)
    ensures Readable(r)
    decreases |ops|
  {
    if ops == [] then s
    else
      PerformKeeps(s, ops[0], L);
      After(Perform(s, ops[0], L), ops[1..], L)
  }

  /**
   However reads and parses are interleaved, and after any number of reclaims: every view in the
   tree spells its node's text, and a view stays what it is until the next reclaim.
   */
  lemma {:induction false} ViewsSpellTexts(s: Session, ops: seq<Op>, L: Limits)
    requires Readable(s)
    ensures
      var r := After(s, ops, L);
      |r.views| == |r.core.tree.nodes| &&
      forall i :: 0 <= i < |r.views| ==> Spells(r.views[i], r.log.written, r.core.tree.nodes[i].text)
    ensures Reclaim !in ops ==> s.views <= After(s, ops, L).views && s.log.written <= After(s, ops, L).log.written
    decreases |ops|
  {
    hide Perform, Spells;
    if ops != [] {
      PerformKeeps(s, ops[0], L);
      assert ops[0] in ops && forall op :: op in ops[1..] ==> op in ops;
      ViewsSpellTexts(Perform(s, ops[0], L), ops[1..], L);
    }
  }

  /** A fresh parser has nothing recorded wrongly. */
  lemma NewSessionIsReadable()
    ensures Readable(NEW_SESSION)
  {
  }
}
