/**
 The results about the parser as a whole: framing in wire order, the exact round trip through the
 builder, and safety of the builder on every input.
 */
module Messages {
  import opened Bytes
  import opened Kinds
  import opened Lexer
  import opened Parser
  import opened Streaming
  import opened Discipline
  import opened Builder
  import opened Wire
  import opened Framing
  import opened Layout
  import opened RoundTrip

  // ----- wire order -----

  /** What a node shows apart from its positions in `links`. */
  datatype Face = Face(kind: Kind, text: bytes, i64: int, boolean: bool, childCount: nat)

  function FaceOf(n: Node): Face {
    Face(n.kind, n.text, n.i64, n.boolean, n.childCount)
  }

  function Faces(nodes: seq<Node>): (fs: seq<Face>)
    ensures |fs| == |nodes| && forall i :: 0 <= i < |nodes| ==> fs[i] == FaceOf(nodes[i])
  {
    seq(|nodes|, i requires 0 <= i < |nodes| => FaceOf(nodes[i]))
  }

  /** Attribute keys and values, then the value itself, then its items, each in the order written. */
  function Flatten(w: Wire): seq<Face>
    decreases w, 2
  {
    FlattenGroups(w.attrs) + FlattenBody(w.body)
  }

  function FlattenGroups(gs: seq<Group>): seq<Face>
    decreases gs, 1
  {
    if gs == [] then [] else FlattenAll(gs[0].items) + FlattenGroups(gs[1..])
  }

  function FlattenBody(b: Body): seq<Face>
    decreases b, 1
  {
    match b
    case List(k, _, items) => [Face(k, [], |items|, false, |items|)] + FlattenAll(items)
    case Entries(_, items) => [Face(Map, [], |items| / 2, false, |items|)] + FlattenAll(items)
    case _ => [FaceOf(LeafOf(b))]
  }

  function FlattenAll(ws: seq<Wire>): seq<Face>
    decreases ws, 0
  {
    if ws == [] then [] else Flatten(ws[0]) + FlattenAll(ws[1..])
  }

  lemma AddNodeFace(c: Core, n: Node)
    ensures Faces(AddNode(c, n).tree.nodes) == Faces(c.tree.nodes) + [FaceOf(n)]
  {
  }

  lemma PendingFaces(c: Core, key: nat, value: nat)
    ensures PendingPush(PendingPush(c, key), value).tree.nodes == c.tree.nodes
  {
  }

  function Recount(fs: seq<Face>, node: nat, count: nat): seq<Face>
    requires node < |fs|
  {
    fs[node := fs[node].(childCount := count)]
  }

  lemma LinkFaces(c: Core, node: nat, children: seq<nat>, count: nat)
    requires node < |c.tree.nodes|
    ensures Faces(LinkChildren(c, node, children, count).tree.nodes) == Recount(Faces(c.tree.nodes), node, count)
  {
  }

  lemma FlattenTwo(items: seq<Wire>)
    requires |items| >= 2
    ensures FlattenAll(items) == Flatten(items[0]) + Flatten(items[1]) + FlattenAll(items[2..])
  {
    assert items[1..][1..] == items[2..];
    assert FlattenAll(items[1..]) == Flatten(items[1]) + FlattenAll(items[2..]);
  }

  lemma {:induction false} LayFaces(c: Core, w: Wire)
    requires Paired(w)
    ensures Faces(Lay(c, w).core.tree.nodes) == Faces(c.tree.nodes) + Flatten(w)
    ensures Lay(c, w).index == |c.tree.nodes| + |FlattenGroups(w.attrs)|
    decreases w, 3
  {
    hide LayBody, LayGroups, FlattenGroups, FlattenBody;
    var c1 := LayGroups(c, w.attrs);
    LayGroupsFaces(c, w.attrs);
    LayBodyFaces(c1, w.body);
    assert Faces(c.tree.nodes) + Flatten(w) == Faces(c.tree.nodes) + FlattenGroups(w.attrs) + FlattenBody(w.body);
    assert |Faces(c1.tree.nodes)| == |c1.tree.nodes|;
  }

  lemma {:induction false} LayGroupsFaces(c: Core, gs: seq<Group>)
    requires forall i :: 0 <= i < |gs| ==> |gs[i].items| % 2 == 0 && AllPaired(gs[i].items)
    ensures Faces(LayGroups(c, gs).tree.nodes) == Faces(c.tree.nodes) + FlattenGroups(gs)
    decreases gs, 2
  {
    hide LayAttrs, FlattenAll;
    if gs == [] {
      assert Faces(c.tree.nodes) + [] == Faces(c.tree.nodes);
    } else {
      LayAttrsFaces(c, gs[0].items);
      LayGroupsFaces(LayAttrs(c, gs[0].items), gs[1..]);
      assert Faces(c.tree.nodes) + FlattenGroups(gs) == Faces(c.tree.nodes) + FlattenAll(gs[0].items) + FlattenGroups(gs[1..]);
    }
  }

  lemma {:induction false} LayAttrsFaces(c: Core, items: seq<Wire>)
    requires |items| % 2 == 0 && AllPaired(items)
    ensures Faces(LayAttrs(c, items).tree.nodes) == Faces(c.tree.nodes) + FlattenAll(items)
    decreases items, 1
  {
    hide Lay, Flatten, Faces;
    if |items| >= 2 {
      var key := Lay(c, items[0]);
      var value := Lay(key.core, items[1]);
      LayFaces(c, items[0]);
      LayFaces(key.core, items[1]);
      PendingFaces(value.core, key.index, value.index);
      LayAttrsFaces(PendingPush(PendingPush(value.core, key.index), value.index), items[2..]);
      FlattenTwo(items);
      Reassociate(Faces(c.tree.nodes), Flatten(items[0]), Flatten(items[1]), FlattenAll(items[2..]));
    } else {
      assert Faces(c.tree.nodes) + [] == Faces(c.tree.nodes);
    }
  }

  lemma FaceAssoc(a: seq<Face>, b: seq<Face>, c: seq<Face>)
    ensures a + b + c == a + (b + c)
  {
  }

  lemma Reassociate(a: seq<Face>, b: seq<Face>, c: seq<Face>, d: seq<Face>)
    ensures a + b + c + d == a + (b + c + d)
  {
  }

  lemma {:induction false} LayBodyFaces(c: Core, b: Body)
    requires (b.List? ==> AllPaired(b.items)) && (b.Entries? ==> |b.items| % 2 == 0 && AllPaired(b.items))
    ensures Faces(LayBody(c, b).core.tree.nodes) == Faces(c.tree.nodes) + FlattenBody(b)
    ensures LayBody(c, b).index == |c.tree.nodes|
    decreases b, 2
  {
    hide AddNode;
    var node := |c.tree.nodes|;
    if b.List? || b.Entries? {
      var n := if b.List? then OpenNode(b.kind, |b.items|, |c.tree.links|) else OpenNode(Map, |b.items| / 2, |c.tree.links|);
      AddNodeFace(c, n);
      assert |Faces(AddNode(c, n).tree.nodes)| == |AddNode(c, n).tree.nodes|;
      if b.List? {
        LayItemsFaces(AddNode(c, n), node, b.items, 0);
      } else {
        LayEntriesFaces(AddNode(c, n), node, b.items, 0);
      }
      var face := Face(n.kind, [], n.i64, false, |b.items|);
      assert Recount(Faces(c.tree.nodes) + [FaceOf(n)], node, |b.items|) == Faces(c.tree.nodes) + [face];
      assert Faces(c.tree.nodes) + [face] + FlattenAll(b.items) == Faces(c.tree.nodes) + ([face] + FlattenAll(b.items));
    } else {
      AddNodeFace(c, LeafOf(b));
    }
  }

  lemma {:induction false} LayItemsFaces(c: Core, node: nat, items: seq<Wire>, done: nat)
    requires node < |c.tree.nodes| && AllPaired(items) && c.tree.nodes[node].childCount == done
    ensures Faces(LayItems(c, node, items, done).tree.nodes) == Recount(Faces(c.tree.nodes), node, done + |items|) + FlattenAll(items)
    decreases items, 1
  {
    hide Lay, Flatten, LinkChildren;
    if items == [] {
      assert Recount(Faces(c.tree.nodes), node, done) + [] == Faces(c.tree.nodes);
    } else {
      var item := Lay(c, items[0]);
      LayFaces(c, items[0]);
      var c1 := LinkChildren(item.core, node, [item.index], done + 1);
      LinkFaces(item.core, node, [item.index], done + 1);
      assert |Faces(c1.tree.nodes)| == |c1.tree.nodes|;
      assert FaceOf(c1.tree.nodes[node]) == Faces(c1.tree.nodes)[node];
      LayItemsFaces(c1, node, items[1..], done + 1);
      RecountTail(Faces(c.tree.nodes), Flatten(items[0]), node, done + 1, done + |items|);
      assert Recount(Faces(c.tree.nodes), node, done + |items|) + Flatten(items[0]) + FlattenAll(items[1..]) ==
             Recount(Faces(c.tree.nodes), node, done + |items|) + FlattenAll(items);
    }
  }

  lemma RecountTail(fs: seq<Face>, gs: seq<Face>, node: nat, a: nat, b: nat)
    requires node < |fs|
    ensures Recount(Recount(fs + gs, node, a), node, b) == Recount(fs, node, b) + gs
  {
  }

  lemma {:induction false} LayEntriesFaces(c: Core, node: nat, items: seq<Wire>, done: nat)
    requires node < |c.tree.nodes| && |items| % 2 == 0 && AllPaired(items) && c.tree.nodes[node].childCount == done * 2
    ensures Faces(LayEntries(c, node, items, done).tree.nodes) == Recount(Faces(c.tree.nodes), node, done * 2 + |items|) + FlattenAll(items)
    decreases items, 1
  {
    hide Lay, Flatten, LinkChildren;
    if items == [] {
      assert Recount(Faces(c.tree.nodes), node, done * 2) + [] == Faces(c.tree.nodes);
    } else {
      var key := Lay(c, items[0]);
      var value := Lay(key.core, items[1]);
      LayFaces(c, items[0]);
      LayFaces(key.core, items[1]);
      var c1 := LinkChildren(value.core, node, [key.index, value.index], (done + 1) * 2);
      LinkFaces(value.core, node, [key.index, value.index], (done + 1) * 2);
      assert |Faces(c1.tree.nodes)| == |c1.tree.nodes|;
      assert FaceOf(c1.tree.nodes[node]) == Faces(c1.tree.nodes)[node];
      LayEntriesFaces(c1, node, items[2..], done + 1);
      hide FlattenAll, Recount, Faces;
      var fs, two := Faces(c.tree.nodes), Flatten(items[0]) + Flatten(items[1]);
      FaceAssoc(fs, Flatten(items[0]), Flatten(items[1]));
      RecountTail(fs, two, node, (done + 1) * 2, done * 2 + |items|);
      FlattenTwo(items);
      FaceAssoc(Recount(fs, node, done * 2 + |items|), two, FlattenAll(items[2..]));
    }
  }

  // ----- the theorems -----

  /**
   Framing: on the encoding of one well-formed value followed by any bytes, `parse_one` consumes
   exactly that encoding and lays the value's nodes out in wire order.
   */
  lemma FramingNeverSlips(w: Wire, rest: bytes, L: Limits)
    requires WellFormed(w, L)
    ensures
      var r := ParseOne(START, Encode(w) + rest, L);
      r.unread == rest && r.outcome == Root(|FlattenGroups(w.attrs)|) && r.core == On(Lay(START, w).core, []) &&
      Faces(r.core.tree.nodes) == Flatten(w)
  {
    hide Lay, Encode, WellFormed, Run;
    WellFormedIsPaired(w, L);
    hide Paired;
    LayFaces(START, w);
    assert Faces(START.tree.nodes) + Flatten(w) == Flatten(w);
    assert Armed(START) == On(START, [] + [VALUE]);
    ParseWire(START, [], w, rest, L);
  }

  /** The tree of a parsed value is one the builder can walk. */
  lemma ParsedIsReady(w: Wire, L: Limits)
    requires WellFormed(w, L)
    ensures TreeReady(Lay(START, w).core.tree) && Lay(START, w).index < |Lay(START, w).core.tree.nodes|
  {
    hide Lay, Encode, WellFormed, Run, Inv;
    FramingNeverSlips(w, [], L);
    InvStart();
    RunKeeps(Armed(START), Encode(w) + [], L);
    InvReady(ParseOne(START, Encode(w) + [], L).core);
    WellFormedIsPaired(w, L);
    hide Paired;
    LayFaces(START, w);
  }

  /**
   Exact round trip: parsing a value's encoding and building the message gives the value back if and
   only if the value is in the fragment where link runs and child lists coincide.
   */
  lemma RoundTripExact(w: Wire, rest: bytes, L: Limits)
    requires WellFormed(w, L)
    ensures
      var r := ParseOne(START, Encode(w) + rest, L);
      r.outcome.Root? && TreeReady(r.core.tree) && r.outcome.index < |r.core.tree.nodes| &&
      (Build(r.core.tree, r.outcome.index) == Msg(w, L) <==> Faithful(w))
  {
    hide Lay, Encode, WellFormed, Run, Build, Msg, TreeReady, Faithful;
    FramingNeverSlips(w, rest, L);
    ParsedIsReady(w, L);
    WellFormedIsPaired(w, L);
    hide Paired;
    LayFaces(START, w);
    var c := Lay(START, w).core;
    assert Holds(c.tree, 0, c);
    BuildLay(c.tree, START, w, L);
  }

  // ----- streams -----

  function ParsedOf(w: Wire): Parsed {
    Parsed(Lay(START, w).core.tree, Lay(START, w).index)
  }

  function ParsedAll(ws: seq<Wire>): (ps: seq<Parsed>)
    ensures |ps| == |ws| && forall i :: 0 <= i < |ws| ==> ps[i] == ParsedOf(ws[i])
  {
    seq(|ws|, i requires 0 <= i < |ws| => ParsedOf(ws[i]))
  }

  /** A stream of values is handed out value by value, and nothing is left over. */
  lemma {:induction false} DrainValues(ws: seq<Wire>, L: Limits)
    requires AllWellFormed(ws, L)
    ensures Drain(START, EncodeAll(ws), L).seen == Observed(ParsedAll(ws), None)
    ensures Drain(START, EncodeAll(ws), L).unread == []
    decreases |ws|
  {
    hide Lay, Encode, WellFormed, Run, Faces, FlattenGroups, Flatten;
    if ws == [] {
      FreshParser(L);
    } else {
      FramingNeverSlips(ws[0], EncodeAll(ws[1..]), L);
      ParsedIndex(ws[0], L);
      DrainValues(ws[1..], L);
      assert ParsedAll(ws) == [ParsedOf(ws[0])] + ParsedAll(ws[1..]);
    }
  }

  lemma ParsedIndex(w: Wire, L: Limits)
    requires WellFormed(w, L)
    ensures Lay(START, w).index == |FlattenGroups(w.attrs)|
  {
    WellFormedIsPaired(w, L);
    hide Lay, WellFormed, Paired, Faces, Flatten;
    LayFaces(START, w);
  }

  ghost predicate Buildable(p: Parsed) {
    TreeReady(p.tree) && p.root < |p.tree.nodes|
  }

  ghost predicate SafeToShow(o: Observed) {
    (forall i :: 0 <= i < |o.trees| ==> Buildable(o.trees[i])) && (o.error.Some? ==> !Internal(o.error.value))
  }

  lemma {:induction false} DrainKeeps(c: Core, d: bytes, L: Limits)
    requires InRange(c) && Inv(c) && c.stack != []
    ensures SafeToShow(DrainFrom(c, d, L).seen) && Inv(DrainFrom(c, d, L).core)
    ensures DrainFrom(c, d, L).seen.error.None? ==> DrainFrom(c, d, L).core.stack != []
    decreases |d|
  {
    hide Run, Inv;
    var r := Run(c, d, L);
    RunKeeps(c, d, L);
    InvReady(r.core);
    if r.outcome.Root? {
      InvStart();
      DrainKeeps(Armed(START), r.unread, L);
    }
  }

  /**
   Safety on every input: however the bytes arrive and whatever they are, every tree the parser hands
   out meets the precondition of `BuildMessage`, and no error reports a broken parser.
   */
  lemma {:induction false} EveryTreeIsBuildable(c: Core, unread: bytes, chunks: seq<bytes>, L: Limits)
    requires InRange(c) && Inv(c)
    ensures SafeToShow(Feed(c, unread, chunks, L).seen)
    decreases |chunks|
  {
    hide DrainFrom, Inv;
    if chunks != [] {
      ArmedKeeps(c);
      DrainKeeps(Armed(c), unread + chunks[0], L);
      var r := Drain(c, unread + chunks[0], L);
      if r.seen.error.None? {
        EveryTreeIsBuildable(r.core, r.unread, chunks[1..], L);
      }
    }
  }

  // ----- what goes wrong outside the fragment -----

  /** The array `[1, [2]]`. */
  const NESTED := Wire([], List(Array, [50], [
    Wire([], Line(Integer, [49])),
    Wire([], List(Array, [49], [Wire([], Line(Integer, [50]))]))]))

  /** Well-formed and small, but not given back: its second element pushes a link of its own. */
  lemma NestedIsNotFaithful(L: Limits)
    requires L.maxLineBytes >= 1 && L.maxContainerLen >= 2
    ensures WellFormed(NESTED, L) && !Faithful(NESTED)
  {
    hide WellFormed, Faithful, Links;
    var one, two := Wire([], Line(Integer, [49])), Wire([], Line(Integer, [50]));
    PlainInteger(49, L);
    PlainInteger(50, L);
    var second := Wire([], List(Array, [49], [two]));
    SingleIsWellFormed([49], two, L);
    OneLink(two, second);
    PairIsNotFaithful([50], one, second, L);
  }

  function Num(b: byte, v: int): Node {
    Leaf(Integer, [b], v, false)
  }

  /** A childless value adds its node and nothing else. */
  lemma LayScalar(c: Core, b: Body)
    requires c.pending == NO_PENDING && !b.List? && !b.Entries?
    ensures Lay(c, Wire([], b)) == Laid(c.(tree := Tree(c.tree.nodes + [LeafOf(b)], c.tree.links)), |c.tree.nodes|)
  {
    assert LayGroups(c, []) == c;
  }

  lemma LayOneItem(c: Core, h: bytes, w: Wire)
    requires c.pending == NO_PENDING
    ensures
      var n := |c.tree.nodes|;
      var item := Lay(AddNode(c, OpenNode(Array, 1, |c.tree.links|)), w);
      Lay(c, Wire([], List(Array, h, [w]))) == Laid(LinkChildren(item.core, n, [item.index], 1), n)
  {
    hide LinkChildren;
    var n, c1 := |c.tree.nodes|, AddNode(c, OpenNode(Array, 1, |c.tree.links|));
    assert LayGroups(c, []) == c;
    assert Lay(c, Wire([], List(Array, h, [w]))) == Laid(LayItems(c1, n, [w], 0), n);
    hide Lay;
    var item := Lay(c1, w);
    var c2 := LinkChildren(item.core, n, [item.index], 1);
    assert [w][1..] == [] && LayItems(c2, n, [], 1) == c2;
  }

  lemma LaySingle(c: Core, h: bytes, b: Body)
    requires c.pending == NO_PENDING && !b.List? && !b.Entries?
    ensures
      var n, l := |c.tree.nodes|, |c.tree.links|;
      Lay(c, Wire([], List(Array, h, [Wire([], b)]))) ==
      Laid(c.(tree := Tree(c.tree.nodes + [Node(Array, [], 1, false, l, 1, 0, 0), LeafOf(b)], c.tree.links + [n + 1])), n)
  {
    hide Lay, LeafOf;
    var n := |c.tree.nodes|;
    var c1 := AddNode(c, OpenNode(Array, 1, |c.tree.links|));
    LayOneItem(c, h, Wire([], b));
    LayScalar(c1, b);
    var c2 := LinkChildren(Lay(c1, Wire([], b)).core, n, [n + 1], 1);
    assert c2.tree.nodes == c.tree.nodes + [Node(Array, [], 1, false, |c.tree.links|, 1, 0, 0), LeafOf(b)];
  }

  /** The outer array's run of two links starts with its first element and goes on with the inner one's. */
  lemma NestedLayout()
    ensures Lay(START, NESTED).index == 0 && Lay(START, NESTED).core.tree == Tree(
      [Node(Array, [], 2, false, 0, 2, 0, 0), Num(49, 1), Node(Array, [], 1, false, 1, 1, 0, 0), Num(50, 2)], [1, 3, 2])
  {
    hide Lay, LeafOf, Num;
    var one, two := Line(Integer, [49]), Line(Integer, [50]);
    var first, second := Wire([], one), Wire([], List(Array, [49], [Wire([], two)]));
    var c1 := AddNode(START, OpenNode(Array, 2, 0));
    LayScalar(c1, one);
    NumLeaf(49);
    var c2 := LinkChildren(Lay(c1, first).core, 0, [1], 1);
    NestedStart(c1, Lay(c1, first).core, c2, Num(49, 1));
    LaySingle(c2, [49], two);
    NumLeaf(50);
    var c3 := LinkChildren(Lay(c2, second).core, 0, [2], 2);
    NestedEnd(c2, Lay(c2, second).core, c3, Num(49, 1), Num(50, 2));
    NestedSteps(first, second, c1, c2, c3);
  }

  lemma NumLeaf(b: byte)
    requires IsDigit(b)
    ensures LeafOf(Line(Integer, [b])) == Num(b, b - 48)
  {
    OneDigit(b);
    hide ParseI64;
  }

  lemma NestedStart(c1: Core, c: Core, c2: Core, one: Node)
    requires c1 == AddNode(START, OpenNode(Array, 2, 0)) && c == c1.(tree := Tree(c1.tree.nodes + [one], c1.tree.links))
    requires c2 == LinkChildren(c, 0, [1], 1)
    ensures c2 == Core(Tree([Node(Array, [], 2, false, 0, 1, 0, 0), one], [1]), [], NO_PENDING)
  {
    assert c.tree.nodes == [Node(Array, [], 2, false, 0, 0, 0, 0), one];
  }

  lemma NestedEnd(c2: Core, c: Core, c3: Core, one: Node, two: Node)
    requires c2 == Core(Tree([Node(Array, [], 2, false, 0, 1, 0, 0), one], [1]), [], NO_PENDING)
    requires c == c2.(tree := Tree(c2.tree.nodes + [Node(Array, [], 1, false, 1, 1, 0, 0), two], c2.tree.links + [3]))
    requires c3 == LinkChildren(c, 0, [2], 2)
    ensures c3.tree == Tree([Node(Array, [], 2, false, 0, 2, 0, 0), one, Node(Array, [], 1, false, 1, 1, 0, 0), two], [1, 3, 2])
  {
    assert c.tree.nodes == [Node(Array, [], 2, false, 0, 1, 0, 0), one, Node(Array, [], 1, false, 1, 1, 0, 0), two];
    assert c.tree.links == [1, 3];
  }

  lemma NestedSteps(first: Wire, second: Wire, c1: Core, c2: Core, c3: Core)
    requires NESTED == Wire([], List(Array, [50], [first, second])) && c1 == AddNode(START, OpenNode(Array, 2, 0))
    requires c2 == LinkChildren(Lay(c1, first).core, 0, [Lay(c1, first).index], 1)
    requires c3 == LinkChildren(Lay(c2, second).core, 0, [Lay(c2, second).index], 2)
    ensures Lay(START, NESTED) == Laid(c3, 0)
  {
    var items := [first, second];
    assert items[1..] == [second] && [second][1..] == [];
    assert LayItems(c3, 0, [], 2) == c3;
    assert LayItems(c2, 0, [second], 1) == c3;
    assert LayItems(c1, 0, items, 0) == c3;
    assert LayGroups(START, []) == START;
  }

  /** It comes back as `[1, 2]`. */
  lemma NestedIsFlattened(L: Limits, rest: bytes)
    requires L.maxLineBytes >= 1 && L.maxContainerLen >= 2
    ensures
      var r := ParseOne(START, Encode(NESTED) + rest, L);
      r.outcome.Root? && TreeReady(r.core.tree) && r.outcome.index < |r.core.tree.nodes| &&
      Build(r.core.tree, r.outcome.index) ==
      Message(ArrayValue([Message(IntegerValue(1), None), Message(IntegerValue(2), None)]), None)
  {
    hide Lay, Encode, WellFormed, Faithful, Run, Build, TreeReady;
    NestedIsNotFaithful(L);
    FramingNeverSlips(NESTED, rest, L);
    RoundTripExact(NESTED, rest, L);
    NestedLayout();
    ParsedIndex(NESTED, L);
    BuildNested(Lay(START, NESTED).core.tree);
  }

  lemma BuildNested(t: Tree)
    requires TreeReady(t) && t == Tree(
      [Node(Array, [], 2, false, 0, 2, 0, 0), Num(49, 1), Node(Array, [], 1, false, 1, 1, 0, 0), Num(50, 2)], [1, 3, 2])
    ensures Build(t, 0) == Message(ArrayValue([Message(IntegerValue(1), None), Message(IntegerValue(2), None)]), None)
  {
    assert BuildRun(t, 0, 0) == [];
    assert Build(t, 1) == Message(IntegerValue(1), None);
    assert Build(t, 3) == Message(IntegerValue(2), None);
    BuildRunSnoc(t, 0, 0);
    BuildRunSnoc(t, 0, 1);
    assert BuildRun(t, 0, 2) == [Build(t, 1), Build(t, 3)];
    var n := t.nodes[0];
    assert Build(t, 0) == Message(ValueOf(n, BuildRun(t, n.firstChild, n.childCount)), AttrsOf(BuildRun(t, n.firstAttr, n.attrCount)));
  }

  /** The integer 5 under an attribute of two pairs: the first pair goes to the second key instead. */
  lemma TwoPairsAreNotFaithful(L: Limits)
    requires L.maxLineBytes >= 1 && L.maxContainerLen >= 2
    ensures
      var one := Wire([], Line(Integer, [49]));
      var w := Wire([Group([50], [one, one, one, one])], Line(Integer, [53]));
      WellFormed(w, L) && !Faithful(w)
  {
    var one := Wire([], Line(Integer, [49]));
    var w := Wire([Group([50], [one, one, one, one])], Line(Integer, [53]));
    PlainInteger(49, L);
    PlainInteger(53, L);
    OneDigit(50);
    hide ParseI64;
    assert ItemTotal(w.attrs) == 4 + ItemTotal(w.attrs[1..]);
    assert AllWellFormed(w.attrs[0].items, L) by {
      hide WellFormed;
    }
  }

  lemma SingleIsWellFormed(h: bytes, w: Wire, L: Limits)
    requires h == [49] && WellFormed(w, L) && L.maxLineBytes >= 1 && L.maxContainerLen >= 1
    ensures WellFormed(Wire([], List(Array, h, [w])), L)
  {
    OneDigit(49);
    hide ParseI64;
    assert [w][0] == w;
  }

  /** An array of two is not given back if the second element pushes links. */
  lemma PairIsNotFaithful(h: bytes, first: Wire, second: Wire, L: Limits)
    requires h == [50] && WellFormed(first, L) && WellFormed(second, L) && Links(second) > 0 && L.maxLineBytes >= 1 && L.maxContainerLen >= 2
    ensures
      var w := Wire([], List(Array, h, [first, second]));
      WellFormed(w, L) && !Faithful(w)
  {
    OneDigit(50);
    hide ParseI64, Links;
    var items := [first, second];
    assert items[0] == first && items[1] == second && items[1..][0] == second;
  }

  lemma PlainInteger(b: byte, L: Limits)
    requires IsDigit(b) && L.maxLineBytes >= 1
    ensures WellFormed(Wire([], Line(Integer, [b])), L)
  {
    OneDigit(b);
    hide ParseI64;
  }

  /** A one-element array pushes a link. */
  lemma OneLink(inner: Wire, w: Wire)
    requires w.attrs == [] && w.body.List? && w.body.items == [inner]
    ensures Links(w) > 0
  {
    assert LinksAll([inner]) == Links(inner) + 1 + LinksAll([inner][1..]);
  }

  lemma OneDigit(b: byte)
    requires IsDigit(b)
    ensures ParseI64([b]) == Some(b - 48)
  {
    assert [b][..0] == [];
    assert DigitsValue([b]) == DigitsValue([]) * 10 + (b - 48);
  }
}
