/**
 RESP3 values as they are written on the wire: which are well-formed, how they are encoded, and the
 layout they leave in the two vectors of the raw tree.
 */
module Wire {
  import opened Bytes
  import opened Kinds
  import opened Lexer
  import opened Parser

  /**
   A value with its attribute prefixes. Length headers keep their own text, so that every accepted
   spelling of a length is covered; maps and attributes list keys and values alternately.
   */
  datatype Wire = Wire(attrs: seq<Group>, body: Body)

  datatype Group = Group(header: bytes, items: seq<Wire>)

  datatype Body =
    | Line(kind: Kind, text: bytes)
    | Flag(flag: bool)
    | Nil
    | Bulk(kind: Kind, header: bytes, payload: bytes)
    | TypedNull(kind: Kind, header: bytes)
    | List(kind: Kind, header: bytes, items: seq<Wire>)
    | Entries(header: bytes, items: seq<Wire>)

  // ----- well-formed within the limits -----

  predicate HeaderText(header: bytes, len: int, L: Limits) {
    ParseI64(header) == Some(len) && |header| <= L.maxLineBytes
  }

  predicate BodyText(b: Body, L: Limits) {
    match b
    case Line(k, text) =>
      LineText(text) && |text| <= L.maxLineBytes &&
      (IsLineKind(k) || (k == Integer && ParseI64(text).Some?) || (k == DoubleNumber && L.isDouble(text)))
    case Flag(_) => true
    case Nil => true
    case Bulk(k, h, payload) =>
      IsBulkKind(k) && HeaderText(h, |payload|, L) && |payload| <= L.maxBulkBytes && (k == VerbatimString ==> IsVerbatimPayload(payload))
    case TypedNull(k, h) => IsTypedNullKind(k) && HeaderText(h, -1, L)
    case List(k, h, items) => IsListKind(k) && HeaderText(h, |items|, L) && |items| <= L.maxContainerLen && |items| <= U32_MAX
    case Entries(h, items) => PairCount(h, items, L)
  }

  /** A map or attribute header announces half as many pairs as there are items. */
  predicate PairCount(h: bytes, items: seq<Wire>, L: Limits) {
    |items| % 2 == 0 && HeaderText(h, |items| / 2, L) && |items| / 2 <= L.maxContainerLen && |items| / 2 <= U32_MAX / 2
  }

  predicate WellFormed(w: Wire, L: Limits)
    decreases w, 2
  {
    (forall i :: 0 <= i < |w.attrs| ==> PairCount(w.attrs[i].header, w.attrs[i].items, L) && AllWellFormed(w.attrs[i].items, L)) &&
    BodyText(w.body, L) &&
    match w.body
    case List(_, _, items) => AllWellFormed(items, L)
    case Entries(_, items) => AllWellFormed(items, L)
    case _ => true
  }

  predicate AllWellFormed(ws: seq<Wire>, L: Limits)
    decreases ws, 1
  {
    forall i :: 0 <= i < |ws| ==> WellFormed(ws[i], L)
  }

  // ----- encoding -----

  function EncodeHeader(k: Kind, header: bytes): bytes {
    [KindToPrefix(k)] + header + CRLF
  }

  function Encode(w: Wire): bytes
    decreases w, 2
  {
    EncodeGroups(w.attrs) + EncodeBody(w.body)
  }

  function EncodeGroups(gs: seq<Group>): bytes
    decreases gs, 1
  {
    if gs == [] then [] else EncodeHeader(Attribute, gs[0].header) + EncodeAll(gs[0].items) + EncodeGroups(gs[1..])
  }

  function EncodeBody(b: Body): bytes
    decreases b, 1
  {
    match b
    case Line(k, text) => EncodeHeader(k, text)
    case Flag(f) => [KindToPrefix(Boolean), if f then 116 else 102] + CRLF
    case Nil => [KindToPrefix(Null)] + CRLF
    case Bulk(k, h, payload) => EncodeHeader(k, h) + payload + CRLF
    case TypedNull(k, h) => EncodeHeader(k, h)
    case List(k, h, items) => EncodeHeader(k, h) + EncodeAll(items)
    case Entries(h, items) => EncodeHeader(Map, h) + EncodeAll(items)
  }

  function EncodeAll(ws: seq<Wire>): bytes
    decreases ws, 0
  {
    if ws == [] then [] else Encode(ws[0]) + EncodeAll(ws[1..])
  }

  // ----- the layout a value leaves in the tree -----

  datatype Laid = Laid(core: Core, index: nat)

  /** Nodes and links in the order the parser creates them; the stack plays no part. */
  function Lay(c: Core, w: Wire): (r: Laid)
    ensures |c.tree.nodes| < |r.core.tree.nodes|
    decreases w, 2
  {
    LayBody(LayGroups(c, w.attrs), w.body)
  }

  function LayGroups(c: Core, gs: seq<Group>): (r: Core)
    ensures |c.tree.nodes| <= |r.tree.nodes|
    decreases gs, 1
  {
    if gs == [] then c else LayGroups(LayAttrs(c, gs[0].items), gs[1..])
  }

  function LayAttrs(c: Core, items: seq<Wire>): (r: Core)
    ensures |c.tree.nodes| <= |r.tree.nodes|
    decreases items, 0
  {
    if |items| < 2 then c
    else
      var key := Lay(c, items[0]);
      var value := Lay(key.core, items[1]);
      LayAttrs(PendingPush(PendingPush(value.core, key.index), value.index), items[2..])
  }

  function LeafOf(b: Body): Node
    requires !b.List? && !b.Entries?
  {
    match b
    case Line(k, text) => Leaf(k, text, if k == Integer && ParseI64(text).Some? then ParseI64(text).value else 0, false)
    case Flag(f) => Leaf(Boolean, [], 0, f)
    case Nil => Leaf(Null, [], 0, false)
    case Bulk(k, _, payload) => Leaf(k, payload, |payload|, false)
    case TypedNull(k, _) => Leaf(k, [], -1, false)
  }

  function LayBody(c: Core, b: Body): (r: Laid)
    ensures |c.tree.nodes| < |r.core.tree.nodes|
    decreases b, 1
  {
    var node := |c.tree.nodes|;
    match b
    case List(k, _, items) => Laid(LayItems(AddNode(c, OpenNode(k, |items|, |c.tree.links|)), node, items, 0), node)
    case Entries(_, items) => Laid(LayEntries(AddNode(c, OpenNode(Map, |items| / 2, |c.tree.links|)), node, items, 0), node)
    case _ => Laid(AddNode(c, LeafOf(b)), node)
  }

  function LayItems(c: Core, node: nat, items: seq<Wire>, done: nat): (r: Core)
    requires node < |c.tree.nodes|
    ensures |c.tree.nodes| <= |r.tree.nodes|
    decreases items, 0
  {
    if items == [] then c
    else
      var item := Lay(c, items[0]);
      LayItems(LinkChildren(item.core, node, [item.index], done + 1), node, items[1..], done + 1)
  }

  function LayEntries(c: Core, node: nat, items: seq<Wire>, done: nat): (r: Core)
    requires node < |c.tree.nodes|
    ensures |c.tree.nodes| <= |r.tree.nodes|
    decreases items, 0
  {
    if |items| < 2 then c
    else
      var key := Lay(c, items[0]);
      var value := Lay(key.core, items[1]);
      LayEntries(LinkChildren(value.core, node, [key.index, value.index], (done + 1) * 2), node, items[2..], done + 1)
  }
}
