/**
 The incremental RESP3 parser (resp3/parser.hpp, resp3/impl/parser.ipp): an explicit stack of frames
 that appends to two flat vectors, `nodes` and `links`. The functions specify each operation on
 values; `class Parser` is the stateful form, proved against them.
 */
module Parser {
  import opened Bytes
  import opened Kinds
  import opened Lexer

  datatype Tree = Tree(nodes: seq<Node>, links: seq<nat>)

  const EMPTY_TREE := Tree([], [])

  datatype FrameKind = ValueFrame | ListFrame | MapKeyFrame | MapValueFrame | AttributeFrame

  /** For maps and attributes `expected` and `produced` count pairs. */
  datatype Frame = Frame(
    state: FrameKind, container: Kind, expected: nat, produced: nat,
    node: nat, pendingKey: nat, hasPendingKey: bool)

  const VALUE := Frame(ValueFrame, Null, 0, 0, 0, 0, false)

  /** Attribute pairs waiting for the next node: a run of `links`. */
  datatype Pending = Pending(first: nat, count: nat)

  const NO_PENDING := Pending(0, 0)

  datatype Core = Core(tree: Tree, stack: seq<Frame>, pending: Pending)

  const START := Core(EMPTY_TREE, [], NO_PENDING)

  predicate HasNode(f: Frame) {
    f.state == ListFrame || f.state == MapKeyFrame || f.state == MapValueFrame
  }

  /** Every open container owns a node, so the checked accesses `nodes.at(...)` cannot fail. */
  predicate InRange(c: Core) {
    forall i :: 0 <= i < |c.stack| && HasNode(c.stack[i]) ==> c.stack[i].node < |c.tree.nodes|
  }

  function Top(c: Core): Frame
    requires c.stack != []
  {
    c.stack[|c.stack| - 1]
  }

  function PopTop(c: Core): Core
    requires c.stack != []
  {
    c.(stack := c.stack[..|c.stack| - 1])
  }

  function PushFrame(c: Core, f: Frame): Core {
    c.(stack := c.stack + [f])
  }

  function SetTop(c: Core, f: Frame): Core
    requires c.stack != []
  {
    c.(stack := c.stack[|c.stack| - 1 := f])
  }

  // ----- pending attributes -----

  function PendingPush(c: Core, target: nat): Core {
    c.(tree := c.tree.(links := c.tree.links + [target]),
       pending := Pending(if c.pending.count == 0 then |c.tree.links| else c.pending.first, c.pending.count + 1))
  }

  /** Appends a node and hands it the pending attributes. */
  function AddNode(c: Core, n: Node): Core {
    var n' := if c.pending.count == 0 then n else n.(firstAttr := c.pending.first, attrCount := c.pending.count);
    c.(tree := c.tree.(nodes := c.tree.nodes + [n']), pending := NO_PENDING)
  }

  // ----- starting containers and attributes -----

  datatype Step =
    | Produced(core: Core, index: nat)
    | Continue(core: Core)
    | Fail(core: Core, error: ProtocolError)

  predicate RepresentableLength(k: Kind, len: int) {
    0 <= len &&
    if IsListKind(k) then len <= U32_MAX
    else if k == Map || k == Attribute then len <= U32_MAX / 2
    else false
  }

  function OpenNode(k: Kind, len: int, links: nat): Node {
    Node(k, [], len, false, links, 0, 0, 0)
  }

  function StartContainer(c: Core, k: Kind, len: int, L: Limits): Step
    requires c.stack != []
  {
    if len < -1 || len > L.maxContainerLen then Fail(c, InvalidLength)
    else if len == -1 then Produced(AddNode(c, Leaf(k, [], -1, false)), |c.tree.nodes|)
    else if !RepresentableLength(k, len) then Fail(c, InvalidLength)
    else
      var c' := AddNode(c, OpenNode(k, len, |c.tree.links|));
      if len == 0 then Produced(c', |c.tree.nodes|)
      else Continue(SetTop(c', Frame(if k == Map then MapKeyFrame else ListFrame, k, len, 0, |c.tree.nodes|, 0, false)))
  }

  function StartAttribute(c: Core, len: int, L: Limits): Step {
    if len < 0 || len > L.maxContainerLen then Fail(c, InvalidLength)
    else if len == 0 then Continue(c)
    else if !RepresentableLength(Attribute, len) then Fail(c, InvalidLength)
    else Continue(PushFrame(c, Frame(AttributeFrame, Attribute, len, 0, 0, 0, false)))
  }

  /** What `parse_value` does with a recognised token. */
  function ApplyToken(c: Core, t: Token, L: Limits): Step
    requires c.stack != []
  {
    match t
    case Scalar(n) => Produced(AddNode(c, n), |c.tree.nodes|)
    case Open(k, len) => StartContainer(c, k, len, L)
    case Attr(len) => StartAttribute(c, len, L)
  }

  // ----- attaching a completed node -----

  /** Records `children` under the open node of the top frame. */
  function LinkChildren(c: Core, node: nat, children: seq<nat>, count: nat): Core
    requires node < |c.tree.nodes|
  {
    var n := c.tree.nodes[node];
    var first := if n.childCount == 0 then |c.tree.links| else n.firstChild;
    c.(tree := Tree(c.tree.nodes[node := n.(firstChild := first, childCount := count)], c.tree.links + children))
  }

  function Attach(c: Core, child: nat): (s: Step)
    requires InRange(c)
    ensures InRange(s.core)
    decreases |c.stack|
  {
    if c.stack == [] then Produced(c, child)
    else
      var p := Top(c);
      match p.state
      case ListFrame =>
        var c1 := LinkChildren(c, p.node, [child], p.produced + 1);
        if p.produced + 1 == p.expected then Attach(PopTop(c1), p.node)
        else Continue(PushFrame(SetTop(c1, p.(produced := p.produced + 1)), VALUE))
      case MapKeyFrame =>
        Continue(PushFrame(SetTop(c, p.(pendingKey := child, hasPendingKey := true, state := MapValueFrame)), VALUE))
      case MapValueFrame =>
        if !p.hasPendingKey then Fail(c, InvalidMapPairs)
        else
          var c1 := LinkChildren(c, p.node, [p.pendingKey, child], (p.produced + 1) * 2);
          if p.produced + 1 == p.expected then Attach(PopTop(c1), p.node)
          else Continue(PushFrame(SetTop(c1, p.(produced := p.produced + 1, hasPendingKey := false, state := MapKeyFrame)), VALUE))
      case AttributeFrame =>
        if !p.hasPendingKey then
          Continue(PushFrame(SetTop(c, p.(pendingKey := child, hasPendingKey := true)), VALUE))
        else
          var c1 := PendingPush(PendingPush(c, p.pendingKey), child);
          if p.produced + 1 == p.expected then Continue(PopTop(c1))
          else Continue(PushFrame(SetTop(c1, p.(produced := p.produced + 1, hasPendingKey := false)), VALUE))
      case ValueFrame => Fail(c, InvalidState)
  }

  /** One token, from the value frame on top of the stack through any container it completes. */
  function Consume(c: Core, t: Token, L: Limits): (s: Step)
    requires c.stack != [] && InRange(c)
    ensures InRange(s.core)
  {
    match ApplyToken(c, t, L)
    case Produced(c', index) => Attach(PopTop(c'), index)
    case Continue(c') => Continue(c')
    case Fail(c', e) => Fail(c', e)
  }

  // ----- parse_one -----

  datatype Outcome = Root(index: nat) | Starved | Rejected(error: ProtocolError)

  datatype RunResult = RunResult(core: Core, unread: bytes, outcome: Outcome)

  /** The loop of `parse_one`, on the unread bytes `d`. */
  function Run(c: Core, d: bytes, L: Limits): (r: RunResult)
    requires InRange(c)
    ensures InRange(r.core)
    ensures |r.unread| <= |d|
    ensures r.outcome.Root? ==> |r.unread| < |d|
    decreases |d|, if c.stack != [] && Top(c).state != ValueFrame then 1 else 0
  {
    if c.stack == [] then RunResult(c, d, Rejected(InvalidState))
    else if Top(c).state != ValueFrame then Run(PushFrame(c, VALUE), d, L)
    else match Lex(d, L)
      case NeedMore => RunResult(c, d, Starved)
      case Bad(e) => RunResult(c, d, Rejected(e))
      case Tok(t, n) =>
        match Consume(c, t, L)
        case Produced(c', root) => RunResult(c', d[n..], Root(root))
        case Continue(c') => Run(c', d[n..], L)
        case Fail(c', e) => RunResult(c', d[n..], Rejected(e))
  }

  /** One turn of that loop, with a value frame on top. */
  function Stepped(c: Core, d: bytes, L: Limits): RunResult
    requires InRange(c) && c.stack != []
  {
    match Lex(d, L)
    case NeedMore => RunResult(c, d, Starved)
    case Bad(e) => RunResult(c, d, Rejected(e))
    case Tok(t, n) =>
      match Consume(c, t, L)
      case Produced(c', root) => RunResult(c', d[n..], Root(root))
      case Continue(c') => Run(c', d[n..], L)
      case Fail(c', e) => RunResult(c', d[n..], Rejected(e))
  }

  function Armed(c: Core): Core {
    if c.stack == [] then PushFrame(c, VALUE) else c
  }

  /** `parse_one` on a parser that is neither failed nor holding an unreclaimed tree. */
  function ParseOne(c: Core, d: bytes, L: Limits): (r: RunResult)
    requires InRange(c)
    ensures InRange(r.core)
    ensures |r.unread| <= |d|
    ensures r.outcome.Root? ==> |r.unread| < |d|
  {
    Run(Armed(c), d, L)
  }
}
