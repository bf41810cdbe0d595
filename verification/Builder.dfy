/**
 `build_message` (resp3/builder.hpp): a second explicit-stack machine that turns the flat tree back
 into a recursive message. `Build` says what it computes; the method is the loop.
 */
module Builder {
  import opened Bytes
  import opened Kinds
  import opened Lexer
  import opened Parser
  import opened Discipline

  datatype Message = Message(value: Value, attrs: Option<seq<(Message, Message)>>)

  /** Doubles keep their text; `NullValue` remembers the kind of a typed null. */
  datatype Value =
    | SimpleStringValue(data: bytes)
    | SimpleErrorValue(message: bytes)
    | IntegerValue(number: int)
    | DoubleValue(text: bytes)
    | BooleanValue(flag: bool)
    | BigNumberValue(text: bytes)
    | NullValue(source: Kind)
    | BulkStringValue(data: bytes)
    | BulkErrorValue(message: bytes)
    | VerbatimValue(encoding: bytes, data: bytes)
    | ArrayValue(elements: seq<Message>)
    | MapValue(entries: seq<(Message, Message)>)
    | SetValue(elements: seq<Message>)
    | PushValue(elements: seq<Message>)

  // ----- what is computed -----

  /** Consecutive messages, two by two. */
  function Pairs(ms: seq<Message>): (ps: seq<(Message, Message)>)
    ensures |ps| == |ms| / 2
    ensures forall k :: 0 <= k < |ps| ==> ps[k] == (ms[2 * k], ms[2 * k + 1])
  {
    seq(|ms| / 2, k requires 0 <= k < |ms| / 2 => (ms[2 * k], ms[2 * k + 1]))
  }

  /** The value of a node once `children` have been rebuilt. */
  function ValueOf(n: Node, children: seq<Message>): Value
    requires NodeShape(n)
  {
    if n.kind == Null then NullValue(Null)
    else if n.i64 == -1 && IsTypedNullKind(n.kind) then NullValue(n.kind)
    else match n.kind
      case SimpleString => SimpleStringValue(n.text)
      case SimpleError => SimpleErrorValue(n.text)
      case Integer => IntegerValue(n.i64)
      case DoubleNumber => DoubleValue(n.text)
      case Boolean => BooleanValue(n.boolean)
      case BigNumber => BigNumberValue(n.text)
      case BulkString => BulkStringValue(n.text)
      case BulkError => BulkErrorValue(n.text)
      case VerbatimString => VerbatimValue(n.text[..3], n.text[4..])
      case Array => ArrayValue(children)
      case Map => MapValue(Pairs(children))
      case Set => SetValue(children)
      case Push => PushValue(children)
  }

  function AttrsOf(attrs: seq<Message>): Option<seq<(Message, Message)>> {
    if attrs == [] then None else Some(Pairs(attrs))
  }

  /** The message rooted at node `i`. */
  function Build(t: Tree, i: nat): Message
    requires TreeReady(t) && i < |t.nodes|
    decreases End(t.nodes[i]), 1
  {
    var n := t.nodes[i];
    Message(ValueOf(n, BuildRun(t, n.firstChild, n.childCount)), AttrsOf(BuildRun(t, n.firstAttr, n.attrCount)))
  }

  /** The messages of `count` consecutive links. */
  function BuildRun(t: Tree, first: nat, count: nat): (ms: seq<Message>)
    requires TreeReady(t) && (count > 0 ==> first + count <= |t.links|)
    ensures |ms| == count
    decreases if count == 0 then 0 else first + count, 0
  {
    if count == 0 then [] else BuildRun(t, first, count - 1) + [Build(t, t.links[first + count - 1])]
  }

  lemma {:induction false} BuildRunAt(t: Tree, first: nat, count: nat, k: nat)
    requires TreeReady(t) && first + count <= |t.links| && k < count
    ensures BuildRun(t, first, count)[k] == Build(t, t.links[first + k])
  {
    if k < count - 1 {
      BuildRunAt(t, first, count - 1, k);
    }
  }

  // ----- the loop -----

  /** Where a finished message goes: a child or an attribute position of the frame below. */
  datatype Slot = NoParent | ChildSlot(index: nat) | AttrSlot(index: nat)

  datatype BuildFrame = BuildFrame(
    node: nat, nextChild: nat, nextAttr: nat, initialized: bool, slot: Slot,
    result: Message, pendingMapKey: Option<Message>, pendingAttrKey: Option<Message>, attrs: seq<(Message, Message)>)

  function Fresh(node: nat, slot: Slot): BuildFrame {
    BuildFrame(node, 0, 0, false, slot, Message(NullValue(Null), None), None, None, [])
  }

  function Initialize(n: Node, f: BuildFrame): BuildFrame
    requires NodeShape(n)
  {
    f.(initialized := true, result := Message(ValueOf(n, []), None))
  }

  /** A finished message arrives at its parent; the preconditions are the assertions of the source. */
  function Receive(n: Node, f: BuildFrame, slot: Slot, m: Message): BuildFrame
    requires !slot.NoParent?
    requires slot.ChildSlot? ==>
      match n.kind
      case Array => f.result.value.ArrayValue?
      case Set => f.result.value.SetValue?
      case Push => f.result.value.PushValue?
      case Map => f.result.value.MapValue? && (slot.index % 2 == 1 ==> f.pendingMapKey.Some?)
      case _ => false
    requires slot.AttrSlot? && slot.index % 2 == 1 ==> f.pendingAttrKey.Some?
  {
    match slot
    case ChildSlot(index) => (
      match f.result.value
      case ArrayValue(es) => f.(result := f.result.(value := ArrayValue(es + [m])))
      case SetValue(es) => f.(result := f.result.(value := SetValue(es + [m])))
      case PushValue(es) => f.(result := f.result.(value := PushValue(es + [m])))
      case MapValue(es) =>
        if index % 2 == 0 then f.(pendingMapKey := Some(m))
        else f.(result := f.result.(value := MapValue(es + [(f.pendingMapKey.value, m)])), pendingMapKey := None)
      case _ => assert false; f)
    case AttrSlot(index) =>
      if index % 2 == 0 then f.(pendingAttrKey := Some(m))
      else f.(attrs := f.attrs + [(f.pendingAttrKey.value, m)], pendingAttrKey := None)
  }

  /** A frame that has received its first `dc` children and its first `da` attribute nodes. */
  ghost predicate FrameOk(t: Tree, f: BuildFrame, dc: int, da: int)
    requires TreeReady(t)
  {
    f.node < |t.nodes| &&
    var n := t.nodes[f.node];
    0 <= dc <= n.childCount && 0 <= da <= n.attrCount &&
    if f.initialized then
      f.result == Message(ValueOf(n, BuildRun(t, n.firstChild, dc)), None) &&
      f.attrs == Pairs(BuildRun(t, n.firstAttr, da)) &&
      f.pendingMapKey == (if n.kind == Map && dc % 2 == 1 then Some(Build(t, t.links[n.firstChild + dc - 1])) else None) &&
      f.pendingAttrKey == (if da % 2 == 1 then Some(Build(t, t.links[n.firstAttr + da - 1])) else None)
    else
      f == Fresh(f.node, f.slot) && dc == 0 && da == 0
  }

  /** Frame `f` waits for the message that frame `g`, directly above it, is building. */
  ghost predicate Waits(t: Tree, f: BuildFrame, g: BuildFrame)
    requires TreeReady(t)
  {
    f.node < |t.nodes| && f.initialized &&
    var n := t.nodes[f.node];
    match g.slot
    case NoParent => false
    case ChildSlot(k) =>
      f.nextAttr == 0 && k + 1 == f.nextChild <= n.childCount && g.node == t.links[n.firstChild + k] && FrameOk(t, f, k, 0)
    case AttrSlot(k) =>
      f.nextChild == n.childCount && k + 1 == f.nextAttr <= n.attrCount && g.node == t.links[n.firstAttr + k] && FrameOk(t, f, n.childCount, k)
  }

  ghost predicate Working(t: Tree, f: BuildFrame)
    requires TreeReady(t)
  {
    FrameOk(t, f, f.nextChild, f.nextAttr) && (f.nextAttr > 0 ==> f.nextChild == t.nodes[f.node].childCount)
  }

  ghost predicate BuildStackOk(t: Tree, root: nat, s: seq<BuildFrame>)
    requires TreeReady(t)
  {
    |s| > 0 && s[0].node == root && s[0].slot == NoParent && Working(t, s[|s| - 1]) &&
    forall i, j :: 0 <= i < j < |s| && j == i + 1 ==> Waits(t, s[i], s[j])
  }

  // ----- termination: the work left on the stack -----

  ghost function Cost(t: Tree, i: nat): nat
    requires TreeReady(t) && i < |t.nodes|
    decreases End(t.nodes[i]), 1, 0
  {
    var n := t.nodes[i];
    2 + CostRun(t, n.firstChild, n.childCount) + CostRun(t, n.firstAttr, n.attrCount)
  }

  ghost function CostRun(t: Tree, first: nat, count: nat): nat
    requires TreeReady(t) && (count > 0 ==> first + count <= |t.links|)
    decreases if count == 0 then 0 else first + count, 0, count
  {
    if count == 0 then 0 else Cost(t, t.links[first]) + CostRun(t, first + 1, count - 1)
  }

  ghost function Left(t: Tree, f: BuildFrame): nat
    requires TreeReady(t)
  {
    if f.node < |t.nodes| && f.nextChild <= t.nodes[f.node].childCount && f.nextAttr <= t.nodes[f.node].attrCount then
      var n := t.nodes[f.node];
      1 + CostRun(t, n.firstChild + f.nextChild, n.childCount - f.nextChild)
        + CostRun(t, n.firstAttr + f.nextAttr, n.attrCount - f.nextAttr)
    else 0
  }

  ghost function TotalLeft(t: Tree, s: seq<BuildFrame>): nat
    requires TreeReady(t)
  {
    if s == [] then 0 else TotalLeft(t, s[..|s| - 1]) + Left(t, s[|s| - 1])
  }

  // ----- steps -----

  lemma PairsSnoc(ms: seq<Message>, m: Message)
    ensures Pairs(ms + [m]) == if |ms| % 2 == 0 then Pairs(ms) else Pairs(ms) + [(ms[|ms| - 1], m)]
  {
  }

  lemma InitializeOk(t: Tree, f: BuildFrame)
    requires TreeReady(t) && Working(t, f) && !f.initialized
    ensures Working(t, Initialize(t.nodes[f.node], f)) && Left(t, Initialize(t.nodes[f.node], f)) == Left(t, f)
  {
    hide TreeReady, Build, BuildRun, CostRun, ValueOf, NodeShape;
    WorkingFacts(t, f);
    EmptyRun(t, t.nodes[f.node].firstChild);
    EmptyRun(t, t.nodes[f.node].firstAttr);
  }

  lemma EmptyRun(t: Tree, first: nat)
    requires TreeReady(t)
    ensures BuildRun(t, first, 0) == [] && Pairs(BuildRun(t, first, 0)) == []
  {
  }

  /** A frame with nothing left to receive holds its node's message. */
  lemma FinishOk(t: Tree, f: BuildFrame)
    requires TreeReady(t) && Working(t, f) && f.initialized
    requires f.nextChild == t.nodes[f.node].childCount && f.nextAttr == t.nodes[f.node].attrCount
    ensures f.pendingAttrKey.None?
    ensures (if t.nodes[f.node].attrCount > 0 then f.result.(attrs := Some(f.attrs)) else f.result) == Build(t, f.node)
  {
    assert NodeShape(t.nodes[f.node]);
  }

  lemma ReceiveValue(n: Node, f: BuildFrame, ms: seq<Message>, m: Message)
    requires NodeShape(n) && IsContainerKind(n.kind) && n.i64 != -1
    requires f.result == Message(ValueOf(n, ms), None)
    requires f.pendingMapKey == if n.kind == Map && |ms| % 2 == 1 then Some(ms[|ms| - 1]) else None
    ensures Receive.requires(n, f, ChildSlot(|ms|), m)
    ensures Receive(n, f, ChildSlot(|ms|), m) ==
      f.(result := Message(ValueOf(n, ms + [m]), None), pendingMapKey := if n.kind == Map && |ms| % 2 == 0 then Some(m) else None)
  {
    hide Pairs;
    PairsSnoc(ms, m);
  }

  lemma NodeFacts(t: Tree, i: nat)
    requires TreeReady(t) && i < |t.nodes|
    ensures
      var n := t.nodes[i];
      NodeShape(n) && (n.childCount > 0 ==> n.firstChild + n.childCount <= |t.links|) && (n.attrCount > 0 ==> n.firstAttr + n.attrCount <= |t.links|)
  {
    assert End(t.nodes[i]) <= |t.links|;
  }

  lemma ReceiveChild(t: Tree, f: BuildFrame, g: BuildFrame)
    requires TreeReady(t) && Waits(t, f, g) && g.node < |t.nodes| && g.slot.ChildSlot?
    ensures Receive.requires(t.nodes[f.node], f, g.slot, Build(t, g.node))
    ensures
      var f' := Receive(t.nodes[f.node], f, g.slot, Build(t, g.node));
      f' == f.(result := f'.result, pendingMapKey := f'.pendingMapKey) && FrameOk(t, f', f.nextChild, 0)
  {
    hide TreeReady, Build, BuildRun, Receive, ValueOf;
    var n, m, k := t.nodes[f.node], Build(t, g.node), g.slot.index;
    NodeFacts(t, f.node);
    BuildRunLast(t, n.firstChild, k);
    BuildRunSnoc(t, n.firstChild, k);
    ReceiveValue(n, f, BuildRun(t, n.firstChild, k), m);
  }

  lemma BuildRunSnoc(t: Tree, first: nat, count: nat)
    requires TreeReady(t) && first + count < |t.links|
    ensures BuildRun(t, first, count + 1) == BuildRun(t, first, count) + [Build(t, t.links[first + count])]
  {
  }

  lemma BuildRunLast(t: Tree, first: nat, count: nat)
    requires TreeReady(t) && (count > 0 ==> first + count <= |t.links|)
    ensures count > 0 ==> BuildRun(t, first, count)[count - 1] == Build(t, t.links[first + count - 1])
    ensures BuildRun(t, first, 0) == []
  {
  }

  lemma ReceiveAttr(t: Tree, f: BuildFrame, g: BuildFrame)
    requires TreeReady(t) && Waits(t, f, g) && g.node < |t.nodes| && g.slot.AttrSlot?
    ensures Receive.requires(t.nodes[f.node], f, g.slot, Build(t, g.node))
    ensures
      var f' := Receive(t.nodes[f.node], f, g.slot, Build(t, g.node));
      f' == f.(attrs := f'.attrs, pendingAttrKey := f'.pendingAttrKey) && FrameOk(t, f', f.nextChild, f.nextAttr)
  {
    hide TreeReady, Build, BuildRun, ValueOf, Receive, Pairs;
    var n, m, k := t.nodes[f.node], Build(t, g.node), g.slot.index;
    NodeFacts(t, f.node);
    BuildRunLast(t, n.firstAttr, k);
    BuildRunSnoc(t, n.firstAttr, k);
    ReceiveAttrValue(n, f, BuildRun(t, n.firstAttr, k), m);
  }

  lemma ReceiveAttrValue(n: Node, f: BuildFrame, ms: seq<Message>, m: Message)
    requires f.attrs == Pairs(ms) && f.pendingAttrKey == if |ms| % 2 == 1 then Some(ms[|ms| - 1]) else None
    ensures Receive.requires(n, f, AttrSlot(|ms|), m)
    ensures Receive(n, f, AttrSlot(|ms|), m) ==
      f.(attrs := Pairs(ms + [m]), pendingAttrKey := if |ms| % 2 == 0 then Some(m) else None)
  {
    PairsSnoc(ms, m);
  }

  lemma ReceiveOk(t: Tree, f: BuildFrame, g: BuildFrame)
    requires TreeReady(t) && Waits(t, f, g) && g.node < |t.nodes|
    ensures f.node < |t.nodes| && Receive.requires(t.nodes[f.node], f, g.slot, Build(t, g.node))
    ensures
      var f' := Receive(t.nodes[f.node], f, g.slot, Build(t, g.node));
      Working(t, f') && f'.node == f.node && f'.slot == f.slot && f'.initialized && Left(t, f') == Left(t, f)
  {
    hide TreeReady, Build, BuildRun;
    if g.slot.ChildSlot? {
      ReceiveChild(t, f, g);
    } else {
      ReceiveAttr(t, f, g);
    }
  }

  lemma DescendOk(t: Tree, root: nat, s: seq<BuildFrame>, f: BuildFrame, g: BuildFrame)
    requires TreeReady(t) && BuildStackOk(t, root, s)
    requires f.node == s[|s| - 1].node && f.slot == s[|s| - 1].slot && Waits(t, f, g) && Working(t, g)
    requires Left(t, f) + Left(t, g) < Left(t, s[|s| - 1])
    ensures BuildStackOk(t, root, s[|s| - 1 := f] + [g])
    ensures TotalLeft(t, s[|s| - 1 := f] + [g]) < TotalLeft(t, s)
  {
    hide TreeReady, Working, FrameOk, Left;
    var s' := s[|s| - 1 := f];
    assert (s' + [g])[..|s|] == s';
    assert s'[..|s| - 1] == s[..|s| - 1];
  }

  lemma AscendOk(t: Tree, root: nat, s: seq<BuildFrame>, p: BuildFrame)
    requires TreeReady(t) && BuildStackOk(t, root, s) && |s| > 1
    requires p.node == s[|s| - 2].node && p.slot == s[|s| - 2].slot && Working(t, p) && Left(t, p) == Left(t, s[|s| - 2]) && Left(t, s[|s| - 1]) > 0
    ensures BuildStackOk(t, root, s[..|s| - 1][|s| - 2 := p])
    ensures TotalLeft(t, s[..|s| - 1][|s| - 2 := p]) < TotalLeft(t, s)
  {
    hide TreeReady, Working, FrameOk, Left;
    var s' := s[..|s| - 1];
    assert s'[|s| - 2 := p][..|s| - 2] == s'[..|s| - 2];
  }

  /** Opening the frame of the next node moves its cost up the stack and spends one unit. */
  lemma CostRunHead(t: Tree, first: nat, count: nat, slot: Slot)
    requires TreeReady(t) && count > 0 && first + count <= |t.links|
    ensures t.links[first] < |t.nodes|
    ensures CostRun(t, first, count) == 1 + Left(t, Fresh(t.links[first], slot)) + CostRun(t, first + 1, count - 1)
  {
  }

  lemma ChildLeft(t: Tree, f: BuildFrame)
    requires TreeReady(t) && Working(t, f) && f.initialized && f.nextChild < t.nodes[f.node].childCount
    ensures t.nodes[f.node].firstChild + f.nextChild < |t.links|
    ensures
      var g := Fresh(t.links[t.nodes[f.node].firstChild + f.nextChild], ChildSlot(f.nextChild));
      var f' := f.(nextChild := f.nextChild + 1);
      Waits(t, f', g) && Working(t, g) && Left(t, f') + Left(t, g) < Left(t, f)
  {
    hide TreeReady, CostRun, BuildRun, Build, ValueOf, Pairs;
    var n := t.nodes[f.node];
    NodeFacts(t, f.node);
    CostRunHead(t, n.firstChild + f.nextChild, n.childCount - f.nextChild, ChildSlot(f.nextChild));
    FreshOk(t, t.links[n.firstChild + f.nextChild], ChildSlot(f.nextChild));
  }

  lemma AttrLeft(t: Tree, f: BuildFrame)
    requires TreeReady(t) && Working(t, f) && f.initialized && f.nextChild == t.nodes[f.node].childCount && f.nextAttr < t.nodes[f.node].attrCount
    ensures t.nodes[f.node].firstAttr + f.nextAttr < |t.links|
    ensures
      var g := Fresh(t.links[t.nodes[f.node].firstAttr + f.nextAttr], AttrSlot(f.nextAttr));
      var f' := f.(nextAttr := f.nextAttr + 1);
      Waits(t, f', g) && Working(t, g) && Left(t, f') + Left(t, g) < Left(t, f)
  {
    hide TreeReady, CostRun, BuildRun, Build, ValueOf, Pairs;
    var n := t.nodes[f.node];
    NodeFacts(t, f.node);
    CostRunHead(t, n.firstAttr + f.nextAttr, n.attrCount - f.nextAttr, AttrSlot(f.nextAttr));
    FreshOk(t, t.links[n.firstAttr + f.nextAttr], AttrSlot(f.nextAttr));
  }

  lemma WorkingFacts(t: Tree, f: BuildFrame)
    requires TreeReady(t) && Working(t, f)
    ensures f.node < |t.nodes| && NodeShape(t.nodes[f.node]) && Left(t, f) > 0
    ensures f.nextChild <= t.nodes[f.node].childCount && f.nextAttr <= t.nodes[f.node].attrCount
    ensures f.nextAttr > 0 ==> f.nextChild == t.nodes[f.node].childCount
  {
  }

  lemma StackStart(t: Tree, root: nat)
    requires TreeReady(t) && root < |t.nodes|
    ensures BuildStackOk(t, root, [Fresh(root, NoParent)])
  {
    hide TreeReady, Working;
    FreshOk(t, root, NoParent);
  }

  lemma StackFacts(t: Tree, root: nat, s: seq<BuildFrame>)
    requires TreeReady(t) && BuildStackOk(t, root, s)
    ensures |s| > 0 && Working(t, s[|s| - 1]) && (|s| == 1 ==> s[0].node == root)
    ensures |s| > 1 ==> Waits(t, s[|s| - 2], s[|s| - 1])
  {
    hide TreeReady, Working, FrameOk;
  }

  method BuildMessage(t: Tree, root: nat) returns (m: Message)
    requires TreeReady(t) && root < |t.nodes|
    ensures m == Build(t, root)
  {
    hide TreeReady, Build, BuildRun, Cost, CostRun, NodeShape, TotalLeft, ValueOf, BuildStackOk, Working, Waits, FrameOk, Left, Receive;
    var stack := [Fresh(root, NoParent)];
    StackStart(t, root);
    while true
      invariant BuildStackOk(t, root, stack)
      decreases TotalLeft(t, stack)
    {
      StackFacts(t, root, stack);
      var top := |stack| - 1;
      WorkingFacts(t, stack[top]);
      var f := stack[top];
      var n := t.nodes[f.node];
      if !f.initialized {
        InitializeOk(t, f);
        f := Initialize(n, f);
      }
      if f.nextChild < n.childCount {
        ChildLeft(t, f);
        var child := t.links[n.firstChild + f.nextChild];
        DescendOk(t, root, stack, f.(nextChild := f.nextChild + 1), Fresh(child, ChildSlot(f.nextChild)));
        stack := stack[top := f.(nextChild := f.nextChild + 1)] + [Fresh(child, ChildSlot(f.nextChild))];
      } else if f.nextAttr < n.attrCount {
        AttrLeft(t, f);
        var attr := t.links[n.firstAttr + f.nextAttr];
        DescendOk(t, root, stack, f.(nextAttr := f.nextAttr + 1), Fresh(attr, AttrSlot(f.nextAttr)));
        stack := stack[top := f.(nextAttr := f.nextAttr + 1)] + [Fresh(attr, AttrSlot(f.nextAttr))];
      } else {
        FinishOk(t, f);
        assert f.pendingAttrKey.None?;
        var finished := if n.attrCount > 0 then f.result.(attrs := Some(f.attrs)) else f.result;
        if top == 0 {
          return finished;
        }
        var parent := stack[top - 1];
        ReceiveOk(t, parent, stack[top]);
        var parent' := Receive(t.nodes[parent.node], parent, f.slot, finished);
        AscendOk(t, root, stack, parent');
        stack := stack[..top][top - 1 := parent'];
      }
    }
  }

  lemma FreshOk(t: Tree, i: nat, slot: Slot)
    requires TreeReady(t) && i < |t.nodes|
    ensures Working(t, Fresh(i, slot))
  {
  }
}
