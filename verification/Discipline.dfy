/**
 What the parser keeps on every input, well-formed or not: the shape of the frame stack, and the
 shape of the raw tree that the message builder relies on.
 */
module Discipline {
  import opened Bytes
  import opened Kinds
  import opened Lexer
  import opened Parser

  // ----- the raw tree -----

  /** One past the last link a node refers to; 0 if it refers to none. */
  function End(n: Node): nat {
    var children := if n.childCount == 0 then 0 else n.firstChild + n.childCount;
    var attrs := if n.attrCount == 0 then 0 else n.firstAttr + n.attrCount;
    if children < attrs then attrs else children
  }

  predicate NodeShape(n: Node) {
    n.kind != Attribute &&
    (n.childCount > 0 ==> IsContainerKind(n.kind) && n.i64 != -1) &&
    (n.kind == Map ==> n.childCount % 2 == 0) &&
    (n.attrCount == 0 || n.attrCount == 2) &&
    (n.kind == VerbatimString && n.i64 != -1 ==> IsVerbatimPayload(n.text))
  }

  /**
   What `build_message` needs. The last clause orders the nodes: a link at position `p` leads to a
   node that was complete, with all its own links below `p`, before `p` was written.
   */
  ghost predicate TreeReady(t: Tree) {
    (forall i :: 0 <= i < |t.nodes| ==> NodeShape(t.nodes[i]) && End(t.nodes[i]) <= |t.links|) &&
    (forall p :: 0 <= p < |t.links| ==> t.links[p] < |t.nodes| && End(t.nodes[t.links[p]]) <= p)
  }

  // ----- the frame stack -----

  /** Of two neighbouring frames, the lower is a value frame exactly when the upper is an attribute frame. */
  ghost predicate StackShape(s: seq<Frame>) {
    (s != [] ==> s[0].state != AttributeFrame) &&
    forall i, j :: 0 <= i < j < |s| && j == i + 1 ==> (s[i].state == ValueFrame <==> s[j].state == AttributeFrame)
  }

  predicate FrameShape(f: Frame) {
    (f.state == ListFrame ==> IsListKind(f.container)) &&
    (f.state == MapKeyFrame || f.state == MapValueFrame ==> f.container == Map) &&
    (f.state == MapValueFrame ==> f.hasPendingKey) &&
    (f.state == AttributeFrame ==> f.container == Attribute) &&
    (f.state != ValueFrame ==> f.produced < f.expected)
  }

  /** The open node of a frame: of the frame's kind, declared with its length, holding what was produced so far. */
  predicate OpenNodeOk(f: Frame, n: Node) {
    n.kind == f.container && n.i64 == f.expected &&
    n.childCount == (if f.state == ListFrame then f.produced else f.produced * 2)
  }

  predicate HoldsKey(f: Frame) {
    (f.state == MapValueFrame || f.state == AttributeFrame) && f.hasPendingKey
  }

  /** `i` is a finished node: no open container, and all its links are written. */
  ghost predicate Closed(c: Core, i: nat) {
    i < |c.tree.nodes| && End(c.tree.nodes[i]) <= |c.tree.links| &&
    forall j :: 0 <= j < |c.stack| && HasNode(c.stack[j]) ==> c.stack[j].node != i
  }

  ghost predicate FramesOk(c: Core) {
    (forall i :: 0 <= i < |c.stack| ==> FrameShape(c.stack[i])) &&
    (forall i :: 0 <= i < |c.stack| && HasNode(c.stack[i]) ==>
      c.stack[i].node < |c.tree.nodes| && OpenNodeOk(c.stack[i], c.tree.nodes[c.stack[i].node])) &&
    (forall i, j :: 0 <= i < j < |c.stack| && HasNode(c.stack[i]) && HasNode(c.stack[j]) ==> c.stack[i].node != c.stack[j].node) &&
    (forall i :: 0 <= i < |c.stack| && HoldsKey(c.stack[i]) ==> Closed(c, c.stack[i].pendingKey))
  }

  ghost predicate LinksClosed(c: Core) {
    forall p :: 0 <= p < |c.tree.links| ==> Closed(c, c.tree.links[p])
  }

  predicate PendingOk(c: Core) {
    c.pending.count == 0 || (c.pending.count == 2 && c.pending.first + 2 <= |c.tree.links|)
  }

  ghost predicate Inv(c: Core) {
    TreeReady(c.tree) && StackShape(c.stack) && FramesOk(c) && LinksClosed(c) && PendingOk(c)
  }

  // ----- each operation keeps the invariant -----

  lemma PopKeeps(c: Core)
    requires Inv(c) && c.stack != []
    ensures Inv(PopTop(c))
    ensures forall i :: Closed(c, i) ==> Closed(PopTop(c), i)
  {
    var c' := PopTop(c);
    assert forall i :: Closed(c, i) ==> Closed(c', i);
  }

  /** A new node is handed the pending attributes, and none stay pending. */
  lemma AddNodeKeeps(c: Core, n: Node)
    requires Inv(c) && NodeShape(n) && n.childCount == 0 && n.attrCount == 0
    ensures Inv(AddNode(c, n)) && AddNode(c, n).pending.count == 0
    ensures Closed(AddNode(c, n), |c.tree.nodes|)
  {
    var c' := AddNode(c, n);
    assert forall i :: Closed(c, i) ==> Closed(c', i);
  }

  ghost predicate Unreferenced(c: Core, i: nat) {
    (forall p :: 0 <= p < |c.tree.links| ==> c.tree.links[p] != i) &&
    (forall j :: 0 <= j < |c.stack| && HoldsKey(c.stack[j]) ==> c.stack[j].pendingKey != i)
  }

  lemma LinkedTreeReady(c: Core, node: nat, children: seq<nat>)
    requires TreeReady(c.tree) && node < |c.tree.nodes| && IsContainerKind(c.tree.nodes[node].kind) && c.tree.nodes[node].i64 != -1
    requires c.tree.nodes[node].kind == Map ==> |children| % 2 == 0
    requires |children| > 0 && forall k :: 0 <= k < |children| ==> Closed(c, children[k]) && children[k] != node
    requires forall p :: 0 <= p < |c.tree.links| ==> c.tree.links[p] != node
    ensures
      var c1 := LinkChildren(c, node, children, c.tree.nodes[node].childCount + |children|);
      TreeReady(c1.tree) && End(c1.tree.nodes[node]) <= |c1.tree.links|
  {
    var c1 := LinkChildren(c, node, children, c.tree.nodes[node].childCount + |children|);
    var was := c.tree.nodes[node];
    assert NodeShape(was) && End(was) <= |c.tree.links|;
    assert End(c1.tree.nodes[node]) <= |c1.tree.links|;
    forall q | 0 <= q < |c1.tree.links|
      ensures c1.tree.links[q] < |c1.tree.nodes| && End(c1.tree.nodes[c1.tree.links[q]]) <= q
    {
      if q < |c.tree.links| {
        assert c1.tree.links[q] == c.tree.links[q];
      } else {
        assert c1.tree.links[q] == children[q - |c.tree.links|];
      }
    }
  }

  /** Nodes finished before stay finished, and frames keep their open nodes. */
  lemma LinkedFrames(c: Core, node: nat, children: seq<nat>, count: nat)
    requires FramesOk(c) && Closed(c, node)
    requires End(LinkChildren(c, node, children, count).tree.nodes[node]) <= |c.tree.links| + |children|
    ensures
      var c1 := LinkChildren(c, node, children, count);
      FramesOk(c1) && forall i :: Closed(c, i) ==> Closed(c1, i)
  {
    var c1 := LinkChildren(c, node, children, count);
    assert forall i :: Closed(c, i) ==> Closed(c1, i);
  }

  lemma LinkedLinks(c: Core, node: nat, children: seq<nat>, count: nat)
    requires LinksClosed(c) && Closed(c, node) && Unreferenced(c, node)
    requires forall k :: 0 <= k < |children| ==> Closed(c, children[k]) && children[k] != node
    requires forall i :: Closed(c, i) ==> Closed(LinkChildren(c, node, children, count), i)
    ensures
      var c1 := LinkChildren(c, node, children, count);
      LinksClosed(c1) && Unreferenced(c1, node)
  {
    ClosedInRange(c, node);
    hide Closed;
    var c1 := LinkChildren(c, node, children, count);
    forall q | 0 <= q < |c1.tree.links|
      ensures Closed(c1, c1.tree.links[q]) && c1.tree.links[q] != node
    {
      if q < |c.tree.links| {
        assert c1.tree.links[q] == c.tree.links[q];
      } else {
        assert c1.tree.links[q] == children[q - |c.tree.links|];
      }
    }
  }

  /** Linking children under a finished, unreferenced node keeps everything. */
  lemma LinkKeeps(c: Core, node: nat, children: seq<nat>)
    requires Inv(c) && Closed(c, node) && Unreferenced(c, node) && IsContainerKind(c.tree.nodes[node].kind) && c.tree.nodes[node].i64 != -1
    requires c.tree.nodes[node].kind == Map ==> |children| % 2 == 0
    requires |children| > 0 && forall k :: 0 <= k < |children| ==> Closed(c, children[k]) && children[k] != node
    ensures
      var c1 := LinkChildren(c, node, children, c.tree.nodes[node].childCount + |children|);
      Inv(c1) && Closed(c1, node) && Unreferenced(c1, node)
  {
    hide TreeReady, StackShape, FramesOk, LinksClosed, PendingOk, Closed, Unreferenced, End, LinkChildren;
    ClosedInRange(c, node);
    UnreferencedLinks(c, node);
    var count := c.tree.nodes[node].childCount + |children|;
    LinkedTreeReady(c, node, children);
    LinkedRest(c, node, children, count);
    LinkedFrames(c, node, children, count);
    LinkedLinks(c, node, children, count);
  }

  lemma LinkedRest(c: Core, node: nat, children: seq<nat>, count: nat)
    requires node < |c.tree.nodes|
    ensures
      var c1 := LinkChildren(c, node, children, count);
      c1.stack == c.stack && |c1.tree.nodes| == |c.tree.nodes| && |c1.tree.links| == |c.tree.links| + |children| &&
      (PendingOk(c) ==> PendingOk(c1))
  {
  }

  lemma UnreferencedLinks(c: Core, i: nat)
    requires Unreferenced(c, i)
    ensures forall p :: 0 <= p < |c.tree.links| ==> c.tree.links[p] != i
  {
  }

  /** Popping a container frame leaves its node finished and not yet referred to. */
  lemma PopContainer(c: Core)
    requires Inv(c) && c.stack != [] && HasNode(Top(c))
    ensures
      var b, p := PopTop(c), Top(c);
      Inv(b) && Closed(b, p.node) && Unreferenced(b, p.node) && FrameShape(p) && OpenNodeOk(p, b.tree.nodes[p.node]) &&
      (forall i :: Closed(c, i) ==> Closed(b, i) && i != p.node) &&
      (b.stack != [] ==> Top(b).state != ValueFrame)
  {
    PopKeeps(c);
    var b, p := PopTop(c), Top(c);
    assert b.stack != [] ==> c.stack[|c.stack| - 2] == Top(b) && c.stack[|c.stack| - 1] == p;
    assert forall j :: 0 <= j < |b.stack| ==> b.stack[j] == c.stack[j];
    assert End(c.tree.nodes[p.node]) <= |c.tree.links|;
  }

  lemma PushFrameKeeps(c: Core, f: Frame)
    requires Inv(c) && FrameShape(f)
    requires c.stack == [] || (Top(c).state == ValueFrame <==> f.state == AttributeFrame)
    requires c.stack == [] ==> f.state != AttributeFrame
    requires HasNode(f) ==> Closed(c, f.node) && Unreferenced(c, f.node) && OpenNodeOk(f, c.tree.nodes[f.node])
    requires HoldsKey(f) ==> Closed(c, f.pendingKey) && (HasNode(f) ==> f.pendingKey != f.node)
    ensures Inv(PushFrame(c, f))
  {
    hide TreeReady, StackShape, FramesOk, LinksClosed, Closed, Unreferenced;
    PushedStack(c.stack, f);
    PushedClosed(c, f);
    PushedLinks(c, f);
    PushedFrames(c, f);
  }

  lemma PushedStack(s: seq<Frame>, f: Frame)
    requires StackShape(s) && (s == [] || (s[|s| - 1].state == ValueFrame <==> f.state == AttributeFrame))
    requires s == [] ==> f.state != AttributeFrame
    ensures StackShape(s + [f])
  {
  }

  /** A finished node stays finished unless the new frame opens it. */
  lemma PushedClosed(c: Core, f: Frame)
    ensures forall i :: Closed(c, i) && !(HasNode(f) && f.node == i) ==> Closed(PushFrame(c, f), i)
  {
  }

  lemma PushedLinks(c: Core, f: Frame)
    requires LinksClosed(c) && (HasNode(f) ==> Unreferenced(c, f.node))
    ensures LinksClosed(PushFrame(c, f))
  {
    PushedClosed(c, f);
    hide Closed;
  }

  lemma PushedFrames(c: Core, f: Frame)
    requires FramesOk(c) && FrameShape(f)
    requires HasNode(f) ==> Closed(c, f.node) && Unreferenced(c, f.node) && OpenNodeOk(f, c.tree.nodes[f.node])
    requires HoldsKey(f) ==> Closed(c, f.pendingKey) && (HasNode(f) ==> f.pendingKey != f.node)
    ensures FramesOk(PushFrame(c, f))
  {
    var c' := PushFrame(c, f);
    PushedClosed(c, f);
    FreshNode(c, f);
    hide Closed;
    assert forall i :: 0 <= i < |c.stack| ==> c'.stack[i] == c.stack[i];
  }

  /** The node of a new container frame is in range and no other frame's. */
  lemma FreshNode(c: Core, f: Frame)
    requires HasNode(f) ==> Closed(c, f.node)
    ensures HasNode(f) ==> f.node < |c.tree.nodes| && forall i :: 0 <= i < |c.stack| && HasNode(c.stack[i]) ==> c.stack[i].node != f.node
  {
  }

  lemma InvEmpty(c: Core)
    requires |c.tree.nodes| == 0 && |c.tree.links| == 0 && |c.stack| == 0 && c.pending.count == 0
    ensures Inv(c)
  {
  }

  lemma InvStart()
    ensures Inv(START) && Inv(Armed(START))
  {
    InvEmpty(START);
    hide Inv;
    PushFrameKeeps(START, VALUE);
  }

  // ----- tokens -----

  lemma PushValueKeeps(c: Core)
    requires Inv(c) && (c.stack == [] || Top(c).state != ValueFrame)
    ensures Inv(PushFrame(c, VALUE))
  {
    PushFrameKeeps(c, VALUE);
  }

  lemma ArmedKeeps(c: Core)
    requires Inv(c)
    ensures Inv(Armed(c)) && Armed(c).stack != []
  {
    if c.stack == [] {
      PushValueKeeps(c);
    }
  }

  /** Two attribute links are recorded as one pending pair. */
  lemma PendingKeeps(c: Core, key: nat, value: nat)
    requires Inv(c) && c.pending.count == 0 && Closed(c, key) && Closed(c, value)
    ensures Inv(PendingPush(PendingPush(c, key), value))
    ensures PendingPush(PendingPush(c, key), value).stack == c.stack
    ensures forall i :: Closed(c, i) ==> Closed(PendingPush(PendingPush(c, key), value), i)
  {
    var c1 := PendingPush(PendingPush(c, key), value);
    assert c1.tree.links == c.tree.links + [key, value];
    assert forall i :: Closed(c, i) ==> Closed(c1, i);
    assert TreeReady(c1.tree) by {
      hide FramesOk, StackShape;
    }
    hide TreeReady, StackShape;
    assert FramesOk(c1) by {
      hide LinksClosed, Closed;
    }
    hide FramesOk, Closed;
  }

  /** What attaching a finished node may end in. */
  ghost predicate AttachOutcome(s: Step) {
    Inv(s.core) && !s.Fail? &&
    (s.Produced? ==> s.core.stack == [] && Closed(s.core, s.index)) &&
    (s.Continue? ==> s.core.stack != [] && Top(s.core).state == ValueFrame)
  }

  /** The frame `f` goes back on the stack with a value frame on top of it. */
  lemma Resume(c: Core, f: Frame)
    requires Inv(c) && FrameShape(f) && f.state != ValueFrame
    requires c.stack == [] || (Top(c).state == ValueFrame <==> f.state == AttributeFrame)
    requires c.stack == [] ==> f.state != AttributeFrame
    requires HasNode(f) ==> Closed(c, f.node) && Unreferenced(c, f.node) && OpenNodeOk(f, c.tree.nodes[f.node])
    requires HoldsKey(f) ==> Closed(c, f.pendingKey) && (HasNode(f) ==> f.pendingKey != f.node)
    ensures AttachOutcome(Continue(PushFrame(PushFrame(c, f), VALUE)))
  {
    PushFrameKeeps(c, f);
    PushValueKeeps(PushFrame(c, f));
  }

  lemma SetTopIsPush(c: Core, f: Frame)
    requires c.stack != []
    ensures SetTop(c, f) == PushFrame(PopTop(c), f)
  {
  }

  function GrownCount(f: Frame): nat {
    if f.state == ListFrame then f.produced + 1 else (f.produced + 1) * 2
  }

  function NextFrame(f: Frame): Frame {
    if f.state == ListFrame then f.(produced := f.produced + 1)
    else f.(produced := f.produced + 1, hasPendingKey := false, state := MapKeyFrame)
  }

  /** Children go under the node of the top frame, whose frame is then popped. */
  lemma LinkTop(c: Core, children: seq<nat>)
    requires Inv(c) && c.stack != [] && HasNode(Top(c))
    requires |children| == (if Top(c).state == ListFrame then 1 else 2)
    requires forall k :: 0 <= k < |children| ==> Closed(c, children[k])
    ensures
      var p := Top(c);
      var b := PopTop(LinkChildren(c, p.node, children, GrownCount(p)));
      Inv(b) && Closed(b, p.node) && Unreferenced(b, p.node) && FrameShape(p) && b.pending == c.pending &&
      OpenNodeOk(NextFrame(p), b.tree.nodes[p.node]) && (b.stack != [] ==> Top(b).state != ValueFrame)
  {
    hide Inv, Closed, Unreferenced;
    var p := Top(c);
    var b := PopTop(c);
    PopContainer(c);
    assert GrownCount(p) == b.tree.nodes[p.node].childCount + |children|;
    LinkKeeps(b, p.node, children);
    assert PopTop(LinkChildren(c, p.node, children, GrownCount(p))) == LinkChildren(b, p.node, children, GrownCount(p));
  }

  /** ... and comes back if more children are expected. */
  lemma LinkTopResume(c: Core, children: seq<nat>)
    requires InRange(c) && Inv(c) && c.stack != [] && HasNode(Top(c))
    requires |children| == (if Top(c).state == ListFrame then 1 else 2)
    requires forall k :: 0 <= k < |children| ==> Closed(c, children[k])
    requires Top(c).produced + 1 != Top(c).expected
    ensures AttachOutcome(Continue(PushFrame(SetTop(LinkChildren(c, Top(c).node, children, GrownCount(Top(c))), NextFrame(Top(c))), VALUE)))
  {
    hide Inv, Closed, Unreferenced, AttachOutcome;
    var p := Top(c);
    var c1 := LinkChildren(c, p.node, children, GrownCount(p));
    LinkTop(c, children);
    SetTopIsPush(c1, NextFrame(p));
    Resume(PopTop(c1), NextFrame(p));
  }

  lemma PopAttribute(c: Core)
    requires Inv(c) && c.stack != [] && Top(c).state == AttributeFrame
    ensures
      var b, p := PopTop(c), Top(c);
      Inv(b) && b.stack != [] && Top(b).state == ValueFrame && FrameShape(p) &&
      (forall i :: Closed(c, i) ==> Closed(b, i)) && (p.hasPendingKey ==> Closed(b, p.pendingKey))
  {
    PopKeeps(c);
    var b, p := PopTop(c), Top(c);
    assert c.stack[|c.stack| - 1] == p && FrameShape(p) && |c.stack| > 1 && c.stack[|c.stack| - 2] == Top(b);
    assert HoldsKey(p) <==> p.hasPendingKey;
  }

  lemma AttachToAttribute(c: Core, child: nat)
    requires InRange(c) && Inv(c) && Closed(c, child) && c.pending.count == 0
    requires c.stack != [] && Top(c).state == AttributeFrame
    ensures AttachOutcome(Attach(c, child))
  {
    var p := Top(c);
    if !p.hasPendingKey {
      hide Inv, Closed;
      PopAttribute(c);
      var f := p.(pendingKey := child, hasPendingKey := true);
      SetTopIsPush(c, f);
      Resume(PopTop(c), f);
    } else {
      AttachAttributeValue(c, child);
    }
  }

  lemma AttachAttributeValue(c: Core, child: nat)
    requires InRange(c) && Inv(c) && Closed(c, child) && c.pending.count == 0
    requires c.stack != [] && Top(c).state == AttributeFrame && Top(c).hasPendingKey
    ensures AttachOutcome(Attach(c, child))
  {
    hide Inv, Closed;
    var p := Top(c);
    var b := PopTop(c);
    var c1 := PendingPush(PendingPush(c, p.pendingKey), child);
    assert Inv(PopTop(c1)) && PopTop(c1).stack != [] && Top(PopTop(c1)).state == ValueFrame && FrameShape(p) by {
      PopAttribute(c);
      PendingKeeps(b, p.pendingKey, child);
      assert PopTop(c1) == PendingPush(PendingPush(b, p.pendingKey), child);
    }
    if p.produced + 1 != p.expected {
      var f := p.(produced := p.produced + 1, hasPendingKey := false);
      SetTopIsPush(c1, f);
      Resume(PopTop(c1), f);
    }
  }

  lemma AttachToKey(c: Core, child: nat)
    requires InRange(c) && Inv(c) && Closed(c, child)
    requires c.stack != [] && Top(c).state == MapKeyFrame
    ensures AttachOutcome(Attach(c, child))
  {
    var f := Top(c).(pendingKey := child, hasPendingKey := true, state := MapValueFrame);
    hide Inv, Closed, Unreferenced;
    PopContainer(c);
    SetTopIsPush(c, f);
    Resume(PopTop(c), f);
  }

  /** Attaching never fails: `InvalidState` and `InvalidMapPairs` are unreachable. */
  lemma {:induction false} AttachKeeps(c: Core, child: nat)
    requires InRange(c) && Inv(c) && Closed(c, child) && c.pending.count == 0
    requires c.stack != [] ==> Top(c).state != ValueFrame
    ensures AttachOutcome(Attach(c, child))
    decreases |c.stack|
  {
    if c.stack != [] {
      var p := Top(c);
      match p.state
      case ListFrame => AttachLinks(c, child, [child]);
      case MapKeyFrame => AttachToKey(c, child);
      case MapValueFrame =>
        assert FrameShape(p) && HoldsKey(p);
        AttachLinks(c, child, [p.pendingKey, child]);
      case AttributeFrame => AttachToAttribute(c, child);
    }
  }

  lemma AttachUnfolds(c: Core, child: nat, children: seq<nat>)
    requires InRange(c)
    requires c.stack != [] && (Top(c).state == ListFrame || (Top(c).state == MapValueFrame && Top(c).hasPendingKey))
    requires children == (if Top(c).state == ListFrame then [child] else [Top(c).pendingKey, child])
    ensures
      var p := Top(c);
      var c1 := LinkChildren(c, p.node, children, GrownCount(p));
      InRange(PopTop(c1)) &&
      Attach(c, child) ==
        if p.produced + 1 == p.expected then Attach(PopTop(c1), p.node)
        else Continue(PushFrame(SetTop(c1, NextFrame(p)), VALUE))
  {
  }

  lemma {:induction false} AttachLinks(c: Core, child: nat, children: seq<nat>)
    requires InRange(c) && Inv(c) && Closed(c, child) && c.pending.count == 0
    requires c.stack != [] && (Top(c).state == ListFrame || Top(c).state == MapValueFrame)
    requires children == (if Top(c).state == ListFrame then [child] else [Top(c).pendingKey, child])
    requires Top(c).state == MapValueFrame ==> Top(c).hasPendingKey && Closed(c, Top(c).pendingKey)
    ensures AttachOutcome(Attach(c, child))
    decreases |c.stack|, 0
  {
    hide Inv, Closed, Unreferenced, AttachOutcome, Attach, PushFrame, SetTop;
    var p := Top(c);
    AttachUnfolds(c, child, children);
    if p.produced + 1 == p.expected {
      LinkTop(c, children);
      AttachKeeps(PopTop(LinkChildren(c, p.node, children, GrownCount(p))), p.node);
    } else {
      LinkTopResume(c, children);
    }
  }

  predicate TokenShape(t: Token) {
    match t
    case Scalar(n) => NodeShape(n) && n.childCount == 0 && n.attrCount == 0
    case Open(k, _) => IsContainerKind(k)
    case Attr(_) => true
  }

  lemma LexedShape(d: bytes, L: Limits)
    requires Lex(d, L).Tok?
    ensures TokenShape(Lex(d, L).token)
  {
    hide ParseHeader, FindCrlf, ParseI64;
  }

  lemma StartKeeps(c: Core, k: Kind, len: int, L: Limits)
    requires Inv(c) && c.stack != [] && Top(c).state == ValueFrame && IsContainerKind(k)
    ensures
      var s := StartContainer(c, k, len, L);
      Inv(s.core) &&
      (s.Fail? ==> s.error == InvalidLength) &&
      (s.Produced? ==> s.core.stack == c.stack && s.core.pending.count == 0 && Closed(s.core, s.index)) &&
      (s.Continue? ==> s.core.stack != [])
  {
    if len == -1 {
      AddNodeKeeps(c, Leaf(k, [], -1, false));
    } else if 0 <= len <= L.maxContainerLen && RepresentableLength(k, len) {
      AddNodeKeeps(c, OpenNode(k, len, |c.tree.links|));
      if len > 0 {
        OpenKeeps(c, k, len);
      }
    }
  }

  lemma OpenKeeps(c: Core, k: Kind, len: nat)
    requires Inv(c) && c.stack != [] && Top(c).state == ValueFrame && IsContainerKind(k) && len > 0
    ensures
      var f := Frame(if k == Map then MapKeyFrame else ListFrame, k, len, 0, |c.tree.nodes|, 0, false);
      Inv(SetTop(AddNode(c, OpenNode(k, len, |c.tree.links|)), f))
  {
    hide Inv, Closed, Unreferenced;
    var f := Frame(if k == Map then MapKeyFrame else ListFrame, k, len, 0, |c.tree.nodes|, 0, false);
    var c1 := AddNode(c, OpenNode(k, len, |c.tree.links|));
    NewIsUnreferenced(c, OpenNode(k, len, |c.tree.links|));
    BelowValue(c);
    AddNodeKeeps(c, OpenNode(k, len, |c.tree.links|));
    PopKeeps(c1);
    SetTopIsPush(c1, f);
    PushFrameKeeps(PopTop(c1), f);
  }

  lemma NewIsUnreferenced(c: Core, n: Node)
    requires Inv(c) && c.stack != []
    ensures Unreferenced(PopTop(AddNode(c, n)), |c.tree.nodes|)
  {
  }

  lemma BelowValue(c: Core)
    requires Inv(c) && c.stack != [] && Top(c).state == ValueFrame
    ensures |c.stack| > 1 ==> Top(PopTop(c)).state != ValueFrame
  {
    assert c.stack[|c.stack| - 1] == Top(c);
    assert |c.stack| > 1 ==> c.stack[|c.stack| - 2] == Top(PopTop(c));
  }

  lemma StartAttributeKeeps(c: Core, len: int, L: Limits)
    requires Inv(c) && c.stack != [] && Top(c).state == ValueFrame
    ensures
      var s := StartAttribute(c, len, L);
      Inv(s.core) && !s.Produced? && (s.Fail? ==> s.error == InvalidLength) && (s.Continue? ==> s.core.stack != [])
  {
    hide Inv;
    if 0 < len <= L.maxContainerLen {
      PushFrameKeeps(c, Frame(AttributeFrame, Attribute, len, 0, 0, 0, false));
    }
  }

  /** What consuming one token may end in: the only error is a bad length. */
  ghost predicate ConsumeOutcome(s: Step) {
    Inv(s.core) &&
    (s.Produced? ==> s.core.stack == [] && Closed(s.core, s.index)) &&
    (s.Continue? ==> s.core.stack != []) &&
    (s.Fail? ==> s.error == InvalidLength)
  }

  lemma ProducedKeeps(c: Core, index: nat)
    requires InRange(c) && Inv(c) && c.stack != [] && Top(c).state == ValueFrame
    requires c.pending.count == 0 && Closed(c, index)
    ensures ConsumeOutcome(Attach(PopTop(c), index))
  {
    assert c.stack[|c.stack| - 1] == Top(c);
    assert |c.stack| > 1 ==> c.stack[|c.stack| - 2] == Top(PopTop(c));
    PopKeeps(c);
    hide Inv, Closed;
    AttachKeeps(PopTop(c), index);
  }

  lemma ConsumeKeeps(c: Core, t: Token, L: Limits)
    requires InRange(c) && Inv(c) && c.stack != [] && Top(c).state == ValueFrame && TokenShape(t)
    ensures ConsumeOutcome(Consume(c, t, L))
  {
    hide Inv, Closed;
    match t
    case Scalar(n) =>
      AddNodeKeeps(c, n);
      ProducedKeeps(AddNode(c, n), |c.tree.nodes|);
    case Open(k, len) =>
      StartKeeps(c, k, len, L);
      var s := StartContainer(c, k, len, L);
      if s.Produced? {
        ProducedKeeps(s.core, s.index);
      }
    case Attr(len) =>
      StartAttributeKeeps(c, len, L);
  }

  /** Errors that report broken parser state rather than bad input. */
  predicate Internal(e: ProtocolError) {
    e == InvalidState || e == InvalidMapPairs || e == TreeNotConsumed || e == ParserFailed
  }

  ghost predicate RunOutcome(r: RunResult) {
    Inv(r.core) &&
    (r.outcome.Root? ==> r.core.stack == [] && r.outcome.index < |r.core.tree.nodes|) &&
    (r.outcome.Starved? ==> r.core.stack != []) &&
    (r.outcome.Rejected? ==> !Internal(r.outcome.error))
  }

  /**
   On every input, from every state reached so far: the parser keeps its invariant, never reports an
   internal error, and hands out a root only with a tree the builder can walk.
   */
  lemma {:induction false} RunKeeps(c: Core, d: bytes, L: Limits)
    requires InRange(c) && Inv(c) && c.stack != []
    ensures RunOutcome(Run(c, d, L))
    decreases |d|, if c.stack != [] && Top(c).state != ValueFrame then 1 else 0
  {
    hide Inv, Consume, Lex, Closed;
    if Top(c).state != ValueFrame {
      PushValueKeeps(c);
      RunKeeps(PushFrame(c, VALUE), d, L);
    } else {
      match Lex(d, L)
      case NeedMore =>
      case Bad(e) => LexErrors(d, L);
      case Tok(t, n) =>
        LexedShape(d, L);
        ConsumeKeeps(c, t, L);
        var s := Consume(c, t, L);
        if s.Continue? {
          RunKeeps(s.core, d[n..], L);
        } else if s.Produced? {
          ClosedInRange(s.core, s.index);
        }
    }
  }

  lemma LexErrors(d: bytes, L: Limits)
    requires Lex(d, L).Bad?
    ensures !Internal(Lex(d, L).error)
  {
  }

  lemma InvReady(c: Core)
    requires Inv(c)
    ensures TreeReady(c.tree)
  {
  }

  lemma ClosedInRange(c: Core, i: nat)
    requires Closed(c, i)
    ensures i < |c.tree.nodes|
  {
  }
}
