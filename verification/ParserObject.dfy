/**
 `class parser` (resp3/parser.hpp): the parser as it runs, updating its buffer, tree, stack, pending
 attributes and flags in place. Each method is proved against the functions of module `Parser`.
 */
module ParserObject {
  import opened Bytes
  import opened Kinds
  import opened Lexer
  import P = Parser
  import opened Discipline

  datatype Attached = Done(index: nat) | More | Broken(error: ProtocolError)

  datatype ValueStep = Node(index: nat) | Again | Waiting | Bad(error: ProtocolError)

  datatype ParseResult = Root(index: nat) | NeedBytes | Error(error: ProtocolError)

  class Parser {
    const limits: Limits
    var unread: bytes
    var nodes: seq<Lexer.Node>
    var links: seq<nat>
    var stack: seq<P.Frame>
    var pendingFirst: nat
    var pendingCount: nat
    var failed: bool
    var treeReady: bool

    function Core(): P.Core
      reads this
    {
      P.Core(P.Tree(nodes, links), stack, P.Pending(pendingFirst, pendingCount))
    }

    ghost predicate Valid()
      reads this
    {
      P.InRange(Core()) && Inv(Core()) && (treeReady ==> stack == [])
    }

    constructor (limits: Limits)
      ensures Valid() && Core() == P.START && unread == [] && !failed && !treeReady && this.limits == limits
    {
      hide Inv;
      this.limits := limits;
      unread, nodes, links, stack := [], [], [], [];
      pendingFirst, pendingCount, failed, treeReady := 0, 0, false, false;
      new;
      InvStart();
    }

    /** Bytes written into the prepared space become readable. */
    method Commit(chunk: bytes)
      requires Valid()
      modifies this`unread
      ensures Valid() && unread == old(unread) + chunk
    {
      unread := unread + chunk;
    }

    method PushPending(target: nat)
      modifies this`links, this`pendingFirst, this`pendingCount
      ensures Core() == P.PendingPush(old(Core()), target)
    {
      if pendingCount == 0 {
        pendingFirst := |links|;
      }
      links := links + [target];
      pendingCount := pendingCount + 1;
    }

    /** Appends a node and attaches the pending attributes to it. */
    method AddNode(n: Lexer.Node) returns (index: nat)
      modifies this`nodes, this`pendingFirst, this`pendingCount
      ensures Core() == P.AddNode(old(Core()), n) && index == |old(nodes)|
    {
      index := |nodes|;
      nodes := nodes + [n];
      if pendingCount != 0 {
        nodes := nodes[index := n.(firstAttr := pendingFirst, attrCount := pendingCount)];
      }
      pendingFirst, pendingCount := 0, 0;
    }

    method Link(node: nat, children: seq<nat>, count: nat)
      requires node < |nodes|
      modifies this`nodes, this`links
      ensures Core() == P.LinkChildren(old(Core()), node, children, count)
    {
      var n := nodes[node];
      if n.childCount == 0 {
        n := n.(firstChild := |links|);
      }
      links := links + children;
      nodes := nodes[node := n.(childCount := count)];
    }

    /** Children of the open container on top: it is closed, or waits for the next value. */
    method AttachToContainer(children: seq<nat>) returns (closed: bool)
      requires P.InRange(Core()) && stack != [] && P.HasNode(P.Top(Core()))
      modifies this`nodes, this`links, this`stack
      ensures
        var p := P.Top(old(Core()));
        var c1 := P.LinkChildren(old(Core()), p.node, children, GrownCount(p));
        closed == (p.produced + 1 == p.expected) &&
        Core() == if closed then P.PopTop(c1) else P.PushFrame(P.SetTop(c1, NextFrame(p)), P.VALUE)
    {
      var top := |stack| - 1;
      var parent := stack[top];
      Link(parent.node, children, if parent.state == P.ListFrame then parent.produced + 1 else (parent.produced + 1) * 2);
      closed := parent.produced + 1 == parent.expected;
      if closed {
        stack := stack[..top];
      } else {
        stack := stack[top := NextFrame(parent)] + [P.VALUE];
      }
    }

    method AttachToAttribute(index: nat)
      requires P.InRange(Core()) && stack != [] && P.Top(Core()).state == P.AttributeFrame
      modifies this`links, this`stack, this`pendingFirst, this`pendingCount
      ensures P.Attach(old(Core()), index) == P.Continue(Core())
    {
      var top := |stack| - 1;
      var parent := stack[top];
      if !parent.hasPendingKey {
        stack := stack[top := parent.(pendingKey := index, hasPendingKey := true)] + [P.VALUE];
        return;
      }
      PushPending(parent.pendingKey);
      PushPending(index);
      parent := parent.(produced := parent.produced + 1, hasPendingKey := false);
      if parent.produced == parent.expected {
        stack := stack[..top];
      } else {
        stack := stack[top := parent] + [P.VALUE];
      }
    }

    method AttachAsKey(index: nat)
      requires P.InRange(Core()) && stack != [] && P.Top(Core()).state == P.MapKeyFrame
      modifies this`stack
      ensures P.Attach(old(Core()), index) == P.Continue(Core())
    {
      var top := |stack| - 1;
      stack := stack[top := stack[top].(pendingKey := index, hasPendingKey := true, state := P.MapValueFrame)] + [P.VALUE];
    }

    /** The children that `child` completes go to the container on top. */
    method AttachChild(child: nat, children: seq<nat>) returns (closed: bool)
      requires P.InRange(Core()) && forall i :: 0 <= i < |stack| ==> FrameShape(stack[i])
      requires stack != [] && (P.Top(Core()).state == P.ListFrame || (P.Top(Core()).state == P.MapValueFrame && P.Top(Core()).hasPendingKey))
      requires children == if P.Top(Core()).state == P.ListFrame then [child] else [P.Top(Core()).pendingKey, child]
      modifies this`nodes, this`links, this`stack
      ensures P.InRange(Core())
      ensures closed ==> |stack| < |old(stack)| && (forall i :: 0 <= i < |stack| ==> FrameShape(stack[i]))
      ensures P.Attach(old(Core()), child) == if closed then P.Attach(Core(), P.Top(old(Core())).node) else P.Continue(Core())
    {
      hide P.Attach, P.LinkChildren, FrameShape;
      AttachUnfolds(Core(), child, children);
      LinkedStack(Core(), children);
      closed := AttachToContainer(children);
    }

    /** Attaches a finished node to the frames below, closing every container it completes. */
    method AttachToParent(child: nat) returns (r: Attached)
      requires P.InRange(Core()) && forall i :: 0 <= i < |stack| ==> FrameShape(stack[i])
      modifies this`nodes, this`links, this`stack, this`pendingFirst, this`pendingCount
      ensures
        match P.Attach(old(Core()), child)
        case Produced(c, i) => Core() == c && r == Done(i)
        case Continue(c) => Core() == c && r == More
        case Fail(c, e) => Core() == c && r == Broken(e)
    {
      var index := child;
      while true
        invariant P.InRange(Core()) && P.Attach(Core(), index) == P.Attach(old(Core()), child)
        invariant forall i :: 0 <= i < |stack| ==> FrameShape(stack[i])
        decreases |stack|
      {
        if stack == [] {
          return Done(index);
        }
        var parent := stack[|stack| - 1];
        assert FrameShape(parent);
        match parent.state
        case ValueFrame =>
          return Broken(InvalidState);
        case MapKeyFrame =>
          assert parent.container == Map;
          AttachAsKey(index);
          return More;
        case AttributeFrame =>
          assert parent.container == Attribute;
          AttachToAttribute(index);
          return More;
        case ListFrame =>
          var closed := AttachChild(index, [index]);
          if !closed {
            return More;
          }
          index := parent.node;
        case MapValueFrame =>
          var closed := AttachChild(index, [parent.pendingKey, index]);
          if !closed {
            return More;
          }
          index := parent.node;
      }
    }

    method StartContainer(k: Kind, len: int) returns (r: ValueStep)
      requires stack != []
      modifies this`nodes, this`stack, this`pendingFirst, this`pendingCount
      ensures
        match P.StartContainer(old(Core()), k, len, limits)
        case Produced(c, i) => Core() == c && r == ValueStep.Node(i)
        case Continue(c) => Core() == c && r == Again
        case Fail(c, e) => Core() == c && r == ValueStep.Bad(e)
    {
      if len < -1 || len > limits.maxContainerLen {
        return ValueStep.Bad(InvalidLength);
      }
      if len == -1 {
        var index := AddNode(Leaf(k, [], -1, false));
        return ValueStep.Node(index);
      }
      if !P.RepresentableLength(k, len) {
        return ValueStep.Bad(InvalidLength);
      }
      var index := AddNode(P.OpenNode(k, len, |links|));
      if len == 0 {
        return ValueStep.Node(index);
      }
      stack := stack[|stack| - 1 := P.Frame(if k == Map then P.MapKeyFrame else P.ListFrame, k, len, 0, index, 0, false)];
      return Again;
    }

    method StartAttribute(len: int) returns (r: ValueStep)
      modifies this`stack
      ensures
        match P.StartAttribute(old(Core()), len, limits)
        case Produced(c, i) => false
        case Continue(c) => Core() == c && r == Again
        case Fail(c, e) => Core() == c && r == ValueStep.Bad(e)
    {
      if len < 0 || len > limits.maxContainerLen {
        return ValueStep.Bad(InvalidLength);
      }
      if len == 0 {
        return Again;
      }
      if !P.RepresentableLength(Attribute, len) {
        return ValueStep.Bad(InvalidLength);
      }
      stack := stack + [P.Frame(P.AttributeFrame, Attribute, len, 0, 0, 0, false)];
      return Again;
    }

    /** The core and the result `r` are those of `s`. */
    predicate Applied(s: P.Step, r: ValueStep)
      reads this
    {
      Core() == s.core &&
      match s
      case Produced(_, i) => r == ValueStep.Node(i)
      case Continue(_) => r == Again
      case Fail(_, e) => r == ValueStep.Bad(e)
    }

    /** One token from the unread bytes, with the value frame on top of the stack. */
    method ParseValue() returns (r: ValueStep)
      requires stack != []
      modifies this`unread, this`nodes, this`stack, this`pendingFirst, this`pendingCount
      ensures
        match Lex(old(unread), limits)
        case NeedMore => r == Waiting && Core() == old(Core()) && unread == old(unread)
        case Bad(e) => r == ValueStep.Bad(e) && Core() == old(Core()) && unread == old(unread)
        case Tok(t, n) => unread == old(unread)[n..] && Applied(P.ApplyToken(old(Core()), t, limits), r)
    {
      match Lex(unread, limits)
      case NeedMore => return Waiting;
      case Bad(e) => return ValueStep.Bad(e);
      case Tok(t, n) =>
        unread := unread[n..];
        match t
        case Scalar(node) =>
          var index := AddNode(node);
          return ValueStep.Node(index);
        case Open(k, len) =>
          r := StartContainer(k, len);
        case Attr(len) =>
          r := StartAttribute(len);
    }

    /** `step` ended a call of `parse_one` that stands at `p`. */
    ghost predicate Ended(p: P.RunResult, r: ParseResult)
      reads this
    {
      Core() == p.core && unread == p.unread && treeReady == p.outcome.Root? && failed == p.outcome.Rejected? &&
      match p.outcome
      case Root(i) => r == Root(i)
      case Starved => r == NeedBytes
      case Rejected(e) => r == Error(e)
    }

    /** One turn of the loop with a value frame on top. */
    method ParseStep() returns (again: bool, r: ParseResult)
      requires P.InRange(Core()) && Inv(Core()) && stack != [] && P.Top(Core()).state == P.ValueFrame && !failed && !treeReady
      modifies this
      ensures again ==> P.InRange(Core()) && Inv(Core()) && stack != [] && !failed && !treeReady
      ensures again ==> P.Run(Core(), unread, limits) == P.Run(old(Core()), old(unread), limits) && |unread| < |old(unread)|
      ensures !again ==> Ended(P.Run(old(Core()), old(unread), limits), r)
    {
      hide Inv, Lex, P.Run, P.ApplyToken, P.Attach, P.InRange, FrameShape;
      StepKeeps(Core(), unread, limits);
      InvFrames(Core());
      again, r := false, NeedBytes;
      var v := ParseValue();
      match v
      case Waiting =>
      case Bad(e) =>
        failed := true;
        r := Error(e);
      case Again =>
        again := true;
      case Node(index) =>
        stack := stack[..|stack| - 1];
        var a := AttachToParent(index);
        match a
        case Broken(e) =>
          failed := true;
          r := Error(e);
        case Done(root) =>
          treeReady := true;
          r := Root(root);
        case More =>
          again := true;
    }

    /** Parses one value; a root is only handed out with a tree that can be built. */
    method ParseOne() returns (r: ParseResult)
      requires Valid()
      modifies this
      ensures Valid()
      ensures old(treeReady) ==> r == Error(TreeNotConsumed) && Core() == old(Core()) && unread == old(unread) && treeReady
      ensures !old(treeReady) && old(failed) ==> r == Error(ParserFailed) && Core() == old(Core()) && unread == old(unread) && failed
      ensures !old(treeReady) && !old(failed) ==>
        Ended(P.ParseOne(old(Core()), old(unread), limits), r) &&
        (r.Root? ==> TreeReady(Core().tree) && r.index < |nodes|) &&
        (r.Error? ==> !Internal(r.error))
    {
      hide Inv, P.Run, TreeReady, P.InRange;
      if treeReady {
        return Error(TreeNotConsumed);
      }
      if failed {
        return Error(ParserFailed);
      }
      ArmedKeeps(Core());
      ArmedRange(Core());
      RunKeeps(P.Armed(Core()), unread, limits);
      InvReady(P.Run(P.Armed(Core()), unread, limits).core);
      if stack == [] {
        stack := stack + [P.VALUE];
      }
      ghost var start := Core();
      while true
        invariant P.InRange(Core()) && Inv(Core()) && stack != [] && !failed && !treeReady
        invariant P.Run(Core(), unread, limits) == P.Run(start, old(unread), limits)
        decreases |unread|, if stack != [] && P.Top(Core()).state != P.ValueFrame then 1 else 0
      {
        if stack[|stack| - 1].state != P.ValueFrame {
          PushValueKeeps(Core());
          RunPushes(Core(), unread, limits);
          stack := stack + [P.VALUE];
        } else {
          var again: bool;
          again, r := ParseStep();
          if !again {
            return;
          }
        }
      }
    }

    /** Drops the consumed tree; the unread bytes stay. */
    method Reclaim()
      requires Valid()
      modifies this
      ensures Valid() && Core() == P.START && !treeReady && unread == old(unread) && failed == old(failed)
    {
      hide Inv;
      nodes, links, stack := [], [], [];
      pendingFirst, pendingCount, treeReady := 0, 0, false;
      InvStart();
    }

    method Reset()
      modifies this
      ensures Valid() && Core() == P.START && !treeReady && unread == [] && !failed
    {
      hide Inv;
      unread, nodes, links, stack := [], [], [], [];
      pendingFirst, pendingCount, failed, treeReady := 0, 0, false, false;
      InvStart();
    }
  }

  lemma LinkedStack(c: P.Core, children: seq<nat>)
    requires P.InRange(c) && c.stack != [] && P.HasNode(P.Top(c))
    ensures
      var c1 := P.LinkChildren(c, P.Top(c).node, children, GrownCount(P.Top(c)));
      c1.stack == c.stack && P.InRange(P.PopTop(c1)) && P.InRange(P.PushFrame(P.SetTop(c1, NextFrame(P.Top(c))), P.VALUE))
  {
  }

  lemma RunPushes(c: P.Core, d: bytes, L: Limits)
    requires P.InRange(c) && c.stack != [] && P.Top(c).state != P.ValueFrame
    ensures P.InRange(P.PushFrame(c, P.VALUE)) && P.Run(c, d, L) == P.Run(P.PushFrame(c, P.VALUE), d, L)
  {
  }

  lemma ArmedRange(c: P.Core)
    requires P.InRange(c)
    ensures P.InRange(P.Armed(c))
  {
  }

  lemma InvFrames(c: P.Core)
    requires Inv(c)
    ensures forall i :: 0 <= i < |c.stack| ==> FrameShape(c.stack[i])
  {
  }

  /** What one token does to the state, with the facts the calls of `ParseStep` need. */
  lemma StepKeeps(c: P.Core, d: bytes, L: Limits)
    requires P.InRange(c) && Inv(c) && c.stack != [] && P.Top(c).state == P.ValueFrame
    ensures P.Run(c, d, L) == P.Stepped(c, d, L)
    ensures Lex(d, L).Tok? ==> ConsumeOutcome(P.Consume(c, Lex(d, L).token, L))
    ensures Lex(d, L).Tok? ==>
      var s := P.ApplyToken(c, Lex(d, L).token, L);
      s.Produced? ==> s.core.stack == c.stack && P.InRange(P.PopTop(s.core))
  {
    hide Inv, Lex, P.Attach;
    if Lex(d, L).Tok? {
      LexedShape(d, L);
      ConsumeKeeps(c, Lex(d, L).token, L);
    }
  }
}
