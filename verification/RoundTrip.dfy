/**
 When does building the parsed encoding of a value give the value back? Exactly when, at every level,
 only the first element of a container (the first pair of a map) pushes links of its own, and no
 value carries more than one attribute pair.
 */
module RoundTrip {
  import opened Bytes
  import opened Kinds
  import opened Lexer
  import opened Parser
  import opened Discipline
  import opened Builder
  import opened Wire
  import opened Layout

  // ----- the message a value stands for -----

  function Msg(w: Wire, L: Limits): Message
    requires WellFormed(w, L)
    decreases w, 2
  {
    Message(MsgBody(w.body, L), AttrsOf(MsgGroups(w.attrs, L)))
  }

  function MsgGroups(gs: seq<Group>, L: Limits): seq<Message>
    requires forall i :: 0 <= i < |gs| ==> AllWellFormed(gs[i].items, L)
    decreases gs, 1
  {
    if gs == [] then [] else MsgAll(gs[0].items, L) + MsgGroups(gs[1..], L)
  }

  function MsgAll(ws: seq<Wire>, L: Limits): (ms: seq<Message>)
    requires AllWellFormed(ws, L)
    ensures |ms| == |ws|
    ensures forall i :: 0 <= i < |ws| ==> ms[i] == Msg(ws[i], L)
    decreases ws, 0
  {
    if ws == [] then [] else [Msg(ws[0], L)] + MsgAll(ws[1..], L)
  }

  function MsgBody(b: Body, L: Limits): Value
    requires BodyText(b, L) && (b.List? || b.Entries? ==> AllWellFormed(b.items, L))
    decreases b, 1
  {
    match b
    case Line(k, text) =>
      if k == SimpleString then SimpleStringValue(text)
      else if k == SimpleError then SimpleErrorValue(text)
      else if k == BigNumber then BigNumberValue(text)
      else if k == Integer then IntegerValue(ParseI64(text).value)
      else DoubleValue(text)
    case Flag(f) => BooleanValue(f)
    case Nil => NullValue(Null)
    case Bulk(k, _, payload) =>
      if k == BulkString then BulkStringValue(payload)
      else if k == BulkError then BulkErrorValue(payload)
      else VerbatimValue(payload[..3], payload[4..])
    case TypedNull(k, _) => NullValue(k)
    case List(k, _, items) =>
      if k == Array then ArrayValue(MsgAll(items, L))
      else if k == Set then SetValue(MsgAll(items, L))
      else PushValue(MsgAll(items, L))
    case Entries(_, items) => MapValue(Pairs(MsgAll(items, L)))
  }

  // ----- the exact fragment -----

  /** Keys and values over all attribute prefixes. */
  function ItemTotal(gs: seq<Group>): nat {
    if gs == [] then 0 else |gs[0].items| + ItemTotal(gs[1..])
  }

  predicate Faithful(w: Wire)
    decreases w, 2
  {
    ItemTotal(w.attrs) <= 2 &&
    (forall i :: 0 <= i < |w.attrs| ==> AllFaithful(w.attrs[i].items)) &&
    FaithfulBody(w.body)
  }

  predicate AllFaithful(ws: seq<Wire>)
    decreases ws, 1
  {
    forall i :: 0 <= i < |ws| ==> Faithful(ws[i])
  }

  /** After the first element, or the first pair, nothing pushes links. */
  predicate FaithfulBody(b: Body)
    decreases b, 1
  {
    match b
    case List(_, _, items) => |items| > 0 ==> Faithful(items[0]) && Linkless(items[1..])
    case Entries(_, items) => |items| > 1 ==> Faithful(items[0]) && Faithful(items[1]) && Linkless(items[2..])
    case _ => true
  }

  predicate Linkless(ws: seq<Wire>) {
    forall i :: 0 <= i < |ws| ==> Links(ws[i]) == 0
  }

  lemma {:induction false} LinksAllZero(ws: seq<Wire>)
    ensures LinksAll(ws) >= |ws|
    decreases |ws|
  {
    if ws != [] {
      LinksAllZero(ws[1..]);
    }
  }

  lemma {:induction false} LinksGroupsZero(gs: seq<Group>)
    ensures LinksGroups(gs) >= ItemTotal(gs)
    decreases |gs|
  {
    if gs != [] {
      LinksAllZero(gs[0].items);
      LinksGroupsZero(gs[1..]);
    }
  }

  lemma {:induction false} NoItems(gs: seq<Group>)
    requires ItemTotal(gs) == 0
    ensures forall i :: 0 <= i < |gs| ==> gs[i].items == []
    ensures LinksGroups(gs) == 0
    decreases |gs|
  {
    if gs != [] {
      NoItems(gs[1..]);
      assert forall i :: 1 <= i < |gs| ==> gs[i] == gs[1..][i - 1];
    }
  }

  /** A value that pushes no links is in the fragment. */
  lemma LinklessFaithful(w: Wire)
    requires Links(w) == 0
    ensures Faithful(w)
  {
    LinksGroupsZero(w.attrs);
    NoItems(w.attrs);
    if w.body.List? || w.body.Entries? {
      LinksAllZero(w.body.items);
    }
  }

  // ----- small messages -----

  predicate IsLeaf(m: Message) {
    m.attrs.None? &&
    match m.value
    case ArrayValue(es) => es == []
    case SetValue(es) => es == []
    case PushValue(es) => es == []
    case MapValue(es) => es == []
    case _ => true
  }

  predicate FewLeaves(es: seq<Message>) {
    |es| == 0 || (|es| == 1 && IsLeaf(es[0]))
  }

  /** At most one child, which has none itself. */
  predicate IsThin(m: Message) {
    m.attrs.None? &&
    match m.value
    case ArrayValue(es) => FewLeaves(es)
    case SetValue(es) => FewLeaves(es)
    case PushValue(es) => FewLeaves(es)
    case MapValue(es) => es == []
    case _ => true
  }

  lemma {:induction false} MsgGroupsLength(gs: seq<Group>, L: Limits)
    requires forall i :: 0 <= i < |gs| ==> AllWellFormed(gs[i].items, L)
    ensures |MsgGroups(gs, L)| == ItemTotal(gs)
    decreases |gs|
  {
    if gs != [] {
      MsgGroupsLength(gs[1..], L);
    }
  }

  lemma MsgIsLeaf(w: Wire, L: Limits)
    requires WellFormed(w, L)
    ensures IsLeaf(Msg(w, L)) <==> Links(w) == 0
  {
    MsgGroupsLength(w.attrs, L);
    LinksGroupsZero(w.attrs);
    if ItemTotal(w.attrs) == 0 {
      NoItems(w.attrs);
    }
    if w.body.List? || w.body.Entries? {
      LinksAllZero(w.body.items);
    }
  }

  lemma MsgNotThin(w: Wire, L: Limits)
    requires WellFormed(w, L) && Links(w) >= 2
    ensures !IsThin(Msg(w, L))
  {
    hide Msg, MsgBody, MsgGroups, WellFormed, Links, FewLeaves;
    MsgParts(w, L);
    LinksParts(w);
    MsgGroupsLength(w.attrs, L);
    if ItemTotal(w.attrs) == 0 {
      NoItems(w.attrs);
      if w.body.List? {
        ListNotThin(w.body.items, L);
      } else if w.body.Entries? {
        EntriesNotThin(w.body.items, L);
      }
      BodyShape(w.body, L);
    }
  }

  lemma MsgParts(w: Wire, L: Limits)
    requires WellFormed(w, L)
    ensures BodyText(w.body, L) && (w.body.List? || w.body.Entries? ==> AllWellFormed(w.body.items, L))
    ensures forall i :: 0 <= i < |w.attrs| ==> AllWellFormed(w.attrs[i].items, L)
    ensures Msg(w, L) == Message(MsgBody(w.body, L), AttrsOf(MsgGroups(w.attrs, L)))
  {
    hide MsgBody, MsgGroups;
  }

  lemma LinksParts(w: Wire)
    ensures Links(w) == LinksGroups(w.attrs) + LinksBody(w.body)
  {
  }

  /** The value of a body that has no items, a list or a map. */
  lemma BodyShape(b: Body, L: Limits)
    requires BodyText(b, L) && (b.List? || b.Entries? ==> AllWellFormed(b.items, L))
    ensures b.List? ==> MsgBody(b, L) in {ArrayValue(MsgAll(b.items, L)), SetValue(MsgAll(b.items, L)), PushValue(MsgAll(b.items, L))}
    ensures b.Entries? ==> MsgBody(b, L) == MapValue(Pairs(MsgAll(b.items, L)))
    ensures !b.List? && !b.Entries? ==> LinksBody(b) == 0
  {
    hide MsgAll, Pairs;
  }

  lemma ListNotThin(items: seq<Wire>, L: Limits)
    requires AllWellFormed(items, L) && LinksAll(items) >= 2
    ensures !FewLeaves(MsgAll(items, L))
  {
    hide Msg, Links, IsLeaf, WellFormed;
    if |items| == 1 {
      MsgIsLeaf(items[0], L);
      assert items[1..] == [] && LinksAll(items) == Links(items[0]) + 1 + LinksAll(items[1..]);
    }
  }

  lemma EntriesNotThin(items: seq<Wire>, L: Limits)
    requires AllWellFormed(items, L) && |items| % 2 == 0 && LinksAll(items) >= 2
    ensures Pairs(MsgAll(items, L)) != []
  {
    hide Msg, Links, WellFormed;
    assert |Pairs(MsgAll(items, L))| == |items| / 2;
  }

  // ----- finding the layout inside the final tree -----

  /** From node `lo` on, and in all links, the tree still is what it was in `c`. */
  ghost predicate Holds(T: Tree, lo: nat, c: Core) {
    |c.tree.nodes| <= |T.nodes| && |c.tree.links| <= |T.links| &&
    (forall i :: lo <= i < |c.tree.nodes| ==> T.nodes[i] == c.tree.nodes[i]) &&
    (forall p :: 0 <= p < |c.tree.links| ==> T.links[p] == c.tree.links[p])
  }

  /** Later steps changed no node but `node`. */
  ghost predicate KeptBut(c: Core, c': Core, node: nat) {
    |c.tree.nodes| <= |c'.tree.nodes| && |c.tree.links| <= |c'.tree.links| &&
    (forall i :: 0 <= i < |c.tree.nodes| && i != node ==> c'.tree.nodes[i] == c.tree.nodes[i]) &&
    (forall p :: 0 <= p < |c.tree.links| ==> c'.tree.links[p] == c.tree.links[p])
  }

  lemma HoldsSize(T: Tree, lo: nat, c: Core)
    requires Holds(T, lo, c)
    ensures |c.tree.nodes| <= |T.nodes| && |c.tree.links| <= |T.links|
  {
  }

  lemma HoldsEarlier(T: Tree, lo: nat, c: Core, c': Core, node: nat, lo': nat)
    requires Holds(T, lo, c') && KeptBut(c, c', node) && lo <= lo' && node < lo'
    ensures Holds(T, lo', c)
  {
  }

  lemma HoldsGrown(T: Tree, lo: nat, c: Core, c': Core, q: nat, n: nat)
    requires Holds(T, lo, c') && Grown(c, c', q, n)
    ensures Holds(T, lo, c)
  {
  }

  lemma {:induction false} LayItemsKeeps(c: Core, node: nat, items: seq<Wire>, done: nat)
    requires node < |c.tree.nodes| && c.pending == NO_PENDING && AllPaired(items)
    ensures KeptBut(c, LayItems(c, node, items, done), node)
    decreases |items|
  {
    hide Lay;
    if items != [] {
      var item := Lay(c, items[0]);
      LayGrows(c, items[0], 0);
      LayItemsKeeps(LinkChildren(item.core, node, [item.index], done + 1), node, items[1..], done + 1);
    }
  }

  lemma {:induction false} LayEntriesKeeps(c: Core, node: nat, items: seq<Wire>, done: nat)
    requires node < |c.tree.nodes| && c.pending == NO_PENDING && AllPaired(items)
    ensures KeptBut(c, LayEntries(c, node, items, done), node)
    decreases |items|
  {
    hide Lay;
    if |items| >= 2 {
      var key := Lay(c, items[0]);
      var value := Lay(key.core, items[1]);
      LayPairGrows(c, items, 0);
      LayEntriesKeeps(LinkChildren(value.core, node, [key.index, value.index], (done + 1) * 2), node, items[2..], done + 1);
    }
  }

  /** The finished container node: all children counted, and the run starting at the first child's link. */
  lemma {:induction false} LayItemsNode(c: Core, node: nat, items: seq<Wire>, done: nat)
    requires node < |c.tree.nodes| && c.pending == NO_PENDING && AllPaired(items) && items != []
    requires c.tree.nodes[node].childCount == done
    ensures
      var n := c.tree.nodes[node];
      LayItems(c, node, items, done).tree.nodes[node] ==
        n.(childCount := done + |items|, firstChild := if done == 0 then |c.tree.links| + Links(items[0]) else n.firstChild)
    decreases |items|
  {
    hide Lay, Links;
    var item := Lay(c, items[0]);
    LayGrows(c, items[0], 0);
    var c1 := LinkChildren(item.core, node, [item.index], done + 1);
    if |items| > 1 {
      LayItemsNode(c1, node, items[1..], done + 1);
    } else {
      assert items[1..] == [];
    }
  }

  lemma {:induction false} LayEntriesNode(c: Core, node: nat, items: seq<Wire>, done: nat)
    requires node < |c.tree.nodes| && c.pending == NO_PENDING && AllPaired(items) && |items| >= 2 && |items| % 2 == 0
    requires c.tree.nodes[node].childCount == done * 2
    ensures
      var n := c.tree.nodes[node];
      LayEntries(c, node, items, done).tree.nodes[node] ==
        n.(childCount := done * 2 + |items|, firstChild := if done == 0 then |c.tree.links| + Links(items[0]) + Links(items[1]) else n.firstChild)
    decreases |items|
  {
    hide Lay, Links;
    var key := Lay(c, items[0]);
    var value := Lay(key.core, items[1]);
    LayPairGrows(c, items, 0);
    var c1 := LinkChildren(value.core, node, [key.index, value.index], (done + 1) * 2);
    if |items| > 2 {
      LayEntriesNode(c1, node, items[2..], done + 1);
    } else {
      assert items[2..] == [];
    }
  }

  // ----- what stands at the wrong place is too small -----

  lemma LeafAt(T: Tree, q: nat, x: nat)
    requires TreeReady(T) && x < |T.nodes| && Above(T.nodes[x], q) && End(T.nodes[x]) <= q
    ensures IsLeaf(Build(T, x))
  {
    assert T.nodes[x].childCount == 0 && T.nodes[x].attrCount == 0;
    assert BuildRun(T, T.nodes[x].firstChild, 0) == [];
  }

  lemma ThinAt(T: Tree, q: nat, x: nat)
    requires TreeReady(T) && x < |T.nodes| && Above(T.nodes[x], q) && End(T.nodes[x]) <= q + 1
    requires q < |T.links| && Above(T.nodes[T.links[q]], q)
    ensures IsThin(Build(T, x))
  {
    var n := T.nodes[x];
    assert NodeShape(n);
    assert n.attrCount == 0 && n.childCount <= 1;
    LeafAt(T, q, T.links[q]);
    if n.childCount == 1 {
      assert n.firstChild == q;
      assert BuildRun(T, q, 1) == BuildRun(T, q, 0) + [Build(T, T.links[q])];
    } else {
      assert BuildRun(T, n.firstChild, 0) == [];
    }
  }

  /** The first link of a value that pushes any leads to a leaf. */
  lemma FirstLinkIsLeaf(T: Tree, c: Core, w: Wire)
    requires TreeReady(T) && Paired(w) && c.pending == NO_PENDING && Links(w) > 0 && Holds(T, |c.tree.nodes|, Lay(c, w).core)
    ensures |c.tree.links| < |T.links| && IsLeaf(Build(T, T.links[|c.tree.links|]))
  {
    hide Lay, Build;
    var q := |c.tree.links|;
    LayGrows(c, w, q);
    assert T.links[q] == Lay(c, w).core.tree.links[q];
    LeafAt(T, q, T.links[q]);
  }

  /** With more than one link, what the second link leads to is no deeper than one leaf. */
  lemma SecondLinkIsThin(T: Tree, c: Core, w: Wire)
    requires TreeReady(T) && Paired(w) && c.pending == NO_PENDING && Links(w) > 1 && Holds(T, |c.tree.nodes|, Lay(c, w).core)
    ensures |c.tree.links| + 1 < |T.links| && IsThin(Build(T, T.links[|c.tree.links| + 1]))
  {
    hide Lay, Build;
    var q := |c.tree.links|;
    LayGrows(c, w, q);
    assert T.links[q] == Lay(c, w).core.tree.links[q] && T.links[q + 1] == Lay(c, w).core.tree.links[q + 1];
    ThinAt(T, q, T.links[q + 1]);
  }

  // ----- the main induction -----

  /** `count` links from `first` on lead to the messages of `ws`. */
  ghost predicate RunIs(T: Tree, first: nat, ws: seq<Wire>, L: Limits)
    requires TreeReady(T) && AllWellFormed(ws, L) && first + |ws| <= |T.links|
  {
    forall k :: 0 <= k < |ws| ==> Build(T, T.links[first + k]) == Msg(ws[k], L)
  }

  lemma LinksInRange(T: Tree)
    requires TreeReady(T)
    ensures forall p :: 0 <= p < |T.links| ==> T.links[p] < |T.nodes|
  {
  }

  lemma RunIsBuildRun(T: Tree, first: nat, ws: seq<Wire>, L: Limits)
    requires TreeReady(T) && AllWellFormed(ws, L) && first + |ws| <= |T.links|
    ensures RunIs(T, first, ws, L) <==> BuildRun(T, first, |ws|) == MsgAll(ws, L)
  {
    hide Build, Msg, TreeReady, AllWellFormed;
    LinksInRange(T);
    forall k | 0 <= k < |ws|
      ensures BuildRun(T, first, |ws|)[k] == Build(T, T.links[first + k])
    {
      BuildRunAt(T, first, |ws|, k);
    }
    if RunIs(T, first, ws, L) {
      assert BuildRun(T, first, |ws|) == MsgAll(ws, L);
    }
  }

  lemma RunIsHead(T: Tree, first: nat, ws: seq<Wire>, L: Limits)
    requires TreeReady(T) && AllWellFormed(ws, L) && first + |ws| <= |T.links| && |ws| > 0
    ensures RunIs(T, first, ws, L) <==> Build(T, T.links[first]) == Msg(ws[0], L) && RunIs(T, first + 1, ws[1..], L)
  {
    hide Build, Msg, TreeReady, WellFormed;
    LinksInRange(T);
    if Build(T, T.links[first]) == Msg(ws[0], L) && RunIs(T, first + 1, ws[1..], L) {
      forall k | 0 <= k < |ws|
        ensures Build(T, T.links[first + k]) == Msg(ws[k], L)
      {
        if k > 0 {
          assert ws[k] == ws[1..][k - 1] && T.links[first + 1 + (k - 1)] == T.links[first + k];
        }
      }
    } else if RunIs(T, first, ws, L) {
      assert T.links[first + 0] == T.links[first];
      forall k | 0 <= k < |ws| - 1
        ensures Build(T, T.links[first + 1 + k]) == Msg(ws[1..][k], L)
      {
        assert ws[1..][k] == ws[k + 1] && T.links[first + 1 + k] == T.links[first + (k + 1)];
      }
    }
  }

  lemma {:induction false} BuildLay(T: Tree, c: Core, w: Wire, L: Limits)
    requires TreeReady(T) && WellFormed(w, L) && c.pending == NO_PENDING && Holds(T, |c.tree.nodes|, Lay(c, w).core)
    ensures Lay(c, w).index < |T.nodes|
    ensures Build(T, Lay(c, w).index) == Msg(w, L) <==> Faithful(w)
    decreases w, 5
  {
    hide LayBody, LayGroups, BuildRun, ValueOf, MsgBody, MsgGroups, FaithfulBody, Grown, Holds, BodyText, NodeShape;
    var c1 := LayGroups(c, w.attrs);
    var r := LayBody(c1, w.body);
    WellFormedIsPaired(w, L);
    LayGroupsGrows(c, w.attrs, 0);
    LayBodyGrows(c1, w.body, 0);
    HoldsGrown(T, |c.tree.nodes|, c1, r.core, 0, LinksBody(w.body));
    HoldsLater(T, |c.tree.nodes|, r.core, |c1.tree.nodes|);
    BuildGroups(T, c, w.attrs, L);
    BuildBody(T, c1, w.body, L);
    BuildIs(T, r.index);
    AttrsOfInjective(BuildRun(T, c1.pending.first, c1.pending.count), MsgGroups(w.attrs, L));
  }

  lemma HoldsLater(T: Tree, lo: nat, c: Core, lo': nat)
    requires Holds(T, lo, c) && lo <= lo'
    ensures Holds(T, lo', c)
  {
  }

  lemma BuildIs(T: Tree, i: nat)
    requires TreeReady(T) && i < |T.nodes|
    ensures
      var n := T.nodes[i];
      NodeShape(n) && Build(T, i) == Message(ValueOf(n, BuildRun(T, n.firstChild, n.childCount)), AttrsOf(BuildRun(T, n.firstAttr, n.attrCount)))
  {
  }

  lemma AttrsOfInjective(a: seq<Message>, b: seq<Message>)
    requires |a| % 2 == 0 && |b| % 2 == 0
    ensures AttrsOf(a) == AttrsOf(b) <==> a == b
  {
    PairsInjective(a, b);
  }

  lemma PairsInjective(a: seq<Message>, b: seq<Message>)
    requires |a| % 2 == 0 && |b| % 2 == 0
    ensures Pairs(a) == Pairs(b) <==> a == b
  {
    if Pairs(a) == Pairs(b) {
      assert |Pairs(a)| == |Pairs(b)|;
      forall i | 0 <= i < |a|
        ensures a[i] == b[i]
      {
        assert Pairs(a)[i / 2] == Pairs(b)[i / 2];
      }
    }
  }

  // ----- attributes -----

  lemma {:induction false} AttrsPending(c: Core, items: seq<Wire>)
    requires |items| >= 2 && |items| % 2 == 0 && AllPaired(items)
    ensures LayAttrs(c, items).pending.count == 2 && LayAttrs(c, items).pending.first + 2 <= |LayAttrs(c, items).tree.links|
    decreases |items|
  {
    hide Lay;
    var key := Lay(c, items[0]);
    var value := Lay(key.core, items[1]);
    LayPairGrows(c, items, 0);
    if |items| > 2 {
      AttrsPending(PendingPush(PendingPush(value.core, key.index), value.index), items[2..]);
    } else {
      assert items[2..] == [];
    }
  }

  lemma {:induction false} NoItemsLay(c: Core, gs: seq<Group>)
    requires ItemTotal(gs) == 0
    ensures LayGroups(c, gs) == c
    decreases |gs|
  {
    if gs != [] {
      NoItemsLay(c, gs[1..]);
    }
  }

  ghost predicate GroupsOk(gs: seq<Group>, L: Limits) {
    forall i :: 0 <= i < |gs| ==> PairCount(gs[i].header, gs[i].items, L) && AllWellFormed(gs[i].items, L)
  }

  lemma GroupsOkTail(gs: seq<Group>, L: Limits)
    requires GroupsOk(gs, L) && gs != []
    ensures GroupsOk(gs[1..], L) && AllPaired(gs[0].items)
    ensures forall i :: 0 <= i < |gs| ==> |gs[i].items| % 2 == 0 && AllPaired(gs[i].items)
  {
    forall i | 0 <= i < |gs|
      ensures AllPaired(gs[i].items)
    {
      AllWellFormedArePaired(gs[i].items, L);
    }
  }

  /** If there is any attribute pair, exactly one pair is pending in the end. */
  lemma {:induction false} GroupsPending(c: Core, gs: seq<Group>, L: Limits)
    requires GroupsOk(gs, L) && ItemTotal(gs) > 0
    ensures LayGroups(c, gs).pending.count == 2 && LayGroups(c, gs).pending.first + 2 <= |LayGroups(c, gs).tree.links|
    decreases |gs|
  {
    hide LayAttrs, AllPaired, AllWellFormed;
    GroupsOkTail(gs, L);
    if ItemTotal(gs[1..]) > 0 {
      GroupsPending(LayAttrs(c, gs[0].items), gs[1..], L);
    } else {
      NoItemsLay(LayAttrs(c, gs[0].items), gs[1..]);
      AttrsPending(c, gs[0].items);
    }
  }

  lemma {:induction false} EvenTotal(gs: seq<Group>, L: Limits)
    requires GroupsOk(gs, L)
    ensures ItemTotal(gs) % 2 == 0
    decreases |gs|
  {
    if gs != [] {
      EvenTotal(gs[1..], L);
    }
  }

  ghost predicate GroupsFaithful(gs: seq<Group>) {
    ItemTotal(gs) <= 2 && forall i :: 0 <= i < |gs| ==> AllFaithful(gs[i].items)
  }

  lemma {:induction false} BuildGroups(T: Tree, c: Core, gs: seq<Group>, L: Limits)
    requires TreeReady(T) && GroupsOk(gs, L) && c.pending == NO_PENDING && Holds(T, |c.tree.nodes|, LayGroups(c, gs))
    ensures
      var p := LayGroups(c, gs).pending;
      p.count % 2 == 0 && |MsgGroups(gs, L)| % 2 == 0 && (p.count > 0 ==> p.first + p.count <= |T.links|) &&
      (BuildRun(T, p.first, p.count) == MsgGroups(gs, L) <==> GroupsFaithful(gs))
    decreases gs, 4
  {
    hide BuildRun, Build, LayAttrs, TreeReady, Faithful, MsgAll, AllWellFormed;
    MsgGroupsLength(gs, L);
    EvenTotal(gs, L);
    if gs == [] {
      BuildRunLast(T, 0, 0);
    } else if gs[0].items == [] {
      BuildEmptyGroup(T, c, gs, L);
    } else if ItemTotal(gs) > 2 {
      GroupsPending(c, gs, L);
    } else {
      BuildOnePair(T, c, gs, L);
    }
  }

  lemma {:induction false} BuildEmptyGroup(T: Tree, c: Core, gs: seq<Group>, L: Limits)
    requires TreeReady(T) && GroupsOk(gs, L) && c.pending == NO_PENDING && Holds(T, |c.tree.nodes|, LayGroups(c, gs))
    requires gs != [] && gs[0].items == []
    ensures
      var p := LayGroups(c, gs).pending;
      p.count % 2 == 0 && (p.count > 0 ==> p.first + p.count <= |T.links|) &&
      (BuildRun(T, p.first, p.count) == MsgGroups(gs, L) <==> GroupsFaithful(gs))
    decreases gs, 3
  {
    hide BuildRun, Build, TreeReady, Faithful;
    assert LayGroups(c, gs) == LayGroups(c, gs[1..]);
    assert MsgGroups(gs, L) == MsgGroups(gs[1..], L);
    GroupsOkTail(gs, L);
    BuildGroups(T, c, gs[1..], L);
    assert GroupsFaithful(gs) <==> GroupsFaithful(gs[1..]) by {
      assert forall i :: 1 <= i < |gs| ==> gs[i] == gs[1..][i - 1];
      assert forall i :: 0 <= i < |gs| - 1 ==> gs[1..][i] == gs[i + 1];
    }
  }

  lemma {:induction false} BuildOnePair(T: Tree, c: Core, gs: seq<Group>, L: Limits)
    requires TreeReady(T) && GroupsOk(gs, L) && c.pending == NO_PENDING && Holds(T, |c.tree.nodes|, LayGroups(c, gs))
    requires gs != [] && |gs[0].items| == 2 && ItemTotal(gs) == 2
    ensures
      var p := LayGroups(c, gs).pending;
      p.count == 2 && p.first + 2 <= |T.links| &&
      (BuildRun(T, p.first, 2) == MsgGroups(gs, L) <==> GroupsFaithful(gs))
    decreases gs, 3
  {
    hide BuildRun, Build, TreeReady, Faithful, Msg, Lay, WellFormed, LayGroups;
    var items := gs[0].items;
    GroupsOkTail(gs, L);
    assert LayGroups(c, gs) == LayAttrs(c, items) by {
      OneGroup(c, gs);
    }
    var key := Lay(c, items[0]);
    var value := Lay(key.core, items[1]);
    LayPairGrows(c, items, 0);
    assert items[2..] == [];
    var first := |value.core.tree.links|;
    assert LayAttrs(c, items) == PendingPush(PendingPush(value.core, key.index), value.index);
    assert LayAttrs(c, items).tree.links == value.core.tree.links + [key.index] + [value.index];
    assert Holds(T, |c.tree.nodes|, value.core);
    BuildPair(T, c, items, L);
    assert T.links[first] == key.index && T.links[first + 1] == value.index;
    OnePairMessages(gs, L);
    RunIsHead(T, first, items, L);
    RunIsHead(T, first + 1, items[1..], L);
    RunIsBuildRun(T, first, items, L);
    assert AllFaithful(items) <==> Faithful(items[0]) && Faithful(items[1]);
    assert GroupsFaithful(gs) <==> AllFaithful(items) by {
      OnePairFaithful(gs);
    }
  }

  lemma OneGroup(c: Core, gs: seq<Group>)
    requires gs != [] && ItemTotal(gs[1..]) == 0
    ensures LayGroups(c, gs) == LayAttrs(c, gs[0].items)
  {
    NoItemsLay(LayAttrs(c, gs[0].items), gs[1..]);
  }

  lemma OnePairMessages(gs: seq<Group>, L: Limits)
    requires GroupsOk(gs, L) && gs != [] && ItemTotal(gs[1..]) == 0
    ensures MsgGroups(gs, L) == MsgAll(gs[0].items, L)
  {
    MsgGroupsLength(gs[1..], L);
    assert MsgGroups(gs[1..], L) == [];
  }

  lemma OnePairFaithful(gs: seq<Group>)
    requires gs != [] && |gs[0].items| == 2 && ItemTotal(gs[1..]) == 0
    ensures GroupsFaithful(gs) <==> AllFaithful(gs[0].items)
  {
    NoItems(gs[1..]);
    assert forall i :: 1 <= i < |gs| ==> gs[i] == gs[1..][i - 1];
  }

  /** A key and a value laid one after the other, found again in the final tree. */
  lemma {:induction false} BuildPair(T: Tree, c: Core, items: seq<Wire>, L: Limits)
    requires TreeReady(T) && |items| >= 2 && AllWellFormed(items, L) && c.pending == NO_PENDING
    requires Holds(T, |c.tree.nodes|, Lay(Lay(c, items[0]).core, items[1]).core)
    ensures
      var key := Lay(c, items[0]);
      var value := Lay(key.core, items[1]);
      key.index < |T.nodes| && value.index < |T.nodes| &&
      (Build(T, key.index) == Msg(items[0], L) <==> Faithful(items[0])) &&
      (Build(T, value.index) == Msg(items[1], L) <==> Faithful(items[1]))
    decreases items, 2
  {
    hide Build, TreeReady, Faithful, Msg, Lay, Grown;
    var key := Lay(c, items[0]);
    var value := Lay(key.core, items[1]);
    AllWellFormedArePaired(items, L);
    hide WellFormed, Paired;
    LayGrows(c, items[0], 0);
    LayGrows(key.core, items[1], 0);
    HoldsGrown(T, |c.tree.nodes|, key.core, value.core, 0, Links(items[1]));
    HoldsLater(T, |c.tree.nodes|, value.core, |key.core.tree.nodes|);
    BuildLay(T, c, items[0], L);
    BuildLay(T, key.core, items[1], L);
  }

  // ----- bodies -----

  /** The node of a body laid at `c` carries the attributes pending at `c`. */
  ghost predicate RootShape(T: Tree, c: Core)
    requires TreeReady(T)
  {
    |c.tree.nodes| < |T.nodes| &&
    var n := T.nodes[|c.tree.nodes|];
    NodeShape(n) &&
    (n.childCount > 0 ==> n.firstChild + n.childCount <= |T.links|) &&
    (n.attrCount > 0 ==> n.firstAttr + n.attrCount <= |T.links|) &&
    (c.pending.count > 0 ==> c.pending.first + c.pending.count <= |T.links|) &&
    BuildRun(T, n.firstAttr, n.attrCount) == BuildRun(T, c.pending.first, c.pending.count)
  }

  lemma RootShapeOf(T: Tree, c: Core)
    requires TreeReady(T) && |c.tree.nodes| < |T.nodes|
    requires c.pending.count > 0 ==> c.pending.first + c.pending.count <= |T.links|
    requires
      var n := T.nodes[|c.tree.nodes|];
      n.attrCount == c.pending.count && (n.attrCount > 0 ==> n.firstAttr == c.pending.first)
    ensures RootShape(T, c)
  {
    hide TreeReady, Build, BuildRun;
    NodeFacts(T, |c.tree.nodes|);
    BuildRunLast(T, c.pending.first, 0);
    BuildRunLast(T, T.nodes[|c.tree.nodes|].firstAttr, 0);
  }

  lemma {:induction false} BuildBody(T: Tree, c: Core, b: Body, L: Limits)
    requires TreeReady(T) && BodyText(b, L) && (b.List? || b.Entries? ==> AllWellFormed(b.items, L))
    requires Holds(T, |c.tree.nodes|, LayBody(c, b).core) && (c.pending.count > 0 ==> c.pending.first + c.pending.count <= |T.links|)
    ensures RootShape(T, c)
    ensures
      var n := T.nodes[|c.tree.nodes|];
      ValueOf(n, BuildRun(T, n.firstChild, n.childCount)) == MsgBody(b, L) <==> FaithfulBody(b)
    decreases b, 4
  {
    hide BuildRun, ValueOf, MsgBody, FaithfulBody, Holds, LayBody, TreeReady;
    match b
    case List(_, _, _) => BuildList(T, c, b, L);
    case Entries(_, _) => BuildEntries(T, c, b, L);
    case _ =>
      BuildScalar(T, c, b, L);
      ScalarFaithful(b);
  }

  lemma ScalarFaithful(b: Body)
    requires !b.List? && !b.Entries?
    ensures FaithfulBody(b)
  {
  }

  lemma ScalarValue(n: Node, b: Body, L: Limits)
    requires BodyText(b, L) && !b.List? && !b.Entries? && NodeShape(n)
    requires n == LeafOf(b).(firstAttr := n.firstAttr, attrCount := n.attrCount)
    ensures ValueOf(n, []) == MsgBody(b, L)
  {
    hide ParseI64;
  }

  lemma BuildScalar(T: Tree, c: Core, b: Body, L: Limits)
    requires TreeReady(T) && BodyText(b, L) && !b.List? && !b.Entries?
    requires Holds(T, |c.tree.nodes|, LayBody(c, b).core) && (c.pending.count > 0 ==> c.pending.first + c.pending.count <= |T.links|)
    ensures RootShape(T, c)
    ensures
      var n := T.nodes[|c.tree.nodes|];
      ValueOf(n, BuildRun(T, n.firstChild, n.childCount)) == MsgBody(b, L)
  {
    hide TreeReady, BuildRun, ValueOf, MsgBody, BodyText, LeafOf;
    var n := T.nodes[|c.tree.nodes|];
    assert n == LeafOf(b).(firstAttr := n.firstAttr, attrCount := n.attrCount) && LeafOf(b).childCount == 0 && n.attrCount == c.pending.count && (c.pending.count > 0 ==> n.firstAttr == c.pending.first) by {
      LeafPlain(b);
    }
    hide LayBody, Holds;
    RootShapeOf(T, c);
    BuildRunLast(T, n.firstChild, 0);
    ScalarValue(n, b, L);
  }

  lemma LeafPlain(b: Body)
    requires !b.List? && !b.Entries?
    ensures LeafOf(b).childCount == 0 && LeafOf(b).attrCount == 0
  {
  }

  /** Rebuilding a list is rebuilding the elements its run leads to. */
  lemma ListValue(n: Node, b: Body, children: seq<Message>, L: Limits)
    requires NodeShape(n) && b.List? && BodyText(b, L) && AllWellFormed(b.items, L) && n.kind == b.kind && n.i64 == |b.items|
    ensures ValueOf(n, children) == MsgBody(b, L) <==> children == MsgAll(b.items, L)
  {
  }

  /** A container's own node in the final tree. */
  ghost predicate ContainerNode(n: Node, p: Pending, k: Kind, len: nat, count: nat) {
    n.kind == k && n.i64 == len && n.childCount == count &&
    n.attrCount == p.count && (p.count > 0 ==> n.firstAttr == p.first)
  }

  /** The node appended for a container header. */
  lemma OpenedNode(c: Core, k: Kind, len: nat)
    ensures
      var c2 := AddNode(c, OpenNode(k, len, |c.tree.links|));
      var n := c2.tree.nodes[|c.tree.nodes|];
      c2.pending == NO_PENDING && c2.tree.links == c.tree.links && |c2.tree.nodes| == |c.tree.nodes| + 1 &&
      ContainerNode(n, c.pending, k, len, 0)
  {
  }

  lemma LayBodyUnfolds(c: Core, b: Body)
    requires b.List? || b.Entries?
    ensures LayBody(c, b).core ==
      if b.List? then LayItems(AddNode(c, OpenNode(b.kind, |b.items|, |c.tree.links|)), |c.tree.nodes|, b.items, 0)
      else LayEntries(AddNode(c, OpenNode(Map, |b.items| / 2, |c.tree.links|)), |c.tree.nodes|, b.items, 0)
  {
  }

  lemma ListNode(T: Tree, c: Core, b: Body, L: Limits)
    requires b.List? && AllWellFormed(b.items, L) && Holds(T, |c.tree.nodes|, LayBody(c, b).core)
    ensures
      var c2 := AddNode(c, OpenNode(b.kind, |b.items|, |c.tree.links|));
      c2.pending == NO_PENDING && |c2.tree.links| == |c.tree.links| && |c2.tree.nodes| == |c.tree.nodes| + 1 &&
      |c.tree.nodes| < |T.nodes| && ContainerNode(T.nodes[|c.tree.nodes|], c.pending, b.kind, |b.items|, |b.items|) &&
      (|b.items| > 0 ==> T.nodes[|c.tree.nodes|].firstChild == |c.tree.links| + Links(b.items[0])) &&
      Holds(T, |c2.tree.nodes|, LayItems(c2, |c.tree.nodes|, b.items, 0))
  {
    LayBodyUnfolds(c, b);
    hide Lay, Links, WellFormed, AddNode, LayBody, Paired, AllWellFormed, AllPaired;
    var node, items := |c.tree.nodes|, b.items;
    var c2 := AddNode(c, OpenNode(b.kind, |items|, |c.tree.links|));
    OpenedNode(c, b.kind, |items|);
    AllWellFormedArePaired(items, L);
    HoldsLater(T, node, LayItems(c2, node, items, 0), node + 1);
    if items != [] {
      LayItemsNode(c2, node, items, 0);
    }
    assert items == [] ==> LayItems(c2, node, items, 0) == c2;
    hide LayItems;
    assert T.nodes[node] == LayItems(c2, node, items, 0).tree.nodes[node];
    hide Holds;
  }

  lemma MapNode(T: Tree, c: Core, b: Body, L: Limits)
    requires b.Entries? && |b.items| % 2 == 0 && AllWellFormed(b.items, L) && Holds(T, |c.tree.nodes|, LayBody(c, b).core)
    ensures
      var c2 := AddNode(c, OpenNode(Map, |b.items| / 2, |c.tree.links|));
      c2.pending == NO_PENDING && |c2.tree.links| == |c.tree.links| && |c2.tree.nodes| == |c.tree.nodes| + 1 &&
      |c.tree.nodes| < |T.nodes| && ContainerNode(T.nodes[|c.tree.nodes|], c.pending, Map, |b.items| / 2, |b.items|) &&
      (|b.items| > 0 ==> T.nodes[|c.tree.nodes|].firstChild == |c.tree.links| + Links(b.items[0]) + Links(b.items[1])) &&
      Holds(T, |c2.tree.nodes|, LayEntries(c2, |c.tree.nodes|, b.items, 0))
  {
    LayBodyUnfolds(c, b);
    hide Lay, Links, WellFormed, AddNode, LayBody, Paired, AllWellFormed, AllPaired;
    var node, items := |c.tree.nodes|, b.items;
    var c2 := AddNode(c, OpenNode(Map, |items| / 2, |c.tree.links|));
    OpenedNode(c, Map, |items| / 2);
    AllWellFormedArePaired(items, L);
    HoldsLater(T, node, LayEntries(c2, node, items, 0), node + 1);
    if items != [] {
      LayEntriesNode(c2, node, items, 0);
    }
    assert items == [] ==> LayEntries(c2, node, items, 0) == c2;
    hide LayEntries;
    assert T.nodes[node] == LayEntries(c2, node, items, 0).tree.nodes[node];
    hide Holds;
  }

  lemma {:induction false} BuildList(T: Tree, c: Core, b: Body, L: Limits)
    requires TreeReady(T) && b.List? && BodyText(b, L) && AllWellFormed(b.items, L)
    requires Holds(T, |c.tree.nodes|, LayBody(c, b).core) && (c.pending.count > 0 ==> c.pending.first + c.pending.count <= |T.links|)
    ensures RootShape(T, c)
    ensures
      var n := T.nodes[|c.tree.nodes|];
      ValueOf(n, BuildRun(T, n.firstChild, n.childCount)) == MsgBody(b, L) <==> FaithfulBody(b)
    decreases b, 3
  {
    hide TreeReady, BuildRun, ValueOf, MsgBody, Faithful, Links, Linkless, LayItems, Holds, AddNode, WellFormed, RunIs, MsgAll;
    var node, items := |c.tree.nodes|, b.items;
    ListNode(T, c, b, L);
    RootShapeOf(T, c);
    if items == [] {
      BuildRunLast(T, T.nodes[node].firstChild, 0);
    } else {
      var c2 := AddNode(c, OpenNode(b.kind, |items|, |c.tree.links|));
      BuildItems(T, c2, node, items, L);
      RunIsBuildRun(T, |c2.tree.links| + Links(items[0]), items, L);
    }
    ListValue(T.nodes[node], b, BuildRun(T, T.nodes[node].firstChild, T.nodes[node].childCount), L);
  }

  /** The run that starts at the first element's link holds the elements exactly when no later one pushes links. */
  lemma {:induction false} BuildItems(T: Tree, c: Core, node: nat, items: seq<Wire>, L: Limits)
    requires TreeReady(T) && AllWellFormed(items, L) && items != [] && c.pending == NO_PENDING && node < |c.tree.nodes|
    requires Holds(T, |c.tree.nodes|, LayItems(c, node, items, 0))
    ensures |c.tree.links| + Links(items[0]) + |items| <= |T.links|
    ensures RunIs(T, |c.tree.links| + Links(items[0]), items, L) <==> Faithful(items[0]) && Linkless(items[1..])
    decreases items, 3
  {
    hide TreeReady, Build, Faithful, Lay, WellFormed, Links, Msg, Linkless;
    var item := Lay(c, items[0]);
    var c1 := LinkChildren(item.core, node, [item.index], 1);
    AllWellFormedArePaired(items, L);
    LayGrows(c, items[0], 0);
    LayItemsKeeps(c1, node, items[1..], 1);
    assert KeptBut(item.core, LayItems(c, node, items, 0), node);
    HoldsEarlier(T, |c.tree.nodes|, item.core, LayItems(c, node, items, 0), node, |c.tree.nodes|);
    BuildLay(T, c, items[0], L);
    HoldsLater(T, |c.tree.nodes|, LayItems(c, node, items, 0), |c1.tree.nodes|);
    ListTail(T, c1, node, items[1..], 1, L);
    assert T.links[|item.core.tree.links|] == c1.tree.links[|item.core.tree.links|] == item.index;
    RunIsHead(T, |c.tree.links| + Links(items[0]), items, L);
  }

  lemma {:induction false} ListTail(T: Tree, c: Core, node: nat, items: seq<Wire>, done: nat, L: Limits)
    requires TreeReady(T) && AllWellFormed(items, L) && c.pending == NO_PENDING && node < |c.tree.nodes|
    requires Holds(T, |c.tree.nodes|, LayItems(c, node, items, done))
    ensures |c.tree.links| + |items| <= |T.links|
    ensures RunIs(T, |c.tree.links|, items, L) <==> Linkless(items)
    decreases items, 2
  {
    hide TreeReady, Build, Faithful, Lay, WellFormed, Links, Msg, Holds, LinkChildren;
    HoldsSize(T, |c.tree.nodes|, LayItems(c, node, items, done));
    if items != [] {
      var item := Lay(c, items[0]);
      var c1 := LinkChildren(item.core, node, [item.index], done + 1);
      AllWellFormedArePaired(items, L);
      LayGrows(c, items[0], 0);
      AfterItem(item.core, node, item.index, done + 1);
      HoldsLater(T, |c.tree.nodes|, LayItems(c, node, items, done), |c1.tree.nodes|);
      ListTail(T, c1, node, items[1..], done + 1, L);
      ListHead(T, c, node, items, done, L);
      RunIsHead(T, |c.tree.links|, items, L);
      assert Linkless(items) <==> Links(items[0]) == 0 && Linkless(items[1..]) by {
        LinklessHead(items);
      }
    }
  }

  /** The first link of the run leads to the first item exactly if that item pushed none itself. */
  lemma {:induction false} ListHead(T: Tree, c: Core, node: nat, items: seq<Wire>, done: nat, L: Limits)
    requires TreeReady(T) && AllWellFormed(items, L) && c.pending == NO_PENDING && node < |c.tree.nodes| && items != []
    requires Holds(T, |c.tree.nodes|, LayItems(c, node, items, done))
    ensures |c.tree.links| < |T.links| && T.links[|c.tree.links|] < |T.nodes|
    ensures Build(T, T.links[|c.tree.links|]) == Msg(items[0], L) <==> Links(items[0]) == 0
    decreases items, 1
  {
    hide TreeReady, Build, Faithful, Lay, WellFormed, Links, Msg, LinkChildren;
    var item := Lay(c, items[0]);
    var c1 := LinkChildren(item.core, node, [item.index], done + 1);
    AllWellFormedArePaired(items, L);
    LayGrows(c, items[0], 0);
    AfterItem(item.core, node, item.index, done + 1);
    LayItemsKeeps(c1, node, items[1..], done + 1);
    ItemKept(item.core, c1, LayItems(c, node, items, done), node, item.index, done + 1);
    HoldsEarlier(T, |c.tree.nodes|, item.core, LayItems(c, node, items, done), node, |c.tree.nodes|);
    LinksInRange(T);
    if Links(items[0]) == 0 {
      BuildLay(T, c, items[0], L);
      LinklessFaithful(items[0]);
      assert T.links[|c.tree.links|] == c1.tree.links[|c.tree.links|] == item.index;
    } else {
      FirstLinkIsLeaf(T, c, items[0]);
      MsgIsLeaf(items[0], L);
    }
  }

  lemma ItemKept(c: Core, c1: Core, c2: Core, node: nat, child: nat, count: nat)
    requires node < |c.tree.nodes| && c1 == LinkChildren(c, node, [child], count) && KeptBut(c1, c2, node)
    ensures KeptBut(c, c2, node)
  {
  }

  lemma LinklessHead(ws: seq<Wire>)
    requires ws != []
    ensures Linkless(ws) <==> Links(ws[0]) == 0 && Linkless(ws[1..])
  {
    hide Links;
    assert forall i :: 0 <= i < |ws| ==> ws[i] == if i == 0 then ws[0] else ws[1..][i - 1];
  }

  lemma AfterItem(c: Core, node: nat, child: nat, count: nat)
    requires node < |c.tree.nodes|
    ensures
      var c1 := LinkChildren(c, node, [child], count);
      |c1.tree.nodes| == |c.tree.nodes| && c1.tree.links == c.tree.links + [child] && c1.pending == c.pending
  {
  }

  // ----- maps -----

  lemma MapIs(n: Node, b: Body, children: seq<Message>, L: Limits)
    requires NodeShape(n) && b.Entries? && BodyText(b, L) && AllWellFormed(b.items, L) && n.kind == Map && n.i64 != -1 && |children| % 2 == 0
    ensures ValueOf(n, children) == MsgBody(b, L) <==> children == MsgAll(b.items, L)
  {
    PairsInjective(children, MsgAll(b.items, L));
  }

  lemma {:induction false} BuildEntries(T: Tree, c: Core, b: Body, L: Limits)
    requires TreeReady(T) && b.Entries? && BodyText(b, L) && AllWellFormed(b.items, L)
    requires Holds(T, |c.tree.nodes|, LayBody(c, b).core) && (c.pending.count > 0 ==> c.pending.first + c.pending.count <= |T.links|)
    ensures RootShape(T, c)
    ensures
      var n := T.nodes[|c.tree.nodes|];
      ValueOf(n, BuildRun(T, n.firstChild, n.childCount)) == MsgBody(b, L) <==> FaithfulBody(b)
    decreases b, 3
  {
    hide TreeReady, BuildRun, ValueOf, MsgBody, Faithful, Links, Linkless, LayEntries, Holds, AddNode, WellFormed, RunIs, MsgAll;
    var node, items := |c.tree.nodes|, b.items;
    MapNode(T, c, b, L);
    RootShapeOf(T, c);
    if items == [] {
      BuildRunLast(T, T.nodes[node].firstChild, 0);
    } else {
      var c2 := AddNode(c, OpenNode(Map, |items| / 2, |c.tree.links|));
      BuildFirstEntry(T, c2, node, items, L);
      RunIsBuildRun(T, |c2.tree.links| + Links(items[0]) + Links(items[1]), items, L);
    }
    MapIs(T.nodes[node], b, BuildRun(T, T.nodes[node].firstChild, T.nodes[node].childCount), L);
  }

  lemma RunIsTwo(T: Tree, first: nat, ws: seq<Wire>, L: Limits)
    requires TreeReady(T) && AllWellFormed(ws, L) && first + |ws| <= |T.links| && |ws| >= 2
    ensures RunIs(T, first, ws, L) <==>
      Build(T, T.links[first]) == Msg(ws[0], L) && Build(T, T.links[first + 1]) == Msg(ws[1], L) && RunIs(T, first + 2, ws[2..], L)
  {
    hide Build, Msg, TreeReady, WellFormed;
    RunIsHead(T, first, ws, L);
    RunIsHead(T, first + 1, ws[1..], L);
    assert ws[1..][1..] == ws[2..];
  }

  lemma {:induction false} BuildFirstEntry(T: Tree, c: Core, node: nat, items: seq<Wire>, L: Limits)
    requires TreeReady(T) && AllWellFormed(items, L) && |items| >= 2 && |items| % 2 == 0 && c.pending == NO_PENDING && node < |c.tree.nodes|
    requires Holds(T, |c.tree.nodes|, LayEntries(c, node, items, 0))
    ensures |c.tree.links| + Links(items[0]) + Links(items[1]) + |items| <= |T.links|
    ensures RunIs(T, |c.tree.links| + Links(items[0]) + Links(items[1]), items, L) <==> Faithful(items[0]) && Faithful(items[1]) && Linkless(items[2..])
    decreases items, 5
  {
    hide TreeReady, Build, Faithful, Lay, WellFormed, Links, Msg, Linkless;
    var key := Lay(c, items[0]);
    var value := Lay(key.core, items[1]);
    var q := |c.tree.links| + Links(items[0]) + Links(items[1]);
    EntryLinks(T, c, node, items, 0, L);
    BuildPair(T, c, items, L);
    MapTail(T, LinkChildren(value.core, node, [key.index, value.index], 2), node, items[2..], 1, L);
    RunIsTwo(T, q, items, L);
  }

  /** After a key and a value, their two links; what was laid stays as it is. */
  lemma EntryLinks(T: Tree, c: Core, node: nat, items: seq<Wire>, done: nat, L: Limits)
    requires AllWellFormed(items, L) && |items| >= 2 && c.pending == NO_PENDING && node < |c.tree.nodes|
    requires Holds(T, |c.tree.nodes|, LayEntries(c, node, items, done))
    ensures
      var key := Lay(c, items[0]);
      var value := Lay(key.core, items[1]);
      var c1 := LinkChildren(value.core, node, [key.index, value.index], (done + 1) * 2);
      var q := |c.tree.links| + Links(items[0]) + Links(items[1]);
      Holds(T, |c.tree.nodes|, value.core) && Holds(T, |c1.tree.nodes|, LayEntries(c1, node, items[2..], done + 1)) &&
      c1.pending == NO_PENDING && |c1.tree.links| == q + 2 <= |T.links| && node < |c1.tree.nodes| && T.links[q] == key.index && T.links[q + 1] == value.index
  {
    hide Lay, WellFormed, Links;
    var key := Lay(c, items[0]);
    var value := Lay(key.core, items[1]);
    var c1 := LinkChildren(value.core, node, [key.index, value.index], (done + 1) * 2);
    AllWellFormedArePaired(items, L);
    LayPairGrows(c, items, 0);
    LayEntriesKeeps(c1, node, items[2..], done + 1);
    assert KeptBut(value.core, LayEntries(c, node, items, done), node);
    HoldsEarlier(T, |c.tree.nodes|, value.core, LayEntries(c, node, items, done), node, |c.tree.nodes|);
    HoldsLater(T, |c.tree.nodes|, LayEntries(c, node, items, done), |c1.tree.nodes|);
    var q := |c.tree.links| + Links(items[0]) + Links(items[1]);
    assert T.links[q] == c1.tree.links[q] && T.links[q + 1] == c1.tree.links[q + 1];
  }

  lemma {:induction false} MapTail(T: Tree, c: Core, node: nat, items: seq<Wire>, done: nat, L: Limits)
    requires TreeReady(T) && AllWellFormed(items, L) && |items| % 2 == 0 && c.pending == NO_PENDING && node < |c.tree.nodes|
    requires Holds(T, |c.tree.nodes|, LayEntries(c, node, items, done))
    ensures |c.tree.links| + |items| <= |T.links|
    ensures RunIs(T, |c.tree.links|, items, L) <==> Linkless(items)
    decreases items, 4
  {
    hide TreeReady, Build, Faithful, Lay, WellFormed, Links, Msg;
    if |items| >= 2 {
      var key := Lay(c, items[0]);
      var value := Lay(key.core, items[1]);
      EntryLinks(T, c, node, items, done, L);
      MapTail(T, LinkChildren(value.core, node, [key.index, value.index], (done + 1) * 2), node, items[2..], done + 1, L);
      RunIsTwo(T, |c.tree.links|, items, L);
      if Links(items[0]) == 0 && Links(items[1]) == 0 {
        BuildPair(T, c, items, L);
        LinklessFaithful(items[0]);
        LinklessFaithful(items[1]);
        assert Linkless(items) <==> Linkless(items[2..]) by {
          assert forall i :: 2 <= i < |items| ==> items[i] == items[2..][i - 2];
        }
      } else {
        EntryMisplaced(T, c, items, L);
      }
    }
  }

  /** If a later key or value pushes links, one of the two positions holds something too small. */
  lemma {:induction false} EntryMisplaced(T: Tree, c: Core, items: seq<Wire>, L: Limits)
    requires TreeReady(T) && AllWellFormed(items, L) && |items| >= 2 && c.pending == NO_PENDING
    requires Holds(T, |c.tree.nodes|, Lay(Lay(c, items[0]).core, items[1]).core)
    requires
      var q := |c.tree.links| + Links(items[0]) + Links(items[1]);
      q + 2 <= |T.links| && T.links[q] == Lay(c, items[0]).index
    requires Links(items[0]) + Links(items[1]) > 0
    ensures Build(T, T.links[|c.tree.links|]) != Msg(items[0], L) || Build(T, T.links[|c.tree.links| + 1]) != Msg(items[1], L)
    decreases items, 3
  {
    hide TreeReady, Build, Faithful, Lay, WellFormed, Links, Msg, Grown;
    var key := Lay(c, items[0]);
    var value := Lay(key.core, items[1]);
    AllWellFormedArePaired(items, L);
    hide Paired;
    LayGrows(c, items[0], 0);
    LayGrows(key.core, items[1], 0);
    HoldsGrown(T, |c.tree.nodes|, key.core, value.core, 0, Links(items[1]));
    HoldsLater(T, |c.tree.nodes|, value.core, |key.core.tree.nodes|);
    if Links(items[0]) > 0 {
      FirstLinkIsLeaf(T, c, items[0]);
      MsgIsLeaf(items[0], L);
    } else {
      GrownLinks(c, key.core, 0, 0);
      if Links(items[1]) == 1 {
        BuildPair(T, c, items, L);
        LinklessFaithful(items[0]);
        MsgIsLeaf(items[0], L);
        MsgIsLeaf(items[1], L);
      } else {
        SecondLinkIsThin(T, key.core, items[1]);
        MsgNotThin(items[1], L);
      }
    }
  }

  lemma GrownLinks(c: Core, c': Core, q: nat, n: nat)
    requires Grown(c, c', q, n)
    ensures |c'.tree.links| == |c.tree.links| + n
  {
  }
}
