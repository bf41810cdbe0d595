/** How much a value adds to the two vectors, and where its links may point. */
module Layout {
  import opened Kinds
  import opened Lexer
  import opened Parser
  import opened Wire

  /** How many links a value pushes: one for each value inside it, at any depth. */
  function Links(w: Wire): nat
    decreases w, 2
  {
    LinksGroups(w.attrs) + LinksBody(w.body)
  }

  function LinksGroups(gs: seq<Group>): nat
    decreases gs, 1
  {
    if gs == [] then 0 else LinksAll(gs[0].items) + LinksGroups(gs[1..])
  }

  function LinksBody(b: Body): nat
    decreases b, 1
  {
    match b
    case List(_, _, items) => LinksAll(items)
    case Entries(_, items) => LinksAll(items)
    case _ => 0
  }

  function LinksAll(ws: seq<Wire>): nat
    decreases ws, 0
  {
    if ws == [] then 0 else Links(ws[0]) + 1 + LinksAll(ws[1..])
  }

  /** Keys and values come in pairs, at every depth. */
  predicate Paired(w: Wire)
    decreases w, 2
  {
    (forall i :: 0 <= i < |w.attrs| ==> |w.attrs[i].items| % 2 == 0 && AllPaired(w.attrs[i].items)) &&
    match w.body
    case List(_, _, items) => AllPaired(items)
    case Entries(_, items) => |items| % 2 == 0 && AllPaired(items)
    case _ => true
  }

  predicate AllPaired(ws: seq<Wire>)
    decreases ws, 1
  {
    forall i :: 0 <= i < |ws| ==> Paired(ws[i])
  }

  /** The runs of a node start at or after link position `q`. */
  predicate Above(n: Node, q: nat) {
    (n.childCount > 0 ==> q <= n.firstChild) && (n.attrCount > 0 ==> q <= n.firstAttr)
  }

  /** From `c` to `c'` nodes and links were only added: `n` links, all to new nodes, and new nodes have their runs above `q`. */
  ghost predicate Grown(c: Core, c': Core, q: nat, n: nat) {
    |c.tree.nodes| <= |c'.tree.nodes| &&
    (forall i :: 0 <= i < |c.tree.nodes| ==> c'.tree.nodes[i] == c.tree.nodes[i]) &&
    |c'.tree.links| == |c.tree.links| + n &&
    (forall p :: 0 <= p < |c.tree.links| ==> c'.tree.links[p] == c.tree.links[p]) &&
    (forall i :: |c.tree.nodes| <= i < |c'.tree.nodes| ==> Above(c'.tree.nodes[i], q)) &&
    (forall p :: |c.tree.links| <= p < |c'.tree.links| ==> |c.tree.nodes| <= c'.tree.links[p] < |c'.tree.nodes|)
  }

  ghost predicate LowPending(c: Core, q: nat) {
    q <= |c.tree.links| && (c.pending.count > 0 ==> q <= c.pending.first)
  }

  lemma GrownTransitive(a: Core, b: Core, c: Core, q: nat, n: nat, m: nat)
    requires Grown(a, b, q, n) && Grown(b, c, q, m)
    ensures Grown(a, c, q, n + m)
  {
  }

  lemma AddNodeGrows(c: Core, n: Node, q: nat)
    requires LowPending(c, q) && n.childCount == 0 && n.attrCount == 0
    ensures Grown(c, AddNode(c, n), q, 0) && AddNode(c, n).pending == NO_PENDING
  {
  }

  lemma LinkGrows(c0: Core, c: Core, node: nat, children: seq<nat>, count: nat, q: nat, n: nat)
    requires Grown(c0, c, q, n) && |c0.tree.nodes| <= node < |c.tree.nodes| && q <= |c.tree.links|
    requires forall k :: 0 <= k < |children| ==> |c0.tree.nodes| <= children[k] < |c.tree.nodes|
    ensures Grown(c0, LinkChildren(c, node, children, count), q, n + |children|)
  {
  }

  lemma PendingGrows(c0: Core, c: Core, key: nat, value: nat, q: nat, n: nat)
    requires Grown(c0, c, q, n) && c.pending.count == 0 && q <= |c0.tree.links|
    requires |c0.tree.nodes| <= key < |c.tree.nodes| && |c0.tree.nodes| <= value < |c.tree.nodes|
    ensures
      var c' := PendingPush(PendingPush(c, key), value);
      Grown(c0, c', q, n + 2) && c'.pending == Pending(|c.tree.links|, 2) && LowPending(c', q)
  {
  }

  /** One value adds `Links(w)` links, leaves older nodes alone, and uses up the pending attributes. */
  lemma {:induction false} LayGrows(c: Core, w: Wire, q: nat)
    requires Paired(w) && LowPending(c, q)
    ensures
      var r := Lay(c, w);
      Grown(c, r.core, q, Links(w)) && r.core.pending == NO_PENDING && |c.tree.nodes| <= r.index < |r.core.tree.nodes|
    decreases w, 4
  {
    LayGroupsGrows(c, w.attrs, q);
    var c1 := LayGroups(c, w.attrs);
    LayBodyGrows(c1, w.body, q);
    GrownTransitive(c, c1, Lay(c, w).core, q, LinksGroups(w.attrs), LinksBody(w.body));
  }

  lemma {:induction false} LayGroupsGrows(c: Core, gs: seq<Group>, q: nat)
    requires LowPending(c, q)
    requires forall i :: 0 <= i < |gs| ==> |gs[i].items| % 2 == 0 && AllPaired(gs[i].items)
    ensures Grown(c, LayGroups(c, gs), q, LinksGroups(gs)) && LowPending(LayGroups(c, gs), q)
    decreases gs, 3
  {
    if gs != [] {
      var c1 := LayAttrs(c, gs[0].items);
      LayAttrsGrows(c, gs[0].items, q);
      LayGroupsGrows(c1, gs[1..], q);
      GrownTransitive(c, c1, LayGroups(c, gs), q, LinksAll(gs[0].items), LinksGroups(gs[1..]));
    }
  }

  lemma LinksTwo(items: seq<Wire>)
    requires |items| >= 2
    ensures LinksAll(items) == Links(items[0]) + Links(items[1]) + 2 + LinksAll(items[2..])
  {
    assert items[1..][1..] == items[2..];
    assert LinksAll(items[1..]) == Links(items[1]) + 1 + LinksAll(items[2..]);
  }

  /** A key and a value laid one after the other. */
  lemma {:induction false} LayPairGrows(c: Core, items: seq<Wire>, q: nat)
    requires |items| >= 2 && AllPaired(items) && LowPending(c, q)
    ensures
      var key := Lay(c, items[0]);
      var value := Lay(key.core, items[1]);
      Grown(c, value.core, q, Links(items[0]) + Links(items[1])) && value.core.pending == NO_PENDING &&
      |c.tree.nodes| <= key.index < |value.core.tree.nodes| && |c.tree.nodes| <= value.index < |value.core.tree.nodes|
    decreases items, 0
  {
    hide Lay, Links, Paired;
    var key := Lay(c, items[0]);
    LayGrows(c, items[0], q);
    LayGrows(key.core, items[1], q);
    GrownTransitive(c, key.core, Lay(key.core, items[1]).core, q, Links(items[0]), Links(items[1]));
  }

  lemma {:induction false} LayAttrsGrows(c: Core, items: seq<Wire>, q: nat)
    requires |items| % 2 == 0 && AllPaired(items) && LowPending(c, q)
    ensures Grown(c, LayAttrs(c, items), q, LinksAll(items)) && LowPending(LayAttrs(c, items), q)
    decreases items, 1
  {
    hide Lay, Links, Paired;
    if |items| >= 2 {
      var key := Lay(c, items[0]);
      var value := Lay(key.core, items[1]);
      LayPairGrows(c, items, q);
      PendingGrows(c, value.core, key.index, value.index, q, Links(items[0]) + Links(items[1]));
      var c1 := PendingPush(PendingPush(value.core, key.index), value.index);
      LayAttrsGrows(c1, items[2..], q);
      LinksTwo(items);
      hide Grown, PendingPush;
      GrownTransitive(c, c1, LayAttrs(c1, items[2..]), q, Links(items[0]) + Links(items[1]) + 2, LinksAll(items[2..]));
    }
  }

  lemma {:induction false} LayBodyGrows(c: Core, b: Body, q: nat)
    requires LowPending(c, q) && (b.List? ==> AllPaired(b.items)) && (b.Entries? ==> |b.items| % 2 == 0 && AllPaired(b.items))
    ensures
      var r := LayBody(c, b);
      Grown(c, r.core, q, LinksBody(b)) && r.core.pending == NO_PENDING && r.index == |c.tree.nodes|
    decreases b, 3
  {
    hide Grown;
    match b
    case List(k, _, items) =>
      var n := OpenNode(k, |items|, |c.tree.links|);
      AddNodeGrows(c, n, q);
      LayItemsGrows(c, AddNode(c, n), |c.tree.nodes|, items, 0, q, 0);
    case Entries(_, items) =>
      var n := OpenNode(Map, |items| / 2, |c.tree.links|);
      AddNodeGrows(c, n, q);
      LayEntriesGrows(c, AddNode(c, n), |c.tree.nodes|, items, 0, q, 0);
    case _ => AddNodeGrows(c, LeafOf(b), q);
  }

  lemma {:induction false} LayItemsGrows(c0: Core, c: Core, node: nat, items: seq<Wire>, done: nat, q: nat, n: nat)
    requires Grown(c0, c, q, n) && |c0.tree.nodes| <= node < |c.tree.nodes| && c.pending == NO_PENDING && q <= |c.tree.links|
    requires AllPaired(items)
    ensures Grown(c0, LayItems(c, node, items, done), q, n + LinksAll(items)) && LayItems(c, node, items, done).pending == NO_PENDING
    decreases items, 1
  {
    hide Lay, Links, Paired;
    if items != [] {
      var item := Lay(c, items[0]);
      LayGrows(c, items[0], q);
      GrownTransitive(c0, c, item.core, q, n, Links(items[0]));
      LinkGrows(c0, item.core, node, [item.index], done + 1, q, n + Links(items[0]));
      LayItemsGrows(c0, LinkChildren(item.core, node, [item.index], done + 1), node, items[1..], done + 1, q, n + Links(items[0]) + 1);
    }
  }

  lemma {:induction false} LayEntriesGrows(c0: Core, c: Core, node: nat, items: seq<Wire>, done: nat, q: nat, n: nat)
    requires Grown(c0, c, q, n) && |c0.tree.nodes| <= node < |c.tree.nodes| && c.pending == NO_PENDING && q <= |c.tree.links|
    requires |items| % 2 == 0 && AllPaired(items)
    ensures Grown(c0, LayEntries(c, node, items, done), q, n + LinksAll(items)) && LayEntries(c, node, items, done).pending == NO_PENDING
    decreases items, 1
  {
    hide Lay, Links, Paired;
    if |items| >= 2 {
      var key := Lay(c, items[0]);
      var value := Lay(key.core, items[1]);
      var m := Links(items[0]) + Links(items[1]);
      LayPairGrows(c, items, q);
      GrownTransitive(c0, c, value.core, q, n, m);
      LinkGrows(c0, value.core, node, [key.index, value.index], (done + 1) * 2, q, n + m);
      LinksTwo(items);
      LayEntriesGrows(c0, LinkChildren(value.core, node, [key.index, value.index], (done + 1) * 2), node, items[2..], done + 1, q, n + m + 2);
    }
  }

  lemma {:induction false} WellFormedIsPaired(w: Wire, L: Limits)
    requires WellFormed(w, L)
    ensures Paired(w)
    decreases w, 1
  {
    forall i | 0 <= i < |w.attrs|
      ensures AllPaired(w.attrs[i].items)
    {
      AllWellFormedArePaired(w.attrs[i].items, L);
    }
    if w.body.List? || w.body.Entries? {
      AllWellFormedArePaired(w.body.items, L);
    }
  }

  lemma {:induction false} AllWellFormedArePaired(ws: seq<Wire>, L: Limits)
    requires AllWellFormed(ws, L)
    ensures AllPaired(ws)
    decreases ws, 0
  {
    forall i | 0 <= i < |ws|
      ensures Paired(ws[i])
    {
      WellFormedIsPaired(ws[i], L);
    }
  }
}
