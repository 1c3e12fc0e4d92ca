/** A flat list of rows with parent ids, made into a forest of nodes for a tree view. */
module BuildTree {
  import opened Wrappers
  import opened Forests

  datatype Item = Item(id: nat, parentId: Option<nat>, title: string)

  class Node {
    const item: Item
    var children: Option<seq<Node>>    // None until the first child comes

    constructor (item: Item)
      ensures this.item == item && children == None
    {
      this.item, children := item, None;
    }
  }

  // ---------- Where each item goes ----------

  function Ids(items: seq<Item>): set<nat> { set it | it in items :: it.id }

  /** Items without a parent in the list, in order. */
  function RootIds(items: seq<Item>, known: set<nat>): seq<nat> {
    if items == [] then []
    else
      var last := items[|items| - 1];
      RootIds(items[..|items| - 1], known)
      + if last.parentId.None? || last.parentId.value !in known then [last.id] else []
  }

  /** The children of p, in order. */
  function ChildIds(items: seq<Item>, p: nat): seq<nat> {
    if items == [] then []
    else
      var last := items[|items| - 1];
      ChildIds(items[..|items| - 1], p) + if last.parentId == Some(p) then [last.id] else []
  }

  /** These are the ids of the items at these positions, which increase. */
  ghost predicate InOrder(items: seq<Item>, ids: seq<nat>, at: seq<nat>) {
    && |at| == |ids|
    && (forall i | 0 <= i < |at| :: at[i] < |items| && ids[i] == items[at[i]].id)
    && (forall i, k | 0 <= i < k < |at| :: at[i] < at[k])
  }

  lemma OneMoreInOrder(items: seq<Item>, last: Item, ids: seq<nat>, at: seq<nat>)
    requires InOrder(items, ids, at)
    ensures InOrder(items + [last], ids + [], at) && InOrder(items + [last], ids + [last.id], at + [|items|])
  {
    assert ids + [] == ids;
  }

  /** The roots are the items without a parent in the list, each once and in the order of the list. */
  lemma {:induction false} RootsInOrder(items: seq<Item>, known: set<nat>) returns (at: seq<nat>)
    ensures InOrder(items, RootIds(items, known), at)
    ensures forall p: nat :: p in at <==>
              p < |items| && (items[p].parentId.None? || items[p].parentId.value !in known)
    decreases |items|
  {
    at := [];
    if items != [] {
      var init, last := items[..|items| - 1], items[|items| - 1];
      at := RootsInOrder(init, known);
      assert items == init + [last];
      OneMoreInOrder(init, last, RootIds(init, known), at);
      hide InOrder;
      if last.parentId.None? || last.parentId.value !in known { at := at + [|init|]; }
    }
  }

  /** The children of p are the items that name it as their parent, each once and in the order of the list. */
  lemma {:induction false} ChildrenInOrder(items: seq<Item>, p: nat) returns (at: seq<nat>)
    ensures InOrder(items, ChildIds(items, p), at)
    ensures forall q: nat :: q in at <==> q < |items| && items[q].parentId == Some(p)
    decreases |items|
  {
    at := [];
    if items != [] {
      var init, last := items[..|items| - 1], items[|items| - 1];
      at := ChildrenInOrder(init, p);
      assert items == init + [last];
      OneMoreInOrder(init, last, ChildIds(init, p), at);
      hide InOrder;
      if last.parentId == Some(p) { at := at + [|init|]; }
    }
  }

  ghost predicate AreNodes(nodes: map<nat, Node>, ids: seq<nat>, r: seq<Node>) {
    |r| == |ids| && forall i | 0 <= i < |r| :: ids[i] in nodes && r[i] == nodes[ids[i]]
  }

  function Kids(c: Option<seq<Node>>): seq<Node> { if c.Some? then c.value else [] }

  /** The last item with this id. */
  ghost predicate LastWith(items: seq<Item>, id: nat, it: Item) {
    exists i :: 0 <= i < |items| && items[i] == it && it.id == id && forall j | i < j < |items| :: items[j].id != id
  }

  ghost predicate Indexed(nodes: map<nat, Node>, items: seq<Item>) {
    && nodes.Keys == Ids(items)
    && (forall x | x in nodes :: LastWith(items, x, nodes[x].item))
    && (forall x, y | x in nodes && y in nodes && x != y :: nodes[x] != nodes[y])
  }

  /** The first loop: a node per id. */
  method MakeNodes(items: seq<Item>) returns (nodeById: map<nat, Node>)
    ensures Indexed(nodeById, items)
    ensures forall x | x in nodeById :: fresh(nodeById[x]) && nodeById[x].children == None
  {
    nodeById := map[];
    for i := 0 to |items|
      invariant Indexed(nodeById, items[..i])
      invariant forall x | x in nodeById :: fresh(nodeById[x]) && nodeById[x].children == None
    {
      var node := new Node(items[i]);
      OneMoreItem(items, i);
      nodeById := nodeById[items[i].id := node];
    }
    assert items[..|items|] == items;
  }

  /** These children are the nodes of these ids; an empty list is not stored. */
  ghost predicate LinkedAs(nodes: map<nat, Node>, ids: seq<nat>, children: Option<seq<Node>>) {
    AreNodes(nodes, ids, Kids(children)) && (children.Some? <==> ids != [])
  }

  method AddChild(parent: Node, node: Node)
    modifies parent
    ensures parent.children == Some(Kids(old(parent.children)) + [node])
  {
    if parent.children.None? { parent.children := Some([]); }
    parent.children := Some(parent.children.value + [node]);
  }

  /** The roots and each node's children are the nodes of the matching items, in the order of the list. */
  ghost predicate Built(items: seq<Item>, nodes: map<nat, Node>, roots: seq<Node>)
    reads nodes.Values
  {
    && Indexed(nodes, items)
    && AreNodes(nodes, RootIds(items, Ids(items)), roots)
    && (forall x | x in nodes :: LinkedAs(nodes, ChildIds(items, x), nodes[x].children))
  }

  method BuildTree(items: seq<Item>) returns (roots: seq<Node>, ghost nodes: map<nat, Node>)
    ensures Built(items, nodes, roots) && forall x | x in nodes :: fresh(nodes[x])
  {
    hide RootIds, ChildIds, LinkedAs, AreNodes, Ids, LastWith;
    var nodeById := MakeNodes(items);
    nodes := nodeById;
    roots := [];
    NoItems(nodes);
    assert items[..0] == [];
    for i := 0 to |items|
      invariant AreNodes(nodes, RootIds(items[..i], nodes.Keys), roots)
      invariant forall x | x in nodes :: LinkedAs(nodes, ChildIds(items[..i], x), nodes[x].children)
    {
      var item := items[i];
      NextItem(items, i, nodes.Keys);
      var node := nodeById[item.id];
      if item.parentId.Some? && item.parentId.value in nodeById {
        var parent := nodeById[item.parentId.value];
        PushChild(nodes, ChildIds(items[..i], item.parentId.value), parent.children, item.id);
        label before:
        AddChild(parent, node);
        forall x | x in nodes ensures LinkedAs(nodes, ChildIds(items[..i + 1], x), nodes[x].children) {
          if x != item.parentId.value {
            assert nodes[x] != parent && nodes[x].children == old@before(nodes[x].children);
          }
        }
      } else {
        PushNode(nodes, RootIds(items[..i], nodes.Keys), roots, item.id);
        roots := roots + [node];
      }
    }
    assert items[..|items|] == items;
  }

  lemma NoItems(nodes: map<nat, Node>)
    ensures AreNodes(nodes, RootIds([], nodes.Keys), []) && forall p: nat :: LinkedAs(nodes, ChildIds([], p), None)
  {
  }

  lemma PushNode(nodes: map<nat, Node>, ids: seq<nat>, r: seq<Node>, x: nat)
    requires x in nodes && AreNodes(nodes, ids, r)
    ensures AreNodes(nodes, ids + [x], r + [nodes[x]])
  {
  }

  lemma PushChild(nodes: map<nat, Node>, ids: seq<nat>, children: Option<seq<Node>>, x: nat)
    requires x in nodes && LinkedAs(nodes, ids, children)
    ensures LinkedAs(nodes, ids + [x], Some(Kids(children) + [nodes[x]]))
  {
    PushNode(nodes, ids, Kids(children), x);
  }

  lemma NextItem(items: seq<Item>, i: nat, known: set<nat>)
    requires i < |items|
    ensures var item := items[i];
      && item.id in Ids(items)
      && RootIds(items[..i + 1], known) == (if item.parentId.Some? && item.parentId.value in known
                                            then RootIds(items[..i], known)
                                            else RootIds(items[..i], known) + [item.id])
      && (item.parentId.Some? ==>
            ChildIds(items[..i + 1], item.parentId.value) == ChildIds(items[..i], item.parentId.value) + [item.id])
      && (forall p: nat | item.parentId != Some(p) :: ChildIds(items[..i + 1], p) == ChildIds(items[..i], p))
  {
    assert items[..i + 1][..i] == items[..i];
    assert items[i] in items;
  }

  lemma OneMoreItem(items: seq<Item>, i: nat)
    requires i < |items|
    ensures Ids(items[..i + 1]) == Ids(items[..i]) + {items[i].id}
    ensures LastWith(items[..i + 1], items[i].id, items[i])
    ensures forall x, it | x != items[i].id && LastWith(items[..i], x, it) :: LastWith(items[..i + 1], x, it)
  {
    assert items[..i + 1] == items[..i] + [items[i]];
    assert items[..i + 1][i] == items[i];
    forall x, it | x != items[i].id && LastWith(items[..i], x, it) ensures LastWith(items[..i + 1], x, it) {
      var j :| 0 <= j < i && items[..i][j] == it && it.id == x && forall k | j < k < i :: items[..i][k].id != x;
      assert items[..i + 1][j] == it;
      var seen := items[..i];
      assert items[..i + 1] == seen + [items[i]];
      assert forall k | j < k < |seen| :: seen[k].id != x;
    }
    forall it | it in items[..i] ensures it.id in Ids(items[..i + 1]) { assert it in items[..i + 1]; }
    assert items[i] in items[..i + 1];
  }

  // ---------- Every item in its place ----------

  ghost predicate DistinctIds(items: seq<Item>) {
    forall i, j | 0 <= i < j < |items| :: items[i].id != items[j].id
  }

  /** The parent of each id, as given. */
  function ParentMap(items: seq<Item>): Tree {
    if items == [] then map[]
    else var last := items[|items| - 1]; ParentMap(items[..|items| - 1])[last.id := last.parentId]
  }

  function Count(s: seq<nat>, x: nat): nat {
    if s == [] then 0 else Count(s[..|s| - 1], x) + if s[|s| - 1] == x then 1 else 0
  }

  function AllChildren(items: seq<Item>, level: seq<nat>): seq<nat> {
    if level == [] then []
    else AllChildren(items, level[..|level| - 1]) + ChildIds(items, level[|level| - 1])
  }

  /** The nodes k steps below the roots, from left to right. */
  function Level(items: seq<Item>, k: nat): seq<nat> {
    if k == 0 then RootIds(items, Ids(items)) else AllChildren(items, Level(items, k - 1))
  }

  lemma {:induction false} CountBoth(a: seq<nat>, b: seq<nat>, x: nat)
    ensures Count(a + b, x) == Count(a, x) + Count(b, x)
    decreases |b|
  {
    if b == [] {
      assert a + b == a;
    } else {
      assert (a + b)[..|a + b| - 1] == a + b[..|b| - 1];
      CountBoth(a, b[..|b| - 1], x);
    }
  }

  lemma CountOne(y: nat, x: nat)
    ensures Count([y], x) == (if x == y then 1 else 0) && Count([], x) == 0
  {
    assert [y][..0] == [];
  }

  lemma {:induction false} KnownIds(items: seq<Item>)
    ensures ParentMap(items).Keys == Ids(items)
    decreases |items|
  {
    if items != [] {
      var init, last := items[..|items| - 1], items[|items| - 1];
      KnownIds(init);
      assert items == init + [last];
      forall it | it in items ensures it in init || it == last { }
      assert last in items;
      forall it | it in init ensures it in items { }
    }
  }

  lemma NewId(items: seq<Item>)
    requires DistinctIds(items) && items != []
    ensures DistinctIds(items[..|items| - 1]) && items[|items| - 1].id !in ParentMap(items[..|items| - 1])
  {
    KnownIds(items[..|items| - 1]);
  }

  lemma {:induction false} CountRoots(items: seq<Item>, known: set<nat>, x: nat)
    requires DistinctIds(items)
    ensures var t := ParentMap(items);
      Count(RootIds(items, known), x) == if x in t && (t[x].None? || t[x].value !in known) then 1 else 0
    decreases |items|
  {
    if items != [] {
      var init, last := items[..|items| - 1], items[|items| - 1];
      NewId(items);
      CountRoots(init, known, x);
      CountOne(last.id, x);
      CountBoth(RootIds(init, known), [last.id], x);
      assert RootIds(init, known) + [] == RootIds(init, known);
    }
  }

  lemma {:induction false} CountChildren(items: seq<Item>, p: nat, x: nat)
    requires DistinctIds(items)
    ensures Count(ChildIds(items, p), x) == if x in ParentMap(items) && ParentMap(items)[x] == Some(p) then 1 else 0
    decreases |items|
  {
    if items != [] {
      var init, last := items[..|items| - 1], items[|items| - 1];
      NewId(items);
      CountChildren(init, p, x);
      CountOne(last.id, x);
      CountBoth(ChildIds(init, p), [last.id], x);
      assert ChildIds(init, p) + [] == ChildIds(init, p);
    }
  }

  /** An item comes once for each time its parent does. */
  lemma {:induction false} CountAllChildren(items: seq<Item>, level: seq<nat>, x: nat)
    requires DistinctIds(items)
    ensures Count(AllChildren(items, level), x)
         == if x in ParentMap(items) && ParentMap(items)[x].Some? then Count(level, ParentMap(items)[x].value) else 0
    decreases |level|
  {
    if level != [] {
      var init, last := level[..|level| - 1], level[|level| - 1];
      CountAllChildren(items, init, x);
      CountChildren(items, last, x);
      CountBoth(AllChildren(items, init), ChildIds(items, last), x);
    }
  }

  /** The climb from x over parents in the list has exactly k steps. */
  predicate DepthIs(t: Tree, x: nat, k: nat) { Up(t, x, k).Some? && Up(t, x, k + 1).None? }

  /** With distinct ids an item is on level k once if its parents lead out of the list in k steps, and
      not at all otherwise. */
  lemma {:induction false} OnLevelExactlyWhen(items: seq<Item>, k: nat, x: nat)
    requires DistinctIds(items)
    ensures Count(Level(items, k), x) == if DepthIs(ParentMap(items), x, k) then 1 else 0
    decreases k
  {
    hide ParentMap, Ids, Count, RootIds, AllChildren;
    var t := ParentMap(items);
    KnownIds(items);
    if k == 0 {
      CountRoots(items, Ids(items), x);
      UpStep(t, x, 0);
    } else {
      CountAllChildren(items, Level(items, k - 1), x);
      if x in t && t[x].Some? { OnLevelExactlyWhen(items, k - 1, t[x].value); }
    }
  }

  /** Nothing is placed twice: an item is on one level at most. */
  lemma OneLevelAtMost(t: Tree, x: nat, j: nat, k: nat)
    requires DepthIs(t, x, j) && DepthIs(t, x, k)
    ensures j == k
  {
    if j < k { UpEnds(t, x, j + 1, k); }
    if k < j { UpEnds(t, x, k + 1, j); }
  }

  lemma {:induction false} FindDepth(t: Tree, x: nat, n: nat) returns (k: nat)
    requires x in t && n > 0 && Up(t, x, n) == None
    ensures DepthIs(t, x, k)
    decreases n
  {
    if Up(t, x, n - 1).None? { k := FindDepth(t, x, n - 1); } else { k := n - 1; }
  }

  /** An item is in the forest, once, exactly when its parents lead to a root or out of the list;
      the items of a cycle, and those below it, are nowhere. */
  lemma PlacedExactlyWhenRooted(items: seq<Item>, x: nat)
    requires DistinctIds(items) && x in Ids(items)
    ensures (exists k: nat :: Count(Level(items, k), x) == 1) <==> Rooted(ParentMap(items), x)
    ensures forall k: nat :: Count(Level(items, k), x) <= 1
    ensures forall j: nat, k: nat :: Count(Level(items, j), x) == 1 && Count(Level(items, k), x) == 1 ==> j == k
  {
    var t := ParentMap(items);
    KnownIds(items);
    forall k: nat ensures Count(Level(items, k), x) == if DepthIs(t, x, k) then 1 else 0 {
      OnLevelExactlyWhen(items, k, x);
    }
    forall j: nat, k: nat | DepthIs(t, x, j) && DepthIs(t, x, k) ensures j == k { OneLevelAtMost(t, x, j, k); }
    if Rooted(t, x) {
      var n: nat :| Up(t, x, n) == None;
      var k := FindDepth(t, x, n);
      assert Count(Level(items, k), x) == 1;
    }
    if k: nat :| Count(Level(items, k), x) == 1 { assert Up(t, x, k + 1) == None; }
  }

  // ---------- The nodes that were built ----------

  ghost function AllKids(level: seq<Node>): (kids: seq<Node>)
    reads level
    ensures forall n | n in kids :: exists i :: 0 <= i < |level| && n in Kids(level[i].children)
  {
    if level == [] then []
    else
      var last := level[|level| - 1];
      assert last in level;
      AllKids(level[..|level| - 1]) + Kids(last.children)
  }

  ghost predicate Closed(nodes: set<Node>)
    reads nodes
  {
    forall n | n in nodes :: forall c | c in Kids(n.children) :: c in nodes
  }

  /** The nodes k steps below the roots, by following `children`. */
  ghost function NodesAt(nodes: set<Node>, roots: seq<Node>, k: nat): (level: seq<Node>)
    requires Closed(nodes) && forall n | n in roots :: n in nodes
    reads nodes
    ensures forall n | n in level :: n in nodes
  {
    if k == 0 then roots else AllKids(NodesAt(nodes, roots, k - 1))
  }

  lemma BuiltIsClosed(items: seq<Item>, nodes: map<nat, Node>, roots: seq<Node>)
    requires Built(items, nodes, roots)
    ensures Closed(nodes.Values) && forall n | n in roots :: n in nodes.Values
  {
    hide RootIds, ChildIds, Indexed;
    forall n, c | n in nodes.Values && c in Kids(n.children) ensures c in nodes.Values {
      var x :| x in nodes && nodes[x] == n;
      assert LinkedAs(nodes, ChildIds(items, x), n.children);
    }
  }

  lemma {:induction false} KidsOfLevel(items: seq<Item>, nodes: map<nat, Node>, ids: seq<nat>, level: seq<Node>)
    requires forall x | x in nodes :: LinkedAs(nodes, ChildIds(items, x), nodes[x].children)
    requires AreNodes(nodes, ids, level)
    ensures AreNodes(nodes, AllChildren(items, ids), AllKids(level))
    decreases |ids|
  {
    hide ChildIds;
    if ids != [] {
      var init, last := ids[..|ids| - 1], ids[|ids| - 1];
      KidsOfLevel(items, nodes, init, level[..|level| - 1]);
      assert LinkedAs(nodes, ChildIds(items, last), nodes[last].children);
    }
  }

  /** The levels of the forest that was built are the nodes of the levels of the list. */
  lemma {:induction false} LevelsAreBuilt(items: seq<Item>, nodes: map<nat, Node>, roots: seq<Node>, k: nat)
    requires Built(items, nodes, roots)
    ensures Closed(nodes.Values) && forall n | n in roots :: n in nodes.Values
    ensures AreNodes(nodes, Level(items, k), NodesAt(nodes.Values, roots, k))
    decreases k
  {
    hide RootIds, ChildIds, LinkedAs, Indexed, Closed;
    BuiltIsClosed(items, nodes, roots);
    if k > 0 {
      LevelsAreBuilt(items, nodes, roots, k - 1);
      KidsOfLevel(items, nodes, Level(items, k - 1), NodesAt(nodes.Values, roots, k - 1));
    }
  }

  lemma {:induction false} CountPositive(s: seq<nat>, i: nat)
    requires i < |s|
    ensures Count(s, s[i]) > 0
    decreases |s|
  {
    if i < |s| - 1 { CountPositive(s[..|s| - 1], i); }
  }

  lemma {:induction false} CountFinds(s: seq<nat>, x: nat) returns (i: nat)
    requires Count(s, x) > 0
    ensures i < |s| && s[i] == x
    decreases |s|
  {
    if s[|s| - 1] == x { i := |s| - 1; } else { i := CountFinds(s[..|s| - 1], x); }
  }

  lemma CountTwo(s: seq<nat>, i: nat, j: nat)
    requires i < j < |s| && s[i] == s[j]
    ensures Count(s, s[i]) > 1
  {
    assert s == s[..j] + s[j..];
    CountBoth(s[..j], s[j..], s[i]);
    CountPositive(s[..j], i);
    CountPositive(s[j..], 0);
  }

  /** The node with this id stands at position i of level k. */
  ghost predicate StandsAt(nodes: map<nat, Node>, roots: seq<Node>, x: nat, k: nat, i: nat)
    requires Closed(nodes.Values) && forall n | n in roots :: n in nodes.Values
    reads nodes.Values
  {
    var level := NodesAt(nodes.Values, roots, k);
    x in nodes && i < |level| && level[i] == nodes[x]
  }

  /** In the forest that was built, from distinct ids, an item's node stands somewhere exactly when its
      parents lead to a root or out of the list, and it stands in one place only; the nodes of a cycle,
      and those below it, cannot be reached from the roots. */
  lemma NodeStandsExactlyWhenRooted(items: seq<Item>, nodes: map<nat, Node>, roots: seq<Node>, x: nat)
    requires DistinctIds(items) && Built(items, nodes, roots)
    ensures Closed(nodes.Values) && forall n | n in roots :: n in nodes.Values
    ensures x in nodes ==> ((exists k: nat, i: nat :: StandsAt(nodes, roots, x, k, i)) <==> Rooted(ParentMap(items), x))
    ensures forall k: nat, i: nat, k': nat, i': nat |
              StandsAt(nodes, roots, x, k, i) && StandsAt(nodes, roots, x, k', i') :: k == k' && i == i'
  {
    hide ParentMap, Count, Level, NodesAt, Rooted, RootIds, ChildIds, LinkedAs, Closed;
    BuiltIsClosed(items, nodes, roots);
    if x in nodes { PlacedExactlyWhenRooted(items, x); }
    forall k: nat, i: nat | StandsAt(nodes, roots, x, k, i)
      ensures i < |Level(items, k)| && Level(items, k)[i] == x && Count(Level(items, k), x) == 1
    {
      LevelsAreBuilt(items, nodes, roots, k);
      CountPositive(Level(items, k), i);
    }
    forall k: nat, i: nat, i': nat | StandsAt(nodes, roots, x, k, i) && StandsAt(nodes, roots, x, k, i')
      ensures i == i'
    {
      if i < i' { CountTwo(Level(items, k), i, i'); }
      if i' < i { CountTwo(Level(items, k), i', i); }
    }
    if k: nat :| x in nodes && Count(Level(items, k), x) == 1 {
      LevelsAreBuilt(items, nodes, roots, k);
      var i := CountFinds(Level(items, k), x);
      assert StandsAt(nodes, roots, x, k, i);
    }
  }
}
