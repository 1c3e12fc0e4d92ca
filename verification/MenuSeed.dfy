/** The built-in menus: a manifest tree, put into the menu table by key. Here as values; RbacSeed
    walks the same tree and writes the table. */
module MenuSeed {
  import opened Wrappers
  import opened Forests

  datatype Fields = Fields(name: string, menuType: string, path: string, component: Option<string>,
                           perms: Option<string>, icon: string, sortOrder: int, visible: bool)

  // A node of the manifest.
  datatype SeedMenu = SeedMenu(key: string, fields: Fields, children: seq<SeedMenu>)

  // A stored menu; one that a user made has no key.
  datatype Menu = Menu(key: Option<string>, parent: Option<nat>, fields: Fields, active: bool)

  type Menus = map<nat, Menu>

  function Parents(menus: Menus): Tree { map m | m in menus :: menus[m].parent }

  ghost predicate KeysUnique(menus: Menus) {
    forall m, n | m in menus && n in menus && m != n && menus[m].key.Some? :: menus[m].key != menus[n].key
  }

  /** A table as the database keeps it: ids handed out in order, keys unique, no cycle. */
  ghost predicate Sound(menus: Menus, nextId: nat) {
    && Forest(Parents(menus)) && KeysUnique(menus)
    && forall m | m in menus :: m < nextId
  }

  // ---------- The order of the walk ----------

  // A node of the manifest together with the key of the node above it.
  datatype Entry = Entry(key: string, fields: Fields, parent: Option<string>)

  function Entries(nodes: seq<SeedMenu>, parent: Option<string>): seq<Entry>
    decreases nodes
  {
    if nodes == [] then [] else EntriesOf(nodes[0], parent) + Entries(nodes[1..], parent)
  }

  function EntriesOf(node: SeedMenu, parent: Option<string>): seq<Entry>
    decreases node
  {
    [Entry(node.key, node.fields, parent)] + Entries(node.children, Some(node.key))
  }

  ghost predicate KeysDistinct(es: seq<Entry>) {
    forall i, j | 0 <= i < |es| && 0 <= j < |es| && i != j :: es[i].key != es[j].key
  }

  function Keys(es: seq<Entry>): set<string> { set e | e in es :: e.key }

  /** The parent of es[i] is in `before` or earlier in the list. */
  predicate ParentKnown(es: seq<Entry>, i: nat, before: set<string>)
    requires i < |es|
  {
    es[i].parent.Some? ==> es[i].parent.value in before + Keys(es[..i])
  }

  ghost predicate ParentsFirst(es: seq<Entry>, before: set<string>) {
    forall i | 0 <= i < |es| :: ParentKnown(es, i, before)
  }

  lemma KeysOfBoth(a: seq<Entry>, b: seq<Entry>)
    ensures Keys(a + b) == Keys(a) + Keys(b)
  {
    forall e | e in a ensures e.key in Keys(a + b) { assert e in a + b; }
    forall e | e in b ensures e.key in Keys(a + b) { assert e in a + b; }
  }

  lemma ParentsFirstOfBoth(a: seq<Entry>, b: seq<Entry>, before: set<string>)
    requires ParentsFirst(a, before) && ParentsFirst(b, before + Keys(a))
    ensures ParentsFirst(a + b, before)
  {
    forall i | 0 <= i < |a + b| ensures ParentKnown(a + b, i, before) {
      if i < |a| {
        assert (a + b)[..i] == a[..i];
        assert ParentKnown(a, i, before);
      } else {
        assert (a + b)[..i] == a + b[..i - |a|];
        KeysOfBoth(a, b[..i - |a|]);
        assert ParentKnown(b, i - |a|, before + Keys(a));
      }
    }
  }

  lemma MoreKnown(es: seq<Entry>, before: set<string>, more: set<string>)
    requires ParentsFirst(es, before) && before <= more
    ensures ParentsFirst(es, more)
  {
    forall i | 0 <= i < |es| ensures ParentKnown(es, i, more) { assert ParentKnown(es, i, before); }
  }

  /** The walk puts every parent before its children. */
  lemma {:induction false} WalkPutsParentsFirst(nodes: seq<SeedMenu>, parent: Option<string>, before: set<string>)
    requires parent.Some? ==> parent.value in before
    ensures ParentsFirst(Entries(nodes, parent), before)
    decreases nodes
  {
    if nodes != [] {
      NodePutsParentsFirst(nodes[0], parent, before);
      WalkPutsParentsFirst(nodes[1..], parent, before);
      MoreKnown(Entries(nodes[1..], parent), before, before + Keys(EntriesOf(nodes[0], parent)));
      ParentsFirstOfBoth(EntriesOf(nodes[0], parent), Entries(nodes[1..], parent), before);
    }
  }

  lemma {:induction false} NodePutsParentsFirst(node: SeedMenu, parent: Option<string>, before: set<string>)
    requires parent.Some? ==> parent.value in before
    ensures ParentsFirst(EntriesOf(node, parent), before)
    decreases node
  {
    var top := [Entry(node.key, node.fields, parent)];
    assert Keys(top) == {node.key} by { assert top[0] in top; }
    WalkPutsParentsFirst(node.children, Some(node.key), before + {node.key});
    assert ParentKnown(top, 0, before);
    ParentsFirstOfBoth(top, Entries(node.children, Some(node.key)), before);
  }

  // ---------- The nodes of a manifest ----------

  /** The path leads to a node: each number selects a child, the first one a root. */
  ghost predicate IsPath(nodes: seq<SeedMenu>, path: seq<nat>)
    decreases |path|
  {
    path != [] && path[0] < |nodes| && (|path| > 1 ==> IsPath(nodes[path[0]].children, path[1..]))
  }

  ghost function NodeAt(nodes: seq<SeedMenu>, path: seq<nat>): SeedMenu
    requires IsPath(nodes, path)
    decreases |path|
  {
    if |path| == 1 then nodes[path[0]] else NodeAt(nodes[path[0]].children, path[1..])
  }

  lemma {:induction false} PathUp(nodes: seq<SeedMenu>, path: seq<nat>)
    requires IsPath(nodes, path) && |path| > 1
    ensures IsPath(nodes, path[..|path| - 1])
    decreases |path|
  {
    if |path| > 2 {
      PathUp(nodes[path[0]].children, path[1..]);
      assert path[..|path| - 1][1..] == path[1..][..|path| - 2];
    }
  }

  /** The node together with the key of the node above it. */
  ghost function EntryAt(nodes: seq<SeedMenu>, parent: Option<string>, path: seq<nat>): Entry
    requires IsPath(nodes, path)
  {
    var node := NodeAt(nodes, path);
    Entry(node.key, node.fields,
          if |path| == 1 then parent
          else (PathUp(nodes, path); Some(NodeAt(nodes, path[..|path| - 1]).key)))
  }

  lemma EntryBelow(nodes: seq<SeedMenu>, parent: Option<string>, path: seq<nat>)
    requires IsPath(nodes, path) && |path| > 1
    ensures EntryAt(nodes, parent, path)
         == EntryAt(nodes[path[0]].children, Some(nodes[path[0]].key), path[1..])
  {
    PathUp(nodes, path);
    if |path| > 2 {
      PathUp(nodes[path[0]].children, path[1..]);
      assert path[..|path| - 1][1..] == path[1..][..|path| - 2];
    }
  }

  lemma {:induction false} EntriesOfOneNode(nodes: seq<SeedMenu>, parent: Option<string>, i: nat, e: Entry)
    requires i < |nodes| && e in EntriesOf(nodes[i], parent)
    ensures e in Entries(nodes, parent)
    decreases i
  {
    hide EntriesOf;
    if i > 0 { EntriesOfOneNode(nodes[1..], parent, i - 1, e); }
  }

  /** The walk leaves no node out, however deep. */
  lemma {:induction false} WalkFindsEveryNode(nodes: seq<SeedMenu>, parent: Option<string>, path: seq<nat>)
    requires IsPath(nodes, path)
    ensures EntryAt(nodes, parent, path) in Entries(nodes, parent)
    decreases |path|
  {
    var node := nodes[path[0]];
    if |path| > 1 {
      EntryBelow(nodes, parent, path);
      WalkFindsEveryNode(node.children, Some(node.key), path[1..]);
    }
    assert EntryAt(nodes, parent, path) in EntriesOf(node, parent);
    EntriesOfOneNode(nodes, parent, path[0], EntryAt(nodes, parent, path));
  }

  /** And it makes none up. */
  lemma {:induction false} WalkFindsNothingElse(nodes: seq<SeedMenu>, parent: Option<string>, e: Entry)
    returns (path: seq<nat>)
    requires e in Entries(nodes, parent)
    ensures IsPath(nodes, path) && e == EntryAt(nodes, parent, path)
    decreases nodes
  {
    var node := nodes[0];
    if e in EntriesOf(node, parent) {
      if e == Entry(node.key, node.fields, parent) {
        path := [0];
      } else {
        var below := WalkFindsNothingElse(node.children, Some(node.key), e);
        path := [0] + below;
        EntryBelow(nodes, parent, path);
      }
    } else {
      var later := WalkFindsNothingElse(nodes[1..], parent, e);
      path := later[0 := later[0] + 1];
      SameEntry(nodes, parent, later);
    }
  }

  lemma SameEntry(nodes: seq<SeedMenu>, parent: Option<string>, later: seq<nat>)
    requires nodes != [] && IsPath(nodes[1..], later)
    ensures var path := later[0 := later[0] + 1];
      IsPath(nodes, path) && EntryAt(nodes, parent, path) == EntryAt(nodes[1..], parent, later)
  {
    var path := later[0 := later[0] + 1];
    assert nodes[1..][later[0]] == nodes[path[0]] && path[1..] == later[1..];
    if |path| > 1 {
      EntryBelow(nodes, parent, path);
      EntryBelow(nodes[1..], parent, later);
    }
  }

  // ---------- The upserts ----------

  // The table in the middle of a seed, and the ids of the menus placed so far.
  datatype Seeding = Seeding(menus: Menus, nextId: nat, ids: map<string, nat>)

  function ParentId(ids: map<string, nat>, parent: Option<string>): Option<nat> {
    if parent.Some? && parent.value in ids then Some(ids[parent.value]) else None
  }

  function PlaceId(s: Seeding, existing: map<string, nat>, key: string): nat {
    if key in existing then existing[key] else s.nextId
  }

  function Put(s: Seeding, existing: map<string, nat>, e: Entry): Seeding {
    var id := PlaceId(s, existing, e.key);
    Seeding(s.menus[id := Menu(Some(e.key), ParentId(s.ids, e.parent), e.fields, true)],
            if e.key in existing then s.nextId else s.nextId + 1,
            s.ids[e.key := id])
  }

  function After(s: Seeding, existing: map<string, nat>, es: seq<Entry>): Seeding {
    if es == [] then s else Put(After(s, existing, es[..|es| - 1]), existing, es[|es| - 1])
  }

  /** The tables flushed on the way. */
  function Flushes(s: Seeding, existing: map<string, nat>, es: seq<Entry>): seq<Menus> {
    if es == [] then [] else Flushes(s, existing, es[..|es| - 1]) + [After(s, existing, es).menus]
  }

  lemma {:induction false} AfterBoth(s: Seeding, existing: map<string, nat>, a: seq<Entry>, b: seq<Entry>)
    ensures After(s, existing, a + b) == After(After(s, existing, a), existing, b)
    ensures Flushes(s, existing, a + b) == Flushes(s, existing, a) + Flushes(After(s, existing, a), existing, b)
    decreases b
  {
    if b == [] {
      assert a + b == a;
    } else {
      var init := b[..|b| - 1];
      assert (a + b)[..|a + b| - 1] == a + init;
      AfterBoth(s, existing, a, init);
    }
  }

  lemma {:induction false} FlushCount(s: Seeding, existing: map<string, nat>, es: seq<Entry>)
    ensures |Flushes(s, existing, es)| == |es|
    decreases es
  {
    if es != [] { FlushCount(s, existing, es[..|es| - 1]); }
  }

  lemma {:induction false} FlushIsAfter(s: Seeding, existing: map<string, nat>, es: seq<Entry>, i: nat)
    requires i < |es|
    ensures |Flushes(s, existing, es)| == |es|
    ensures Flushes(s, existing, es)[i] == After(s, existing, es[..i + 1]).menus
    decreases es
  {
    var init := es[..|es| - 1];
    FlushCount(s, existing, es);
    FlushCount(s, existing, init);
    if i == |init| {
      assert es[..i + 1] == es;
    } else {
      FlushIsAfter(s, existing, init, i);
      assert init[..i + 1] == es[..i + 1];
    }
  }

  /** The stored menus that have a key. */
  function IdsByKey(menus: Menus): (r: map<string, nat>)
    requires KeysUnique(menus)
    ensures forall m | m in menus && menus[m].key.Some? :: menus[m].key.value in r && r[menus[m].key.value] == m
    ensures forall k | k in r :: r[k] in menus && menus[r[k]].key == Some(k)
  {
    map m | m in menus && menus[m].key.Some? :: menus[m].key.value := m
  }

  ghost predicate ExistingOk(menus: Menus, existing: map<string, nat>) {
    && (forall k | k in existing :: existing[k] in menus && menus[existing[k]].key == Some(k))
    && (forall m | m in menus && menus[m].key.Some? ::
          menus[m].key.value in existing && existing[menus[m].key.value] == m)
  }

  // ---------- What holds after each of them ----------

  /** Placed menus keep the id they had; the others get new ones. */
  ghost predicate IdsOk(s0: Seeding, existing: map<string, nat>, s: Seeding) {
    && s0.nextId <= s.nextId
    && (forall k | k in s.ids && k in existing :: s.ids[k] == existing[k])
    && (forall k | k in s.ids && k !in existing :: s0.nextId <= s.ids[k] < s.nextId)
    && (forall k, l | k in s.ids && l in s.ids && k != l :: s.ids[k] != s.ids[l])
  }

  /** Only placed menus differ from before. */
  ghost predicate FrameOk(s0: Seeding, s: Seeding) {
    && s.menus.Keys == s0.menus.Keys + s.ids.Values
    && (forall m | m in s.menus && m !in s.ids.Values :: s.menus[m] == s0.menus[m])
  }

  /** The menu of e is stored as the manifest says, under the menu of e's parent. */
  ghost predicate Placed(s: Seeding, e: Entry) {
    && e.key in s.ids && s.ids[e.key] in s.menus
    && (e.parent.Some? ==> e.parent.value in s.ids)
    && s.menus[s.ids[e.key]]
       == Menu(Some(e.key), if e.parent.Some? then Some(s.ids[e.parent.value]) else None, e.fields, true)
  }

  ghost predicate Start(s0: Seeding, existing: map<string, nat>) {
    Sound(s0.menus, s0.nextId) && ExistingOk(s0.menus, existing) && s0.ids == map[]
  }

  ghost predicate Midway(s0: Seeding, existing: map<string, nat>, es: seq<Entry>, s: Seeding) {
    && s.ids.Keys == Keys(es)
    && IdsOk(s0, existing, s) && FrameOk(s0, s)
    && (forall j | 0 <= j < |es| :: Placed(s, es[j]))
    && Forest(Parents(s.menus))
  }

  lemma PutKeepsIds(s0: Seeding, existing: map<string, nat>, s: Seeding, e: Entry)
    requires Start(s0, existing) && IdsOk(s0, existing, s) && e.key !in s.ids
    ensures IdsOk(s0, existing, Put(s, existing, e))
    ensures PlaceId(s, existing, e.key) !in s.ids.Values
  {
    hide Forest;
    var id := PlaceId(s, existing, e.key);
    forall k | k in s.ids ensures s.ids[k] != id { }
  }

  lemma ValuesAfterPut(ids: map<string, nat>, key: string, id: nat)
    requires key !in ids
    ensures ids[key := id].Values == ids.Values + {id}
  {
    forall k | k in ids ensures ids[k] in ids[key := id].Values { assert ids[key := id][k] == ids[k]; }
    assert ids[key := id][key] == id;
  }

  lemma PutKeepsFrame(s0: Seeding, existing: map<string, nat>, s: Seeding, e: Entry)
    requires FrameOk(s0, s) && e.key !in s.ids
    ensures FrameOk(s0, Put(s, existing, e))
  {
    ValuesAfterPut(s.ids, e.key, PlaceId(s, existing, e.key));
  }

  lemma PutKeepsPlaced(s: Seeding, existing: map<string, nat>, e: Entry, earlier: Entry)
    requires Placed(s, earlier) && e.key !in s.ids && PlaceId(s, existing, e.key) !in s.ids.Values
    ensures Placed(Put(s, existing, e), earlier)
  {
    assert s.ids[earlier.key] in s.ids.Values;
  }

  /** The placed menus hang under placed menus only. */
  ghost predicate Grounded(t: Tree, placed: set<nat>) {
    forall x | x in placed :: x in t && (t[x].Some? ==> t[x].value in placed)
  }

  lemma {:induction false} PlacedAreAbove(t: Tree, placed: set<nat>, x: nat, k: nat)
    requires Grounded(t, placed) && x in placed
    ensures Up(t, x, k).Some? ==> Up(t, x, k).value in placed
    decreases k
  {
    if k > 0 && t[x].Some? { PlacedAreAbove(t, placed, t[x].value, k - 1); }
  }

  lemma IsGrounded(es: seq<Entry>, s: Seeding)
    requires s.ids.Keys == Keys(es) && forall j | 0 <= j < |es| :: Placed(s, es[j])
    ensures Grounded(Parents(s.menus), s.ids.Values)
  {
    forall x | x in s.ids.Values
      ensures x in s.menus && (s.menus[x].parent.Some? ==> s.menus[x].parent.value in s.ids.Values)
    {
      var k :| k in s.ids && s.ids[k] == x;
      var e :| e in es && e.key == k;
      var j :| 0 <= j < |es| && es[j] == e;
      assert Placed(s, es[j]);
    }
  }

  /** A menu goes under one that is placed already, so it is not above it. */
  lemma PutKeepsForest(s0: Seeding, existing: map<string, nat>, es: seq<Entry>, s: Seeding, e: Entry)
    requires Start(s0, existing) && Midway(s0, existing, es, s) && e.key !in s.ids
    requires e.parent.Some? ==> e.parent.value in s.ids
    ensures Forest(Parents(Put(s, existing, e).menus))
  {
    hide Start, Forest, Placed, IdsOk, FrameOk, PlaceId, Grounded, Put, Parents, Keys;
    PutKeepsIds(s0, existing, s, e);
    IsGrounded(es, s);
    var id, parent := PlaceId(s, existing, e.key), ParentId(s.ids, e.parent);
    ParentsAfterPut(s, existing, e);
    if parent.Some? { assert s.ids[e.parent.value] == parent.value && parent.value in s.ids.Values; }
    GroundedKeepsForest(Parents(s.menus), s.ids.Values, id, parent);
  }

  lemma ParentsAfterPut(s: Seeding, existing: map<string, nat>, e: Entry)
    ensures Parents(Put(s, existing, e).menus)
         == Parents(s.menus)[PlaceId(s, existing, e.key) := ParentId(s.ids, e.parent)]
  {
    hide PlaceId, ParentId;
  }

  lemma GroundedKeepsForest(t: Tree, placed: set<nat>, id: nat, parent: Option<nat>)
    requires Forest(t) && Grounded(t, placed) && id !in placed && (parent.Some? ==> parent.value in placed)
    ensures Forest(t[id := parent])
  {
    assert parent.Some? ==> parent.value in t;
    hide Forest, Grounded;
    if id !in t {
      LeafKeepsForest(t, id, parent);
    } else if parent.None? {
      ToRootKeepsForest(t, id);
    } else {
      forall k: nat ensures !Under(t, parent.value, k, id) { PlacedAreAbove(t, placed, parent.value, k); }
      MoveKeepsForestExactlyWhen(t, id, parent.value);
    }
  }

  lemma PutKeepsAllPlaced(existing: map<string, nat>, es: seq<Entry>, s: Seeding, e: Entry)
    requires e.key !in s.ids && PlaceId(s, existing, e.key) !in s.ids.Values
    requires e.parent.Some? ==> e.parent.value in s.ids
    requires forall j | 0 <= j < |es| :: Placed(s, es[j])
    ensures forall j | 0 <= j < |es + [e]| :: Placed(Put(s, existing, e), (es + [e])[j])
  {
    assert Placed(Put(s, existing, e), e);
    forall j | 0 <= j < |es| ensures Placed(Put(s, existing, e), es[j]) { PutKeepsPlaced(s, existing, e, es[j]); }
    hide Placed;
  }

  lemma KeysAfterPut(es: seq<Entry>, s: Seeding, existing: map<string, nat>, e: Entry)
    requires s.ids.Keys == Keys(es)
    ensures Put(s, existing, e).ids.Keys == Keys(es + [e])
  {
    KeysOfBoth(es, [e]);
    assert Keys([e]) == {e.key} by { assert [e][0] in [e]; }
  }

  lemma PutKeepsMidway(s0: Seeding, existing: map<string, nat>, es: seq<Entry>, s: Seeding, e: Entry)
    requires Start(s0, existing) && Midway(s0, existing, es, s) && e.key !in s.ids
    requires e.parent.Some? ==> e.parent.value in s.ids
    ensures Midway(s0, existing, es + [e], Put(s, existing, e))
  {
    hide Start, Forest, IdsOk, FrameOk, Placed, Put, Keys, Parents, PlaceId;
    PutKeepsForest(s0, existing, es, s, e);
    PutKeepsIds(s0, existing, s, e);
    PutKeepsFrame(s0, existing, s, e);
    KeysAfterPut(es, s, existing, e);
    PutKeepsAllPlaced(existing, es, s, e);
  }

  lemma {:induction false} EveryPutIsMidway(s0: Seeding, existing: map<string, nat>, es: seq<Entry>, i: nat)
    requires Start(s0, existing) && KeysDistinct(es) && ParentsFirst(es, {}) && i <= |es|
    ensures Midway(s0, existing, es[..i], After(s0, existing, es[..i]))
    decreases i
  {
    if i == 0 {
      assert es[..0] == [] && Keys([]) == {};
    } else {
      EveryPutIsMidway(s0, existing, es, i - 1);
      var s := After(s0, existing, es[..i - 1]);
      assert es[..i][..i - 1] == es[..i - 1] && es[..i] == es[..i - 1] + [es[i - 1]];
      assert ParentKnown(es, i - 1, {});
      assert s.ids.Keys == Keys(es[..i - 1]);
      NotYet(es, i - 1);
      hide Start, Midway;
      PutKeepsMidway(s0, existing, es[..i - 1], s, es[i - 1]);
    }
  }

  lemma NotYet(es: seq<Entry>, i: nat)
    requires KeysDistinct(es) && i < |es|
    ensures es[i].key !in Keys(es[..i])
  {
    forall e | e in es[..i] ensures e.key != es[i].key { var j :| 0 <= j < i && es[..i][j] == e; }
  }

  // ---------- A whole seed ----------

  /** The manifest's keys are distinct: the table has a unique index on them. */
  ghost predicate ManifestOk(manifest: seq<SeedMenu>) { KeysDistinct(Entries(manifest, None)) }

  function Upserted(menus: Menus, nextId: nat, manifest: seq<SeedMenu>): Seeding
    requires KeysUnique(menus)
  {
    After(Seeding(menus, nextId, map[]), IdsByKey(menus), Entries(manifest, None))
  }

  /** Whatever the table, every flush of the upserts leaves it without a cycle. */
  lemma EveryFlushIsForest(menus: Menus, nextId: nat, manifest: seq<SeedMenu>)
    requires Sound(menus, nextId) && ManifestOk(manifest)
    ensures forall f | f in Flushes(Seeding(menus, nextId, map[]), IdsByKey(menus), Entries(manifest, None)) ::
              Forest(Parents(f))
  {
    hide After, Flushes, Entries, IdsOk, FrameOk, Placed, Forest, Keys, Parents, ParentsFirst, KeysDistinct;
    var s0, existing, es := Seeding(menus, nextId, map[]), IdsByKey(menus), Entries(manifest, None);
    WalkPutsParentsFirst(manifest, None, {});
    var fs := Flushes(s0, existing, es);
    forall f | f in fs ensures Forest(Parents(f)) {
      var i :| 0 <= i < |fs| && fs[i] == f;
      FlushCount(s0, existing, es);
      FlushIsAfter(s0, existing, es, i);
      EveryPutIsMidway(s0, existing, es, i + 1);
    }
  }

  /** After the upserts every node of the manifest is stored once, with its fields and under its parent;
      a menu that was there keeps its id; every other menu is as it was. */
  lemma UpsertsPlaceTheManifest(menus: Menus, nextId: nat, manifest: seq<SeedMenu>)
    requires Sound(menus, nextId) && ManifestOk(manifest)
    ensures var s, es := Upserted(menus, nextId, manifest), Entries(manifest, None);
      && (forall e | e in es :: Placed(s, e))
      && s.ids.Keys == Keys(es)
      && (forall k | k in s.ids && k in IdsByKey(menus) :: s.ids[k] == IdsByKey(menus)[k])
      && (forall m | m in menus && (menus[m].key.Some? ==> menus[m].key.value !in Keys(es)) ::
            m in s.menus && s.menus[m] == menus[m])
      && (forall m | m in s.menus && m !in menus :: m in s.ids.Values)
      && Sound(s.menus, s.nextId)
  {
    var s0, existing, es := Seeding(menus, nextId, map[]), IdsByKey(menus), Entries(manifest, None);
    var s := Upserted(menus, nextId, manifest);
    WalkPutsParentsFirst(manifest, None, {});
    EveryPutIsMidway(s0, existing, es, |es|);
    assert es[..|es|] == es;
    forall e | e in es ensures Placed(s, e) { var j :| 0 <= j < |es| && es[j] == e; }
    assert FrameOk(s0, s) && IdsOk(s0, existing, s);
    UntouchedMenus(menus, nextId, existing, es, s);
    StaysSound(s0, existing, es, s);
  }

  lemma UntouchedMenus(menus: Menus, nextId: nat, existing: map<string, nat>, es: seq<Entry>, s: Seeding)
    requires Start(Seeding(menus, nextId, map[]), existing)
    requires Midway(Seeding(menus, nextId, map[]), existing, es, s)
    ensures forall m | m in menus && (menus[m].key.Some? ==> menus[m].key.value !in Keys(es)) ::
              m !in s.ids.Values && m in s.menus && s.menus[m] == menus[m]
  {
    hide Forest, Placed;
    forall m | m in menus && (menus[m].key.Some? ==> menus[m].key.value !in Keys(es)) ensures m !in s.ids.Values {
      forall k | k in s.ids ensures s.ids[k] != m { }
    }
  }

  lemma KeyOfPlaced(es: seq<Entry>, s: Seeding, m: nat)
    requires s.ids.Keys == Keys(es) && (forall j | 0 <= j < |es| :: Placed(s, es[j])) && m in s.ids.Values
    ensures m in s.menus && s.menus[m].key.Some? && s.menus[m].key.value in s.ids && s.ids[s.menus[m].key.value] == m
  {
    var k :| k in s.ids && s.ids[k] == m;
    var e :| e in es && e.key == k;
    var j :| 0 <= j < |es| && es[j] == e;
    assert Placed(s, es[j]);
  }

  lemma StaysSound(s0: Seeding, existing: map<string, nat>, es: seq<Entry>, s: Seeding)
    requires Start(s0, existing) && Midway(s0, existing, es, s)
    ensures Sound(s.menus, s.nextId)
  {
    hide Forest;
    forall m | m in s.ids.Values
      ensures m < s.nextId
      ensures m in s.menus && s.menus[m].key.Some? && s.menus[m].key.value in s.ids && s.ids[s.menus[m].key.value] == m
    {
      KeyOfPlaced(es, s, m);
    }
    hide Placed;
    forall m, n | m in s.menus && n in s.menus && m != n && s.menus[m].key.Some?
      ensures s.menus[m].key != s.menus[n].key
    {
    }
  }

  /** The managed menus that the manifest no longer names. */
  function Stale(existing: map<string, nat>, seen: set<string>): set<nat> {
    set k | k in existing && k !in seen :: existing[k]
  }

  ghost predicate HangsUnder(menus: Menus, m: nat, gone: set<nat>) {
    m in menus && menus[m].parent.Some? && menus[m].parent.value in gone
  }

  /** Some menu that is not stale hangs under one of those gone. */
  ghost predicate Hanging(menus: Menus, stale: set<nat>, gone: set<nat>) {
    exists m :: m !in stale && HangsUnder(menus, m, gone)
  }

  /** Only a menu that a user made can be in the way of a deletion. */
  lemma OnlyUnmanagedMenusHang(menus: Menus, nextId: nat, manifest: seq<SeedMenu>)
    requires Sound(menus, nextId) && ManifestOk(manifest)
    ensures var stale := Stale(IdsByKey(menus), Upserted(menus, nextId, manifest).ids.Keys);
      Deletable(menus, nextId, manifest) <==>
        !exists m :: m in menus && menus[m].key.None? && HangsUnder(menus, m, stale)
  {
    var es, existing, s := Entries(manifest, None), IdsByKey(menus), Upserted(menus, nextId, manifest);
    var stale := Stale(existing, s.ids.Keys);
    UpsertsPlaceTheManifest(menus, nextId, manifest);
    StaleAreUntouched(menus, nextId, manifest);
    hide Sound;
    forall m | m in s.ids.Values ensures !HangsUnder(s.menus, m, stale) {
      var k :| k in s.ids && s.ids[k] == m;
      var e :| e in es && e.key == k;
      assert Placed(s, e);
      if e.parent.Some? { assert s.ids[e.parent.value] !in stale; }
    }
    forall m | m in menus && menus[m].key.None? ensures s.menus[m] == menus[m] && m !in stale { }
    if Hanging(s.menus, stale, stale) {
      var m :| m !in stale && HangsUnder(s.menus, m, stale);
      assert m in menus;
      assert menus[m].key.None?;
      assert HangsUnder(menus, m, stale);
    }
    if m :| m in menus && menus[m].key.None? && HangsUnder(menus, m, stale) { assert HangsUnder(s.menus, m, stale); }
  }

  /** A keyed menu is either placed or stale, never both; stale menus are as they were. */
  lemma StaleAreUntouched(menus: Menus, nextId: nat, manifest: seq<SeedMenu>)
    requires Sound(menus, nextId) && ManifestOk(manifest)
    ensures var s := Upserted(menus, nextId, manifest);
      var stale := Stale(IdsByKey(menus), s.ids.Keys);
      && stale <= menus.Keys && stale <= s.menus.Keys && stale !! s.ids.Values
      && (forall m | m in s.menus && s.menus[m].key.Some? :: m in stale || m in s.ids.Values)
      && (forall m | m in menus && m !in s.ids.Values && m !in stale :: menus[m].key.None?)
  {
    var s0, es, existing := Seeding(menus, nextId, map[]), Entries(manifest, None), IdsByKey(menus);
    var s := Upserted(menus, nextId, manifest);
    WalkPutsParentsFirst(manifest, None, {});
    EveryPutIsMidway(s0, existing, es, |es|);
    assert es[..|es|] == es;
    UntouchedMenus(menus, nextId, existing, es, s);
    var stale := Stale(existing, s.ids.Keys);
    hide Forest, Placed;
    assert FrameOk(s0, s) && IdsOk(s0, existing, s);
    forall m | m in stale ensures m in menus && m !in s.ids.Values {
      var k :| k in existing && k !in s.ids && existing[k] == m;
    }
    forall k | k in existing ensures existing[k] in stale || existing[k] in s.ids.Values {
      if k in s.ids { assert s.ids[k] == existing[k]; }
    }
  }

  // ---------- Seeding again ----------

  /** The table after a seed whose deletions went through. */
  function Seeded(menus: Menus, nextId: nat, manifest: seq<SeedMenu>): Menus
    requires KeysUnique(menus)
  {
    var s := Upserted(menus, nextId, manifest);
    s.menus - Stale(IdsByKey(menus), s.ids.Keys)
  }

  /** No menu is in the way of deleting the stale ones. */
  ghost predicate Deletable(menus: Menus, nextId: nat, manifest: seq<SeedMenu>)
    requires KeysUnique(menus)
  {
    var s := Upserted(menus, nextId, manifest);
    var stale := Stale(IdsByKey(menus), s.ids.Keys);
    !Hanging(s.menus, stale, stale)
  }

  lemma SeededIsSound(menus: Menus, nextId: nat, manifest: seq<SeedMenu>)
    requires Sound(menus, nextId) && ManifestOk(manifest)
    requires Deletable(menus, nextId, manifest)
    ensures Sound(Seeded(menus, nextId, manifest), Upserted(menus, nextId, manifest).nextId)
    ensures IdsByKey(Seeded(menus, nextId, manifest)) == Upserted(menus, nextId, manifest).ids
  {
    var s := Upserted(menus, nextId, manifest);
    var stale := Stale(IdsByKey(menus), s.ids.Keys);
    UpsertsPlaceTheManifest(menus, nextId, manifest);
    StaleAreUntouched(menus, nextId, manifest);
    hide Upserted, Stale;
    RemovalKeepsSound(s.menus, s.nextId, stale);
    PlacedByKey(s, Entries(manifest, None), stale);
  }

  /** After a seed every node of the manifest is an active menu with the node's key and fields, under the menu of the
      node above it, or without a parent if it is a root. */
  lemma EveryNodeIsSeeded(menus: Menus, nextId: nat, manifest: seq<SeedMenu>, path: seq<nat>)
    requires Sound(menus, nextId) && ManifestOk(manifest) && IsPath(manifest, path)
    ensures var ids, seeded, node := Upserted(menus, nextId, manifest).ids, Seeded(menus, nextId, manifest),
                                     NodeAt(manifest, path);
      && node.key in ids && ids[node.key] in seeded
      && var menu := seeded[ids[node.key]];
         && menu.key == Some(node.key) && menu.fields == node.fields && menu.active
         && (|path| == 1 ==> menu.parent == None)
         && (|path| > 1 ==>
               && IsPath(manifest, path[..|path| - 1])
               && NodeAt(manifest, path[..|path| - 1]).key in ids
               && menu.parent == Some(ids[NodeAt(manifest, path[..|path| - 1]).key]))
  {
    hide Forest, Upserted, Seeded, Entries, Keys, KeysDistinct;
    if |path| > 1 { PathUp(manifest, path); }
    WalkFindsEveryNode(manifest, None, path);
    PlacedStay(menus, nextId, manifest);
    var s := Upserted(menus, nextId, manifest);
    var e := EntryAt(manifest, None, path);
    assert Placed(s, e);
    assert s.ids[e.key] in s.ids.Values;
  }

  lemma RemovalKeepsSound(menus: Menus, nextId: nat, stale: set<nat>)
    requires Sound(menus, nextId) && !Hanging(menus, stale, stale)
    ensures Sound(menus - stale, nextId)
  {
    var t := Parents(menus);
    assert Parents(menus - stale) == t - stale;
    forall y | y in t && y !in stale && t[y].Some? ensures t[y].value !in stale { assert !HangsUnder(menus, y, stale); }
    DeleteKeepsForest(t, stale);
    hide Forest, Hanging;
  }

  lemma PlacedByKey(s: Seeding, es: seq<Entry>, stale: set<nat>)
    requires KeysUnique(s.menus - stale) && s.ids.Keys == Keys(es) && (forall e | e in es :: Placed(s, e))
    requires stale !! s.ids.Values
    requires forall m | m in s.menus && s.menus[m].key.Some? :: m in stale || m in s.ids.Values
    ensures IdsByKey(s.menus - stale) == s.ids
  {
    var again := IdsByKey(s.menus - stale);
    forall k | k in s.ids ensures k in again && again[k] == s.ids[k] {
      var e :| e in es && e.key == k;
      assert Placed(s, e);
      assert s.ids[k] in s.ids.Values;
    }
    forall k | k in again ensures k in s.ids {
      var m := again[k];
      assert m in s.ids.Values;
      var l :| l in s.ids && s.ids[l] == m;
      assert again[l] == m;
    }
  }

  /** Putting an entry that is placed already. */
  lemma PutOneAgain(s: Seeding, a: Seeding, e: Entry)
    requires Placed(s, e) && s.ids[e.key] in a.menus && a.menus[s.ids[e.key]] == s.menus[s.ids[e.key]]
    requires e.parent.Some? ==> e.parent.value in a.ids
    requires forall k | k in a.ids :: k in s.ids && a.ids[k] == s.ids[k]
    ensures Put(a, s.ids, e).menus == a.menus && Put(a, s.ids, e).nextId == a.nextId
    ensures Put(a, s.ids, e).ids == a.ids[e.key := s.ids[e.key]]
  {
    assert ParentId(a.ids, e.parent) == ParentId(s.ids, e.parent);
  }

  lemma {:induction false} PutAgain(s: Seeding, es: seq<Entry>, nextId: nat, menus: Menus, i: nat)
    requires i <= |es| && ParentsFirst(es, {}) && s.ids.Keys == Keys(es)
    requires forall e | e in es :: Placed(s, e)
    requires forall m | m in s.ids.Values :: m in menus && m in s.menus && menus[m] == s.menus[m]
    ensures var a := After(Seeding(menus, nextId, map[]), s.ids, es[..i]);
      && a.menus == menus && a.nextId == nextId
      && a.ids.Keys == Keys(es[..i]) && (forall k | k in a.ids :: k in s.ids && a.ids[k] == s.ids[k])
    decreases i
  {
    if i == 0 {
      assert es[..0] == [] && Keys([]) == {};
    } else {
      PutAgain(s, es, nextId, menus, i - 1);
      var e := es[i - 1];
      var a := After(Seeding(menus, nextId, map[]), s.ids, es[..i - 1]);
      assert es[..i][..i - 1] == es[..i - 1] && es[..i] == es[..i - 1] + [e];
      assert ParentKnown(es, i - 1, {});
      assert Placed(s, e);
      KeysAfterPut(es[..i - 1], a, s.ids, e);
      hide Keys, Put;
      assert s.ids[e.key] in s.ids.Values;
      PutOneAgain(s, a, e);
    }
  }

  /** Seeding again changes nothing, gives out no id and finds nothing stale. */
  lemma SeedingAgainChangesNothing(menus: Menus, nextId: nat, manifest: seq<SeedMenu>)
    requires Sound(menus, nextId) && ManifestOk(manifest)
    requires Deletable(menus, nextId, manifest)
    ensures var once, next := Seeded(menus, nextId, manifest), Upserted(menus, nextId, manifest).nextId;
      && KeysUnique(once)
      && Upserted(once, next, manifest).menus == once && Upserted(once, next, manifest).nextId == next
      && Stale(IdsByKey(once), Upserted(once, next, manifest).ids.Keys) == {}
      && Seeded(once, next, manifest) == once
  {
    hide After, Entries, Forest, Hanging, Keys, Placed;
    var s, es, once := Upserted(menus, nextId, manifest), Entries(manifest, None), Seeded(menus, nextId, manifest);
    SeededIsSound(menus, nextId, manifest);
    PlacedStay(menus, nextId, manifest);
    WalkPutsParentsFirst(manifest, None, {});
    PutAllAgain(s, es, once);
    assert IdsByKey(once) == s.ids;
    assert Upserted(once, s.nextId, manifest) == After(Seeding(once, s.nextId, map[]), s.ids, es);
    NothingStale(s.ids);
  }

  lemma NothingStale(ids: map<string, nat>)
    ensures Stale(ids, ids.Keys) == {}
  {
  }

  lemma PlacedStay(menus: Menus, nextId: nat, manifest: seq<SeedMenu>)
    requires Sound(menus, nextId) && ManifestOk(manifest)
    ensures var s, once := Upserted(menus, nextId, manifest), Seeded(menus, nextId, manifest);
      && s.ids.Keys == Keys(Entries(manifest, None)) && (forall e | e in Entries(manifest, None) :: Placed(s, e))
      && (forall m | m in s.ids.Values && m in s.menus :: m in once && once[m] == s.menus[m])
  {
    UpsertsPlaceTheManifest(menus, nextId, manifest);
    StaleAreUntouched(menus, nextId, manifest);
    hide Sound, Placed, Upserted, Stale, Keys;
  }

  lemma PutAllAgain(s: Seeding, es: seq<Entry>, once: Menus)
    requires ParentsFirst(es, {}) && s.ids.Keys == Keys(es)
    requires forall e | e in es :: Placed(s, e)
    requires forall m | m in s.ids.Values && m in s.menus :: m in once && once[m] == s.menus[m]
    ensures var a := After(Seeding(once, s.nextId, map[]), s.ids, es);
      a.menus == once && a.nextId == s.nextId && a.ids == s.ids
  {
    forall m | m in s.ids.Values ensures m in s.menus {
      var k :| k in s.ids && s.ids[k] == m;
      var e :| e in es && e.key == k;
      assert Placed(s, e);
    }
    PutAgain(s, es, s.nextId, once, |es|);
    assert es[..|es|] == es;
  }
}
