/** `rbac seed`: one transaction that walks the manifest, writing menus by key, and then deletes the
    stale ones, leaves first. */
module RbacSeed {
  import opened Wrappers
  import opened Forests
  import opened MenuSeed

  lemma {:induction false} OtherIdsStay(s: Seeding, existing: map<string, nat>, es: seq<Entry>, key: string)
    requires key in s.ids && key !in Keys(es)
    ensures key in After(s, existing, es).ids && After(s, existing, es).ids[key] == s.ids[key]
    ensures After(s, existing, es).ids.Keys == s.ids.Keys + Keys(es)
    decreases es
  {
    if es != [] {
      var init, last := es[..|es| - 1], es[|es| - 1];
      assert es == init + [last];
      KeysOfBoth(init, [last]);
      assert Keys([last]) == {last.key} by { assert [last][0] in [last]; }
      OtherIdsStay(s, existing, init, key);
    }
  }

  lemma DistinctInBoth(a: seq<Entry>, b: seq<Entry>)
    requires KeysDistinct(a + b)
    ensures KeysDistinct(a) && KeysDistinct(b) && Keys(a) !! Keys(b)
  {
    forall i, j | 0 <= i < |a| && 0 <= j < |a| && i != j ensures a[i].key != a[j].key {
      assert (a + b)[i].key != (a + b)[j].key;
    }
    forall i, j | 0 <= i < |b| && 0 <= j < |b| && i != j ensures b[i].key != b[j].key {
      assert (a + b)[|a| + i].key != (a + b)[|a| + j].key;
    }
    forall d, e | d in a && e in b ensures d.key != e.key {
      var i :| 0 <= i < |a| && a[i] == d;
      var j :| 0 <= j < |b| && b[j] == e;
      assert (a + b)[i].key != (a + b)[|a| + j].key;
    }
  }

  lemma {:induction false} EntriesOfBoth(a: seq<SeedMenu>, b: seq<SeedMenu>, parent: Option<string>)
    ensures Entries(a + b, parent) == Entries(a, parent) + Entries(b, parent)
    decreases |a|
  {
    if a == [] {
      assert a + b == b;
    } else {
      assert (a + b)[1..] == a[1..] + b;
      EntriesOfBoth(a[1..], b, parent);
    }
  }

  lemma EntriesUpTo(nodes: seq<SeedMenu>, parent: Option<string>, i: nat)
    requires i < |nodes|
    ensures Entries(nodes[..i + 1], parent) == Entries(nodes[..i], parent) + EntriesOf(nodes[i], parent)
    ensures Entries(nodes, parent)
         == Entries(nodes[..i], parent) + (EntriesOf(nodes[i], parent) + Entries(nodes[i + 1..], parent))
  {
    assert nodes[..i + 1] == nodes[..i] + [nodes[i]];
    EntriesOfBoth(nodes[..i], [nodes[i]], parent);
    assert nodes == nodes[..i] + nodes[i..];
    EntriesOfBoth(nodes[..i], nodes[i..], parent);
  }

  lemma Joined(s: Seeding, existing: map<string, nat>, a: seq<Entry>, b: seq<Entry>,
               f0: seq<Menus>, f1: seq<Menus>, f2: seq<Menus>)
    requires f1 == f0 + Flushes(s, existing, a) && f2 == f1 + Flushes(After(s, existing, a), existing, b)
    ensures f2 == f0 + Flushes(s, existing, a + b)
    ensures After(s, existing, a + b) == After(After(s, existing, a), existing, b)
  {
    hide After, Flushes;
    AfterBoth(s, existing, a, b);
  }

  /** What the next node finds: its keys are new and the parent is where it was. */
  lemma NextNode(s: Seeding, existing: map<string, nat>, nodes: seq<SeedMenu>, parentKey: Option<string>, i: nat)
    requires i < |nodes| && KeysDistinct(Entries(nodes, parentKey)) && Keys(Entries(nodes, parentKey)) !! s.ids.Keys
    requires parentKey.Some? ==> parentKey.value in s.ids
    ensures var done, one := Entries(nodes[..i], parentKey), EntriesOf(nodes[i], parentKey);
      var now := After(s, existing, done);
      && KeysDistinct(one) && Keys(one) !! s.ids.Keys + Keys(done)
      && ParentId(now.ids, parentKey) == ParentId(s.ids, parentKey)
      && (parentKey.Some? ==> parentKey.value in now.ids)
  {
    hide After, Entries, EntriesOf, Keys, KeysDistinct;
    var done, one := Entries(nodes[..i], parentKey), EntriesOf(nodes[i], parentKey);
    var rest := Entries(nodes[i + 1..], parentKey);
    EntriesUpTo(nodes, parentKey, i);
    DistinctInBoth(done, one + rest);
    DistinctInBoth(one, rest);
    KeysOfBoth(done, one + rest);
    KeysOfBoth(one, rest);
    if parentKey.Some? { OtherIdsStay(s, existing, done, parentKey.value); }
  }

  /** Among menus without a cycle, some stale one has no stale menu under it. */
  lemma SomeLeaf(menus: Menus, stale: set<nat>)
    requires Forest(Parents(menus)) && stale <= menus.Keys && stale != {}
    ensures exists x :: x in stale && forall m | m in stale :: menus[m].parent != Some(x)
  {
    var x := LowestRow(Parents(menus), stale);
    forall m | m in stale ensures menus[m].parent != Some(x) {
      assert !Below(Parents(menus), m, x);
      assert menus[m].parent == Some(x) ==> Under(Parents(menus), m, 1, x);
    }
  }

  class Seeder {
    var menus: Menus
    var nextId: nat
    var seen: set<string>
    var upserted: nat
    var pruned: nat
    ghost var ids: map<string, nat>
    ghost var flushes: seq<Menus>

    constructor (menus: Menus, nextId: nat)
      ensures this.menus == menus && this.nextId == nextId && this.seen == {} && this.ids == map[]
      ensures this.upserted == 0 && this.pruned == 0 && this.flushes == []
    {
      this.menus, this.nextId, this.seen, this.ids := menus, nextId, {}, map[];
      this.upserted, this.pruned, this.flushes := 0, 0, [];
    }

    ghost function Now(): Seeding
      reads this
    {
      Seeding(menus, nextId, ids)
    }

    method Upsert(existing: map<string, nat>, node: SeedMenu, parent: Option<nat>, ghost parentKey: Option<string>)
      requires seen == ids.Keys && parent == ParentId(ids, parentKey) && (parentKey.Some? ==> parentKey.value in seen)
      requires KeysDistinct(EntriesOf(node, parentKey)) && Keys(EntriesOf(node, parentKey)) !! seen
      modifies this
      ensures Now() == After(old(Now()), existing, EntriesOf(node, parentKey))
      ensures flushes == old(flushes) + Flushes(old(Now()), existing, EntriesOf(node, parentKey))
      ensures seen == ids.Keys == old(seen) + Keys(EntriesOf(node, parentKey))
      ensures upserted == old(upserted) + |EntriesOf(node, parentKey)| && pruned == old(pruned)
      decreases node
    {
      hide After, Flushes, Entries, EntriesOf, Keys, KeysDistinct;
      ghost var s0 := Now();
      ghost var top := [Entry(node.key, node.fields, parentKey)];
      seen := seen + {node.key};
      var id := if node.key in existing then existing[node.key] else nextId;
      if node.key !in existing { nextId := nextId + 1; }
      menus := menus[id := Menu(Some(node.key), parent, node.fields, true)];
      upserted := upserted + 1;
      ids := ids[node.key := id];
      flushes := flushes + [menus];
      TopEntry(s0, existing, node, parentKey);
      ghost var s1, before := Now(), flushes;
      assert s1 == After(s0, existing, top);
      hide Put;
      ghost var under := Entries(node.children, Some(node.key));
      DistinctInBoth(top, under);
      KeysOfBoth(top, under);
      UpsertAll(existing, node.children, Some(id), Some(node.key));
      Joined(s0, existing, top, under, old(flushes), before, flushes);
    }

    /** The loop over the children of a node, or over the roots. */
    method UpsertAll(existing: map<string, nat>, nodes: seq<SeedMenu>, parent: Option<nat>,
                     ghost parentKey: Option<string>)
      requires seen == ids.Keys && parent == ParentId(ids, parentKey) && (parentKey.Some? ==> parentKey.value in seen)
      requires KeysDistinct(Entries(nodes, parentKey)) && Keys(Entries(nodes, parentKey)) !! seen
      modifies this
      ensures Now() == After(old(Now()), existing, Entries(nodes, parentKey))
      ensures flushes == old(flushes) + Flushes(old(Now()), existing, Entries(nodes, parentKey))
      ensures seen == ids.Keys == old(seen) + Keys(Entries(nodes, parentKey))
      ensures upserted == old(upserted) + |Entries(nodes, parentKey)| && pruned == old(pruned)
      decreases nodes
    {
      hide After, Flushes, Entries, EntriesOf, Keys, KeysDistinct, ParentId;
      ghost var s0 := Now();
      NothingYet(s0, existing, parentKey);
      assert nodes[..0] == [];
      for i := 0 to |nodes|
        invariant Now() == After(s0, existing, Entries(nodes[..i], parentKey))
        invariant flushes == old(flushes) + Flushes(s0, existing, Entries(nodes[..i], parentKey))
        invariant seen == ids.Keys == old(seen) + Keys(Entries(nodes[..i], parentKey))
        invariant upserted == old(upserted) + |Entries(nodes[..i], parentKey)| && pruned == old(pruned)
      {
        ghost var done, one := Entries(nodes[..i], parentKey), EntriesOf(nodes[i], parentKey);
        EntriesUpTo(nodes, parentKey, i);
        NextNode(s0, existing, nodes, parentKey, i);
        ghost var before := flushes;
        Upsert(existing, nodes[i], parent, parentKey);
        Joined(s0, existing, done, one, old(flushes), before, flushes);
        KeysOfBoth(done, one);
      }
      assert nodes[..|nodes|] == nodes;
    }

    /** Delete the leaves among the stale menus until none is stale. `ok` is false when the database
        refuses a deletion; `stuck` is the defensive exit. */
    method Prune(managed: set<nat>) returns (ok: bool, stuck: bool)
      requires managed <= menus.Keys
      modifies this`menus, this`pruned
      ensures Forest(Parents(old(menus))) ==> !stuck
      ensures ok && !stuck ==> menus == old(menus) - managed && pruned == old(pruned) + |managed|
      ensures !stuck ==> (ok <==> !Hanging(old(menus), managed, managed))
    {
      var stale := managed;
      ok, stuck := true, false;
      ghost var all := menus;
      while stale != {}
        invariant stale <= managed && menus == all - (managed - stale)
        invariant pruned + |stale| == old(pruned) + |managed|
        invariant !Hanging(all, managed, managed - stale)
        decreases |stale|
      {
        var parentIds := set m | m in stale && menus[m].parent.Some? && menus[m].parent.value in stale ::
                           menus[m].parent.value;
        var leaves := stale - parentIds;
        assert Forest(Parents(all)) ==> leaves != {} by {
          assert forall m | m in stale :: menus[m] == all[m];
          if Forest(Parents(all)) {
            SomeLeaf(all, stale);
            ghost var x :| x in stale && forall m | m in stale :: all[m].parent != Some(x);
            assert x in leaves;
          }
        }
        if leaves == {} {
          stuck := true;
          break;
        }
        forall m | m in stale ensures all[m].parent.Some? ==> all[m].parent.value !in leaves {
          assert menus[m] == all[m];
        }
        BatchRefusedExactlyWhen(all, managed, stale, leaves);
        if exists m :: m in menus && m !in leaves && menus[m].parent.Some? && menus[m].parent.value in leaves {
          ok := false;
          break;
        }
        LeavesGo(stale, leaves);
        menus := menus - leaves;
        stale := stale - leaves;
        pruned := pruned + |leaves|;
      }
    }

    /** The whole seed; when the database refuses, everything is rolled back. */
    method Seed(manifest: seq<SeedMenu>) returns (ok: bool)
      requires Sound(menus, nextId) && ManifestOk(manifest)
      requires seen == {} && ids == map[] && flushes == [] && upserted == 0 && pruned == 0
      modifies this
      ensures var done := Upserted(old(menus), old(nextId), manifest);
        var stale := Stale(IdsByKey(old(menus)), done.ids.Keys);
        && (ok <==> Deletable(old(menus), old(nextId), manifest))
        && (ok ==> menus == Seeded(old(menus), old(nextId), manifest) && nextId == done.nextId
                   && pruned == |stale| && upserted == |Entries(manifest, None)|)
        && (!ok ==> menus == old(menus))
      ensures forall f | f in flushes :: Forest(Parents(f))
    {
      hide Forest, Placed, After, Flushes, Entries, KeysDistinct, Keys;
      var before, existing := menus, IdsByKey(menus);
      UpsertAll(existing, manifest, None, None);
      EveryFlushIsForest(before, old(nextId), manifest);
      UpsertsPlaceTheManifest(before, old(nextId), manifest);
      StaleAreUntouched(before, old(nextId), manifest);
      var stale := set k | k in existing && k !in seen :: existing[k];
      var stuck;
      hide Sound, Hanging;
      ok, stuck := Prune(stale);
      if !ok { menus := before; }
    }
  }

  lemma NothingYet(s: Seeding, existing: map<string, nat>, parentKey: Option<string>)
    ensures After(s, existing, []) == s && Flushes(s, existing, []) == [] && Entries([], parentKey) == []
        && Keys([]) == {}
  {
  }

  lemma TopEntry(s: Seeding, existing: map<string, nat>, node: SeedMenu, parentKey: Option<string>)
    ensures var top := [Entry(node.key, node.fields, parentKey)];
      && EntriesOf(node, parentKey) == top + Entries(node.children, Some(node.key))
      && After(s, existing, top) == Put(s, existing, top[0])
      && Flushes(s, existing, top) == [Put(s, existing, top[0]).menus]
      && Keys(top) == {node.key}
  {
    var top := [Entry(node.key, node.fields, parentKey)];
    assert top[0] in top && top[..0] == [];
    assert After(s, existing, []) == s && Flushes(s, existing, []) == [];
  }

  lemma LeavesGo(stale: set<nat>, leaves: set<nat>)
    requires leaves <= stale && leaves != {}
    ensures |stale - leaves| + |leaves| == |stale| && |stale - leaves| < |stale|
  {
    assert (stale - leaves) + leaves == stale;
  }

  /** The database refuses a batch of leaves exactly when a menu outside hangs under one of them. */
  lemma BatchRefusedExactlyWhen(all: Menus, managed: set<nat>, stale: set<nat>, leaves: set<nat>)
    requires leaves <= stale <= managed <= all.Keys
    requires forall m | m in stale :: all[m].parent.Some? ==> all[m].parent.value !in leaves
    requires !Hanging(all, managed, managed - stale)
    ensures var menus := all - (managed - stale);
      (exists m :: m !in leaves && HangsUnder(menus, m, leaves)) <==> Hanging(all, managed, managed - (stale - leaves))
  {
    var menus := all - (managed - stale);
    if m :| m !in leaves && HangsUnder(menus, m, leaves) {
      assert m !in managed && HangsUnder(all, m, managed - (stale - leaves));
    }
    if m :| m !in managed && HangsUnder(all, m, managed - (stale - leaves)) {
      assert !HangsUnder(all, m, managed - stale);
      assert HangsUnder(menus, m, leaves);
    }
  }
}
