/** Rows that point at a parent row, as in the department and the menu table. */
module Forests {
  import opened Wrappers

  // Row id -> parent id, None for a root.
  type Tree = map<nat, Option<nat>>

  /** The row k levels above x, if there is one. */
  function Up(t: Tree, x: nat, k: nat): (r: Option<nat>)
    ensures r.Some? ==> r.value in t
    decreases k
  {
    if x !in t then None
    else if k == 0 then Some(x)
    else if t[x].None? then None
    else Up(t, t[x].value, k - 1)
  }

  /** x is k levels below d. */
  predicate Under(t: Tree, x: nat, k: nat, d: nat) { Up(t, x, k) == Some(d) }

  lemma {:induction false} UpStep(t: Tree, x: nat, k: nat)
    ensures Up(t, x, k + 1)
         == match Up(t, x, k) case None => None case Some(y) =>
              if t[y].Some? && t[y].value in t then Some(t[y].value) else None
    decreases k
  {
    if x in t && k > 0 && t[x].Some? { UpStep(t, t[x].value, k - 1); }
  }

  lemma {:induction false} UpEnds(t: Tree, x: nat, i: nat, k: nat)
    requires i <= k && Up(t, x, i) == None
    ensures Up(t, x, k) == None
    decreases k
  {
    if i < k { UpEnds(t, x, i, k - 1); UpStep(t, x, k - 1); }
  }

  lemma {:induction false} UpAdds(t: Tree, x: nat, i: nat, k: nat)
    ensures Up(t, x, i + k) == if Up(t, x, i).None? then None else Up(t, Up(t, x, i).value, k)
    decreases i
  {
    if i > 0 && x in t && t[x].Some? { UpAdds(t, t[x].value, i - 1, k); }
  }

  /** Climbing from x ends at a root. */
  ghost predicate Rooted(t: Tree, x: nat) { exists n: nat :: Up(t, x, n) == None }

  ghost predicate Forest(t: Tree) {
    && (forall x | x in t && t[x].Some? :: t[x].value in t)
    && (forall x | x in t :: Rooted(t, x))
  }

  /** d is x or lies somewhere above it. */
  ghost predicate Above(t: Tree, d: nat, x: nat) { exists k: nat :: Under(t, x, k, d) }

  /** In a forest no row is above itself at a distance. */
  lemma {:induction false} NoLoop(t: Tree, x: nat, k: nat, n: nat)
    requires k > 0 && Up(t, x, k) == Some(x) && Up(t, x, n) == None
    ensures false
    decreases n
  {
    if n < k { UpEnds(t, x, n, k); } else {
      UpAdds(t, x, k, n - k);
      NoLoop(t, x, k, n - k);
    }
  }

  // ---------- Writes ----------

  /** A new leaf, under a stored parent or as a root. */
  lemma LeafKeepsForest(t: Tree, x: nat, parent: Option<nat>)
    requires Forest(t) && x !in t && (parent.Some? ==> parent.value in t)
    ensures Forest(t[x := parent])
    ensures forall y, k: nat | y in t :: Up(t[x := parent], y, k) == Up(t, y, k)
  {
    var t' := t[x := parent];
    forall y, k: nat | y in t ensures Up(t', y, k) == Up(t, y, k) { UpUnderLeaf(t, x, parent, y, k); }
    forall y | y in t' ensures Rooted(t', y) {
      if y in t {
        var n: nat :| Up(t, y, n) == None;
        assert Up(t', y, n) == None;
      } else if parent.None? {
        assert Up(t', x, 1) == None;
      } else {
        var n: nat :| Up(t, parent.value, n) == None;
        assert Up(t', parent.value, n) == None;
        assert Up(t', x, n + 1) == None;
      }
    }
  }

  lemma {:induction false} UpUnderLeaf(t: Tree, x: nat, parent: Option<nat>, y: nat, k: nat)
    requires x !in t && y in t && forall z | z in t && t[z].Some? :: t[z].value in t
    ensures Up(t[x := parent], y, k) == Up(t, y, k)
    decreases k
  {
    if k > 0 && t[y].Some? { UpUnderLeaf(t, x, parent, t[y].value, k - 1); }
  }

  /** Rows that no other row points at can go together. */
  lemma DeleteKeepsForest(t: Tree, gone: set<nat>)
    requires Forest(t) && forall y | y in t && y !in gone && t[y].Some? :: t[y].value !in gone
    ensures Forest(t - gone)
  {
    var t' := t - gone;
    forall y | y in t' ensures Rooted(t', y) {
      var n: nat :| Up(t, y, n) == None;
      UpWithout(t, gone, y, n);
    }
  }

  lemma {:induction false} UpWithout(t: Tree, gone: set<nat>, y: nat, k: nat)
    requires forall z | z in t && z !in gone && t[z].Some? :: t[z].value !in gone
    requires y in t && y !in gone
    ensures Up(t - gone, y, k) == Up(t, y, k)
    decreases k
  {
    if k > 0 && t[y].Some? && t[y].value in t { UpWithout(t, gone, t[y].value, k - 1); }
  }

  /** A move keeps the forest exactly when the new parent is neither the moved row nor one of
      its descendants, however deep. */
  lemma MoveKeepsForestExactlyWhen(t: Tree, x: nat, parent: nat)
    requires Forest(t) && x in t && parent in t
    ensures Forest(t[x := Some(parent)]) <==> !Above(t, x, parent)
  {
    var t' := t[x := Some(parent)];
    if Above(t, x, parent) {
      var k: nat :| Under(t, parent, k, x);
      ShortestClimb(t, x, parent, k);
      var m: nat :| m <= k && Under(t, parent, m, x) && forall i: nat | i < m :: !Under(t, parent, i, x);
      UpBeforeMove(t, x, parent, parent, m);
      assert Up(t', x, m + 1) == Some(x);
      if Forest(t') {
        var n: nat :| Up(t', x, n) == None;
        NoLoop(t', x, m + 1, n);
      }
    } else {
      var n: nat :| Up(t, parent, n) == None;
      forall i: nat | i < n ensures !Under(t, parent, i, x) { }
      UpBeforeMove(t, x, parent, parent, n);
      assert Up(t', parent, n) == None;
      assert Up(t', x, n + 1) == None;
      forall y | y in t' ensures Rooted(t', y) {
        RootedAfterMove(t, x, parent, y, n + 1);
      }
    }
  }

  lemma {:induction false} ShortestClimb(t: Tree, x: nat, y: nat, k: nat)
    requires Under(t, y, k, x)
    ensures exists m: nat :: m <= k && Under(t, y, m, x) && forall i: nat | i < m :: !Under(t, y, i, x)
  {
    if i: nat :| i < k && Under(t, y, i, x) { ShortestClimb(t, x, y, i); }
  }

  lemma {:induction false} UpBeforeMove(t: Tree, x: nat, parent: nat, y: nat, k: nat)
    requires x in t && forall i: nat | i < k :: !Under(t, y, i, x)
    ensures Up(t[x := Some(parent)], y, k) == Up(t, y, k)
    decreases k
  {
    if k > 0 && y in t {
      assert !Under(t, y, 0, x);
      if t[y].Some? {
        forall i: nat | i < k - 1 ensures !Under(t, t[y].value, i, x) { assert !Under(t, y, i + 1, x); }
        UpBeforeMove(t, x, parent, t[y].value, k - 1);
      }
    }
  }

  lemma RootedAfterMove(t: Tree, x: nat, parent: nat, y: nat, m: nat)
    requires Forest(t) && x in t && y in t && Up(t[x := Some(parent)], x, m) == None
    ensures Rooted(t[x := Some(parent)], y)
  {
    var t' := t[x := Some(parent)];
    if Above(t, x, y) {
      var k: nat :| Under(t, y, k, x);
      ShortestClimb(t, x, y, k);
      var j: nat :| j <= k && Under(t, y, j, x) && forall i: nat | i < j :: !Under(t, y, i, x);
      UpBeforeMove(t, x, parent, y, j);
      UpAdds(t', y, j, m);
      assert Up(t', y, j + m) == None;
    } else {
      var n: nat :| Up(t, y, n) == None;
      forall i: nat | i < n ensures !Under(t, y, i, x) { }
      UpBeforeMove(t, x, parent, y, n);
      assert Up(t', y, n) == None;
    }
  }

  lemma ToRootKeepsForest(t: Tree, x: nat)
    requires Forest(t) && x in t
    ensures Forest(t[x := None])
  {
    var t' := t[x := None];
    assert Up(t', x, 1) == None;
    forall y | y in t' ensures Rooted(t', y) {
      RootedAfterRoot(t, x, y);
    }
  }

  lemma RootedAfterRoot(t: Tree, x: nat, y: nat)
    requires Forest(t) && x in t && y in t
    ensures Rooted(t[x := None], y)
  {
    var n: nat :| Up(t, y, n) == None;
    EndsSooner(t, x, y, n);
  }

  lemma {:induction false} EndsSooner(t: Tree, x: nat, y: nat, n: nat)
    requires Up(t, y, n) == None && x in t
    ensures Up(t[x := None], y, n + 1) == None
    decreases n
  {
    if n > 0 && y in t && y != x && t[y].Some? { EndsSooner(t, x, t[y].value, n - 1); }
  }

  // ---------- Lowest rows ----------

  ghost predicate Below(t: Tree, y: nat, x: nat) { exists k: nat :: k > 0 && Under(t, y, k, x) }

  lemma BelowIsTransitive(t: Tree, z: nat, y: nat, x: nat)
    requires Below(t, z, y) && Below(t, y, x)
    ensures Below(t, z, x)
  {
    var k: nat :| k > 0 && Under(t, z, k, y);
    var m: nat :| m > 0 && Under(t, y, m, x);
    UpAdds(t, z, k, m);
    assert Under(t, z, k + m, x);
  }

  lemma NotBelowItself(t: Tree, x: nat)
    requires Forest(t) && x in t
    ensures !Below(t, x, x)
  {
    if Below(t, x, x) {
      var k: nat :| k > 0 && Under(t, x, k, x);
      var n: nat :| Up(t, x, n) == None;
      NoLoop(t, x, k, n);
    }
  }

  /** Some row of any non-empty set of rows has none of the others below it. */
  lemma {:induction false} LowestRow(t: Tree, rows: set<nat>) returns (x: nat)
    requires Forest(t) && rows != {} && rows <= t.Keys
    ensures x in rows && forall y | y in rows :: !Below(t, y, x)
  {
    hide Forest, Below;
    var y :| y in rows;
    NotBelowItself(t, y);
    if rows == {y} { return y; }
    x := LowestRow(t, rows - {y});
    if Below(t, y, x) {
      forall z | z in rows ensures !Below(t, z, y) {
        if Below(t, z, y) { BelowIsTransitive(t, z, y, x); }
      }
      x := y;
    }
  }
}
