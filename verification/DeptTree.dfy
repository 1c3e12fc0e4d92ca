/** The department tree as the database stores it: each row points at its parent. The two recursive
    queries expand it downwards and upwards, both cut off at a depth of 64. */
module DeptTree {
  import opened Wrappers
  import opened Forests

  const MAX_DEPTH := 64

  // ---------- The queries ----------

  function ChildrenOf(t: Tree, level: set<nat>): set<nat> {
    set x | x in t && t[x].Some? && t[x].value in level
  }

  /** The rows of the descending query from one level on. */
  function Expand(t: Tree, level: set<nat>, depth: nat): set<nat>
    requires depth <= MAX_DEPTH
    decreases MAX_DEPTH - depth
  {
    if depth < MAX_DEPTH then level + Expand(t, ChildrenOf(t, level), depth + 1) else level
  }

  /** `list_descendant_dept_ids`, which includes the department itself. */
  function Descendants(t: Tree, d: nat): set<nat> {
    Expand(t, if d in t then {d} else {}, 0)
  }

  /** The rows of the ascending query, nearest first. */
  function Climb(t: Tree, x: nat, depth: nat): seq<nat>
    requires depth <= MAX_DEPTH
    decreases MAX_DEPTH - depth
  {
    if x !in t then []
    else if depth < MAX_DEPTH && t[x].Some? then [x] + Climb(t, t[x].value, depth + 1)
    else [x]
  }

  function Without(s: seq<nat>, d: nat): seq<nat> {
    if s == [] then [] else (if s[0] == d then [] else [s[0]]) + Without(s[1..], d)
  }

  function Reversed(s: seq<nat>): seq<nat> {
    if s == [] then [] else Reversed(s[1..]) + [s[0]]
  }

  /** `list_ancestor_dept_ids`: the farthest ancestor first, the department itself left out. */
  function Ancestors(t: Tree, d: nat): seq<nat> { Reversed(Without(Climb(t, d, 0), d)) }

  // ---------- What they answer ----------

  lemma {:induction false} ExpandIsUp(t: Tree, d: nat, level: set<nat>, depth: nat, x: nat)
    requires depth <= MAX_DEPTH
    requires forall y :: y in level <==> Up(t, y, depth) == Some(d)
    ensures x in Expand(t, level, depth) <==> exists k :: depth <= k <= MAX_DEPTH && Under(t, x, k, d)
    decreases MAX_DEPTH - depth
  {
    if depth < MAX_DEPTH {
      var next := ChildrenOf(t, level);
      ExpandIsUp(t, d, next, depth + 1, x);
      if exists k :: depth <= k <= MAX_DEPTH && Under(t, x, k, d) {
        var k :| depth <= k <= MAX_DEPTH && Under(t, x, k, d);
        if k == depth { assert x in level; }
      }
      if x in level { assert Under(t, x, depth, d); }
    } else if x in level {
      assert Under(t, x, depth, d);
    }
  }

  /** The descending query finds exactly the departments at most 64 levels below. */
  lemma DescendantsAreBelow(t: Tree, d: nat, x: nat)
    ensures x in Descendants(t, d) <==> exists k :: 0 <= k <= 64 && Under(t, x, k, d)
  {
    ExpandIsUp(t, d, if d in t then {d} else {}, 0, x);
  }

  /** The climb from d lists Up(d, 0), Up(d, 1), ... until a root, a missing parent, or the cap. */
  lemma {:induction false} ClimbIsUp(t: Tree, x: nat, depth: nat)
    requires depth <= MAX_DEPTH
    ensures var c := Climb(t, x, depth);
      && |c| <= MAX_DEPTH - depth + 1
      && (forall i | 0 <= i < |c| :: Up(t, x, i) == Some(c[i]))
      && (|c| < MAX_DEPTH - depth + 1 ==> Up(t, x, |c|) == None)
    decreases MAX_DEPTH - depth
  {
    if x in t && depth < MAX_DEPTH && t[x].Some? {
      ClimbIsUp(t, t[x].value, depth + 1);
      var c := Climb(t, x, depth);
      var r := Climb(t, t[x].value, depth + 1);
      forall i | 0 <= i < |c| ensures Up(t, x, i) == Some(c[i]) {
        if i > 0 { assert c[i] == r[i - 1]; }
      }
    }
  }

  lemma InWithout(s: seq<nat>, d: nat, x: nat)
    ensures x in Without(s, d) <==> x in s && x != d
    ensures |Without(s, d)| <= |s|
  {
  }

  lemma InReversed(s: seq<nat>)
    ensures |Reversed(s)| == |s|
    ensures forall i | 0 <= i < |s| :: Reversed(s)[i] == s[|s| - 1 - i]
    ensures forall x :: x in Reversed(s) <==> x in s
  {
  }

  lemma AncestorsAreAbove(t: Tree, d: nat, a: nat)
    ensures a in Ancestors(t, d) <==> a != d && exists k :: 0 <= k <= 64 && Under(t, d, k, a)
  {
    var c := Climb(t, d, 0);
    ClimbIsUp(t, d, 0);
    InWithout(c, d, a);
    InReversed(Without(c, d));
    if a in c { var i :| 0 <= i < |c| && c[i] == a; assert Under(t, d, i, a); }
    if exists k :: 0 <= k <= MAX_DEPTH && Under(t, d, k, a) {
      var k :| 0 <= k <= MAX_DEPTH && Under(t, d, k, a);
      if k >= |c| { UpEnds(t, d, |c|, k); }
      assert c[k] == a;
    }
  }

  /** The two queries are inverse to each other, on any stored data: a forest of any height, rows with
      missing parents, even cycles. */
  lemma QueriesAreDual(t: Tree, a: nat, d: nat)
    ensures a in Ancestors(t, d) <==> a != d && d in Descendants(t, a)
  {
    AncestorsAreAbove(t, d, a);
    DescendantsAreBelow(t, a, d);
  }

  /** On any data, cyclic or not, an answer has at most 64 ancestors and names only stored rows. */
  lemma QueriesAreBounded(t: Tree, d: nat)
    ensures |Ancestors(t, d)| <= 64
    ensures forall a | a in Ancestors(t, d) :: a in t
    ensures Descendants(t, d) <= t.Keys
  {
    var c := Climb(t, d, 0);
    ClimbIsUp(t, d, 0);
    InReversed(Without(c, d));
    if c != [] {
      assert c[0] == d;
      InWithout(c[1..], d, d);
    }
    forall a | a in Ancestors(t, d) ensures a in t {
      InWithout(c, d, a);
      var i :| 0 <= i < |c| && c[i] == a;
      UpStep(t, d, i);
    }
    forall x | x in Descendants(t, d) ensures x in t {
      DescendantsAreBelow(t, d, x);
    }
  }

  /** Where the climb from d ends, as everywhere in a forest, the ancestor query gives the path from the
      top down to the parent, without gaps or repeats, exactly when the department is at most 64 levels
      deep; below that it gives the nearest 64 ancestors. */
  lemma AncestorsAreThePath(t: Tree, d: nat, depth: nat)
    requires d in t && Up(t, d, depth).Some? && Up(t, d, depth + 1).None?
    ensures var m := if depth <= 64 then depth else 64;
      && |Ancestors(t, d)| == m
      && (forall i | 0 <= i < m :: Up(t, d, m - i) == Some(Ancestors(t, d)[i]))
      && (d !in Ancestors(t, d))
      && (m > 0 ==> Ancestors(t, d)[0] in t && (Up(t, Ancestors(t, d)[0], 1).None? <==> depth <= 64))
  {
    var c := Climb(t, d, 0);
    var m := if depth <= MAX_DEPTH then depth else MAX_DEPTH;
    ClimbReaches(t, d, depth);
    AncestorsAreTheClimb(t, d, depth);
    if m > 0 {
      assert Ancestors(t, d)[0] == c[m];
      UpStep(t, d, m);
      if depth > MAX_DEPTH && Up(t, d, m + 1).None? { UpEnds(t, d, m + 1, depth); }
    }
  }

  lemma ClimbReaches(t: Tree, d: nat, depth: nat)
    requires d in t && Up(t, d, depth).Some? && Up(t, d, depth + 1).None?
    ensures |Climb(t, d, 0)| == 1 + if depth <= MAX_DEPTH then depth else MAX_DEPTH
    ensures forall i | 0 <= i < |Climb(t, d, 0)| :: Up(t, d, i) == Some(Climb(t, d, 0)[i])
  {
    var c := Climb(t, d, 0);
    ClimbIsUp(t, d, 0);
    if |c| <= depth && |c| < MAX_DEPTH + 1 { UpEnds(t, d, |c|, depth); }
  }

  lemma AncestorsAreTheClimb(t: Tree, d: nat, depth: nat)
    requires d in t && Up(t, d, depth).Some? && Up(t, d, depth + 1).None?
    ensures var c := Climb(t, d, 0);
      && c != [] && |Ancestors(t, d)| == |c| - 1
      && (forall i | 0 <= i < |c| - 1 :: Ancestors(t, d)[i] == c[|c| - 1 - i])
      && d !in Ancestors(t, d)
  {
    ClimbStartsAtItself(t, d, depth);
    hide Up, Climb;
    var c := Climb(t, d, 0);
    KeepsAll(c[1..], d);
    assert Without(c, d) == c[1..];
    hide Without, Reversed;
    InReversed(c[1..]);
    InWithout(c, d, d);
  }

  lemma ClimbStartsAtItself(t: Tree, d: nat, depth: nat)
    requires d in t && Up(t, d, depth).Some? && Up(t, d, depth + 1).None?
    ensures Climb(t, d, 0) != [] && Climb(t, d, 0)[0] == d
    ensures forall i | 1 <= i < |Climb(t, d, 0)| :: Climb(t, d, 0)[i] != d
  {
    var c := Climb(t, d, 0);
    ClimbReaches(t, d, depth);
    assert Up(t, d, 0) == Some(c[0]);
    hide Up, Climb;
    forall i | 1 <= i < |c| ensures c[i] != d {
      if c[i] == d { NoLoop(t, d, i, depth + 1); }
    }
  }

  lemma KeepsAll(s: seq<nat>, d: nat)
    requires forall i | 0 <= i < |s| :: s[i] != d
    ensures Without(s, d) == s
  {
    if s != [] { KeepsAll(s[1..], d); }
  }

  // ---------- The guard of a move ----------

  /** `_check_no_cycle` lets the move through. */
  predicate Allowed(t: Tree, x: nat, parent: nat) {
    parent != x && parent !in Descendants(t, x)
  }

  /** The guard accepts exactly the moves whose target is not within 64 levels below. */
  lemma AllowedExactlyWhen(t: Tree, x: nat, parent: nat)
    requires x in t
    ensures Allowed(t, x, parent) <==> forall k | 0 <= k <= 64 :: !Under(t, parent, k, x)
  {
    DescendantsAreBelow(t, x, parent);
    if parent == x { assert Under(t, parent, 0, x); }
    if !Allowed(t, x, parent) && parent != x {
      var k :| 0 <= k <= MAX_DEPTH && Under(t, parent, k, x);
    }
  }

  /** An allowed move keeps the forest exactly when its target is not below the moved department at
      all: the guard can only be wrong about a target more than 64 levels down. */
  lemma AllowedMoveKeepsForestExactlyWhen(t: Tree, x: nat, parent: nat)
    requires Forest(t) && x in t && parent in t && Allowed(t, x, parent)
    ensures Forest(t[x := Some(parent)]) <==> forall k: nat | k > 64 :: !Under(t, parent, k, x)
  {
    AllowedExactlyWhen(t, x, parent);
    MoveKeepsForestExactlyWhen(t, x, parent);
    if Above(t, x, parent) {
      var k: nat :| Under(t, parent, k, x);
      assert k > MAX_DEPTH;
    }
  }

  function Link(i: nat): Option<nat> { if i == 0 then None else Some(i - 1) }

  /** A chain of 66 departments. */
  function Chain(): Tree { map i | 0 <= i <= 65 :: Link(i) }

  lemma {:induction false} ClimbChain(x: nat, k: nat)
    requires 0 <= k <= x <= 65
    ensures Up(Chain(), x, k) == Some(x - k)
    decreases k
  {
    if k > 0 { ClimbChain(x - 1, k - 1); }
  }

  lemma ChainIsForest()
    ensures Forest(Chain())
  {
    forall x | x in Chain() ensures Rooted(Chain(), x) {
      ClimbChain(x, x);
      UpStep(Chain(), x, x);
      assert Up(Chain(), x, x + 1) == None;
    }
  }

  /** Moving the top of a chain of 66 departments under its bottom passes the guard and makes a cycle; one
      department further up the guard refuses it. */
  lemma DeepMoveMakesACycle()
    ensures Forest(Chain()) && Allowed(Chain(), 0, 65) && !Forest(Chain()[0 := Some(65)])
    ensures forall d | 0 <= d <= 64 :: !Allowed(Chain(), 0, d)
  {
    hide Forest, Allowed, Up;
    var t := Chain();
    forall d | 0 <= d <= 64 ensures !Allowed(t, 0, d) {
      ClimbChain(d, d);
      assert Under(t, d, d, 0);
      AllowedExactlyWhen(t, 0, d);
    }
    ChainIsForest();
    forall k | 0 <= k <= 64 ensures !Under(t, 65, k, 0) { ClimbChain(65, k); }
    AllowedExactlyWhen(t, 0, 65);
    ClimbChain(65, 65);
    assert Under(t, 65, 65, 0);
    AllowedMoveKeepsForestExactlyWhen(t, 0, 65);
  }
}
