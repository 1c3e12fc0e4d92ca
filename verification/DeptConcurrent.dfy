/** Any number of requests on the department tree, interleaved statement by statement. Moves and
    deletions take the tree lock and look again under it; creations take no lock. A statement reads
    what is committed (READ COMMITTED); the foreign key checks an insert at once and holds the parent
    until the insert commits or rolls back. */
module DeptConcurrent {
  import opened Wrappers
  import opened Forests
  import opened DeptTree

  type Pid = nat

  // Where an open transaction stands.
  datatype Pc =
    | Creating(parent: Option<nat>)                                      // parent seen
    | Inserted(id: nat, parent: Option<nat>)                             // row written, not committed
    | MoveRead(item: nat, target: Option<nat>, seen: Option<nat>)        // department and its parent seen
    | MoveLocked(item: nat, target: Option<nat>, seen: Option<nat>)
    | MoveChecked(item: nat, target: Option<nat>, seen: Option<nat>)
    | MoveWritten(item: nat, change: Option<Option<nat>>)                // new parent, if one was written
    | DeleteRead(item: nat)
    | DeleteLocked(item: nat)
    | DeleteChecked(item: nat)                                           // no child seen

  datatype Sys = Sys(db: Tree, nextId: nat, txns: map<Pid, Pc>)

  datatype Action =
    | BeginCreate(p: Pid, parent: Option<nat>)
    | Insert(p: Pid)
    | BeginMove(p: Pid, item: nat, target: Option<nat>)
    | BeginDelete(p: Pid, item: nat)
    | Lock(p: Pid)
    | Check(p: Pid)
    | Write(p: Pid)
    | Commit(p: Pid)
    | Rollback(p: Pid)

  predicate HoldsLock(pc: Pc) {
    pc.MoveLocked? || pc.MoveChecked? || pc.MoveWritten? || pc.DeleteLocked? || pc.DeleteChecked?
  }

  ghost predicate LockFree(s: Sys) { forall p | p in s.txns :: !HoldsLock(s.txns[p]) }

  predicate Stored(db: Tree, d: Option<nat>) { d.Some? ==> d.value in db }

  ghost predicate Childless(db: Tree, d: nat) { forall x | x in db :: db[x] != Some(d) }

  /** An uncommitted row under d keeps d from being deleted. */
  ghost predicate Pinned(s: Sys, d: nat) {
    exists p :: p in s.txns && s.txns[p].Inserted? && s.txns[p].parent == Some(d)
  }

  function Goto(s: Sys, p: Pid, pc: Pc): Sys { s.(txns := s.txns[p := pc]) }

  function Ended(s: Sys, p: Pid, db: Tree): Sys { s.(db := db, txns := s.txns - {p}) }

  ghost predicate Begins(s: Sys, a: Action, s': Sys)
    requires a.BeginCreate? || a.BeginMove? || a.BeginDelete?
  {
    a.p !in s.txns &&
    match a
    case BeginCreate(p, parent) => Stored(s.db, parent) && s' == Goto(s, p, Creating(parent))
    case BeginMove(p, item, target) => item in s.db && s' == Goto(s, p, MoveRead(item, target, s.db[item]))
    case BeginDelete(p, item) => item in s.db && s' == Goto(s, p, DeleteRead(item))
  }

  ghost predicate Inserts(s: Sys, p: Pid, s': Sys)
    requires p in s.txns
  {
    var pc := s.txns[p];
    && pc.Creating? && Stored(s.db, pc.parent)
    && s' == Goto(s, p, Inserted(s.nextId, pc.parent)).(nextId := s.nextId + 1)
  }

  ghost predicate Locks(s: Sys, p: Pid, s': Sys)
    requires p in s.txns
  {
    LockFree(s) &&
    match s.txns[p]
    case MoveRead(item, target, seen) => s' == Goto(s, p, MoveLocked(item, target, seen))
    case DeleteRead(item) => s' == Goto(s, p, DeleteLocked(item))
    case _ => false
  }

  ghost predicate Checks(s: Sys, p: Pid, s': Sys)
    requires p in s.txns
  {
    match s.txns[p]
    case MoveLocked(item, target, seen) =>
      && Stored(s.db, target) && (target.Some? ==> Allowed(s.db, item, target.value))
      && s' == Goto(s, p, MoveChecked(item, target, seen))
    case DeleteLocked(item) => Childless(s.db, item) && s' == Goto(s, p, DeleteChecked(item))
    case _ => false
  }

  /** The row object was loaded before the lock: a target equal to the parent seen then is no change,
      whatever is stored by now. An update of a row deleted meanwhile fails. */
  ghost predicate Writes(s: Sys, p: Pid, s': Sys)
    requires p in s.txns
  {
    match s.txns[p]
    case MoveChecked(item, target, seen) =>
      && item in s.db
      && s' == Goto(s, p, MoveWritten(item, if target == seen then None else Some(target)))
    case _ => false
  }

  ghost predicate Commits(s: Sys, p: Pid, s': Sys)
    requires p in s.txns
  {
    match s.txns[p]
    case Inserted(id, parent) => s' == Ended(s, p, s.db[id := parent])
    case MoveWritten(item, change) => s' == Ended(s, p, if change.Some? then s.db[item := change.value] else s.db)
    case DeleteChecked(item) => Childless(s.db, item) && !Pinned(s, item) && s' == Ended(s, p, s.db - {item})
    case _ => false
  }

  ghost predicate Step(s: Sys, a: Action, s': Sys) {
    match a
    case Insert(p) => p in s.txns && Inserts(s, p, s')
    case Lock(p) => p in s.txns && Locks(s, p, s')
    case Check(p) => p in s.txns && Checks(s, p, s')
    case Write(p) => p in s.txns && Writes(s, p, s')
    case Commit(p) => p in s.txns && Commits(s, p, s')
    case Rollback(p) => p in s.txns && s' == Ended(s, p, s.db)
    case _ => Begins(s, a, s')
  }

  // ---------- What every step keeps ----------

  ghost predicate Closed(db: Tree) { forall x | x in db && db[x].Some? :: db[x].value in db }

  ghost predicate NotJustBelow(db: Tree, item: nat, target: nat) {
    forall k | 0 <= k <= 64 :: !Under(db, target, k, item)
  }

  ghost predicate TargetOk(db: Tree, item: nat, target: Option<nat>) {
    target.Some? ==> target.value in db && NotJustBelow(db, item, target.value)
  }

  ghost predicate PcOk(s: Sys, pc: Pc) {
    match pc
    case Inserted(id, parent) => id !in s.db && id < s.nextId && Stored(s.db, parent)
    case MoveChecked(item, target, seen) => TargetOk(s.db, item, target)
    case MoveWritten(item, change) => item in s.db && (change.Some? ==> TargetOk(s.db, item, change.value))
    case _ => true
  }

  ghost predicate Apart(a: Pc, b: Pc) {
    && !(HoldsLock(a) && HoldsLock(b))
    && (a.Inserted? && b.Inserted? ==> a.id != b.id)
  }

  ghost predicate Inv(s: Sys) {
    && Closed(s.db)
    && (forall x | x in s.db :: x < s.nextId)
    && (forall p | p in s.txns :: PcOk(s, s.txns[p]))
    && (forall p, q | p in s.txns && q in s.txns && p != q :: Apart(s.txns[p], s.txns[q]))
  }

  /** A leaf changes nothing above the rows that were there. */
  lemma LeafKeepsPcOk(s: Sys, s': Sys, id: nat, parent: Option<nat>, pc: Pc)
    requires Closed(s.db) && id !in s.db && Stored(s.db, parent) && PcOk(s, pc)
    requires s'.db == s.db[id := parent] && s'.nextId == s.nextId && (pc.Inserted? ==> pc.id != id)
    ensures PcOk(s', pc)
  {
    forall y, k: nat | y in s.db ensures Up(s'.db, y, k) == Up(s.db, y, k) { UpUnderLeaf(s.db, id, parent, y, k); }
    if pc.MoveChecked? && pc.target.Some? {
      assert forall k: nat :: Under(s'.db, pc.target.value, k, pc.item) <==> Under(s.db, pc.target.value, k, pc.item);
    }
    if pc.MoveWritten? && pc.change.Some? && pc.change.value.Some? {
      var t := pc.change.value.value;
      assert forall k: nat :: Under(s'.db, t, k, pc.item) <==> Under(s.db, t, k, pc.item);
    }
  }

  lemma CommitKeeps(s: Sys, p: Pid, s': Sys)
    requires Inv(s) && p in s.txns && Commits(s, p, s')
    ensures Inv(s')
  {
    var pc := s.txns[p];
    forall q | q in s'.txns ensures PcOk(s', s'.txns[q]) {
      assert PcOk(s, s.txns[q]) && Apart(s.txns[p], s.txns[q]);
      if pc.Inserted? {
        LeafKeepsPcOk(s, s', pc.id, pc.parent, s.txns[q]);
      } else {
        assert !HoldsLock(s.txns[q]);
        if pc.DeleteChecked? { assert s.txns[q].Inserted? ==> s.txns[q].parent != Some(pc.item); }
      }
    }
    assert PcOk(s, pc);
  }

  lemma StepKeeps(s: Sys, a: Action, s': Sys)
    requires Inv(s) && Step(s, a, s')
    ensures Inv(s')
  {
    if a.Commit? { CommitKeeps(s, a.p, s'); } else {
      if a.Check? && s.txns[a.p].MoveLocked? && s.txns[a.p].target.Some? {
        GuardMeans(s.db, s.txns[a.p].item, s.txns[a.p].target.value);
      }
      forall q | q in s'.txns ensures PcOk(s', s'.txns[q]) {
        if q != a.p { assert PcOk(s, s.txns[q]); }
        if a.Write? { assert PcOk(s, s.txns[a.p]); }
      }
      forall q, r | q in s'.txns && r in s'.txns && q != r ensures Apart(s'.txns[q], s'.txns[r]) {
        KeptApart(s, a, s', q, r);
      }
    }
  }

  /** The guard of a move, whether or not the moved department is still stored. */
  lemma GuardMeans(db: Tree, item: nat, target: nat)
    requires Allowed(db, item, target)
    ensures NotJustBelow(db, item, target)
  {
    if item in db { AllowedExactlyWhen(db, item, target); }
  }

  lemma KeptApart(s: Sys, a: Action, s': Sys, q: Pid, r: Pid)
    requires Inv(s) && Step(s, a, s') && !a.Commit? && q in s'.txns && r in s'.txns && q != r
    ensures Apart(s'.txns[q], s'.txns[r])
  {
    hide Closed, Allowed, Childless, Stored;
    if q != a.p && r != a.p { assert Apart(s.txns[q], s.txns[r]); }
    if a.p in s.txns {
      assert PcOk(s, s.txns[a.p]);
      if q != a.p { assert PcOk(s, s.txns[q]) && Apart(s.txns[q], s.txns[a.p]); }
      if r != a.p { assert PcOk(s, s.txns[r]) && Apart(s.txns[a.p], s.txns[r]); }
    }
  }

  // ---------- Runs ----------

  datatype Run = Run(states: seq<Sys>, actions: seq<Action>)

  ghost predicate IsRun(r: Run) {
    && |r.states| == |r.actions| + 1
    && r.states[0].txns == map[] && Forest(r.states[0].db)
    && (forall x | x in r.states[0].db :: x < r.states[0].nextId)
    && forall i | 0 <= i < |r.actions| :: Step(r.states[i], r.actions[i], r.states[i + 1])
  }

  lemma {:induction false} EveryStateIsSound(r: Run, i: nat)
    requires IsRun(r) && i < |r.states|
    ensures Inv(r.states[i])
  {
    if i > 0 {
      EveryStateIsSound(r, i - 1);
      StepKeeps(r.states[i - 1], r.actions[i - 1], r.states[i]);
    }
  }

  /** This commit moves a department under one of its descendants. */
  ghost predicate MovesBelowItself(s: Sys, a: Action) {
    && a.Commit? && a.p in s.txns && s.txns[a.p].MoveWritten?
    && s.txns[a.p].change.Some? && s.txns[a.p].change.value.Some?
    && Above(s.db, s.txns[a.p].item, s.txns[a.p].change.value.value)
  }

  /** Such a commit can only reach more than 64 levels down. */
  lemma OnlyDeepMovesGetThrough(r: Run, i: nat)
    requires IsRun(r) && i < |r.actions| && MovesBelowItself(r.states[i], r.actions[i])
    ensures var pc := r.states[i].txns[r.actions[i].p];
      exists k: nat :: k > 64 && Under(r.states[i].db, pc.change.value.value, k, pc.item)
  {
    var s := r.states[i];
    var pc := s.txns[r.actions[i].p];
    EveryStateIsSound(r, i);
    assert PcOk(s, pc);
    var k: nat :| Under(s.db, pc.change.value.value, k, pc.item);
    assert k > 64;
  }

  lemma ForestStepExactlyWhen(s: Sys, a: Action, s': Sys)
    requires Inv(s) && Forest(s.db) && Step(s, a, s')
    ensures Forest(s'.db) <==> !MovesBelowItself(s, a)
  {
    if a.Commit? {
      var pc := s.txns[a.p];
      assert PcOk(s, pc);
      hide Forest, Above, Allowed;
      match pc
      case Inserted(id, parent) => LeafKeepsForest(s.db, id, parent);
      case MoveWritten(item, change) =>
        if change.Some? {
          if change.value.Some? { MoveKeepsForestExactlyWhen(s.db, item, change.value.value); }
          else { ToRootKeepsForest(s.db, item); }
        }
      case DeleteChecked(item) =>
        if item in s.db { DeleteKeepsForest(s.db, {item}); } else { assert s'.db == s.db; }
      case _ =>
    }
  }

  /** The committed departments are a forest in every state of a run exactly when no commit of the run
      moves a department under one of its own descendants, more than 64 levels down. */
  lemma {:induction false} ForestExactlyWhenNoDeepMove(r: Run)
    requires IsRun(r)
    ensures (forall i | 0 <= i < |r.states| :: Forest(r.states[i].db))
       <==> (forall i | 0 <= i < |r.actions| :: !MovesBelowItself(r.states[i], r.actions[i]))
  {
    hide Forest, MovesBelowItself, Step;
    if forall i | 0 <= i < |r.states| :: Forest(r.states[i].db) {
      forall i | 0 <= i < |r.actions| ensures !MovesBelowItself(r.states[i], r.actions[i]) {
        EveryStateIsSound(r, i);
        ForestStepExactlyWhen(r.states[i], r.actions[i], r.states[i + 1]);
      }
    }
    if forall i | 0 <= i < |r.actions| :: !MovesBelowItself(r.states[i], r.actions[i]) {
      forall i | 0 <= i < |r.states| ensures Forest(r.states[i].db) { ForestUpTo(r, i); }
    }
  }

  lemma {:induction false} ForestUpTo(r: Run, i: nat)
    requires IsRun(r) && i < |r.states|
    requires forall j | 0 <= j < i :: !MovesBelowItself(r.states[j], r.actions[j])
    ensures Forest(r.states[i].db)
  {
    if i > 0 {
      ForestUpTo(r, i - 1);
      EveryStateIsSound(r, i - 1);
      ForestStepExactlyWhen(r.states[i - 1], r.actions[i - 1], r.states[i]);
    }
  }

  /** No department lies more than 64 levels below this one. */
  ghost predicate Shallow(db: Tree, item: nat) { forall x, k: nat | k > 64 :: !Under(db, x, k, item) }

  /** In particular the departments stay a forest as long as every department that is moved has nothing
      more than 64 levels below it. */
  lemma ShallowMovesKeepForest(r: Run, i: nat)
    requires IsRun(r) && i < |r.states|
    requires forall j | 0 <= j < |r.actions| && r.actions[j].Commit? && r.actions[j].p in r.states[j].txns ::
               var pc := r.states[j].txns[r.actions[j].p]; pc.MoveWritten? ==> Shallow(r.states[j].db, pc.item)
    ensures Forest(r.states[i].db)
  {
    forall j | 0 <= j < |r.actions| ensures !MovesBelowItself(r.states[j], r.actions[j]) {
      if MovesBelowItself(r.states[j], r.actions[j]) {
        OnlyDeepMovesGetThrough(r, j);
      }
    }
    ForestExactlyWhenNoDeepMove(r);
  }

  // ---------- Requests that nobody interrupts ----------

  ghost predicate Follows(states: seq<Sys>, actions: seq<Action>) {
    |states| == |actions| + 1 && forall i | 0 <= i < |actions| :: Step(states[i], actions[i], states[i + 1])
  }

  function Moving(p: Pid, item: nat, target: Option<nat>): seq<Action> {
    [BeginMove(p, item, target), Lock(p), Check(p), Write(p), Commit(p)]
  }

  function Creation(p: Pid, parent: Option<nat>): seq<Action> { [BeginCreate(p, parent), Insert(p), Commit(p)] }

  function Deletion(p: Pid, item: nat): seq<Action> { [BeginDelete(p, item), Lock(p), Check(p), Commit(p)] }

  /** The target is a stored department, and neither the moved one nor up to 64 levels below it. */
  ghost predicate Movable(db: Tree, item: nat, target: Option<nat>) {
    && item in db
    && (target.Some? ==> target.value in db && forall k | 0 <= k <= 64 :: !Under(db, target.value, k, item))
  }

  /** A move can be made in one go exactly when the target is stored and passes the guard, and then it sets the
      parent. */
  lemma UninterruptedMove(s: Sys, p: Pid, item: nat, target: Option<nat>)
    requires LockFree(s) && p !in s.txns
    ensures Movable(s.db, item, target)
            <==> exists states: seq<Sys> :: Follows(states, Moving(p, item, target)) && states[0] == s
    ensures forall states: seq<Sys> | Follows(states, Moving(p, item, target)) && states[0] == s ::
              states[5] == s.(db := s.db[item := target])
  {
    if Movable(s.db, item, target) {
      if target.Some? { AllowedExactlyWhen(s.db, item, target.value); }
      MoveSteps(s, p, item, target);
    }
    forall states: seq<Sys> | Follows(states, Moving(p, item, target)) && states[0] == s
      ensures Movable(s.db, item, target) && states[5] == s.(db := s.db[item := target])
    {
      MoveEnds(s, p, item, target, states);
      if target.Some? { AllowedExactlyWhen(s.db, item, target.value); }
    }
  }

  lemma MoveSteps(s: Sys, p: Pid, item: nat, target: Option<nat>)
    requires LockFree(s) && p !in s.txns && item in s.db
    requires Stored(s.db, target) && (target.Some? ==> Allowed(s.db, item, target.value))
    ensures exists states: seq<Sys> :: Follows(states, Moving(p, item, target)) && states[0] == s
  {
    var s1, s2 := MoveLocks(s, p, item, target);
    var s3, s4, s5 := MoveIsWritten(s, p, item, target);
    hide Step, Allowed;
    assert Follows([s, s1, s2, s3, s4, s5], Moving(p, item, target));
  }

  lemma MoveLocks(s: Sys, p: Pid, item: nat, target: Option<nat>) returns (s1: Sys, s2: Sys)
    requires LockFree(s) && p !in s.txns && item in s.db
    ensures Step(s, BeginMove(p, item, target), s1) && Step(s1, Lock(p), s2)
    ensures s2 == Goto(s, p, MoveLocked(item, target, s.db[item]))
  {
    hide Allowed;
    s1 := Goto(s, p, MoveRead(item, target, s.db[item]));
    s2 := Goto(s, p, MoveLocked(item, target, s.db[item]));
  }

  lemma MoveIsWritten(s: Sys, p: Pid, item: nat, target: Option<nat>) returns (s3: Sys, s4: Sys, s5: Sys)
    requires p !in s.txns && item in s.db
    requires Stored(s.db, target) && (target.Some? ==> Allowed(s.db, item, target.value))
    ensures Step(Goto(s, p, MoveLocked(item, target, s.db[item])), Check(p), s3) && Step(s3, Write(p), s4)
    ensures Step(s4, Commit(p), s5)
  {
    hide Allowed;
    var seen := s.db[item];
    s3 := Goto(s, p, MoveChecked(item, target, seen));
    s4 := Goto(s, p, MoveWritten(item, if target == seen then None else Some(target)));
    s5 := Ended(s4, p, s.db[item := target]);
    assert s.db[item := seen] == s.db;
  }

  lemma MoveEnds(s: Sys, p: Pid, item: nat, target: Option<nat>, states: seq<Sys>)
    requires p !in s.txns && Follows(states, Moving(p, item, target)) && states[0] == s
    ensures item in s.db && Stored(s.db, target) && (target.Some? ==> Allowed(s.db, item, target.value))
    ensures states[5] == s.(db := s.db[item := target])
  {
    hide Allowed;
    var acts := Moving(p, item, target);
    assert Step(states[0], acts[0], states[1]);
    assert Step(states[1], acts[1], states[2]);
    assert Step(states[2], acts[2], states[3]);
    assert Step(states[3], acts[3], states[4]);
    assert Step(states[4], acts[4], states[5]);
    assert s.db[item := s.db[item]] == s.db;
    assert s.txns[p := states[4].txns[p]] - {p} == s.txns;
  }

  /** A creation can be made in one go exactly when its parent is stored, and then it adds a leaf. */
  lemma UninterruptedCreation(s: Sys, p: Pid, parent: Option<nat>)
    requires p !in s.txns
    ensures (parent.Some? ==> parent.value in s.db)
            <==> exists states: seq<Sys> :: Follows(states, Creation(p, parent)) && states[0] == s
    ensures forall states: seq<Sys> | Follows(states, Creation(p, parent)) && states[0] == s ::
              states[3] == s.(db := s.db[s.nextId := parent], nextId := s.nextId + 1)
  {
    var acts := Creation(p, parent);
    if Stored(s.db, parent) {
      var s1 := Goto(s, p, Creating(parent));
      var s2 := Goto(s, p, Inserted(s.nextId, parent)).(nextId := s.nextId + 1);
      var s3 := Ended(s2, p, s.db[s.nextId := parent]);
      assert Step(s, acts[0], s1) && Step(s1, acts[1], s2) && Step(s2, acts[2], s3);
      assert Follows([s, s1, s2, s3], acts);
    }
    forall states: seq<Sys> | Follows(states, acts) && states[0] == s
      ensures Stored(s.db, parent) && states[3] == s.(db := s.db[s.nextId := parent], nextId := s.nextId + 1)
    {
      assert Step(states[0], acts[0], states[1]);
      assert Step(states[1], acts[1], states[2]);
      assert Step(states[2], acts[2], states[3]);
      assert s.txns[p := states[2].txns[p]] - {p} == s.txns;
    }
  }

  /** A deletion can be made in one go exactly when the department is stored and nothing hangs under it, an uncommitted
      row included, and then it removes the one row. */
  lemma UninterruptedDeletion(s: Sys, p: Pid, item: nat)
    requires LockFree(s) && p !in s.txns
    ensures item in s.db && (forall x | x in s.db :: s.db[x] != Some(item))
            && (forall q | q in s.txns && s.txns[q].Inserted? :: s.txns[q].parent != Some(item))
            <==> exists states: seq<Sys> :: Follows(states, Deletion(p, item)) && states[0] == s
    ensures forall states: seq<Sys> | Follows(states, Deletion(p, item)) && states[0] == s ::
              states[4] == s.(db := s.db - {item})
  {
    var acts := Deletion(p, item);
    if item in s.db && Childless(s.db, item) && !Pinned(s, item) { DeleteSteps(s, p, item); }
    forall states: seq<Sys> | Follows(states, acts) && states[0] == s
      ensures item in s.db && Childless(s.db, item) && !Pinned(s, item) && states[4] == s.(db := s.db - {item})
    {
      assert Step(states[0], acts[0], states[1]);
      assert Step(states[1], acts[1], states[2]);
      assert Step(states[2], acts[2], states[3]);
      assert Step(states[3], acts[3], states[4]);
      assert s.txns[p := states[3].txns[p]] - {p} == s.txns;
      forall q | q in s.txns && s.txns[q].Inserted? ensures s.txns[q].parent != Some(item) {
        assert q in states[3].txns && states[3].txns[q] == s.txns[q];
      }
    }
  }

  lemma DeleteSteps(s: Sys, p: Pid, item: nat)
    requires LockFree(s) && p !in s.txns && item in s.db && Childless(s.db, item) && !Pinned(s, item)
    ensures exists states: seq<Sys> :: Follows(states, Deletion(p, item)) && states[0] == s
  {
    var s1, s2, s3 := Goto(s, p, DeleteRead(item)), Goto(s, p, DeleteLocked(item)), Goto(s, p, DeleteChecked(item));
    var s4 := Ended(s3, p, s.db - {item});
    assert Step(s, BeginDelete(p, item), s1) && Step(s1, Lock(p), s2);
    assert Step(s2, Check(p), s3) && Step(s3, Commit(p), s4);
    hide Step;
    assert Follows([s, s1, s2, s3, s4], Deletion(p, item));
  }
}
