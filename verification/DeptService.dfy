/** Creating, moving and deleting a department: a repository over the stored rows and the service
    that checks a request before it writes. Here a request runs alone; DeptConcurrent interleaves
    them. */
module DeptService {
  import opened Wrappers
  import opened Forests
  import opened DeptTree

  datatype Dept = Dept(
    parent: Option<nat>, name: string, code: string, sortOrder: int, active: bool,
    leader: Option<string>, phone: Option<string>, email: Option<string>)

  // None for a caller without restrictions, otherwise the departments the caller may see.
  datatype Scope = All | Only(ids: set<nat>)

  datatype DeptCreate = DeptCreate(
    parent: Option<nat>, name: string, code: string, sortOrder: int,
    leader: Option<string>, phone: Option<string>, email: Option<string>)

  // A field that was not sent is None, one that was sent as null is Some(None). A null parent makes a
  // root; four columns do not take a null.
  datatype DeptUpdate = DeptUpdate(
    parent: Option<Option<nat>>, name: Option<Option<string>>, code: Option<Option<string>>,
    sortOrder: Option<Option<int>>, active: Option<Option<bool>>,
    leader: Option<Option<string>>, phone: Option<Option<string>>, email: Option<Option<string>>)

  // NullColumn is the database's refusal.
  datatype DeptError =
    | NotFound | ParentNotFound | CodeDuplicate | Cycle | HasChildren | ForbiddenByScope | NullColumn

  datatype Outcome<T> = Ok(value: T) | Failed(error: DeptError)

  function Parents(depts: map<nat, Dept>): Tree { map d | d in depts :: depts[d].parent }

  predicate Visible(scope: Scope, d: Option<nat>) {
    scope.All? || (d.Some? && d.value in scope.ids)
  }

  predicate CodeTaken(depts: map<nat, Dept>, code: string) { exists d :: d in depts && depts[d].code == code }

  predicate HasChild(depts: map<nat, Dept>, d: nat) { exists x :: x in depts && depts[x].parent == Some(d) }

  /** The update asks for a code that another department has. */
  predicate CodeClash(depts: map<nat, Dept>, id: nat, u: DeptUpdate)
    requires id in depts
  {
    u.code.Some? && u.code.value.Some? && u.code.value.value != depts[id].code && CodeTaken(depts, u.code.value.value)
  }

  ghost predicate CodesDistinct(depts: map<nat, Dept>) {
    forall a, b | a in depts && b in depts && a != b :: depts[a].code != depts[b].code
  }

  /** Why a move is refused, None when it is not: a caller who may not see the target learns nothing
      about it, and the tree is looked at last. */
  function MoveRefused(depts: map<nat, Dept>, id: nat, parent: Option<nat>, scope: Option<Scope>): Option<DeptError> {
    if scope.Some? && !Visible(scope.value, parent) then Some(ForbiddenByScope)
    else if parent.None? then None
    else if parent.value !in depts then Some(ParentNotFound)
    else if !Allowed(Parents(depts), id, parent.value) then Some(Cycle)
    else None
  }

  predicate HasNull(u: DeptUpdate) {
    u.name == Some(None) || u.code == Some(None) || u.sortOrder == Some(None) || u.active == Some(None)
  }

  function Sent<T>(field: Option<T>, was: T): T { if field.Some? then field.value else was }

  function Filled<T>(field: Option<Option<T>>, was: T): T
    requires field != Some(None)
  {
    if field.Some? then field.value.value else was
  }

  function Patched(d: Dept, u: DeptUpdate): Dept
    requires !HasNull(u)
  {
    Dept(Sent(u.parent, d.parent), Filled(u.name, d.name), Filled(u.code, d.code), Filled(u.sortOrder, d.sortOrder),
         Filled(u.active, d.active), Sent(u.leader, d.leader), Sent(u.phone, d.phone), Sent(u.email, d.email))
  }

  /** The row that a create payload makes; a new department is active. */
  function NewDept(p: DeptCreate): Dept {
    Dept(p.parent, p.name, p.code, p.sortOrder, true, p.leader, p.phone, p.email)
  }

  class DeptRepository {
    var depts: map<nat, Dept>
    var nextId: nat

    constructor ()
      ensures depts == map[] && nextId == 1
    {
      depts, nextId := map[], 1;
    }

    method Get(id: nat) returns (d: Option<Dept>)
      ensures d == if id in depts then Some(depts[id]) else None
    {
      d := if id in depts then Some(depts[id]) else None;
    }

    method FindByCode(code: string) returns (d: Option<nat>)
      ensures d.Some? <==> CodeTaken(depts, code)
      ensures d.Some? ==> d.value in depts && depts[d.value].code == code
    {
      var todo := depts.Keys;
      while todo != {}
        invariant todo <= depts.Keys
        invariant forall x | x in depts && x !in todo :: depts[x].code != code
      {
        var x :| x in todo;
        if depts[x].code == code { return Some(x); }
        todo := todo - {x};
      }
      d := None;
    }

    method CountChildren(id: nat) returns (n: nat)
      ensures n == |set x | x in depts && depts[x].parent == Some(id)|
      ensures n > 0 <==> HasChild(depts, id)
    {
      var children := set x | x in depts && depts[x].parent == Some(id);
      n := |children|;
      assert n > 0 ==> exists x :: x in children;
      assert forall x | x in depts && depts[x].parent == Some(id) :: x in children;
    }

    method Create(payload: DeptCreate) returns (id: nat)
      requires nextId !in depts
      modifies this
      ensures id == old(nextId) && nextId == id + 1
      ensures depts == old(depts)[id := Dept(payload.parent, payload.name, payload.code, payload.sortOrder, true,
                                             payload.leader, payload.phone, payload.email)]
    {
      id := nextId;
      depts := depts[id := NewDept(payload)];
      nextId := nextId + 1;
    }

    /** The sent fields are set one by one; the flush fails when a column does not take its null. */
    method Update(id: nat, payload: DeptUpdate) returns (r: Outcome<Option<Dept>>)
      modifies this`depts
      ensures r == Failed(NullColumn) <==>
                && id in old(depts)
                && (payload.name == Some(None) || payload.code == Some(None) || payload.sortOrder == Some(None)
                    || payload.active == Some(None))
      ensures r.Failed? ==> r.error == NullColumn && depts == old(depts)
      ensures id !in old(depts) ==> r == Ok(None) && depts == old(depts)
      ensures id in old(depts) && !HasNull(payload) ==>
                r == Ok(Some(Patched(old(depts)[id], payload))) && depts == old(depts)[id := r.value.value]
      ensures id in old(depts) && !HasNull(payload) ==>
                var d, d' := old(depts)[id], depts[id];
                && d'.parent == (if payload.parent.Some? then payload.parent.value else d.parent)
                && d'.name == (if payload.name.Some? then payload.name.value.value else d.name)
                && d'.code == (if payload.code.Some? then payload.code.value.value else d.code)
                && d'.sortOrder == (if payload.sortOrder.Some? then payload.sortOrder.value.value else d.sortOrder)
                && d'.active == (if payload.active.Some? then payload.active.value.value else d.active)
                && d'.leader == (if payload.leader.Some? then payload.leader.value else d.leader)
                && d'.phone == (if payload.phone.Some? then payload.phone.value else d.phone)
                && d'.email == (if payload.email.Some? then payload.email.value else d.email)
    {
      if id !in depts { return Ok(None); }
      var row := depts[id];
      row := row.(parent := Sent(payload.parent, row.parent));
      row := row.(leader := Sent(payload.leader, row.leader));
      row := row.(phone := Sent(payload.phone, row.phone));
      row := row.(email := Sent(payload.email, row.email));
      if HasNull(payload) { return Failed(NullColumn); }
      row := row.(name := Filled(payload.name, row.name));
      row := row.(code := Filled(payload.code, row.code));
      row := row.(sortOrder := Filled(payload.sortOrder, row.sortOrder));
      row := row.(active := Filled(payload.active, row.active));
      depts := depts[id := row];
      r := Ok(Some(row));
    }

    method Delete(id: nat) returns (done: bool)
      modifies this`depts
      ensures done <==> id in old(depts)
      ensures depts == old(depts) - {id}
    {
      done := id in depts;
      depts := depts - {id};
    }
  }

  class DeptService {
    const repo: DeptRepository

    constructor (repo: DeptRepository)
      ensures this.repo == repo
    {
      this.repo := repo;
    }

    method Create(payload: DeptCreate, scope: Option<Scope>) returns (r: Outcome<nat>)
      requires repo.nextId !in repo.depts
      modifies repo
      ensures var outside := scope.Some? && scope.value.Only?
                             && (payload.parent.None? || payload.parent.value !in scope.value.ids);
              var orphan := payload.parent.Some? && payload.parent.value !in old(repo.depts);
              && (r == Failed(ForbiddenByScope) <==> outside)
              && (r == Failed(ParentNotFound) <==> !outside && orphan)
              && (r == Failed(CodeDuplicate) <==>
                    !outside && !orphan && exists d :: d in old(repo.depts) && old(repo.depts)[d].code == payload.code)
      ensures r.Failed? ==> r.error in {ForbiddenByScope, ParentNotFound, CodeDuplicate}
      ensures r.Failed? ==> repo.depts == old(repo.depts)
      ensures r.Ok? ==> r.value == old(repo.nextId)
                        && repo.depts == old(repo.depts)[r.value := NewDept(payload)]
      ensures Forest(Parents(old(repo.depts))) ==> Forest(Parents(repo.depts))
    {
      ghost var before := repo.depts;
      if scope.Some? && !Visible(scope.value, payload.parent) { return Failed(ForbiddenByScope); }
      if payload.parent.Some? {
        var p := repo.Get(payload.parent.value);
        if p.None? { return Failed(ParentNotFound); }
      }
      var taken := repo.FindByCode(payload.code);
      if taken.Some? { return Failed(CodeDuplicate); }
      var id := repo.Create(payload);
      r := Ok(id);
      assert Parents(repo.depts) == Parents(before)[id := payload.parent];
      if Forest(Parents(before)) { LeafKeepsForest(Parents(before), id, payload.parent); }
    }

    /** `_check_no_cycle` */
    method CheckNoCycle(id: nat, parent: nat) returns (ok: bool)
      ensures ok <==> Allowed(Parents(repo.depts), id, parent)
      ensures id in repo.depts ==> (ok <==> forall k | 0 <= k <= 64 :: !Under(Parents(repo.depts), parent, k, id))
    {
      if id in repo.depts { AllowedExactlyWhen(Parents(repo.depts), id, parent); }
      if parent == id { return false; }
      ok := parent !in Descendants(Parents(repo.depts), id);
    }

    method Update(id: nat, payload: DeptUpdate, scope: Option<Scope>) returns (r: Outcome<Dept>)
      modifies repo`depts
      ensures var depts, restricted := old(repo.depts), scope.Some? && scope.value.Only?;
              var hidden := id !in depts || (restricted && id !in scope.value.ids);
              var clash := !hidden && CodeClash(depts, id, payload);
              var refused := if hidden || clash || payload.parent.None? then None
                             else MoveRefused(depts, id, payload.parent.value, scope);
              && (r == Failed(NotFound) <==> hidden)
              && (r == Failed(CodeDuplicate) <==> clash)
              && (refused.Some? ==> r == Failed(refused.value))
              && (r.Failed? && r.error in {ForbiddenByScope, ParentNotFound, Cycle} ==> refused == Some(r.error))
              && (r == Failed(NullColumn) <==> !hidden && !clash && refused.None? && HasNull(payload))
      ensures r.Failed? ==> repo.depts == old(repo.depts) && r.error != HasChildren
      ensures r.Ok? ==> id in old(repo.depts) && !HasNull(payload) && r.value == Patched(old(repo.depts)[id], payload)
                        && repo.depts == old(repo.depts)[id := r.value]
    {
      var existing := repo.Get(id);
      if existing.None? || (scope.Some? && !Visible(scope.value, Some(id))) { return Failed(NotFound); }
      if payload.code.Some? && payload.code.value.Some? && payload.code.value.value != existing.value.code {
        var taken := repo.FindByCode(payload.code.value.value);
        if taken.Some? { return Failed(CodeDuplicate); }
      }
      if payload.parent.Some? {
        var parent := payload.parent.value;
        if scope.Some? && !Visible(scope.value, parent) { return Failed(ForbiddenByScope); }
        if parent.Some? {
          var p := repo.Get(parent.value);
          if p.None? { return Failed(ParentNotFound); }
          var ok := CheckNoCycle(id, parent.value);
          if !ok { return Failed(Cycle); }
        }
      }
      var row := repo.Update(id, payload);
      match row
      case Ok(d) => r := if d.Some? then Ok(d.value) else Failed(NotFound);
      case Failed(e) => r := Failed(e);
    }

    method Delete(id: nat, scope: Option<Scope>) returns (r: Outcome<()>)
      modifies repo`depts
      ensures var hidden := id !in old(repo.depts) || (scope.Some? && scope.value.Only? && id !in scope.value.ids);
              && (r == Failed(NotFound) <==> hidden)
              && (r == Failed(HasChildren) <==>
                    !hidden && exists x :: x in old(repo.depts) && old(repo.depts)[x].parent == Some(id))
      ensures r.Failed? ==> r.error in {NotFound, HasChildren} && repo.depts == old(repo.depts)
      ensures r.Ok? ==> repo.depts == old(repo.depts) - {id}
      ensures Forest(Parents(old(repo.depts))) ==> Forest(Parents(repo.depts))
    {
      var row := repo.Get(id);
      if row.None? || (scope.Some? && !Visible(scope.value, Some(id))) { return Failed(NotFound); }
      var n := repo.CountChildren(id);
      if n > 0 { return Failed(HasChildren); }
      ghost var before := repo.depts;
      var done := repo.Delete(id);
      r := Ok(());
      assert Parents(repo.depts) == Parents(before) - {id};
      if Forest(Parents(before)) { DeleteKeepsForest(Parents(before), {id}); }
    }
  }

  /** A move is forbidden when the caller is restricted and the target is not one of the caller's departments,
      the root included; otherwise refused for a target that is not stored; and otherwise for one that is the
      moved department or lies up to 64 levels below it. */
  lemma MoveRefusedExactlyWhen(depts: map<nat, Dept>, id: nat, parent: Option<nat>, scope: Option<Scope>)
    requires id in depts
    ensures var refused := MoveRefused(depts, id, parent, scope);
      var outside := scope.Some? && scope.value.Only? && (parent.None? || parent.value !in scope.value.ids);
      && (refused == Some(ForbiddenByScope) <==> outside)
      && (refused == Some(ParentNotFound) <==> !outside && parent.Some? && parent.value !in depts)
      && (refused == Some(Cycle) <==>
            !outside && parent.Some? && parent.value in depts
            && exists k :: 0 <= k <= 64 && Under(Parents(depts), parent.value, k, id))
      && (refused.Some? ==> refused.value in {ForbiddenByScope, ParentNotFound, Cycle})
  {
    if parent.Some? { AllowedExactlyWhen(Parents(depts), id, parent.value); }
  }

  /** An update clashes when it sends a code that is not the department's own and that some department has. */
  lemma CodeClashExactlyWhen(depts: map<nat, Dept>, id: nat, payload: DeptUpdate)
    requires id in depts && CodesDistinct(depts)
    ensures CodeClash(depts, id, payload) <==>
      exists d, code | d in depts && d != id :: payload.code == Some(Some(code)) && depts[d].code == code
  {
  }

  /** What an accepted update leaves behind: the rows stay a forest, with every parent stored, exactly
      when the target is not more than 64 levels below the moved department. */
  lemma UpdateKeepsForestExactlyWhen(depts: map<nat, Dept>, id: nat, payload: DeptUpdate, scope: Option<Scope>)
    requires Forest(Parents(depts)) && id in depts && !HasNull(payload)
    requires payload.parent.Some? ==> MoveRefused(depts, id, payload.parent.value, scope).None?
    ensures Forest(Parents(depts[id := Patched(depts[id], payload)])) <==>
            payload.parent.Some? && payload.parent.value.Some? ==>
              forall k: nat | k > 64 :: !Under(Parents(depts), payload.parent.value.value, k, id)
  {
    var t := Parents(depts);
    var t' := Parents(depts[id := Patched(depts[id], payload)]);
    if payload.parent.None? {
      assert t' == t;
    } else {
      assert t' == t[id := payload.parent.value];
      hide Forest;
      if payload.parent.value.Some? {
        AllowedMoveKeepsForestExactlyWhen(t, id, payload.parent.value.value);
      } else {
        ToRootKeepsForest(t, id);
      }
    }
  }

  /** An update that passes the code check keeps the codes distinct. */
  lemma UpdateKeepsCodesDistinct(depts: map<nat, Dept>, id: nat, payload: DeptUpdate)
    requires CodesDistinct(depts) && id in depts && !CodeClash(depts, id, payload) && !HasNull(payload)
    ensures CodesDistinct(depts[id := Patched(depts[id], payload)])
  {
    var depts' := depts[id := Patched(depts[id], payload)];
    forall a, b | a in depts' && b in depts' && a != b ensures depts'[a].code != depts'[b].code {
      assert forall d | d in depts :: d != id ==> depts'[d] == depts[d];
    }
  }
}
