/** Any number of processes acquiring transaction locks at once, interleaved statement by statement.
    Each process has a cache of rows it believes to exist; the cache may be wrong in any way at any
    time, and rows may be deleted from outside. */
module AppLocksConcurrent {
  type Name = string
  type Proc = nat
  type Tid = nat

  // Where a transaction stands in `acquire_transaction_lock`, if it is in it.
  datatype Pc =
    | Outside
    | Entered(name: Name)
    | EnsuringApart(name: Name)                 // by a short transaction of its own
    | EnsuringHere(name: Name, left: nat)       // in the transaction itself
    | Selecting(name: Name, left: nat)          // `left` attempts remain
    | Raised(name: Name)

  // `inserted` are rows written and not committed, `locks` rows locked FOR UPDATE, `returned` the names
  // for which the call came back normally.
  datatype Txn = Txn(proc: Proc, pc: Pc, connected: bool, inserted: set<Name>, locks: set<Name>, returned: set<Name>)

  datatype Sys = Sys(rows: set<Name>, known: set<(Proc, Name)>, txns: map<Tid, Txn>)

  datatype Action =
    | Begin(t: Tid, proc: Proc)
    | Statement(t: Tid)                         // some other statement of the caller
    | Call(t: Tid, name: Name)
    | Enter(t: Tid)
    | EnsureApart(t: Tid)
    | EnsureHere(t: Tid)
    | Select(t: Tid)
    | Commit(t: Tid)
    | Rollback(t: Tid)
    | CacheChanges(known: set<(Proc, Name)>)    // whatever other code does to the caches
    | RowDeleted(name: Name)                    // maintenance

  predicate ValidName(name: Name) { 0 < |name| <= 191 }

  function Holds(x: Txn): set<Name> { x.locks + x.inserted }

  ghost predicate FreeFor(s: Sys, t: Tid, name: Name) {
    forall u | u in s.txns && u != t :: name !in Holds(s.txns[u])
  }

  ghost predicate NotInsertedBy(s: Sys, t: Tid, name: Name) {
    forall u | u in s.txns && u != t :: name !in s.txns[u].inserted
  }

  function Goto(s: Sys, t: Tid, x: Txn): Sys { s.(txns := s.txns[t := x]) }

  function Known(s: Sys, x: Txn, name: Name): Sys { s.(known := s.known + {(x.proc, name)}) }

  function Unknown(s: Sys, x: Txn, name: Name): Sys { s.(known := s.known - {(x.proc, name)}) }

  ghost predicate Enters(s: Sys, t: Tid, x: Txn, s': Sys) {
    match x.pc
    case Entered(name) =>
      s' == Goto(s, t, x.(pc := if (x.proc, name) in s.known then Selecting(name, 2)
                               else if x.connected then EnsuringHere(name, 2)
                               else EnsuringApart(name)))
    case _ => false
  }

  /** The short transaction finds the row, or inserts it and commits; it waits for a row that another
      transaction has inserted. A deadlock that persists ends the call. */
  ghost predicate EnsuresApart(s: Sys, t: Tid, x: Txn, s': Sys) {
    match x.pc
    case EnsuringApart(name) =>
      || (&& (name in s.rows || forall u | u in s.txns :: name !in s.txns[u].inserted)
          && s' == Goto(Known(s, x, name), t, x.(pc := Selecting(name, 2))).(rows := s.rows + {name}))
      || s' == Goto(s, t, x.(pc := Raised(name)))
    case _ => false
  }

  ghost predicate EnsuresHere(s: Sys, t: Tid, x: Txn, s': Sys) {
    match x.pc
    case EnsuringHere(name, left) =>
      var pc := if left > 0 then Selecting(name, left) else Raised(name);
      if (x.proc, name) in s.known then s' == Goto(s, t, x.(pc := pc))
      else
        && NotInsertedBy(s, t, name)
        && s' == Goto(Known(s, x, name), t,
                      x.(pc := pc, connected := true,
                         inserted := x.inserted + (if name in s.rows then {} else {name})))
    case _ => false
  }

  /** FOR UPDATE waits for a lock or an uncommitted row of another transaction. */
  ghost predicate Selects(s: Sys, t: Tid, x: Txn, s': Sys) {
    match x.pc
    case Selecting(name, left) =>
      && left > 0 && FreeFor(s, t, name)
      && if name in s.rows + x.inserted then
           s' == Goto(Known(s, x, name), t,
                      x.(pc := Outside, connected := true, locks := x.locks + {name}, returned := x.returned + {name}))
         else
           s' == Goto(Unknown(s, x, name), t, x.(pc := EnsuringHere(name, left - 1), connected := true))
    case _ => false
  }

  ghost predicate Step(s: Sys, a: Action, s': Sys) {
    match a
    case Begin(t, proc) => t !in s.txns && s' == Goto(s, t, Txn(proc, Outside, false, {}, {}, {}))
    case Statement(t) => t in s.txns && s.txns[t].pc.Outside? && s' == Goto(s, t, s.txns[t].(connected := true))
    case Call(t, name) =>
      t in s.txns && s.txns[t].pc.Outside? && ValidName(name) && s' == Goto(s, t, s.txns[t].(pc := Entered(name)))
    case Enter(t) => t in s.txns && Enters(s, t, s.txns[t], s')
    case EnsureApart(t) => t in s.txns && EnsuresApart(s, t, s.txns[t], s')
    case EnsureHere(t) => t in s.txns && EnsuresHere(s, t, s.txns[t], s')
    case Select(t) => t in s.txns && Selects(s, t, s.txns[t], s')
    case Commit(t) =>
      t in s.txns && s.txns[t].pc.Outside?
      && s' == s.(rows := s.rows + s.txns[t].inserted, txns := s.txns - {t})
    case Rollback(t) => t in s.txns && s' == s.(txns := s.txns - {t})
    case CacheChanges(known) => s' == s.(known := known)
    case RowDeleted(name) =>
      (forall t | t in s.txns :: name !in s.txns[t].locks) && s' == s.(rows := s.rows - {name})
  }

  // ---------- What every step keeps ----------

  ghost predicate TxnOk(s: Sys, x: Txn) {
    && x.returned <= x.locks
    && x.locks <= s.rows + x.inserted
    && x.inserted !! s.rows
  }

  ghost predicate Apart(x: Txn, y: Txn) { Holds(x) !! Holds(y) }

  ghost predicate Inv(s: Sys) {
    && (forall t | t in s.txns :: TxnOk(s, s.txns[t]))
    && (forall t, u | t in s.txns && u in s.txns && t != u :: Apart(s.txns[t], s.txns[u]))
  }

  /** A step of the call in transaction t, which may add rows that nobody has inserted. */
  lemma CallKeeps(s: Sys, t: Tid, s': Sys)
    requires Inv(s) && t in s.txns && t in s'.txns && s'.txns == s.txns[t := s'.txns[t]] && s.rows <= s'.rows
    requires TxnOk(s', s'.txns[t]) && forall u | u in s.txns && u != t :: s.txns[u].inserted !! s'.rows
    requires forall u | u in s.txns && u != t :: Apart(s'.txns[t], s.txns[u])
    ensures Inv(s')
  {
    forall u | u in s'.txns ensures TxnOk(s', s'.txns[u]) { if u != t { assert TxnOk(s, s.txns[u]); } }
    forall u, v | u in s'.txns && v in s'.txns && u != v ensures Apart(s'.txns[u], s'.txns[v]) {
      if u != t && v != t {
        assert Apart(s.txns[u], s.txns[v]);
      } else if u != t {
        assert Apart(s'.txns[t], s.txns[u]);
      }
    }
  }

  lemma EnsureApartKeeps(s: Sys, t: Tid, s': Sys)
    requires Inv(s) && t in s.txns && EnsuresApart(s, t, s.txns[t], s')
    ensures Inv(s')
  {
    assert TxnOk(s, s.txns[t]);
    forall u | u in s.txns && u != t ensures s.txns[u].inserted !! s'.rows && Apart(s'.txns[t], s.txns[u]) {
      assert Apart(s.txns[t], s.txns[u]) && TxnOk(s, s.txns[u]);
    }
    CallKeeps(s, t, s');
  }

  lemma EnsureHereKeeps(s: Sys, t: Tid, s': Sys)
    requires Inv(s) && t in s.txns && EnsuresHere(s, t, s.txns[t], s')
    ensures Inv(s')
  {
    var x, x' := s.txns[t], s'.txns[t];
    assert TxnOk(s, x);
    forall u | u in s.txns && u != t ensures s.txns[u].inserted !! s'.rows && Apart(x', s.txns[u]) {
      assert Apart(x, s.txns[u]) && TxnOk(s, s.txns[u]);
      if x'.inserted != x.inserted { assert x.pc.name !in Holds(s.txns[u]); }
    }
    CallKeeps(s, t, s');
  }

  lemma SelectKeeps(s: Sys, t: Tid, s': Sys)
    requires Inv(s) && t in s.txns && Selects(s, t, s.txns[t], s')
    ensures Inv(s')
  {
    var x, x' := s.txns[t], s'.txns[t];
    assert TxnOk(s, x);
    forall u | u in s.txns && u != t ensures s.txns[u].inserted !! s'.rows && Apart(x', s.txns[u]) {
      assert Apart(x, s.txns[u]) && TxnOk(s, s.txns[u]);
      if x'.locks != x.locks { assert x.pc.name !in Holds(s.txns[u]); }
    }
    CallKeeps(s, t, s');
  }

  lemma OtherStepKeeps(s: Sys, a: Action, s': Sys)
    requires Inv(s) && Step(s, a, s') && !a.EnsureApart? && !a.EnsureHere? && !a.Select?
    ensures Inv(s')
  {
    forall u | u in s'.txns ensures TxnOk(s', s'.txns[u]) {
      if u in s.txns {
        assert TxnOk(s, s.txns[u]);
        if a.Commit? { assert Apart(s.txns[a.t], s.txns[u]) && TxnOk(s, s.txns[a.t]); }
      }
    }
    forall t, u | t in s'.txns && u in s'.txns && t != u ensures Apart(s'.txns[t], s'.txns[u]) {
      if t in s.txns && u in s.txns { assert Apart(s.txns[t], s.txns[u]); }
    }
  }

  lemma StepKeeps(s: Sys, a: Action, s': Sys)
    requires Inv(s) && Step(s, a, s')
    ensures Inv(s')
  {
    match a
    case EnsureApart(t) => EnsureApartKeeps(s, t, s');
    case EnsureHere(t) => EnsureHereKeeps(s, t, s');
    case Select(t) => SelectKeeps(s, t, s');
    case _ => OtherStepKeeps(s, a, s');
  }

  // ---------- Runs ----------

  ghost predicate IsRun(states: seq<Sys>, actions: seq<Action>) {
    && |states| == |actions| + 1
    && states[0].txns == map[]
    && forall i | 0 <= i < |actions| :: Step(states[i], actions[i], states[i + 1])
  }

  lemma {:induction false} EveryStateIsSound(states: seq<Sys>, actions: seq<Action>, i: nat)
    requires IsRun(states, actions) && i < |states|
    ensures Inv(states[i])
  {
    if i > 0 {
      EveryStateIsSound(states, actions, i - 1);
      StepKeeps(states[i - 1], actions[i - 1], states[i]);
    }
  }

  /** From any rows and any caches on: a transaction for which the call returned holds the lock of a row
      that is there, and no other open transaction holds it or returned for the same name. */
  lemma ReturnedMeansLocked(states: seq<Sys>, actions: seq<Action>, i: nat, t: Tid, name: Name)
    requires IsRun(states, actions) && i < |states| && t in states[i].txns && name in states[i].txns[t].returned
    ensures name in states[i].txns[t].locks
    ensures name in states[i].rows + states[i].txns[t].inserted
    ensures forall u | u in states[i].txns && u != t ::
              name !in Holds(states[i].txns[u]) && name !in states[i].txns[u].returned
  {
    EveryStateIsSound(states, actions, i);
    var s := states[i];
    assert TxnOk(s, s.txns[t]);
    forall u | u in s.txns && u != t ensures name !in Holds(s.txns[u]) && name !in s.txns[u].returned {
      assert Apart(s.txns[t], s.txns[u]) && TxnOk(s, s.txns[u]);
    }
  }

  /** Once the call has returned, the lock is kept until the transaction ends. */
  lemma {:induction false} HeldUntilTheEnd(states: seq<Sys>, actions: seq<Action>, i: nat, j: nat, t: Tid, name: Name)
    requires IsRun(states, actions) && i <= j < |states|
    requires t in states[i].txns && name in states[i].txns[t].returned
    requires forall k | i <= k < j :: actions[k] != Commit(t) && actions[k] != Rollback(t)
    ensures t in states[j].txns && name in states[j].txns[t].returned
    decreases j
  {
    if i < j {
      HeldUntilTheEnd(states, actions, i, j - 1, t, name);
      assert Step(states[j - 1], actions[j - 1], states[j]);
    }
  }

  /** The end of the transaction: a commit leaves the row of the lock stored for everybody and gives the lock up, and a
      rollback leaves nothing behind. */
  lemma AtTheEnd(states: seq<Sys>, actions: seq<Action>, i: nat, t: Tid, name: Name)
    requires IsRun(states, actions) && i < |actions| && (actions[i] == Commit(t) || actions[i] == Rollback(t))
    requires t in states[i].txns && name in states[i].txns[t].returned
    ensures t !in states[i + 1].txns
    ensures actions[i] == Commit(t) ==> name in states[i + 1].rows && states[i].rows <= states[i + 1].rows
    ensures actions[i] == Rollback(t) ==> states[i + 1].rows == states[i].rows
    ensures FreeFor(states[i + 1], t, name)
  {
    assert Step(states[i], actions[i], states[i + 1]);
    ReturnedMeansLocked(states, actions, i, t, name);
  }

  // ---------- The bounds of a call ----------

  /** A call is about a name that fits the column, and has at most two attempts. */
  ghost predicate CallOk(x: Txn) {
    && (x.inserted != {} ==> x.connected)
    && (forall n | n in x.returned :: 1 <= |n| <= 191)
    && (!x.pc.Outside? ==> 1 <= |x.pc.name| <= 191)
    && (x.pc.Selecting? ==> 1 <= x.pc.left <= 2)
    && (x.pc.EnsuringHere? ==> x.pc.left <= 2)
  }

  lemma StepKeepsCalls(s: Sys, a: Action, s': Sys)
    requires (forall t | t in s.txns :: CallOk(s.txns[t])) && Step(s, a, s')
    ensures forall t | t in s'.txns :: CallOk(s'.txns[t])
  {
    forall t | t in s'.txns ensures CallOk(s'.txns[t]) {
      if t in s.txns { assert CallOk(s.txns[t]); }
    }
    hide FreeFor, NotInsertedBy;
  }

  /** In every state of every run a call has a valid name and one or two attempts left when it selects. */
  lemma {:induction false} CallsAreBounded(states: seq<Sys>, actions: seq<Action>, i: nat)
    requires IsRun(states, actions) && i < |states|
    ensures forall t | t in states[i].txns :: CallOk(states[i].txns[t])
  {
    hide Step, CallOk;
    if i > 0 {
      CallsAreBounded(states, actions, i - 1);
      StepKeepsCalls(states[i - 1], actions[i - 1], states[i]);
    }
  }

  // ---------- A call that nobody interrupts ----------

  /** The call of t has returned in s' and has done to s what it has to do and no more. */
  ghost predicate Returned(s: Sys, t: Tid, name: Name, s': Sys)
    requires t in s.txns
  {
    var x := s.txns[t];
    && t in s'.txns && s'.txns == s.txns[t := s'.txns[t]]
    && var x' := s'.txns[t];
       && x'.pc.Outside? && x'.locks == x.locks + {name} && x'.returned == x.returned + {name}
       && (x.proc, name) in s'.known && name in s'.rows + x'.inserted
       && s'.rows == s.rows + (if (x.proc, name) in s.known || x.connected then {} else {name})
       && x'.inserted == x.inserted + (if name in s'.rows then {} else {name})
  }

  ghost predicate MayCall(s: Sys, t: Tid, name: Name) {
    && t in s.txns && TxnOk(s, s.txns[t]) && CallOk(s.txns[t])
    && s.txns[t].pc.Outside? && 1 <= |name| <= 191 && FreeFor(s, t, name)
  }

  /** While nobody else is concerned with the name, a call returns whatever the cache says. A row that is there and
      known is locked at once, */
  lemma CallWithRow(s: Sys, t: Tid, name: Name) returns (s1: Sys, s2: Sys, s3: Sys)
    requires MayCall(s, t, name) && (s.txns[t].proc, name) in s.known && name in s.rows + s.txns[t].inserted
    ensures Step(s, Call(t, name), s1) && Step(s1, Enter(t), s2) && Step(s2, Select(t), s3) && Returned(s, t, name, s3)
  {
    s1, s2 := CallBegins(s, t, name);
    s3 := SelectFinds(s2, t, name, 2);
    hide Step;
  }

  /** if the cache names a row that is not there, the first attempt fails, the row is inserted and the second attempt
      locks it, */
  lemma CallWithStaleCache(s: Sys, t: Tid, name: Name) returns (s1: Sys, s2: Sys, s3: Sys, s4: Sys, s5: Sys)
    requires MayCall(s, t, name) && (s.txns[t].proc, name) in s.known && name !in s.rows + s.txns[t].inserted
    ensures Step(s, Call(t, name), s1) && Step(s1, Enter(t), s2) && Step(s2, Select(t), s3)
    ensures Step(s3, EnsureHere(t), s4) && Step(s4, Select(t), s5) && Returned(s, t, name, s5)
  {
    hide Step;
    s1, s2 := CallBegins(s, t, name);
    s3 := SelectMisses(s2, t, name, 2);
    s4 := EnsureInserts(s3, t, name, 1);
    s5 := SelectFinds(s4, t, name, 1);
  }

  /** a transaction that has run a statement inserts an unknown row itself, if it is missing, and locks it, */
  lemma CallWhileConnected(s: Sys, t: Tid, name: Name) returns (s1: Sys, s2: Sys, s3: Sys, s4: Sys)
    requires MayCall(s, t, name) && (s.txns[t].proc, name) !in s.known && s.txns[t].connected
    ensures Step(s, Call(t, name), s1) && Step(s1, Enter(t), s2) && Step(s2, EnsureHere(t), s3)
    ensures Step(s3, Select(t), s4) && Returned(s, t, name, s4)
  {
    hide Step;
    s1, s2 := CallBegins(s, t, name);
    s3 := EnsureInserts(s2, t, name, 2);
    s4 := SelectFinds(s3, t, name, 2);
  }

  /** and for one that has not, a short transaction inserts and commits it beforehand. */
  lemma CallAtFirst(s: Sys, t: Tid, name: Name) returns (s1: Sys, s2: Sys, s3: Sys, s4: Sys)
    requires MayCall(s, t, name) && (s.txns[t].proc, name) !in s.known && !s.txns[t].connected
    ensures Step(s, Call(t, name), s1) && Step(s1, Enter(t), s2) && Step(s2, EnsureApart(t), s3)
    ensures Step(s3, Select(t), s4) && Returned(s, t, name, s4)
  {
    hide Step;
    s1, s2 := CallBegins(s, t, name);
    s3 := EnsureCommits(s2, t, name);
    s4 := SelectFinds(s3, t, name, 2);
  }

  lemma CallBegins(s: Sys, t: Tid, name: Name) returns (s1: Sys, s2: Sys)
    requires t in s.txns && s.txns[t].pc.Outside? && 1 <= |name| <= 191
    ensures Step(s, Call(t, name), s1) && Step(s1, Enter(t), s2)
    ensures var x := s.txns[t];
      s2 == Goto(s, t, x.(pc := if (x.proc, name) in s.known then Selecting(name, 2)
                                else if x.connected then EnsuringHere(name, 2) else EnsuringApart(name)))
  {
    var x := s.txns[t];
    s1 := Goto(s, t, x.(pc := Entered(name)));
    s2 := Goto(s, t, x.(pc := if (x.proc, name) in s.known then Selecting(name, 2)
                              else if x.connected then EnsuringHere(name, 2) else EnsuringApart(name)));
  }

  lemma SelectMisses(s: Sys, t: Tid, name: Name, left: nat) returns (s': Sys)
    requires t in s.txns && s.txns[t].pc == Selecting(name, left) && left > 0 && FreeFor(s, t, name)
    requires name !in s.rows + s.txns[t].inserted
    ensures Step(s, Select(t), s')
    ensures var x := s.txns[t];
      s' == Goto(Unknown(s, x, name), t, x.(pc := EnsuringHere(name, left - 1), connected := true))
  {
    var x := s.txns[t];
    s' := Goto(Unknown(s, x, name), t, x.(pc := EnsuringHere(name, left - 1), connected := true));
  }

  lemma EnsureCommits(s: Sys, t: Tid, name: Name) returns (s': Sys)
    requires t in s.txns && s.txns[t].pc == EnsuringApart(name) && FreeFor(s, t, name) && name !in s.txns[t].inserted
    ensures Step(s, EnsureApart(t), s')
    ensures var x := s.txns[t];
      s' == Goto(Known(s, x, name), t, x.(pc := Selecting(name, 2))).(rows := s.rows + {name})
  {
    var x := s.txns[t];
    s' := Goto(Known(s, x, name), t, x.(pc := Selecting(name, 2))).(rows := s.rows + {name});
  }

  lemma SelectFinds(s: Sys, t: Tid, name: Name, left: nat) returns (s': Sys)
    requires t in s.txns && s.txns[t].pc == Selecting(name, left) && left > 0 && FreeFor(s, t, name)
    requires name in s.rows + s.txns[t].inserted
    ensures Step(s, Select(t), s')
    ensures var x := s.txns[t];
      s' == Goto(Known(s, x, name), t,
                 x.(pc := Outside, connected := true, locks := x.locks + {name}, returned := x.returned + {name}))
  {
    var x := s.txns[t];
    s' := Goto(Known(s, x, name), t,
               x.(pc := Outside, connected := true, locks := x.locks + {name}, returned := x.returned + {name}));
  }

  lemma EnsureInserts(s: Sys, t: Tid, name: Name, left: nat) returns (s': Sys)
    requires t in s.txns && s.txns[t].pc == EnsuringHere(name, left) && left > 0 && FreeFor(s, t, name)
    requires (s.txns[t].proc, name) !in s.known
    ensures Step(s, EnsureHere(t), s')
    ensures var x := s.txns[t];
      s' == Goto(Known(s, x, name), t,
                 x.(pc := Selecting(name, left), connected := true,
                    inserted := x.inserted + (if name in s.rows then {} else {name})))
  {
    var x := s.txns[t];
    s' := Goto(Known(s, x, name), t,
               x.(pc := Selecting(name, left), connected := true,
                  inserted := x.inserted + (if name in s.rows then {} else {name})));
  }
}
