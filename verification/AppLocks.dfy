/** Transaction locks: a row of `app_locks` per name, locked with FOR UPDATE. Here one caller alone;
    AppLocksConcurrent interleaves callers. */
module AppLocks {
  datatype Acquired = Locked | InvalidName | DatabaseFailed | StillMissing

  datatype Fault = Deadlock | OtherFault

  const NAME_MAX := 191
  const RETRY_LIMIT := 3

  predicate ValidName(name: string) { name != "" && |name| <= NAME_MAX }

  /** How many deadlocks come before anything else. */
  function Deadlocks(faults: seq<Fault>): nat {
    if faults == [] || faults[0].OtherFault? then 0 else 1 + Deadlocks(faults[1..])
  }

  /** Attempt i meets `faults[i]`, if there is one. Only deadlocks are retried, and not for ever. */
  predicate GivesUp(faults: seq<Fault>) { Deadlocks(faults) >= RETRY_LIMIT || Deadlocks(faults) < |faults| }

  lemma {:induction false} DeadlocksFrom(faults: seq<Fault>, i: nat)
    requires i <= |faults| && forall k | 0 <= k < i :: faults[k].Deadlock?
    ensures Deadlocks(faults) == i + Deadlocks(faults[i..]) <= |faults|
  {
    if faults != [] && faults[0].Deadlock? {
      DeadlocksFrom(faults[1..], if i == 0 then 0 else i - 1);
      if i > 0 { assert faults[1..][i - 1..] == faults[i..]; }
    }
    assert faults[0..] == faults;
  }

  /** Creating the row fails for good when three attempts in a row meet a deadlock, or one of the first three meets
      another fault after nothing but deadlocks. */
  lemma GivesUpExactlyWhen(faults: seq<Fault>)
    ensures GivesUp(faults) <==>
      || (|faults| >= 3 && faults[0].Deadlock? && faults[1].Deadlock? && faults[2].Deadlock?)
      || (exists i :: 0 <= i < 3 && i < |faults| && faults[i].OtherFault?
                      && forall k | 0 <= k < i :: faults[k].Deadlock?)
  {
    var n := Deadlocks(faults);
    FirstOther(faults);
    if |faults| > 0 && faults[0].Deadlock? { DeadlocksFrom(faults, 1); }
    if |faults| > 1 && faults[0].Deadlock? && faults[1].Deadlock? { DeadlocksFrom(faults, 2); }
    if |faults| > 2 && faults[0].Deadlock? && faults[1].Deadlock? && faults[2].Deadlock? { DeadlocksFrom(faults, 3); }
  }

  lemma {:induction false} FirstOther(faults: seq<Fault>)
    ensures Deadlocks(faults) <= |faults| && forall k | 0 <= k < Deadlocks(faults) :: faults[k].Deadlock?
    ensures Deadlocks(faults) < |faults| ==> faults[Deadlocks(faults)].OtherFault?
    decreases faults
  {
    if faults != [] && faults[0].Deadlock? { FirstOther(faults[1..]); }
  }

  /** The committed rows. */
  class LockTable {
    var rows: set<string>

    constructor (rows: set<string>)
      ensures this.rows == rows
    {
      this.rows := rows;
    }
  }

  /** A caller's open transaction. */
  class Session {
    const table: LockTable
    var connected: bool           // has run a statement already
    var inserted: set<string>     // rows it wrote, gone if it rolls back
    var locks: set<string>        // rows it locked

    constructor (table: LockTable)
      ensures this.table == table && !connected && inserted == {} && locks == {}
    {
      this.table, connected, inserted, locks := table, false, {}, {};
    }

    method SelectForUpdate(name: string) returns (found: bool)
      modifies this
      ensures found <==> name in table.rows + inserted
      ensures locks == old(locks) + (if found then {name} else {}) && inserted == old(inserted) && connected
    {
      connected := true;
      found := name in table.rows + inserted;
      if found { locks := locks + {name}; }
    }

    method InsertIgnore(name: string)
      modifies this
      ensures inserted == old(inserted) + (if name in table.rows then {} else {name})
      ensures locks == old(locks) && connected
    {
      connected := true;
      if name !in table.rows { inserted := inserted + {name}; }
    }

    method Rollback()
      modifies this
      ensures inserted == {} && locks == {} && !connected
    {
      inserted, locks, connected := {}, {}, false;
    }
  }

  /** A process with its cache of rows believed to exist. */
  class LockService {
    var known: set<string>

    constructor (known: set<string>)
      ensures this.known == known
    {
      this.known := known;
    }

    /** `_ensure_lock_row`: a short transaction of its own, tried again after a deadlock. It raises
        exactly when the third attempt deadlocks too or an attempt fails otherwise, and then leaves no
        trace. */
    method EnsureRow(table: LockTable, name: string, faults: seq<Fault>) returns (raised: bool)
      modifies this, table
      ensures raised <==> GivesUp(faults)
      ensures raised ==> unchanged(this) && unchanged(table)
      ensures !raised ==> table.rows == old(table.rows) + {name} && known == old(known) + {name}
    {
      for attempt := 0 to RETRY_LIMIT
        invariant attempt < RETRY_LIMIT && attempt <= |faults| && forall k | 0 <= k < attempt :: faults[k].Deadlock?
        invariant unchanged(this) && unchanged(table)
      {
        DeadlocksFrom(faults, attempt);
        if attempt >= |faults| {
          if name !in table.rows { table.rows := table.rows + {name}; }
          known := known + {name};
          return false;
        }
        if faults[attempt].OtherFault? || attempt == RETRY_LIMIT - 1 { return true; }
      }
      assert false;
    }

    method EnsureRowHere(s: Session, name: string)
      modifies this, s
      ensures known == old(known) + {name} && s.locks == old(s.locks)
      ensures s.inserted == old(s.inserted) + (if name in old(known) || name in s.table.rows then {} else {name})
    {
      if name !in known {
        s.InsertIgnore(name);
        known := known + {name};
      }
    }

    /** `acquire_transaction_lock`. Alone, whatever the cache says, a valid name is locked and the row
        behind the lock exists; the row is committed or written by the caller itself, as the case may
        be. The second attempt is needed exactly when the cache names a row that is not there. */
    method Acquire(s: Session, name: string, faults: seq<Fault>) returns (r: Acquired, attempts: nat)
      modifies this, s, s.table
      ensures r == InvalidName <==> name == "" || |name| > 191
      ensures r == DatabaseFailed <==> 1 <= |name| <= 191 && name !in old(known) && !old(s.connected) && GivesUp(faults)
      ensures r != StillMissing
      ensures r != Locked ==> unchanged(this) && unchanged(s) && unchanged(s.table)
      ensures r == Locked ==>
                && s.locks == old(s.locks) + {name} && name in s.table.rows + s.inserted && name in known
                && known == old(known) + {name}
      ensures r == Locked ==>
                s.table.rows == old(s.table.rows) + (if name in old(known) || old(s.connected) then {} else {name})
      ensures r == Locked ==>
                s.inserted == old(s.inserted) + (if name in s.table.rows then {} else {name})
      ensures r == Locked ==>
                (attempts == 2 <==> name in old(known) && name !in old(s.table.rows) + old(s.inserted))
    {
      attempts := 0;
      if !ValidName(name) { return InvalidName, 0; }
      if name !in known {
        if s.connected {
          EnsureRowHere(s, name);
        } else {
          var raised := EnsureRow(s.table, name, faults);
          if raised { return DatabaseFailed, 0; }
        }
      }
      while attempts < 2
        invariant s.locks == old(s.locks)
        invariant attempts == 0 ==> known == old(known) + {name}
        invariant attempts == 0 && name in old(known) ==> s.inserted == old(s.inserted)
        invariant attempts > 0 ==> name in old(known) && name !in old(s.table.rows) + old(s.inserted)
        invariant attempts > 0 || name !in old(known) ==>
                    s.inserted == old(s.inserted) + (if name in s.table.rows then {} else {name})
        invariant attempts > 0 ==> name in s.inserted && known == old(known) + {name}
        invariant attempts < 2
        invariant s.table.rows == old(s.table.rows) + (if name in old(known) || old(s.connected) then {} else {name})
        decreases 2 - attempts
      {
        attempts := attempts + 1;
        var found := s.SelectForUpdate(name);
        if found {
          known := known + {name};
          return Locked, attempts;
        }
        known := known - {name};
        EnsureRowHere(s, name);
      }
      r := StillMissing;
    }
  }

  /** How the cache goes stale: the caller wrote the row itself and then rolls back. */
  method RolledBackInsertStaysKnown(name: string) returns (service: LockService, table: LockTable)
    requires ValidName(name)
    ensures name in service.known && name !in table.rows
  {
    service := new LockService({});
    table := new LockTable({});
    var s := new Session(table);
    var other := s.SelectForUpdate("other");
    var r, attempts := service.Acquire(s, name, []);
    s.Rollback();
  }
}
