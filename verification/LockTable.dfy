/** The lock table as the service keeps it, a map to lock objects; proved against `Locks`. */
module LockTable {
  import opened Locks

  class UserLock {
    var held: bool
    var refs: int

    constructor ()
      ensures !held && refs == 0
    {
      held, refs := false, 0;
    }
  }

  /**
    The service's map of user locks. `Register` and `Leave` are its two short
    critical sections; `Lock` is entered when the entry's mutex is free.
   */
  class LockTable {
    var locks: map<int, UserLock>
    ghost var all: set<UserLock>
    ghost var regs: map<nat, Registration<UserLock>>

    ghost function Abs(): Table<UserLock>
      reads this, all
    {
      Table(locks, map e | e in all :: Entry(e.refs, e.held), regs)
    }

    ghost predicate Valid()
      reads this, all
    {
      Good(Abs()) && locks.Values <= all
    }

    constructor ()
      ensures Valid() && Abs() == Table(map[], map[], map[])
    {
      locks, all, regs := map[], {}, map[];
    }

    method Register(ghost tid: nat, user: int) returns (entry: UserLock)
      requires Valid() && tid !in regs
      modifies this, all
      ensures Valid() && fresh(all - old(all))
      ensures CanRegister(old(Abs()), tid, user, entry) && Abs() == Locks.Register(old(Abs()), tid, user, entry)
      ensures entry == regs[tid].entry
    {
      ghost var before := Abs();
      if user !in locks {
        var e := new UserLock();
        locks := locks[user := e];
        all := all + {e};
      }
      assert user in before.locks ==> GoodEntry(before, user);
      entry := locks[user];
      assert user !in before.locks ==> entry !in before.heap;
      entry.refs := entry.refs + 1;
      regs := regs[tid := Registration(user, entry, Waiting)];
      assert Abs() == Locks.Register(before, tid, user, entry);
      RegisterKeeps(before, tid, user, entry);
    }

    method Lock(ghost tid: nat, entry: UserLock)
      requires Valid() && tid in regs && regs[tid].stage == Waiting && regs[tid].entry == entry
      requires entry in all && !entry.held
      modifies this`regs, entry
      ensures Valid() && CanAcquire(old(Abs()), tid) && Abs() == Acquire(old(Abs()), tid)
    {
      ghost var before := Abs();
      entry.held := true;
      regs := regs[tid := regs[tid].(stage := Holding)];
      assert Abs() == Acquire(before, tid);
      AcquireKeeps(before, tid);
    }

    method Unlock(ghost tid: nat, entry: UserLock)
      requires Valid() && tid in regs && regs[tid].stage == Holding && regs[tid].entry == entry
      modifies this`regs, entry
      ensures Valid() && CanUnlock(old(Abs()), tid) && Abs() == Locks.Unlock(old(Abs()), tid)
    {
      ghost var before := Abs();
      assert GoodEntry(before, regs[tid].user);
      entry.held := false;
      regs := regs[tid := regs[tid].(stage := Released)];
      assert Abs() == Locks.Unlock(before, tid);
      UnlockKeeps(before, tid);
    }

    method Leave(ghost tid: nat, user: int, entry: UserLock)
      requires Valid() && tid in regs && regs[tid] == Registration(user, entry, Released)
      modifies this, entry
      ensures Valid() && all == old(all) && CanLeave(old(Abs()), tid) && Abs() == Locks.Leave(old(Abs()), tid)
    {
      ghost var before := Abs();
      assert GoodEntry(before, user);
      entry.refs := entry.refs - 1;
      if entry.refs == 0 { locks := locks - {user}; }
      regs := regs - {tid};
      assert Abs() == Locks.Leave(before, tid);
      LeaveKeeps(before, tid);
    }
  }
}
