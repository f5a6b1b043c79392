/**
  The per-user lock table. An entry is created when the first goroutine asks for a
  user's lock and deleted when the last one is done with it; a goroutine registers
  before it waits, and leaves after it unlocked, in separate steps.
 */
module Locks {

  /** A user's lock: how many goroutines refer to it, and whether its mutex is locked. */
  datatype Entry = Entry(refs: int, held: bool)

  datatype Stage = Waiting | Holding | Released

  /** A goroutine between registering and leaving, and the entry it was handed. */
  datatype Registration<E> = Registration(user: int, entry: E, stage: Stage)

  datatype Table<E> = Table(locks: map<int, E>, heap: map<E, Entry>, regs: map<nat, Registration<E>>)

  predicate CanRegister<E(==)>(t: Table<E>, tid: nat, user: int, unused: E) {
    tid !in t.regs && (user in t.locks ==> t.locks[user] in t.heap) && (user !in t.locks ==> unused !in t.heap)
  }

  /** Find or create the user's entry, and count one more reference. */
  function Register<E(==)>(t: Table<E>, tid: nat, user: int, unused: E): Table<E>
    requires CanRegister(t, tid, user, unused)
  {
    if user in t.locks then
      var e := t.locks[user];
      Table(t.locks, t.heap[e := t.heap[e].(refs := t.heap[e].refs + 1)], t.regs[tid := Registration(user, e, Waiting)])
    else
      Table(t.locks[user := unused], t.heap[unused := Entry(1, false)], t.regs[tid := Registration(user, unused, Waiting)])
  }

  predicate CanAcquire<E(==)>(t: Table<E>, tid: nat) {
    && tid in t.regs && t.regs[tid].stage == Waiting
    && t.regs[tid].entry in t.heap && !t.heap[t.regs[tid].entry].held
  }

  function Acquire<E(==)>(t: Table<E>, tid: nat): Table<E>
    requires CanAcquire(t, tid)
  {
    var e := t.regs[tid].entry;
    Table(t.locks, t.heap[e := t.heap[e].(held := true)], t.regs[tid := t.regs[tid].(stage := Holding)])
  }

  predicate CanUnlock<E(==)>(t: Table<E>, tid: nat) {
    tid in t.regs && t.regs[tid].stage == Holding && t.regs[tid].entry in t.heap
  }

  function Unlock<E(==)>(t: Table<E>, tid: nat): Table<E>
    requires CanUnlock(t, tid)
  {
    var e := t.regs[tid].entry;
    Table(t.locks, t.heap[e := t.heap[e].(held := false)], t.regs[tid := t.regs[tid].(stage := Released)])
  }

  predicate CanLeave<E(==)>(t: Table<E>, tid: nat) {
    tid in t.regs && t.regs[tid].stage == Released && t.regs[tid].entry in t.heap
  }

  /** Drop the reference to the entry held; at zero, delete whatever the table has for the user. */
  function Leave<E(==)>(t: Table<E>, tid: nat): Table<E>
    requires CanLeave(t, tid)
  {
    var e, user := t.regs[tid].entry, t.regs[tid].user;
    var refs := t.heap[e].refs - 1;
    Table(if refs == 0 then t.locks - {user} else t.locks, t.heap[e := t.heap[e].(refs := refs)], t.regs - {tid})
  }

  // ---- the invariant ----

  function Registered<E>(regs: map<nat, Registration<E>>, user: int): set<nat> {
    set tid | tid in regs && regs[tid].user == user
  }

  ghost predicate HasHolder<E>(regs: map<nat, Registration<E>>, user: int) {
    exists tid :: tid in regs && regs[tid].user == user && regs[tid].stage == Holding
  }

  ghost predicate OneHolder<E>(regs: map<nat, Registration<E>>) {
    forall s, t :: s in regs && t in regs && regs[s].user == regs[t].user && regs[s].stage == regs[t].stage == Holding ==> s == t
  }

  ghost predicate Good<E>(t: Table<E>) {
    && (forall tid :: tid in t.regs ==> t.regs[tid].user in t.locks && t.locks[t.regs[tid].user] == t.regs[tid].entry)
    && (forall u :: u in t.locks ==> GoodEntry(t, u))
    && (forall u, v :: u in t.locks && v in t.locks && t.locks[u] == t.locks[v] ==> u == v)
    && OneHolder(t.regs)
  }

  ghost predicate GoodEntry<E>(t: Table<E>, u: int)
    requires u in t.locks
  {
    && t.locks[u] in t.heap
    && t.heap[t.locks[u]].refs == |Registered(t.regs, u)|
    && Registered(t.regs, u) != {}
    && (t.heap[t.locks[u]].held <==> HasHolder(t.regs, u))
  }

  lemma JoinCounts<E>(regs: map<nat, Registration<E>>, tid: nat, r: Registration<E>)
    requires tid !in regs
    ensures Registered(regs[tid := r], r.user) == Registered(regs, r.user) + {tid} && tid !in Registered(regs, r.user)
    ensures forall u :: u != r.user ==> Registered(regs[tid := r], u) == Registered(regs, u)
  {
  }

  lemma MoveCounts<E>(regs: map<nat, Registration<E>>, tid: nat, stage: Stage)
    requires tid in regs
    ensures forall u :: Registered(regs[tid := regs[tid].(stage := stage)], u) == Registered(regs, u)
  {
  }

  lemma LeaveCounts<E>(regs: map<nat, Registration<E>>, tid: nat)
    requires tid in regs
    ensures Registered(regs - {tid}, regs[tid].user) == Registered(regs, regs[tid].user) - {tid} && tid in Registered(regs, regs[tid].user)
    ensures forall u :: u != regs[tid].user ==> Registered(regs - {tid}, u) == Registered(regs, u)
  {
  }

  lemma {:induction false} RegisterKeeps<E>(t: Table<E>, tid: nat, user: int, unused: E)
    requires Good(t) && CanRegister(t, tid, user, unused)
    ensures Good(Register(t, tid, user, unused))
  {
    var t' := Register(t, tid, user, unused);
    forall u | u in t'.locks ensures GoodEntry(t', u) { EntryAfterRegister(t, tid, user, unused, u); }
  }

  lemma {:induction false} EntryAfterRegister<E>(t: Table<E>, tid: nat, user: int, unused: E, u: int)
    requires Good(t) && CanRegister(t, tid, user, unused) && u in Register(t, tid, user, unused).locks
    ensures GoodEntry(Register(t, tid, user, unused), u)
  {
    var t' := Register(t, tid, user, unused);
    JoinCounts(t.regs, tid, t'.regs[tid]);
    HoldersJoin(t.regs, tid, t'.regs[tid], u);
    if user !in t.locks { assert Registered(t.regs, user) == {}; }
    assert u in t.locks ==> GoodEntry(t, u);
  }

  lemma HoldersJoin<E>(regs: map<nat, Registration<E>>, tid: nat, r: Registration<E>, u: int)
    requires tid !in regs && r.stage != Holding
    ensures HasHolder(regs[tid := r], u) <==> HasHolder(regs, u)
  {
    var regs' := regs[tid := r];
    if HasHolder(regs, u) {
      var h :| h in regs && regs[h].user == u && regs[h].stage == Holding;
      assert h in regs' && regs'[h].stage == Holding;
    }
  }

  lemma {:induction false} AcquireKeeps<E>(t: Table<E>, tid: nat)
    requires Good(t) && CanAcquire(t, tid)
    ensures Good(Acquire(t, tid))
  {
    var t' := Acquire(t, tid);
    var user := t.regs[tid].user;
    MoveCounts(t.regs, tid, Holding);
    assert GoodEntry(t, user) && !HasHolder(t.regs, user);
    forall u | u in t'.locks ensures GoodEntry(t', u) {
      assert GoodEntry(t, u);
      HoldersMove(t.regs, tid, Holding, u);
      assert t'.regs[tid].stage == Holding;
    }
  }

  lemma HoldersMove<E>(regs: map<nat, Registration<E>>, tid: nat, stage: Stage, u: int)
    requires tid in regs
    ensures u != regs[tid].user ==> (HasHolder(regs[tid := regs[tid].(stage := stage)], u) <==> HasHolder(regs, u))
  {
    var regs' := regs[tid := regs[tid].(stage := stage)];
    if u != regs[tid].user && HasHolder(regs, u) {
      var h :| h in regs && regs[h].user == u && regs[h].stage == Holding;
      assert h in regs' && regs'[h].stage == Holding;
    }
  }

  lemma {:induction false} UnlockKeeps<E>(t: Table<E>, tid: nat)
    requires Good(t) && CanUnlock(t, tid)
    ensures Good(Unlock(t, tid))
  {
    var t' := Unlock(t, tid);
    MoveCounts(t.regs, tid, Released);
    forall u | u in t'.locks ensures GoodEntry(t', u) {
      assert GoodEntry(t, u);
      HoldersMove(t.regs, tid, Released, u);
    }
  }

  lemma {:induction false} LeaveKeeps<E>(t: Table<E>, tid: nat)
    requires Good(t) && CanLeave(t, tid)
    ensures Good(Leave(t, tid))
  {
    var t' := Leave(t, tid);
    var user := t.regs[tid].user;
    LeaveCounts(t.regs, tid);
    assert GoodEntry(t, user);
    if |Registered(t.regs, user)| == 1 { OnlyOne(Registered(t.regs, user), tid); }
    forall s | s in t'.regs ensures t'.regs[s].user in t'.locks && t'.locks[t'.regs[s].user] == t'.regs[s].entry {
      if t'.regs[s].user == user { assert s in Registered(t'.regs, user); }
    }
    forall u | u in t'.locks ensures GoodEntry(t', u) {
      assert GoodEntry(t, u);
      HoldersLeave(t.regs, tid, u);
    }
  }

  lemma OnlyOne(s: set<nat>, x: nat)
    requires x in s && |s| == 1
    ensures s - {x} == {}
  {
    assert |s - {x}| == 0;
  }

  lemma HoldersLeave<E>(regs: map<nat, Registration<E>>, tid: nat, u: int)
    requires tid in regs && regs[tid].stage != Holding
    ensures HasHolder(regs - {tid}, u) <==> HasHolder(regs, u)
  {
    if HasHolder(regs, u) {
      var h :| h in regs && regs[h].user == u && regs[h].stage == Holding;
      assert h in regs - {tid};
    }
  }

  // ---- every run ----

  datatype Label<E> = Enter(tid: nat, user: int, unused: E) | Take(tid: nat) | Free(tid: nat) | Exit(tid: nat)

  predicate Enabled<E(==)>(t: Table<E>, l: Label<E>) {
    match l
    case Enter(tid, user, unused) => CanRegister(t, tid, user, unused)
    case Take(tid) => CanAcquire(t, tid)
    case Free(tid) => CanUnlock(t, tid)
    case Exit(tid) => CanLeave(t, tid)
  }

  /** A step that cannot be taken changes nothing. */
  function Step<E(==)>(t: Table<E>, l: Label<E>): Table<E> {
    if !Enabled(t, l) then t else
    match l
    case Enter(tid, user, unused) => Register(t, tid, user, unused)
    case Take(tid) => Acquire(t, tid)
    case Free(tid) => Unlock(t, tid)
    case Exit(tid) => Leave(t, tid)
  }

  function After<E(==)>(run: seq<Label<E>>): Table<E> {
    if run == [] then Table(map[], map[], map[]) else Step(After(run[..|run| - 1]), run[|run| - 1])
  }

  lemma {:induction false} StepKeeps<E>(t: Table<E>, l: Label<E>)
    requires Good(t)
    ensures Good(Step(t, l))
  {
    if Enabled(t, l) {
      match l
      case Enter(tid, user, unused) => RegisterKeeps(t, tid, user, unused);
      case Take(tid) => AcquireKeeps(t, tid);
      case Free(tid) => UnlockKeeps(t, tid);
      case Exit(tid) => LeaveKeeps(t, tid);
    }
  }

  lemma {:induction false} RunsKeep<E>(run: seq<Label<E>>)
    ensures Good(After(run))
  {
    if run != [] {
      RunsKeep(run[..|run| - 1]);
      StepKeeps(After(run[..|run| - 1]), run[|run| - 1]);
    }
  }

  /** In every run two goroutines never hold the same user's lock, and each one counted refers to the entry the table has now. */
  lemma {:induction false} MutualExclusion<E>(run: seq<Label<E>>, s: nat, t: nat)
    requires s in After(run).regs && t in After(run).regs && After(run).regs[s].user == After(run).regs[t].user
    ensures var table := After(run);
      var e := table.regs[s].entry;
      && (table.regs[s].stage == Holding && table.regs[t].stage == Holding ==> s == t)
      && e == table.regs[t].entry && table.regs[s].user in table.locks && table.locks[table.regs[s].user] == e
      && e in table.heap && table.heap[e].refs == |Registered(table.regs, table.regs[s].user)|
  {
    RunsKeep(run);
    assert GoodEntry(After(run), After(run).regs[s].user);
  }

  /** A waiting goroutine can take the lock exactly when nobody holds this very user's; other users never stand in its way. */
  lemma {:induction false} OnlyOwnUserBlocks<E>(run: seq<Label<E>>, tid: nat)
    requires tid in After(run).regs && After(run).regs[tid].stage == Waiting
    ensures CanAcquire(After(run), tid) <==> !HasHolder(After(run).regs, After(run).regs[tid].user)
  {
    RunsKeep(run);
    assert GoodEntry(After(run), After(run).regs[tid].user);
  }

  /** Nothing but a held mutex makes a goroutine wait: in every run a newcomer can register, a holder unlock, and one that unlocked leave. */
  lemma {:induction false} NeverStuck<E>(run: seq<Label<E>>, tid: nat, user: int, unused: E)
    requires unused !in After(run).heap
    ensures var t := After(run);
      && (tid !in t.regs ==> CanRegister(t, tid, user, unused))
      && (tid in t.regs && t.regs[tid].stage == Holding ==> CanUnlock(t, tid))
      && (tid in t.regs && t.regs[tid].stage == Released ==> CanLeave(t, tid))
  {
    RunsKeep(run);
    var t := After(run);
    if user in t.locks { assert GoodEntry(t, user); }
    if tid in t.regs { assert GoodEntry(t, t.regs[tid].user); }
  }

  /** The table holds an entry for exactly the users somebody is registered for: none at quiescence, and none deleted while referred to. */
  lemma {:induction false} NoIdleEntries<E>(run: seq<Label<E>>, user: int)
    ensures user in After(run).locks <==> exists tid :: tid in After(run).regs && After(run).regs[tid].user == user
    ensures After(run).regs == map[] ==> After(run).locks == map[]
  {
    RunsKeep(run);
    var t := After(run);
    forall u | u in t.locks ensures exists tid :: tid in t.regs && t.regs[tid].user == u {
      assert GoodEntry(t, u);
      var tid :| tid in Registered(t.regs, u);
      assert tid in t.regs && t.regs[tid].user == u;
    }
  }
}
