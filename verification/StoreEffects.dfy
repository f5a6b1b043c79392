/**
  What each store operation does to the binding of one user and to everybody
  else's: which bindings can be found in memory or on disk afterwards, what a
  crash recovers to, and whether the permission table still agrees with the
  bindings.
 */
module StoreEffects {
  import opened Wrappers
  import opened Sorting
  import opened Canonical
  import opened AuthSpec
  import opened Records
  import opened StoreSpec
  import opened StoreFacts
  import opened StoreOps

  // ---- copies ----

  /** `b` is what the main file or the log holds for user `v`. */
  ghost predicate OnDisk(d: Disk, v: int, b: Binding) {
    || (v in MainMem(d).bindings && MainMem(d).bindings[v] == b)
    || (WalMatches(d, v) && d.wal.value.binding == b)
  }

  ghost predicate InMem(mem: Mem, v: int, b: Binding) { v in mem.bindings && mem.bindings[v] == b }

  ghost predicate Held(st: State, v: int, b: Binding) { OnDisk(st.disk, v, b) || InMem(st.mem, v, b) }

  /** Other users' bindings stay as they are in memory. */
  ghost predicate OthersKept(m: map<int, Binding>, m': map<int, Binding>, id: int) {
    forall v :: v != id ==> (v in m' <==> v in m) && (v in m ==> m'[v] == m[v])
  }

  /** No binding turns up that was not there before, save `added` for user `id`; and nobody else's changes. */
  ghost predicate Footprint(st: State, st': State, trace: seq<Disk>, id: int, added: Option<Binding>) {
    && OthersKept(st.mem.bindings, st'.mem.bindings, id)
    && (forall v, b :: InMem(st'.mem, v, b) ==> InMem(st.mem, v, b) || (v == id && added == Some(b)))
    && OnlyFrom(st, st'.disk, id, added)
    && (forall d :: d in trace ==> OnlyFrom(st, d, id, added))
  }

  ghost predicate OnlyFrom(st: State, d: Disk, id: int, added: Option<Binding>) {
    forall v, b :: OnDisk(d, v, b) ==> Held(st, v, b) || (v == id && added == Some(b))
  }

  lemma {:induction false} WrittenCopies(cfg: Config, disk: Disk, mem: Mem)
    requires Keyed(mem.bindings)
    ensures forall v, b :: OnDisk(Written(cfg, disk, mem), v, b) <==> InMem(mem, v, b) || (WalMatches(disk, v) && disk.wal.value.binding == b)
    ensures forall v, b :: OnDisk(Written(cfg, disk, mem).(wal := None), v, b) <==> InMem(mem, v, b)
  {
    WrittenMain(cfg, disk, mem);
    assert MainMem(Written(cfg, disk, mem).(wal := None)) == MainMem(Written(cfg, disk, mem));
  }

  lemma {:induction false} LoggedCopies(cfg: Config, disk: Disk, b: Binding)
    ensures forall v, c :: OnDisk(disk.(wal := Some(WalOf(cfg, b))), v, c) ==> OnDisk(disk, v, c) || (v == b.telegramId && c == b)
    ensures forall v, c :: OnDisk(disk.(wal := None), v, c) ==> OnDisk(disk, v, c)
  {
    assert MainMem(disk.(wal := Some(WalOf(cfg, b)))) == MainMem(disk);
    assert MainMem(disk.(wal := None)) == MainMem(disk);
  }

  lemma {:induction false} PutDisks(cfg: Config, st: State, b: Binding)
    requires StoreInv(cfg, st) && Storable(cfg, st.mem.bindings, b)
    ensures var mem := WithBinding(st.mem, b);
      var logged := st.disk.(wal := Some(WalOf(cfg, b)));
      && OnlyFrom(st, st.disk, b.telegramId, Some(b)) && OnlyFrom(st, logged, b.telegramId, Some(b))
      && OnlyFrom(st, Written(cfg, st.disk, mem), b.telegramId, Some(b))
      && OnlyFrom(st, Written(cfg, logged, mem), b.telegramId, Some(b))
      && OnlyFrom(st, Written(cfg, logged, mem).(wal := None), b.telegramId, Some(b))
  {
    var mem := WithBinding(st.mem, b);
    StorableGood(cfg, st.mem.bindings, b);
    LoggedCopies(cfg, st.disk, b);
    WrittenCopies(cfg, st.disk, mem);
    WrittenCopies(cfg, st.disk.(wal := Some(WalOf(cfg, b))), mem);
  }

  lemma {:induction false} PutFootprint(cfg: Config, st: State, b: Binding, wall: int, io: PutIO)
    requires StoreInv(cfg, st) && Storable(cfg, st.mem.bindings, b)
    ensures var o := PutCases(cfg, st, b, wall, io); Footprint(st, o.st, o.trace, b.telegramId, Some(b))
  {
    PutDisks(cfg, st, b);
    var o := PutCases(cfg, st, b, wall, io);
    assert o.st.mem == WithBinding(st.mem, b);
    assert OthersKept(st.mem.bindings, o.st.mem.bindings, b.telegramId);
  }

  lemma {:induction false} RemoveDisks(cfg: Config, st: State, id: int)
    requires StoreInv(cfg, st)
    ensures var cleared := if WalMatches(st.disk, id) then st.disk.(wal := None) else st.disk;
      var removed := Written(cfg, cleared, st.mem.(bindings := st.mem.bindings - {id}));
      && OnlyFrom(st, st.disk, id, None) && OnlyFrom(st, cleared, id, None) && OnlyFrom(st, removed, id, None)
      && forall b :: !OnDisk(removed, id, b)
  {
    var cleared := if WalMatches(st.disk, id) then st.disk.(wal := None) else st.disk;
    var mem := st.mem.(bindings := st.mem.bindings - {id});
    assert Keyed(mem.bindings);
    WrittenCopies(cfg, cleared, mem);
    assert MainMem(st.disk.(wal := None)) == MainMem(st.disk);
  }

  lemma {:induction false} RemoveFootprint(cfg: Config, st: State, id: int, io: RemoveIO)
    requires StoreInv(cfg, st)
    ensures var o := RemoveSpec(cfg, st, id, io); Footprint(st, o.st, o.trace, id, None)
  {
    RemoveDisks(cfg, st, id);
  }

  /** When unbinding reports a removal, no copy of the user's binding is left anywhere. */
  lemma {:induction false} RemovalLeavesNothing(cfg: Config, st: State, id: int, io: RemoveIO)
    requires StoreInv(cfg, st)
    ensures var o := RemoveSpec(cfg, st, id, io);
      o.result.Ok? && o.result.value.Some? ==> NotHeld(o.st, id) && InMem(st.mem, id, o.result.value.value.binding)
  {
    RemoveDisks(cfg, st, id);
  }

  /** No binding of user `id` in memory, in the main file or in the log. */
  ghost predicate NotHeld(st: State, id: int) { forall b :: !Held(st, id, b) }

  lemma {:induction false} FailureFootprint(cfg: Config, st: State, id: int, clear: bool, now: int, save: bool)
    requires StoreInv(cfg, st)
    ensures var o := RecordFailureSpec(cfg, st, id, clear, now, save); Footprint(st, o.st, o.trace, id,
      if id in st.mem.bindings then Some(AfterFailure(st.mem.bindings[id], clear, now)) else None)
  {
    if id in st.mem.bindings {
      var b := AfterFailure(st.mem.bindings[id], clear, now);
      FailureStorable(cfg, st.mem.bindings, id, clear, now);
      StorableGood(cfg, st.mem.bindings, b);
      WrittenCopies(cfg, st.disk, WithBinding(st.mem, b));
    }
  }

  /** Nothing is found that the disk did not hold. */
  ghost predicate StartBrings(disk: Disk, s: Started) {
    && (s.result.Ok? ==> forall v, b :: Held(s.result.value, v, b) ==> OnDisk(disk, v, b))
    && (forall v, b :: OnDisk(s.disk, v, b) ==> OnDisk(disk, v, b))
    && (forall d, v, b :: d in s.trace && OnDisk(d, v, b) ==> OnDisk(disk, v, b))
  }

  lemma {:induction false} ReplayCopies(cfg: Config, disk: Disk, m: map<int, Binding>, now: int)
    requires GoodBindings(cfg, m) && DiskWithin(cfg, disk, m)
    ensures var saved := Written(cfg, disk, LoadedMem(disk, now).(bindings := Recovered(disk)));
      forall v, b :: OnDisk(saved, v, b) || OnDisk(saved.(wal := None), v, b) ==> OnDisk(disk, v, b)
  {
    RecoveredCopies(disk);
    RecoveredGood(cfg, disk, m);
    WrittenCopies(cfg, disk, LoadedMem(disk, now).(bindings := Recovered(disk)));
  }

  /** Start-up brings back only what was on disk. */
  lemma {:induction false} StartFootprint(cfg: Config, disk: Disk, now: int, wall: int, io: StartIO)
    requires ValidGrammar(cfg.grammar) && DiskOk(cfg, disk)
    ensures StartBrings(disk, StartSpec(cfg, disk, now, wall, io))
  {
    var m :| GoodBindings(cfg, m) && DiskWithin(cfg, disk, m);
    RecoveredCopies(disk);
    if disk.wal.None? {
      StartWithoutLog(cfg, disk, m, now, wall, io);
    } else {
      ReplayFootprint(cfg, disk, m, now, wall, io);
    }
  }

  lemma {:induction false} ReplayFootprint(cfg: Config, disk: Disk, m: map<int, Binding>, now: int, wall: int, io: StartIO)
    requires ValidGrammar(cfg.grammar) && GoodBindings(cfg, m) && DiskWithin(cfg, disk, m) && disk.wal.Some?
    ensures StartBrings(disk, StartSpec(cfg, disk, now, wall, io))
  {
    RecoveredCopies(disk);
    StartWithLog(cfg, disk, m, now, wall, io);
    ReplayCopies(cfg, disk, m, now);
  }

  lemma RecoveredCopies(disk: Disk)
    ensures forall v, b :: v in Recovered(disk) && Recovered(disk)[v] == b ==> OnDisk(disk, v, b)
  {
  }

  // ---- tickets and transactions under the binding operations ----

  /** Every disk the operation passes through lists only tickets and transactions the main file already had. */
  ghost predicate KeepsTickets(main: Mem, d: Disk, trace: seq<Disk>) {
    Mirrored(MainMem(d), main) && forall e :: e in trace ==> Mirrored(MainMem(e), main)
  }

  lemma {:induction false} WrittenMirror(cfg: Config, disk: Disk, mem: Mem, main: Mem)
    requires Keyed(mem.bindings) && Mirrored(mem, main)
    ensures Mirrored(MainMem(Written(cfg, disk, mem)), main) && Mirrored(MainMem(Written(cfg, disk, mem).(wal := None)), main)
  {
    WrittenMain(cfg, disk, mem);
    assert MainMem(Written(cfg, disk, mem).(wal := None)) == MainMem(Written(cfg, disk, mem));
  }

  lemma {:induction false} PutMirror(cfg: Config, st: State, b: Binding, wall: int, io: PutIO)
    requires StoreInv(cfg, st) && Storable(cfg, st.mem.bindings, b)
    ensures var o := PutCases(cfg, st, b, wall, io); KeepsTickets(MainMem(st.disk), o.st.disk, o.trace)
  {
    var mem, main, logged := WithBinding(st.mem, b), MainMem(st.disk), st.disk.(wal := Some(WalOf(cfg, b)));
    StorableGood(cfg, st.mem.bindings, b);
    assert Mirrored(mem, main) && Mirrored(main, main);
    assert MainMem(logged) == main;
    WrittenMirror(cfg, st.disk, mem, main);
    WrittenMirror(cfg, logged, mem, main);
  }

  /** A nil return from a clean store leaves it clean; with all three disk steps succeeding, from any store. */
  lemma {:induction false} PutClean(cfg: Config, st: State, b: Binding, wall: int, io: PutIO)
    requires StoreInv(cfg, st) && Storable(cfg, st.mem.bindings, b)
    ensures var o := PutCases(cfg, st, b, wall, io);
      o.result.Ok? && (Clean(st) || io.wal) ==> Clean(o.st)
  {
    var mem := WithBinding(st.mem, b);
    StorableGood(cfg, st.mem.bindings, b);
    WrittenMain(cfg, st.disk, mem);
    WrittenMain(cfg, st.disk.(wal := Some(WalOf(cfg, b))), mem);
    assert MainMem(Written(cfg, st.disk.(wal := Some(WalOf(cfg, b))), mem).(wal := None)) == mem;
  }

  lemma {:induction false} RemoveMirror(cfg: Config, st: State, id: int, io: RemoveIO)
    requires StoreInv(cfg, st)
    ensures var o := RemoveSpec(cfg, st, id, io); KeepsTickets(MainMem(st.disk), o.st.disk, o.trace)
  {
    var mem, main := st.mem.(bindings := st.mem.bindings - {id}), MainMem(st.disk);
    assert Mirrored(mem, main) && Mirrored(main, main) && Keyed(mem.bindings);
    assert MainMem(st.disk.(wal := None)) == main;
    WrittenMirror(cfg, if WalMatches(st.disk, id) then st.disk.(wal := None) else st.disk, mem, main);
  }

  lemma {:induction false} FailureMirror(cfg: Config, st: State, id: int, clear: bool, now: int, save: bool)
    requires StoreInv(cfg, st)
    ensures var o := RecordFailureSpec(cfg, st, id, clear, now, save); KeepsTickets(MainMem(st.disk), o.st.disk, o.trace)
  {
    var main := MainMem(st.disk);
    assert Mirrored(main, main);
    if id in st.mem.bindings {
      var b := AfterFailure(st.mem.bindings[id], clear, now);
      FailureStorable(cfg, st.mem.bindings, id, clear, now);
      StorableGood(cfg, st.mem.bindings, b);
      assert Mirrored(WithBinding(st.mem, b), main);
      WrittenMirror(cfg, st.disk, WithBinding(st.mem, b), main);
    }
  }

  lemma {:induction false} ReplayMirror(cfg: Config, disk: Disk, m: map<int, Binding>, now: int)
    requires GoodBindings(cfg, m) && DiskWithin(cfg, disk, m)
    ensures var saved, main := Written(cfg, disk, LoadedMem(disk, now).(bindings := Recovered(disk))), MainMem(disk);
      Mirrored(MainMem(saved), main) && Mirrored(MainMem(saved.(wal := None)), main)
  {
    var mem, main := LoadedMem(disk, now).(bindings := Recovered(disk)), MainMem(disk);
    RecoveredGood(cfg, disk, m);
    LivePartMirrored(main, now);
    assert Mirrored(mem, main);
    WrittenMirror(cfg, disk, mem, main);
  }

  lemma {:induction false} StartMirror(cfg: Config, disk: Disk, now: int, wall: int, io: StartIO)
    requires ValidGrammar(cfg.grammar) && DiskOk(cfg, disk)
    ensures var s := StartSpec(cfg, disk, now, wall, io); KeepsTickets(MainMem(disk), s.disk, s.trace)
  {
    var m :| GoodBindings(cfg, m) && DiskWithin(cfg, disk, m);
    if disk.wal.None? {
      StartWithoutLog(cfg, disk, m, now, wall, io);
      assert Mirrored(MainMem(disk), MainMem(disk));
    } else {
      ReplayedMirror(cfg, disk, m, now, wall, io);
    }
  }

  lemma {:induction false} ReplayedMirror(cfg: Config, disk: Disk, m: map<int, Binding>, now: int, wall: int, io: StartIO)
    requires ValidGrammar(cfg.grammar) && GoodBindings(cfg, m) && DiskWithin(cfg, disk, m) && disk.wal.Some?
    ensures var s := StartSpec(cfg, disk, now, wall, io); KeepsTickets(MainMem(disk), s.disk, s.trace)
  {
    assert Mirrored(MainMem(disk), MainMem(disk));
    StartWithLog(cfg, disk, m, now, wall, io);
    ReplayMirror(cfg, disk, m, now);
  }

  // ---- the permission table ----

  /** What user `id`'s binding grants at time `t`. */
  function Wanted(m: map<int, Binding>, id: int, t: int): set<string> {
    if id in m && t < m[id].accessExpiresAt then Elements(m[id].permissions) else {}
  }

  /** From `t0` on the table grants each user, save those in `except`, exactly what the user's binding lists, until that expires. */
  ghost predicate FedAgrees(fed: Federated, m: map<int, Binding>, t0: int, except: set<int>) {
    forall id, t :: id !in except && t0 <= t ==> ActiveFederated(fed, id, t) == Wanted(m, id, t)
  }

  lemma FedSeeded(fed: Federated, m: map<int, Binding>, t0: int, b: Binding, wall: int, except: set<int>)
    requires FedAgrees(fed, m, t0, except) && t0 <= wall
    ensures FedAgrees(Seeded(fed, b.telegramId, b.accessExpiresAt, b.permissions, wall), m[b.telegramId := b], wall, except - {b.telegramId})
  {
    forall id, t | id !in except - {b.telegramId} && wall <= t
      ensures ActiveFederated(Seeded(fed, b.telegramId, b.accessExpiresAt, b.permissions, wall), id, t) == Wanted(m[b.telegramId := b], id, t)
    {
      SeededExact(fed, b.telegramId, b.accessExpiresAt, b.permissions, wall, t);
      if id != b.telegramId { assert ActiveFederated(fed, id, t) == Wanted(m, id, t); }
    }
  }

  lemma FedCleared(fed: Federated, m: map<int, Binding>, t0: int, id: int, except: set<int>)
    requires FedAgrees(fed, m, t0, except)
    ensures FedAgrees(fed - {id}, m - {id}, t0, except - {id})
    ensures id in m ==> forall b: Binding :: b.permissions == [] ==> FedAgrees(fed - {id}, m[id := b], t0, except - {id})
  {
    forall v, t | v !in except - {id} && t0 <= t
      ensures ActiveFederated(fed - {id}, v, t) == if v == id then {} else Wanted(m, v, t)
    {
      if v != id { assert ActiveFederated(fed, v, t) == Wanted(m, v, t); }
    }
  }

  /** Start-up seeds the table to agree. */
  lemma FedSeededAll(m: map<int, Binding>, wall: int)
    ensures FedAgrees(SeedAll(m, wall), m, wall, {})
  {
  }

  predicate SkipsPermissions(e: StoreError) { e == WalSavedStoreFailed || e == ClearWalFailed }

  /** Storing a binding brings the table in step for its user, unless it returned from one of the two middle failures; for everybody else it stays as it was. */
  lemma {:induction false} PutFed(cfg: Config, st: State, b: Binding, wall: int, io: PutIO, t0: int, except: set<int>)
    requires FedAgrees(st.federated, st.mem.bindings, t0, except) && t0 <= wall
    ensures var o := PutCases(cfg, st, b, wall, io);
      FedAgrees(o.st.federated, o.st.mem.bindings, wall,
        if o.result.Err? && SkipsPermissions(o.result.error) then except + {b.telegramId} else except - {b.telegramId})
  {
    FedSeeded(st.federated, st.mem.bindings, t0, b, wall, except);
    var m := WithBinding(st.mem, b).bindings;
    forall id, t | id !in except + {b.telegramId} && wall <= t ensures ActiveFederated(st.federated, id, t) == Wanted(m, id, t) {
      assert ActiveFederated(st.federated, id, t) == Wanted(st.mem.bindings, id, t);
    }
  }

  predicate LiveGrant(m: map<int, Binding>, id: int, t: int) {
    id in m && m[id].permissions != [] && t < m[id].accessExpiresAt
  }

  /** Both bindings of a user grant nothing from `t` on, or they grant the same permissions until the same time. */
  predicate SameGrant(m: map<int, Binding>, m': map<int, Binding>, id: int, t: int) {
    && (LiveGrant(m, id, t) <==> LiveGrant(m', id, t))
    && (LiveGrant(m, id, t) ==>
      Elements(m[id].permissions) == Elements(m'[id].permissions) && m[id].accessExpiresAt == m'[id].accessExpiresAt)
  }

  lemma SameGrantExact(m: map<int, Binding>, m': map<int, Binding>, id: int, t0: int)
    ensures SameGrant(m, m', id, t0) <==> forall t :: t0 <= t ==> Wanted(m, id, t) == Wanted(m', id, t)
  {
    if LiveGrant(m, id, t0) { assert m[id].permissions[0] in Wanted(m, id, t0); }
    if LiveGrant(m', id, t0) { assert m'[id].permissions[0] in Wanted(m', id, t0); }
    if forall t :: t0 <= t ==> Wanted(m, id, t) == Wanted(m', id, t) {
      assert Wanted(m, id, t0) == Wanted(m', id, t0);
      if LiveGrant(m, id, t0) {
        assert Wanted(m, id, m[id].accessExpiresAt) == Wanted(m', id, m[id].accessExpiresAt) == {};
        assert Wanted(m, id, m'[id].accessExpiresAt) == Wanted(m', id, m'[id].accessExpiresAt) == {};
        assert m'[id].permissions[0] in Elements(m'[id].permissions);
      }
    }
  }

  /** After one of the two middle failures the table still reflects the replaced binding: it agrees exactly when that granted the same. */
  lemma {:induction false} SkippedPutFed(cfg: Config, st: State, b: Binding, wall: int, io: PutIO, t0: int, except: set<int>)
    requires FedAgrees(st.federated, st.mem.bindings, t0, except) && t0 <= wall && b.telegramId !in except
    requires io.wal && (!io.save || !io.clear)
    ensures var o := PutCases(cfg, st, b, wall, io);
      FedAgrees(o.st.federated, o.st.mem.bindings, wall, except) <==> SameGrant(st.mem.bindings, o.st.mem.bindings, b.telegramId, wall)
  {
    var m, m', id := st.mem.bindings, WithBinding(st.mem, b).bindings, b.telegramId;
    SameGrantExact(m, m', id, wall);
    if SameGrant(m, m', id, wall) {
      forall v, t | v !in except && wall <= t ensures ActiveFederated(st.federated, v, t) == Wanted(m', v, t) {
        assert ActiveFederated(st.federated, v, t) == Wanted(m, v, t);
        if v == id { assert Wanted(m, id, t) == Wanted(m', id, t); }
      }
    }
    if FedAgrees(st.federated, m', wall, except) {
      forall t | wall <= t ensures Wanted(m, id, t) == Wanted(m', id, t) {
        assert ActiveFederated(st.federated, id, t) == Wanted(m, id, t);
        assert ActiveFederated(st.federated, id, t) == Wanted(m', id, t);
      }
    }
  }

  /** Unbinding keeps the table in step, and brings it in step for the user it removes. */
  lemma {:induction false} RemoveFed(cfg: Config, st: State, id: int, io: RemoveIO, t0: int, t1: int, except: set<int>)
    requires FedAgrees(st.federated, st.mem.bindings, t0, except) && t0 <= t1
    ensures var o := RemoveSpec(cfg, st, id, io);
      FedAgrees(o.st.federated, o.st.mem.bindings, t1, if o.result.Ok? && id in st.mem.bindings then except - {id} else except)
  {
    FedLater(st.federated, st.mem.bindings, t0, t1, except);
    FedCleared(st.federated, st.mem.bindings, t1, id, except);
  }

  /** So does a recorded failure, saved or not, and brings it in step when it clears the user's permissions. */
  lemma {:induction false} FailureFed(cfg: Config, st: State, id: int, clear: bool, now: int, save: bool, t0: int, t1: int, except: set<int>)
    requires FedAgrees(st.federated, st.mem.bindings, t0, except) && t0 <= t1
    ensures var o := RecordFailureSpec(cfg, st, id, clear, now, save);
      FedAgrees(o.st.federated, o.st.mem.bindings, t1, if o.result.Ok? && clear && id in st.mem.bindings then except - {id} else except)
  {
    var m := st.mem.bindings;
    FedLater(st.federated, m, t0, t1, except);
    FedCleared(st.federated, m, t1, id, except);
    if id in m { FedUntouched(st.federated, m, t1, id, AfterFailure(m[id], false, now), except); }
  }

  lemma FedLater(fed: Federated, m: map<int, Binding>, t0: int, t1: int, except: set<int>)
    requires FedAgrees(fed, m, t0, except) && t0 <= t1
    ensures FedAgrees(fed, m, t1, except)
  {
  }

  lemma FedUntouched(fed: Federated, m: map<int, Binding>, t0: int, id: int, b: Binding, except: set<int>)
    requires FedAgrees(fed, m, t0, except) && id in m && b.permissions == m[id].permissions && b.accessExpiresAt == m[id].accessExpiresAt
    ensures FedAgrees(fed, m[id := b], t0, except)
  {
    forall v, t | v !in except && t0 <= t ensures ActiveFederated(fed, v, t) == Wanted(m[id := b], v, t) {
      assert ActiveFederated(fed, v, t) == Wanted(m, v, t);
    }
  }

  // ---- crashes while a binding is stored ----

  /** The record to be stored names the item's user and identity, and carries the credential. */
  ghost predicate MadeFrom(cfg: Config, b: Binding, item: Binding, token: string) {
    && b.telegramId == item.telegramId && b.subject == item.subject && b.issuer == cfg.issuer
    && b.accessExpiresAt == item.accessExpiresAt && Token(b) == Some(token)
  }

  lemma {:induction false} PutShape(cfg: Config, st: State, item: Binding, token: string, now: int, wall: int, io: PutIO)
    requires ValidGrammar(cfg.grammar) && GoodBindings(cfg, st.mem.bindings)
    ensures var p := Prepared(cfg, st.mem.bindings, item, token, now);
      var o := PutSpec(cfg, st, item, token, now, wall, io);
      && (p.Err? ==> o == Outcome(st, [], Err(p.error)))
      && (p.Ok? && !io.seal ==> o == Outcome(st, [], Err(SealFailed)))
      && (p.Ok? && io.seal ==> o == PutCases(cfg, st, p.value, wall, io))
      && (p.Ok? ==> Storable(cfg, st.mem.bindings, p.value) && MadeFrom(cfg, p.value, item, token))
  {
    if Prepared(cfg, st.mem.bindings, item, token, now).Ok? {
      PreparedGood(cfg, st.mem.bindings, item, token, now);
      var b := Prepared(cfg, st.mem.bindings, item, token, now).value;
      StoreStepsCases(cfg, st, b, wall, io);
    }
  }

  /**
    What is read back. Once a binding passed the checks and its credential was sealed,
    on every exit, failures included, the user's binding in memory has its identity
    and opens to its credential; refused, it changes nothing. Nobody else's changes.
   */
  lemma {:induction false} ReadsBack(cfg: Config, st: State, item: Binding, token: string, now: int, wall: int, io: PutIO)
    requires ValidGrammar(cfg.grammar) && StoreInv(cfg, st)
    ensures var o := PutSpec(cfg, st, item, token, now, wall, io);
      && (Prepared(cfg, st.mem.bindings, item, token, now).Ok? && io.seal ==>
            && item.telegramId in o.st.mem.bindings && RefreshTokenSpec(o.st.mem, item) == Ok(token)
            && Some(o.st.mem.bindings[item.telegramId].permissions) == NormalizeERP(item.permissions, cfg.grammar))
      && (!Prepared(cfg, st.mem.bindings, item, token, now).Ok? || !io.seal ==> o.st == st && o.result.Err?)
      && OthersKept(st.mem.bindings, o.st.mem.bindings, item.telegramId)
  {
    PutShape(cfg, st, item, token, now, wall, io);
  }

  /** The binding a restart would find for `id`, in its absence `None`. */
  ghost function RecoveredBinding(d: Disk, id: int): Option<Binding> {
    if id in Recovered(d) then Some(Recovered(d)[id]) else None
  }

  /** A start-up that is cut off after `k` disk effects, or that fails. */
  datatype Try = Try(now: int, wall: int, io: StartIO, k: nat)

  ghost function AfterTry(cfg: Config, disk: Disk, t: Try): Disk {
    var trace := StartSpec(cfg, disk, t.now, t.wall, t.io).trace;
    if t.k == 0 then disk else if t.k <= |trace| then trace[t.k - 1] else StartSpec(cfg, disk, t.now, t.wall, t.io).disk
  }

  ghost function AfterTries(cfg: Config, disk: Disk, tries: seq<Try>): Disk {
    if tries == [] then disk else AfterTry(cfg, AfterTries(cfg, disk, tries[..|tries| - 1]), tries[|tries| - 1])
  }

  /** However many start-ups fail or are cut off, the disk recovers to the same bindings. */
  lemma {:induction false} TriesKeepRecovered(cfg: Config, disk: Disk, tries: seq<Try>)
    requires ValidGrammar(cfg.grammar) && DiskOk(cfg, disk)
    ensures DiskOk(cfg, AfterTries(cfg, disk, tries)) && Recovered(AfterTries(cfg, disk, tries)) == Recovered(disk)
  {
    if tries != [] {
      var before, t := AfterTries(cfg, disk, tries[..|tries| - 1]), tries[|tries| - 1];
      TriesKeepRecovered(cfg, disk, tries[..|tries| - 1]);
      TryKeepsRecovered(cfg, before, t);
    }
  }

  lemma {:induction false} SameRecoveryOk(cfg: Config, d: Disk, disk: Disk)
    requires DiskOk(cfg, disk) && SameRecovery(cfg, d, disk)
    ensures DiskOk(cfg, d) && Recovered(d) == Recovered(disk)
  {
    var m :| GoodBindings(cfg, m) && DiskWithin(cfg, disk, m);
    RecoveredGood(cfg, disk, m);
  }

  lemma {:induction false} TryKeepsRecovered(cfg: Config, disk: Disk, t: Try)
    requires ValidGrammar(cfg.grammar) && DiskOk(cfg, disk)
    ensures DiskOk(cfg, AfterTry(cfg, disk, t)) && Recovered(AfterTry(cfg, disk, t)) == Recovered(disk)
  {
    StartAccepts(cfg, disk, t.now, t.wall, t.io);
    var s := StartSpec(cfg, disk, t.now, t.wall, t.io);
    if t.k > |s.trace| { SameRecoveryOk(cfg, s.disk, disk); }
    else if t.k > 0 {
      assert s.trace[t.k - 1] in s.trace;
      SameRecoveryOk(cfg, s.trace[t.k - 1], disk);
    }
  }

  /**
    Storing a binding is crash-atomic. From a clean store, cut off after any number
    of its disk effects, and after any number of start-ups that fail or are cut off
    themselves, a restart finds exactly the old bindings -- only when no effect took
    place -- or exactly the old ones with this one replaced. A nil return, and any
    return after the log or the main file was written, means the latter.
   */
  lemma {:induction false} PutIsCrashAtomic(cfg: Config, st: State, item: Binding, token: string, now: int, wall: int, io: PutIO,
                                            k: nat, tries: seq<Try>, later: int, start: StartIO)
    requires ValidGrammar(cfg.grammar) && StoreInv(cfg, st) && Clean(st)
    requires k <= |PutSpec(cfg, st, item, token, now, wall, io).trace|
    ensures var o := PutSpec(cfg, st, item, token, now, wall, io);
      var p := Prepared(cfg, st.mem.bindings, item, token, now);
      var s := StartSpec(cfg, AfterTries(cfg, AtCrash(st, o, k), tries), later, later, start);
      && (o.result.Ok? || k > 0 ==> p.Ok?)
      && (s.result.Ok? ==> s.result.value.mem.bindings == if k == 0 then st.mem.bindings else st.mem.bindings[item.telegramId := p.value])
      && (s.result.Err? ==> IsIOError(s.result.error))
      && ((io.wal || io.save) && p.Ok? && io.seal ==> o.trace != [])
      && (o.result.Ok? ==> o.trace != [] && Recovered(o.st.disk) == st.mem.bindings[item.telegramId := p.value] == o.st.mem.bindings)
  {
    var o := PutSpec(cfg, st, item, token, now, wall, io);
    PutAtCrash(cfg, st, item, token, now, wall, io, k);
    TriesKeepRecovered(cfg, AtCrash(st, o, k), tries);
    StartAccepts(cfg, AfterTries(cfg, AtCrash(st, o, k), tries), later, later, start);
  }

  /** The disk after `k` effects is one start-up accepts; it recovers to the old bindings before the first effect, to the new ones after. */
  lemma {:induction false} PutAtCrash(cfg: Config, st: State, item: Binding, token: string, now: int, wall: int, io: PutIO, k: nat)
    requires ValidGrammar(cfg.grammar) && StoreInv(cfg, st) && Clean(st)
    requires k <= |PutSpec(cfg, st, item, token, now, wall, io).trace|
    ensures var o := PutSpec(cfg, st, item, token, now, wall, io);
      var p := Prepared(cfg, st.mem.bindings, item, token, now);
      && DiskOk(cfg, AtCrash(st, o, k))
      && (o.result.Ok? || k > 0 ==> p.Ok?)
      && Recovered(AtCrash(st, o, k)) == (if k == 0 then st.mem.bindings else st.mem.bindings[item.telegramId := p.value])
      && ((io.wal || io.save) && p.Ok? && io.seal ==> o.trace != [])
      && (o.result.Ok? ==> o.trace != [] && Recovered(o.st.disk) == st.mem.bindings[item.telegramId := p.value] == o.st.mem.bindings)
  {
    PutShape(cfg, st, item, token, now, wall, io);
    var o := PutSpec(cfg, st, item, token, now, wall, io);
    var p := Prepared(cfg, st.mem.bindings, item, token, now);
    if p.Ok? {
      PutRecovers(cfg, st, p.value, wall, io);
      PutSound(cfg, st, p.value, wall, io);
    } else {
      LoggedRecovers(cfg, st, item);
    }
    CrashedDisk(cfg, st, o, k);
  }

  lemma {:induction false} CrashedDisk<T>(cfg: Config, st: State, o: Outcome<T>, k: nat)
    requires StoreInv(cfg, st) && (forall d :: d in o.trace ==> DiskOk(cfg, d)) && k <= |o.trace|
    ensures DiskOk(cfg, AtCrash(st, o, k))
  {
    InvDiskOk(cfg, st);
  }

  /**
    From an arbitrary reachable store -- with a log entry perhaps left behind -- a
    nil return means the new binding is recovered exactly when the log was written,
    or held no entry of this user, or held this very binding.
   */
  lemma {:induction false} NilReturnExactly(cfg: Config, st: State, item: Binding, token: string, now: int, wall: int, io: PutIO)
    requires ValidGrammar(cfg.grammar) && StoreInv(cfg, st)
    requires PutSpec(cfg, st, item, token, now, wall, io).result.Ok?
    ensures var o := PutSpec(cfg, st, item, token, now, wall, io);
      && InMem(o.st.mem, item.telegramId, Prepared(cfg, st.mem.bindings, item, token, now).value)
      && (RecoveredBinding(o.st.disk, item.telegramId) == Some(Prepared(cfg, st.mem.bindings, item, token, now).value)
          <==> io.wal || !WalMatches(st.disk, item.telegramId)
               || st.disk.wal.value.binding == Prepared(cfg, st.mem.bindings, item, token, now).value)
  {
    PutShape(cfg, st, item, token, now, wall, io);
    var b := Prepared(cfg, st.mem.bindings, item, token, now).value;
    var mem := WithBinding(st.mem, b);
    StorableGood(cfg, st.mem.bindings, b);
    WrittenMain(cfg, st.disk, mem);
    WrittenMain(cfg, st.disk.(wal := Some(WalOf(cfg, b))), mem);
    assert MainMem(Written(cfg, st.disk.(wal := Some(WalOf(cfg, b))), mem).(wal := None)) == mem;
  }

  /** So two binds in a row, the first unable to remove its log and the second unable to write one, lose the second on a restart. */
  lemma {:induction false} LeftoverLogWins(cfg: Config, st: State, item: Binding, token: string, newer: Binding, rotated: string, now: int, wall: int)
    requires ValidGrammar(cfg.grammar) && StoreInv(cfg, st)
    requires newer.telegramId == item.telegramId && rotated != token
    ensures var first := PutSpec(cfg, st, item, token, now, wall, PutIO(true, true, true, false));
      var second := PutSpec(cfg, first.st, newer, rotated, now, wall, PutIO(true, false, true, true));
      second.result.Ok? && Prepared(cfg, st.mem.bindings, item, token, now).Ok? ==>
        && Token(second.st.mem.bindings[item.telegramId]) == Some(rotated)
        && RecoveredBinding(second.st.disk, item.telegramId).Some?
        && Token(RecoveredBinding(second.st.disk, item.telegramId).value) == Some(token)
  {
    var io := PutIO(true, true, true, false);
    var first := PutSpec(cfg, st, item, token, now, wall, io);
    PutShape(cfg, st, item, token, now, wall, io);
    if Prepared(cfg, st.mem.bindings, item, token, now).Ok? {
      var b := Prepared(cfg, st.mem.bindings, item, token, now).value;
      PutSound(cfg, st, b, wall, io);
      var second := PutSpec(cfg, first.st, newer, rotated, now, wall, PutIO(true, false, true, true));
      if second.result.Ok? {
        PutShape(cfg, first.st, newer, rotated, now, wall, PutIO(true, false, true, true));
        NilReturnExactly(cfg, first.st, newer, rotated, now, wall, PutIO(true, false, true, true));
        assert first.st.disk.wal == Some(WalOf(cfg, b));
        assert second.st.disk.wal == first.st.disk.wal;
      }
    }
  }
}
