/**
  What every reachable store satisfies, and that start-up accepts and recovers
  every disk such a store can leave behind.
 */
module StoreFacts {
  import opened Wrappers
  import opened Sorting
  import opened Canonical
  import opened AuthSpec
  import opened Records
  import opened StoreSpec

  // ---- well-formed bindings ----

  ghost predicate GoodBinding(cfg: Config, b: Binding) {
    && b.telegramId > 0 && b.issuer == cfg.issuer && b.subject != ""
    && IsStoredList(b.permissions, cfg.grammar)
    && Token(b).Some? && Token(b).value != ""
  }

  ghost predicate Keyed(m: map<int, Binding>) { forall id :: id in m ==> m[id].telegramId == id }

  /** No provider identity is bound to two users. */
  ghost predicate OneToOne(m: map<int, Binding>) {
    forall a, b :: a in m && b in m && m[a].subject == m[b].subject ==> a == b
  }

  ghost predicate GoodBindings(cfg: Config, m: map<int, Binding>) {
    Keyed(m) && OneToOne(m) && forall id :: id in m ==> GoodBinding(cfg, m[id])
  }

  /** Every user of `sub` is bound in `m` to the same subject. */
  ghost predicate SubOwner(sub: map<int, Binding>, m: map<int, Binding>) {
    forall id :: id in sub ==> id in m && m[id].subject == sub[id].subject
  }

  lemma SubOwnerOneToOne(sub: map<int, Binding>, m: map<int, Binding>)
    requires SubOwner(sub, m) && OneToOne(m)
    ensures OneToOne(sub)
  {
  }

  lemma NoSharedIdentity(cfg: Config, m: map<int, Binding>)
    requires OneToOne(m) && forall id :: id in m ==> m[id].issuer == cfg.issuer
    ensures !SharesIdentity(m)
  {
    forall a, b | a in m && b in m && a != b ensures SubjectKey(m[a]) != SubjectKey(m[b]) {
      SubjectKeyExact(m[a], m[b]);
    }
  }

  // ---- the main file as memory wrote it ----

  ghost function IdsOf(list: seq<Binding>): set<int> { set b | b in list :: b.telegramId }

  ghost function Find(list: seq<Binding>, id: int): Binding
    requires id in IdsOf(list)
  {
    var b :| b in list && b.telegramId == id; b
  }

  ghost function ByIds(list: seq<Binding>): map<int, Binding> { map id | id in IdsOf(list) :: Find(list, id) }

  /** The memory a main file was written from; empty when there is none. */
  ghost function MainMem(disk: Disk): Mem {
    if disk.main.None? then Mem(map[], map[], map[]) else
      Mem(ByIds(disk.main.value.bindings), disk.main.value.tickets, disk.main.value.transactions)
  }

  lemma ListingMembers(m: map<int, Binding>)
    requires Keyed(m)
    ensures forall b :: b in Listing(m) <==> b.telegramId in m && m[b.telegramId] == b
  {
    var ids := SortedKeys(m.Keys);
    forall b ensures b in Listing(m) <==> b.telegramId in m && m[b.telegramId] == b {
      if b.telegramId in m && m[b.telegramId] == b {
        assert b.telegramId in m.Keys;
        var i :| 0 <= i < |ids| && ids[i] == b.telegramId;
        assert Listing(m)[i] == b;
      }
    }
  }

  lemma ListingByIds(m: map<int, Binding>)
    requires Keyed(m)
    ensures ByIds(Listing(m)) == m
  {
    ListingMembers(m);
    forall id ensures id in IdsOf(Listing(m)) <==> id in m {
      if id in m { assert m[id] in Listing(m); }
    }
  }

  lemma WrittenMain(cfg: Config, disk: Disk, mem: Mem)
    requires Keyed(mem.bindings)
    ensures MainMem(Written(cfg, disk, mem)) == mem
    ensures Written(cfg, disk, mem).main == Some(SnapshotOf(cfg, mem)) && Written(cfg, disk, mem).wal == disk.wal
  {
    ListingByIds(mem.bindings);
  }

  // ---- the invariant ----

  /** At most one outstanding ticket a user; sealed transactions. */
  ghost predicate GoodTickets(mem: Mem) {
    && (forall d :: d in mem.tickets ==> mem.tickets[d].telegramId > 0)
    && (forall d, e :: d in mem.tickets && e in mem.tickets && mem.tickets[d].telegramId == mem.tickets[e].telegramId ==> d == e)
    && (forall d :: d in mem.transactions ==> GoodTransaction(d, mem.transactions[d]))
  }

  ghost predicate GoodTransaction(d: Digest, t: Transaction) {
    && t.telegramId > 0
    && t.nonce.Sealed? && t.nonce.aad == TransactionAAD(d)
    && t.verifier.Sealed? && t.verifier.aad == TransactionAAD(d)
  }

  /** A log entry that `m` agrees with. */
  ghost predicate GoodWal(cfg: Config, wal: Option<Wal>, m: map<int, Binding>) {
    wal.Some? ==>
      && wal.value == WalOf(cfg, wal.value.binding) && GoodBinding(cfg, wal.value.binding)
      && wal.value.binding.telegramId in m && m[wal.value.binding.telegramId].subject == wal.value.binding.subject
  }

  /** A disk all of whose identities occur with the same owner in `m`. */
  ghost predicate DiskWithin(cfg: Config, disk: Disk, m: map<int, Binding>) {
    var main := MainMem(disk);
    && (disk.main.Some? ==> disk.main.value == SnapshotOf(cfg, main))
    && GoodBindings(cfg, main.bindings) && SubOwner(main.bindings, m) && GoodTickets(main)
    && GoodWal(cfg, disk.wal, m)
  }

  /** Memory never holds a ticket or transaction the main file does not. */
  ghost predicate Mirrored(mem: Mem, main: Mem) {
    && (forall d :: d in mem.tickets ==> d in main.tickets && main.tickets[d] == mem.tickets[d])
    && (forall d :: d in mem.transactions ==> d in main.transactions && main.transactions[d] == mem.transactions[d])
  }

  ghost predicate StoreInv(cfg: Config, st: State) {
    && GoodBindings(cfg, st.mem.bindings)
    && DiskWithin(cfg, st.disk, st.mem.bindings)
    && Mirrored(st.mem, MainMem(st.disk))
  }

  /** A disk that start-up will accept. */
  ghost predicate DiskOk(cfg: Config, disk: Disk) {
    exists m :: GoodBindings(cfg, m) && DiskWithin(cfg, disk, m)
  }

  lemma SavedWithin(cfg: Config, disk: Disk, mem: Mem)
    requires GoodBindings(cfg, mem.bindings) && GoodTickets(mem) && GoodWal(cfg, disk.wal, mem.bindings)
    ensures DiskWithin(cfg, Written(cfg, disk, mem), mem.bindings)
    ensures MainMem(Written(cfg, disk, mem)) == mem
  {
    WrittenMain(cfg, disk, mem);
  }

  // ---- loading what was saved ----

  ghost predicate Loadable(cfg: Config, list: seq<Binding>) {
    && (forall i :: 0 <= i < |list| ==> GoodBinding(cfg, list[i]))
    && (forall i, j :: 0 <= i < j < |list| ==> list[i].telegramId != list[j].telegramId && list[i].subject != list[j].subject)
  }

  ghost predicate LoadedAs(list: seq<Binding>, l: LoadedBindings) {
    && (forall id :: id in l.bindings ==> l.bindings[id].telegramId == id && l.bindings[id] in list)
    && (forall i :: 0 <= i < |list| ==> list[i].telegramId in l.bindings && l.bindings[list[i].telegramId] == list[i])
    && (forall k :: k in l.subjects ==> exists i :: 0 <= i < |list| && SubjectKey(list[i]) == k)
  }

  /** On a well-formed record with an identity not yet seen, loading only adds it. */
  lemma NextAccepted(cfg: Config, acc: LoadedBindings, b: Binding)
    requires b.telegramId > 0 && b.issuer == cfg.issuer && b.subject != "" && Token(b).Some?
    requires NormalizeERP(b.permissions, cfg.grammar) == Some(b.permissions)
    requires b.telegramId !in acc.bindings && SubjectKey(b) !in acc.subjects
    ensures LoadBinding(cfg, acc, b) == Ok(LoadedBindings(acc.bindings[b.telegramId := b], acc.subjects + {SubjectKey(b)}))
  {
    assert b.(permissions := b.permissions) == b;
  }

  lemma UnseenIdentity(front: seq<Binding>, acc: LoadedBindings, b: Binding)
    requires LoadedAs(front, acc)
    requires forall i :: 0 <= i < |front| ==>
      front[i].issuer == b.issuer && front[i].telegramId != b.telegramId && front[i].subject != b.subject
    ensures b.telegramId !in acc.bindings && SubjectKey(b) !in acc.subjects
  {
    forall i | 0 <= i < |front| ensures SubjectKey(front[i]) != SubjectKey(b) { SubjectKeyExact(front[i], b); }
  }

  lemma LoadedExtends(front: seq<Binding>, acc: LoadedBindings, b: Binding)
    requires LoadedAs(front, acc) && b.telegramId !in acc.bindings
    ensures LoadedAs(front + [b], LoadedBindings(acc.bindings[b.telegramId := b], acc.subjects + {SubjectKey(b)}))
  {
    var list := front + [b];
    assert list[|front|] == b;
    forall k | k in acc.subjects + {SubjectKey(b)} ensures exists i :: 0 <= i < |list| && SubjectKey(list[i]) == k {
      if k in acc.subjects {
        var i :| 0 <= i < |front| && SubjectKey(front[i]) == k;
        assert SubjectKey(list[i]) == k;
      } else {
        assert SubjectKey(list[|front|]) == k;
      }
    }
  }

  lemma {:induction false} LoadableLoads(cfg: Config, list: seq<Binding>)
    requires ValidGrammar(cfg.grammar) && Loadable(cfg, list)
    ensures LoadBindings(cfg, list).Ok? && LoadedAs(list, LoadBindings(cfg, list).value)
  {
    if list != [] {
      var front, b := list[..|list| - 1], list[|list| - 1];
      assert list == front + [b];
      LoadableLoads(cfg, front);
      var acc := LoadBindings(cfg, front).value;
      forall i | 0 <= i < |front|
        ensures front[i].issuer == b.issuer && front[i].telegramId != b.telegramId && front[i].subject != b.subject
      {
        assert front[i] == list[i] && b == list[|list| - 1];
      }
      UnseenIdentity(front, acc, b);
      StoredListAccepted(b.permissions, cfg.grammar);
      NextAccepted(cfg, acc, b);
      LoadedExtends(front, acc, b);
    }
  }

  lemma ListingLoadable(cfg: Config, m: map<int, Binding>)
    requires GoodBindings(cfg, m)
    ensures Loadable(cfg, Listing(m))
  {
    ListingMembers(m);
    forall i | 0 <= i < |Listing(m)| ensures GoodBinding(cfg, Listing(m)[i]) { assert Listing(m)[i] in Listing(m); }
    var ids := SortedKeys(m.Keys);
    forall i, j | 0 <= i < j < |ids| ensures m[ids[i]].telegramId != m[ids[j]].telegramId && m[ids[i]].subject != m[ids[j]].subject {
      assert IntLess(ids[i], ids[j]);
    }
  }

  lemma LoadedIsMap(list: seq<Binding>, l: LoadedBindings, m: map<int, Binding>)
    requires LoadedAs(list, l) && Keyed(m)
    requires forall b :: b in list <==> b.telegramId in m && m[b.telegramId] == b
    ensures l.bindings == m
  {
    forall id ensures id in l.bindings <==> id in m {
      if id in m {
        assert m[id] in list;
        var i :| 0 <= i < |list| && list[i] == m[id];
      }
    }
    forall id | id in m ensures l.bindings[id] == m[id] { assert l.bindings[id] in list; }
  }

  lemma {:induction false} ListingLoads(cfg: Config, m: map<int, Binding>)
    requires ValidGrammar(cfg.grammar) && GoodBindings(cfg, m)
    ensures LoadBindings(cfg, Listing(m)).Ok? && LoadBindings(cfg, Listing(m)).value.bindings == m
  {
    var list := Listing(m);
    ListingLoadable(cfg, m);
    LoadableLoads(cfg, list);
    ListingMembers(m);
    LoadedIsMap(list, LoadBindings(cfg, list).value, m);
  }

  /** Loading a saved file restores the bindings exactly, and the tickets and transactions still in date. */
  lemma {:induction false} LoadAfterSave(cfg: Config, disk: Disk, m: map<int, Binding>, now: int)
    requires ValidGrammar(cfg.grammar) && DiskWithin(cfg, disk, m)
    ensures var main := MainMem(disk);
      LoadSpec(cfg, disk.main, now) == Ok(Mem(main.bindings, LiveTickets(main.tickets, now), LiveTransactions(main.transactions, now)))
  {
    if disk.main.Some? {
      ListingLoads(cfg, MainMem(disk).bindings);
    } else {
      assert LiveTickets(map[], now) == map[] && LiveTransactions(map[], now) == map[];
    }
  }

  // ---- start-up ----

  /** The bindings a disk recovers to: the main file's, with the logged one laid over them. */
  ghost function Recovered(disk: Disk): map<int, Binding> {
    var main := MainMem(disk).bindings;
    if disk.wal.None? then main else main[disk.wal.value.binding.telegramId := disk.wal.value.binding]
  }

  lemma RecoveredGood(cfg: Config, disk: Disk, m: map<int, Binding>)
    requires GoodBindings(cfg, m) && DiskWithin(cfg, disk, m)
    ensures GoodBindings(cfg, Recovered(disk)) && SubOwner(Recovered(disk), m)
  {
    assert SubOwner(Recovered(disk), m);
    SubOwnerOneToOne(Recovered(disk), m);
  }

  lemma OverlayAccepted(cfg: Config, disk: Disk, m: map<int, Binding>, mem: Mem)
    requires ValidGrammar(cfg.grammar) && GoodBindings(cfg, m) && DiskWithin(cfg, disk, m) && disk.wal.Some?
    requires mem.bindings == MainMem(disk).bindings
    ensures OverlaySpec(cfg, mem, disk.wal.value) == Ok(mem.(bindings := Recovered(disk)))
  {
    RecoveredGood(cfg, disk, m);
    NoSharedIdentity(cfg, Recovered(disk));
    StoredListAccepted(disk.wal.value.binding.permissions, cfg.grammar);
    var b := disk.wal.value.binding;
    assert b.(permissions := b.permissions) == b;
  }

  lemma SeedingAccepted(cfg: Config, mem: Mem, wall: int)
    requires ValidGrammar(cfg.grammar) && GoodBindings(cfg, mem.bindings)
    ensures !AnyRefused(cfg, mem.bindings, wall)
  {
    forall id | id in mem.bindings ensures Replacement(cfg, map[], mem.bindings[id].(telegramId := id), wall).Some? {
      var b := mem.bindings[id];
      StoredListSeeds(cfg.grammar, map[], id, b.accessExpiresAt, b.permissions, wall);
    }
  }

  const ALL_OK := StartIO(true, true, true, true)

  predicate IsIOError(e: StoreError) { e == DiskReadFailed || e == PersistFailed || e == ClearWalFailed }

  lemma LivePartMirrored(main: Mem, now: int)
    requires GoodTickets(main)
    ensures var live := Mem(main.bindings, LiveTickets(main.tickets, now), LiveTransactions(main.transactions, now));
      GoodTickets(live) && Mirrored(live, main)
  {
  }

  ghost function LoadedMem(disk: Disk, now: int): Mem {
    var main := MainMem(disk);
    Mem(main.bindings, LiveTickets(main.tickets, now), LiveTransactions(main.transactions, now))
  }

  /** With nothing to replay, start-up is the load and the seeding. */
  lemma {:induction false} StartWithoutLog(cfg: Config, disk: Disk, m: map<int, Binding>, now: int, wall: int, io: StartIO)
    requires ValidGrammar(cfg.grammar) && GoodBindings(cfg, m) && DiskWithin(cfg, disk, m) && disk.wal.None?
    ensures StartSpec(cfg, disk, now, wall, io) == Started(disk, [],
      if io.readMain && io.readWal then Ok(State(LoadedMem(disk, now), disk, SeedAll(MainMem(disk).bindings, wall))) else Err(DiskReadFailed))
  {
    LoadAfterSave(cfg, disk, m, now);
    SeedingAccepted(cfg, LoadedMem(disk, now), wall);
  }

  /** With a log, start-up lays it over the load, saves, and retires it. */
  lemma {:induction false} StartWithLog(cfg: Config, disk: Disk, m: map<int, Binding>, now: int, wall: int, io: StartIO)
    requires ValidGrammar(cfg.grammar) && GoodBindings(cfg, m) && DiskWithin(cfg, disk, m) && disk.wal.Some?
    ensures var mem := LoadedMem(disk, now).(bindings := Recovered(disk));
      var saved := Written(cfg, disk, mem);
      StartSpec(cfg, disk, now, wall, io) ==
        if !io.readMain || !io.readWal then Started(disk, [], Err(DiskReadFailed))
        else if !io.save then Started(disk, [], Err(PersistFailed))
        else if !io.clear then Started(saved, [saved], Err(ClearWalFailed))
        else Started(saved.(wal := None), [saved, saved.(wal := None)], Ok(State(mem, saved.(wal := None), SeedAll(Recovered(disk), wall))))
  {
    var mem := LoadedMem(disk, now);
    LoadAfterSave(cfg, disk, m, now);
    OverlayAccepted(cfg, disk, m, mem);
    RecoveredGood(cfg, disk, m);
    SeedingAccepted(cfg, mem.(bindings := Recovered(disk)), wall);
  }

  /** What a successful start-up leaves running. */
  ghost predicate StartedFrom(cfg: Config, st: State, disk: Disk, now: int, wall: int) {
    && st.mem.bindings == Recovered(disk)
    && st.mem.tickets == LiveTickets(MainMem(disk).tickets, now)
    && st.mem.transactions == LiveTransactions(MainMem(disk).transactions, now)
    && st.federated == SeedAll(Recovered(disk), wall)
    && StoreInv(cfg, st) && Clean(st)
  }

  /** The disk still recovers to what `disk` did. */
  ghost predicate SameRecovery(cfg: Config, d: Disk, disk: Disk) {
    DiskWithin(cfg, d, Recovered(disk)) && Recovered(d) == Recovered(disk)
  }

  ghost predicate StartSound(cfg: Config, disk: Disk, s: Started, now: int, wall: int, io: StartIO) {
    && (s.result.Err? ==> IsIOError(s.result.error))
    && (io == ALL_OK ==> s.result.Ok?)
    && SameRecovery(cfg, s.disk, disk)
    && (forall d :: d in s.trace ==> SameRecovery(cfg, d, disk))
    && (s.result.Ok? ==> s.result.value.disk == s.disk && StartedFrom(cfg, s.result.value, disk, now, wall))
  }

  lemma {:induction false} StartSoundWithoutLog(cfg: Config, disk: Disk, m: map<int, Binding>, now: int, wall: int, io: StartIO)
    requires ValidGrammar(cfg.grammar) && GoodBindings(cfg, m) && DiskWithin(cfg, disk, m) && disk.wal.None?
    ensures StartSound(cfg, disk, StartSpec(cfg, disk, now, wall, io), now, wall, io)
  {
    StartWithoutLog(cfg, disk, m, now, wall, io);
    LivePartMirrored(MainMem(disk), now);
  }

  /** The disks a replay starts from and passes through recover to the same bindings. */
  lemma {:induction false} ReplayKeepsRecovered(cfg: Config, disk: Disk, m: map<int, Binding>, mem: Mem)
    requires GoodBindings(cfg, m) && DiskWithin(cfg, disk, m) && disk.wal.Some?
    requires mem.bindings == Recovered(disk) && GoodTickets(mem)
    ensures var saved := Written(cfg, disk, mem);
      SameRecovery(cfg, disk, disk) && SameRecovery(cfg, saved, disk) && SameRecovery(cfg, saved.(wal := None), disk)
    ensures MainMem(Written(cfg, disk, mem).(wal := None)) == mem
  {
    RecoveredGood(cfg, disk, m);
    SavedWithin(cfg, disk, mem);
    SavedWithin(cfg, disk.(wal := None), mem);
    var saved := Written(cfg, disk, mem);
    assert Written(cfg, disk.(wal := None), mem) == saved.(wal := None);
    var b := disk.wal.value.binding;
    assert Recovered(disk)[b.telegramId := b] == Recovered(disk);
  }

  lemma {:induction false} ReplayedStore(cfg: Config, disk: Disk, m: map<int, Binding>, now: int, wall: int)
    requires GoodBindings(cfg, m) && DiskWithin(cfg, disk, m) && disk.wal.Some?
    ensures var mem := LoadedMem(disk, now).(bindings := Recovered(disk));
      var saved := Written(cfg, disk, mem);
      && StartedFrom(cfg, State(mem, saved.(wal := None), SeedAll(Recovered(disk), wall)), disk, now, wall)
      && SameRecovery(cfg, disk, disk) && SameRecovery(cfg, saved, disk) && SameRecovery(cfg, saved.(wal := None), disk)
  {
    var mem := LoadedMem(disk, now).(bindings := Recovered(disk));
    LivePartMirrored(MainMem(disk), now);
    RecoveredGood(cfg, disk, m);
    ReplayKeepsRecovered(cfg, disk, m, mem);
    assert Mirrored(mem, mem);
  }

  lemma {:induction false} StartSoundWithLog(cfg: Config, disk: Disk, m: map<int, Binding>, now: int, wall: int, io: StartIO)
    requires ValidGrammar(cfg.grammar) && GoodBindings(cfg, m) && DiskWithin(cfg, disk, m) && disk.wal.Some?
    ensures StartSound(cfg, disk, StartSpec(cfg, disk, now, wall, io), now, wall, io)
  {
    StartWithLog(cfg, disk, m, now, wall, io);
    ReplayedStore(cfg, disk, m, now, wall);
    var mem := LoadedMem(disk, now).(bindings := Recovered(disk));
    var saved := Written(cfg, disk, mem);
    ComposeReplay(cfg, disk, saved, mem, StartSpec(cfg, disk, now, wall, io), now, wall, io);
  }

  lemma {:induction false} ComposeReplay(cfg: Config, disk: Disk, saved: Disk, mem: Mem, s: Started, now: int, wall: int, io: StartIO)
    requires SameRecovery(cfg, disk, disk) && SameRecovery(cfg, saved, disk) && SameRecovery(cfg, saved.(wal := None), disk)
    requires StartedFrom(cfg, State(mem, saved.(wal := None), SeedAll(Recovered(disk), wall)), disk, now, wall)
    requires s ==
      if !io.readMain || !io.readWal then Started(disk, [], Err(DiskReadFailed))
      else if !io.save then Started(disk, [], Err(PersistFailed))
      else if !io.clear then Started(saved, [saved], Err(ClearWalFailed))
      else Started(saved.(wal := None), [saved, saved.(wal := None)], Ok(State(mem, saved.(wal := None), SeedAll(Recovered(disk), wall))))
    ensures StartSound(cfg, disk, s, now, wall, io)
  {
  }

  /**
    Start-up never rejects a file the store wrote. It can fail only on an input or
    output error; where it stops half-way the disk still recovers to the same
    bindings; and when it succeeds the running store holds exactly those, its log is
    gone and its main file agrees with memory.
   */
  lemma {:induction false} StartAccepts(cfg: Config, disk: Disk, now: int, wall: int, io: StartIO)
    requires ValidGrammar(cfg.grammar) && DiskOk(cfg, disk)
    ensures StartSound(cfg, disk, StartSpec(cfg, disk, now, wall, io), now, wall, io)
  {
    var m :| GoodBindings(cfg, m) && DiskWithin(cfg, disk, m);
    if disk.wal.None? {
      StartSoundWithoutLog(cfg, disk, m, now, wall, io);
    } else {
      StartSoundWithLog(cfg, disk, m, now, wall, io);
    }
  }

  /** The log is absent and the main file's bindings are memory's. */
  ghost predicate Clean(st: State) { st.disk.wal.None? && MainMem(st.disk).bindings == st.mem.bindings }
}
