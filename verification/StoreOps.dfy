/**
  What each store operation keeps and what it changes: the invariant, the state
  the disk recovers to after a crash at any point, cleanliness, and the agreement
  of the federated permissions with the bindings.
 */
module StoreOps {
  import opened Wrappers
  import opened Canonical
  import opened AuthSpec
  import opened Records
  import opened StoreSpec
  import opened StoreFacts

  /** The disk after the first `k` effects of an operation. */
  ghost function AtCrash<T>(st: State, o: Outcome<T>, k: nat): Disk
    requires k <= |o.trace|
  {
    if k == 0 then st.disk else o.trace[k - 1]
  }

  /** The invariant holds afterwards, and start-up accepts the disk wherever the operation is cut short. */
  ghost predicate Sound<T>(cfg: Config, st: State, o: Outcome<T>) {
    && StoreInv(cfg, o.st)
    && (forall d :: d in o.trace ==> DiskOk(cfg, d))
    && (if o.trace == [] then o.st.disk == st.disk else o.st.disk == o.trace[|o.trace| - 1])
  }

  // ---- tickets and transactions ----

  /** Bindings and permissions untouched; either nothing is written, or memory is, once. */
  ghost predicate TicketStep<T>(cfg: Config, st: State, o: Outcome<T>) {
    && o.st.mem.bindings == st.mem.bindings && o.st.federated == st.federated
    && ((o.trace == [] && o.st.disk == st.disk && Mirrored(o.st.mem, MainMem(st.disk)))
        || (o.trace == [o.st.disk] && o.st.disk == Written(cfg, st.disk, o.st.mem) && GoodTickets(o.st.mem)))
  }

  /** The two shapes of such a step: memory changed, and either left unwritten or written. */
  lemma {:induction false} TicketShapes<T>(cfg: Config, st: State, mem: Mem, r: Result<T, StoreError>)
    requires mem.bindings == st.mem.bindings
    ensures Mirrored(mem, MainMem(st.disk)) ==> TicketStep(cfg, st, Outcome(st.(mem := mem), [], r))
    ensures GoodTickets(mem) ==>
      TicketStep(cfg, st, Outcome(st.(mem := mem, disk := Written(cfg, st.disk, mem)), [Written(cfg, st.disk, mem)], r))
  {
  }

  lemma MirroredGood(mem: Mem, main: Mem)
    requires GoodTickets(main) && Mirrored(mem, main)
    ensures GoodTickets(mem)
  {
  }

  lemma CleanupKeeps(mem: Mem, main: Mem, now: int)
    requires GoodTickets(main) && Mirrored(mem, main)
    ensures Mirrored(Cleanup(mem, now), main) && GoodTickets(Cleanup(mem, now))
  {
  }

  lemma {:induction false} IssueStep(cfg: Config, st: State, a: Account, raw: string, now: int, save: bool)
    requires StoreInv(cfg, st) && a.id > 0
    ensures TicketStep(cfg, st, IssueTo(cfg, st, a, raw, now, save))
  {
    var main := MainMem(st.disk);
    CleanupKeeps(st.mem, main, now);
    TicketAdded(Cleanup(st.mem, now), main, Digest(raw), Ticket(a.id, a.name, a.username, now + BIND_TICKET_TTL));
  }

  /** A refused account changes nothing. */
  lemma {:induction false} NoTicketStep(cfg: Config, st: State)
    requires StoreInv(cfg, st)
    ensures TicketStep<string>(cfg, st, Outcome(st, [], Err(BadAccount)))
  {
  }

  lemma TicketAdded(mem: Mem, main: Mem, d: Digest, t: Ticket)
    requires GoodTickets(mem) && Mirrored(mem, main) && t.telegramId > 0
    ensures GoodTickets(mem.(tickets := WithoutUser(mem.tickets, t.telegramId)[d := t]))
    ensures Mirrored(mem.(tickets := WithoutUser(mem.tickets, t.telegramId)[d := t] - {d}), main)
  {
  }

  lemma {:induction false} LookupStep(cfg: Config, st: State, raw: string, now: int)
    requires StoreInv(cfg, st)
    ensures TicketStep(cfg, st, LookupSpec(st, raw, now))
  {
    CleanupKeeps(st.mem, MainMem(st.disk), now);
  }

  lemma {:induction false} ConsumeTicketStep(cfg: Config, st: State, raw: string, now: int, save: bool)
    requires StoreInv(cfg, st)
    ensures TicketStep(cfg, st, ConsumeTicketSpec(cfg, st, raw, now, save))
  {
    var mem, d, o := Cleanup(st.mem, now), Digest(raw), ConsumeTicketSpec(cfg, st, raw, now, save);
    CleanupKeeps(st.mem, MainMem(st.disk), now);
    TicketTaken(mem, MainMem(st.disk), d);
    TicketShapes(cfg, st, mem, o.result);
    TicketShapes(cfg, st, mem.(tickets := mem.tickets - {d}), o.result);
  }

  lemma TicketTaken(mem: Mem, main: Mem, d: Digest)
    requires GoodTickets(mem) && Mirrored(mem, main)
    ensures GoodTickets(mem.(tickets := mem.tickets - {d})) && Mirrored(mem.(tickets := mem.tickets - {d}), main)
    ensures d in mem.tickets ==> mem.(tickets := mem.tickets - {d}).(tickets := (mem.tickets - {d})[d := mem.tickets[d]]) == mem
  {
    TakenAndPutBack(mem.tickets, d);
  }

  lemma TakenAndPutBack<T>(m: map<Digest, T>, d: Digest)
    ensures d in m ==> (m - {d})[d := m[d]] == m
  {
  }

  lemma AddedAndWithdrawn<T>(m: map<Digest, T>, d: Digest, t: T)
    ensures d !in m ==> m[d := t] - {d} == m
  {
  }

  lemma {:induction false} BeginStep(cfg: Config, st: State, telegramId: int, nonce: string, verifier: string, state: string, now: int, save: bool)
    requires StoreInv(cfg, st) && telegramId > 0
    requires Digest(state) !in st.mem.transactions
    ensures TicketStep(cfg, st, BeginSpec(cfg, st, telegramId, nonce, verifier, state, now, save))
  {
    var mem, d, o := Cleanup(st.mem, now), Digest(state), BeginSpec(cfg, st, telegramId, nonce, verifier, state, now, save);
    var txn := SealTransaction(d, telegramId, nonce, verifier, now);
    CleanupKeeps(st.mem, MainMem(st.disk), now);
    AddedAndWithdrawn(mem.transactions, d, txn);
    TransactionAdded(mem, d, txn);
    TicketShapes(cfg, st, mem, o.result);
    TicketShapes(cfg, st, mem.(transactions := mem.transactions[d := txn]), o.result);
  }

  lemma {:induction false} BeginFromTicketStep(cfg: Config, st: State, raw: string, nonce: string, verifier: string, state: string, now: int, save: bool)
    requires StoreInv(cfg, st)
    requires Digest(state) !in st.mem.transactions
    ensures TicketStep(cfg, st, BeginFromTicketSpec(cfg, st, raw, nonce, verifier, state, now, save))
  {
    var mem := Cleanup(st.mem, now);
    var t, d := Digest(raw), Digest(state);
    CleanupKeeps(st.mem, MainMem(st.disk), now);
    if t in mem.tickets && mem.tickets[t].expiresAt > now {
      var txn := SealTransaction(d, mem.tickets[t].telegramId, nonce, verifier, now);
      TakenAndPutBack(mem.tickets, t);
      AddedAndWithdrawn(mem.transactions, d, txn);
      TransactionAdded(mem.(tickets := mem.tickets - {t}), d, txn);
    }
  }

  lemma TransactionAdded(mem: Mem, d: Digest, txn: Transaction)
    requires GoodTickets(mem) && GoodTransaction(d, txn)
    ensures GoodTickets(mem.(transactions := mem.transactions[d := txn]))
  {
  }

  lemma TransactionTaken(mem: Mem, main: Mem, d: Digest)
    requires GoodTickets(mem) && Mirrored(mem, main)
    ensures GoodTickets(mem.(transactions := mem.transactions - {d})) && Mirrored(mem.(transactions := mem.transactions - {d}), main)
    ensures d in mem.transactions ==>
      mem.(transactions := mem.transactions - {d}).(transactions := (mem.transactions - {d})[d := mem.transactions[d]]) == mem
  {
    TakenAndPutBack(mem.transactions, d);
  }

  lemma {:induction false} ConsumeTransactionStep(cfg: Config, st: State, state: string, now: int, save: bool)
    requires StoreInv(cfg, st)
    ensures TicketStep(cfg, st, ConsumeTransactionSpec(cfg, st, state, now, save))
  {
    var mem, d, o := Cleanup(st.mem, now), Digest(state), ConsumeTransactionSpec(cfg, st, state, now, save);
    CleanupKeeps(st.mem, MainMem(st.disk), now);
    TransactionTaken(mem, MainMem(st.disk), d);
    TicketShapes(cfg, st, mem, o.result);
    TicketShapes(cfg, st, mem.(transactions := mem.transactions - {d}), o.result);
  }

  /** Such a step is sound, keeps a clean store clean, and recovers to the same bindings wherever it is cut short. */
  lemma {:induction false} TicketStepSound<T>(cfg: Config, st: State, o: Outcome<T>)
    requires StoreInv(cfg, st) && TicketStep(cfg, st, o)
    ensures Sound(cfg, st, o)
    ensures Clean(st) ==> Clean(o.st)
    ensures Clean(st) ==> forall k :: 0 <= k <= |o.trace| ==> Recovered(AtCrash(st, o, k)) == st.mem.bindings
  {
    if o.trace != [] {
      SavedWithin(cfg, st.disk, o.st.mem);
      assert Mirrored(o.st.mem, o.st.mem);
      assert DiskWithin(cfg, o.st.disk, o.st.mem.bindings);
    }
  }

  // ---- storing a binding ----

  lemma NormalizedGood(cfg: Config, item: Binding)
    requires ValidGrammar(cfg.grammar) && Normalized(cfg, item).Some?
    ensures var n := Normalized(cfg, item).value;
      && IsStoredList(n.permissions, cfg.grammar)
      && n.telegramId == item.telegramId && n.issuer == item.issuer && n.subject == item.subject
      && n.accessExpiresAt == item.accessExpiresAt
  {
    NormalizeERPStored(item.permissions, cfg.grammar);
  }

  lemma StampedStorable(cfg: Config, bindings: map<int, Binding>, n: Binding, token: string, now: int)
    requires GoodBindings(cfg, bindings)
    requires n.telegramId > 0 && n.issuer == cfg.issuer && n.subject != "" && token != "" && IsStoredList(n.permissions, cfg.grammar)
    requires !IdentityTaken(bindings, n) && !OtherIdentity(bindings, n)
    ensures Storable(cfg, bindings, Stamped(bindings, n, token, now))
    ensures Token(Stamped(bindings, n, token, now)) == Some(token)
  {
    forall id | id in bindings && id != n.telegramId ensures bindings[id].subject != n.subject {
      assert GoodBinding(cfg, bindings[id]);
    }
  }

  /** A record that passed the checks is well formed, and putting it in keeps the bindings one-to-one. */
  lemma {:induction false} PreparedGood(cfg: Config, bindings: map<int, Binding>, item: Binding, token: string, now: int)
    requires ValidGrammar(cfg.grammar) && GoodBindings(cfg, bindings)
    requires Prepared(cfg, bindings, item, token, now).Ok?
    ensures var b := Prepared(cfg, bindings, item, token, now).value;
      && Storable(cfg, bindings, b) && Token(b) == Some(token)
      && b.telegramId == item.telegramId && b.subject == item.subject && b.accessExpiresAt == item.accessExpiresAt
  {
    NormalizedGood(cfg, item);
    StampedStorable(cfg, bindings, Normalized(cfg, item).value, token, now);
  }

  /** A well-formed record whose identity belongs to no other user, and whose user has no other identity. */
  ghost predicate Storable(cfg: Config, bindings: map<int, Binding>, b: Binding) {
    && GoodBinding(cfg, b)
    && (b.telegramId in bindings ==> bindings[b.telegramId].subject == b.subject)
    && (forall id :: id in bindings && id != b.telegramId ==> bindings[id].subject != b.subject)
  }

  function WithBinding(mem: Mem, b: Binding): Mem { mem.(bindings := mem.bindings[b.telegramId := b]) }

  function GrantedFed(st: State, b: Binding, wall: int): Federated {
    Seeded(st.federated, b.telegramId, b.accessExpiresAt, b.permissions, wall)
  }

  /** The five ways storing a binding can go; the permissions of a stored record are never refused. */
  ghost function PutCases(cfg: Config, st: State, b: Binding, wall: int, io: PutIO): Outcome<()> {
    var mem := WithBinding(st.mem, b);
    var logged := st.disk.(wal := Some(WalOf(cfg, b)));
    var fed := GrantedFed(st, b, wall);
    if !io.wal && !io.save then Outcome(State(mem, st.disk, fed), [], Err(NothingSaved))
    else if !io.wal then
      var saved := Written(cfg, st.disk, mem);
      Outcome(State(mem, saved, fed), [saved], Ok(()))
    else if !io.save then Outcome(State(mem, logged, st.federated), [logged], Err(WalSavedStoreFailed))
    else
      var saved := Written(cfg, logged, mem);
      if !io.clear then Outcome(State(mem, saved, st.federated), [logged, saved], Err(ClearWalFailed))
      else Outcome(State(mem, saved.(wal := None), fed), [logged, saved, saved.(wal := None)], Ok(()))
  }

  lemma {:induction false} StoreStepsCases(cfg: Config, st: State, b: Binding, wall: int, io: PutIO)
    requires ValidGrammar(cfg.grammar) && GoodBinding(cfg, b)
    ensures StoreSteps(cfg, st, b, wall, io) == PutCases(cfg, st, b, wall, io)
  {
    StoredListSeeds(cfg.grammar, st.federated, b.telegramId, b.accessExpiresAt, b.permissions, wall);
  }

  lemma {:induction false} StorableGood(cfg: Config, bindings: map<int, Binding>, b: Binding)
    requires GoodBindings(cfg, bindings) && Storable(cfg, bindings, b)
    ensures GoodBindings(cfg, bindings[b.telegramId := b])
    ensures SubOwner(bindings, bindings[b.telegramId := b])
  {
  }

  lemma {:induction false} StorableKeeps(cfg: Config, st: State, b: Binding)
    requires StoreInv(cfg, st) && Storable(cfg, st.mem.bindings, b)
    ensures GoodBindings(cfg, WithBinding(st.mem, b).bindings)
    ensures DiskWithin(cfg, st.disk, WithBinding(st.mem, b).bindings)
    ensures DiskWithin(cfg, st.disk.(wal := Some(WalOf(cfg, b))), WithBinding(st.mem, b).bindings)
    ensures GoodTickets(WithBinding(st.mem, b))
  {
    StorableGood(cfg, st.mem.bindings, b);
    MirroredGood(st.mem, MainMem(st.disk));
    WiderOwner(cfg, st.disk, st.mem.bindings, WithBinding(st.mem, b).bindings);
    assert MainMem(st.disk.(wal := Some(WalOf(cfg, b)))) == MainMem(st.disk);
  }

  lemma {:induction false} WiderOwner(cfg: Config, disk: Disk, m: map<int, Binding>, wider: map<int, Binding>)
    requires DiskWithin(cfg, disk, m) && SubOwner(m, wider)
    ensures DiskWithin(cfg, disk, wider)
  {
  }

  lemma {:induction false} SavedBinding(cfg: Config, disk: Disk, mem: Mem)
    requires GoodBindings(cfg, mem.bindings) && GoodTickets(mem) && GoodWal(cfg, disk.wal, mem.bindings)
    ensures var saved := Written(cfg, disk, mem);
      && DiskWithin(cfg, saved, mem.bindings) && MainMem(saved) == mem
      && DiskWithin(cfg, saved.(wal := None), mem.bindings) && MainMem(saved.(wal := None)) == mem
  {
    SavedWithin(cfg, disk, mem);
    assert MainMem(Written(cfg, disk, mem).(wal := None)) == mem;
  }

  lemma {:induction false} PutDisksOk(cfg: Config, st: State, b: Binding)
    requires StoreInv(cfg, st) && Storable(cfg, st.mem.bindings, b)
    ensures var mem := WithBinding(st.mem, b);
      var logged := st.disk.(wal := Some(WalOf(cfg, b)));
      var both, direct := Written(cfg, logged, mem), Written(cfg, st.disk, mem);
      && DiskOk(cfg, logged) && DiskOk(cfg, both) && DiskOk(cfg, both.(wal := None)) && DiskOk(cfg, direct)
      && (forall disk :: disk == st.disk || disk == logged || disk == both || disk == both.(wal := None) || disk == direct ==>
            DiskWithin(cfg, disk, mem.bindings) && Mirrored(mem, MainMem(disk)))
      && GoodBindings(cfg, mem.bindings)
  {
    var mem := WithBinding(st.mem, b);
    var logged := st.disk.(wal := Some(WalOf(cfg, b)));
    StorableKeeps(cfg, st, b);
    SavedBinding(cfg, logged, mem);
    SavedBinding(cfg, st.disk, mem);
    assert MainMem(logged) == MainMem(st.disk);
    assert Mirrored(mem, mem) && Mirrored(mem, MainMem(st.disk));
  }

  lemma {:induction false} CasesDisks(cfg: Config, st: State, b: Binding, wall: int, io: PutIO)
    ensures var o, mem := PutCases(cfg, st, b, wall, io), WithBinding(st.mem, b);
      var logged := st.disk.(wal := Some(WalOf(cfg, b)));
      var both, direct := Written(cfg, logged, mem), Written(cfg, st.disk, mem);
      && o.st.mem == mem
      && (forall d :: d in o.trace ==> d == logged || d == both || d == both.(wal := None) || d == direct)
      && (o.st.disk == st.disk || o.st.disk == logged || o.st.disk == both || o.st.disk == both.(wal := None) || o.st.disk == direct)
  {
  }

  lemma {:induction false} PutSound(cfg: Config, st: State, b: Binding, wall: int, io: PutIO)
    requires StoreInv(cfg, st) && Storable(cfg, st.mem.bindings, b)
    ensures Sound(cfg, st, PutCases(cfg, st, b, wall, io))
  {
    PutDisksOk(cfg, st, b);
    CasesDisks(cfg, st, b, wall, io);
  }

  lemma {:induction false} LoggedRecovers(cfg: Config, st: State, b: Binding)
    requires Clean(st)
    ensures Recovered(st.disk) == st.mem.bindings
    ensures Recovered(st.disk.(wal := Some(WalOf(cfg, b)))) == WithBinding(st.mem, b).bindings
  {
    assert MainMem(st.disk.(wal := Some(WalOf(cfg, b)))) == MainMem(st.disk);
  }

  lemma {:induction false} SavedRecovers(cfg: Config, disk: Disk, mem: Mem, b: Binding)
    requires Keyed(mem.bindings) && b.telegramId in mem.bindings && mem.bindings[b.telegramId] == b
    requires disk.wal.None? || disk.wal == Some(WalOf(cfg, b))
    ensures Recovered(Written(cfg, disk, mem)) == mem.bindings
    ensures Recovered(Written(cfg, disk, mem).(wal := None)) == mem.bindings
  {
    WrittenMain(cfg, disk, mem);
    assert MainMem(Written(cfg, disk, mem).(wal := None)) == MainMem(Written(cfg, disk, mem));
    assert mem.bindings[b.telegramId := b] == mem.bindings;
  }

  /** From a clean store every disk along the way recovers to the new bindings; before the first write, to the old ones. */
  lemma {:induction false} PutRecovers(cfg: Config, st: State, b: Binding, wall: int, io: PutIO)
    requires Keyed(st.mem.bindings) && Clean(st)
    ensures Recovered(st.disk) == st.mem.bindings
    ensures forall d :: d in PutCases(cfg, st, b, wall, io).trace ==> Recovered(d) == WithBinding(st.mem, b).bindings
  {
    var mem := WithBinding(st.mem, b);
    LoggedRecovers(cfg, st, b);
    SavedRecovers(cfg, st.disk.(wal := Some(WalOf(cfg, b))), mem, b);
    SavedRecovers(cfg, st.disk, mem, b);
  }

  /** Which runs of the three steps end clean, from any reachable store, when the credential is new to the disk. */
  lemma {:induction false} PutCleanExactly(cfg: Config, st: State, b: Binding, wall: int, io: PutIO)
    requires StoreInv(cfg, st) && Storable(cfg, st.mem.bindings, b)
    requires b.telegramId in MainMem(st.disk).bindings ==> MainMem(st.disk).bindings[b.telegramId] != b
    ensures Clean(PutCases(cfg, st, b, wall, io).st)
       <==> io.save && (if io.wal then io.clear else st.disk.wal.None?)
  {
    var mem := WithBinding(st.mem, b);
    StorableKeeps(cfg, st, b);
    if io.save {
      SavedBinding(cfg, st.disk.(wal := Some(WalOf(cfg, b))), mem);
      SavedBinding(cfg, st.disk, mem);
    }
    assert mem.bindings[b.telegramId] == b;
  }

  // ---- unbinding and failed refreshes ----

  lemma {:induction false} LogClearedSound(cfg: Config, st: State, id: int)
    requires StoreInv(cfg, st)
    ensures var cleared := st.disk.(wal := None);
      StoreInv(cfg, st.(disk := cleared)) && MainMem(cleared) == MainMem(st.disk)
  {
    assert MainMem(st.disk.(wal := None)) == MainMem(st.disk);
  }

  lemma {:induction false} SavedSound(cfg: Config, disk: Disk, mem: Mem, fed: Federated)
    requires GoodBindings(cfg, mem.bindings) && GoodTickets(mem) && GoodWal(cfg, disk.wal, mem.bindings)
    ensures StoreInv(cfg, State(mem, Written(cfg, disk, mem), fed))
    ensures MainMem(Written(cfg, disk, mem)) == mem
    ensures DiskOk(cfg, Written(cfg, disk, mem))
  {
    SavedWithin(cfg, disk, mem);
    assert Mirrored(mem, mem);
  }

  lemma {:induction false} InvDiskOk(cfg: Config, st: State)
    requires StoreInv(cfg, st)
    ensures DiskOk(cfg, st.disk)
  {
  }

  lemma {:induction false} RemoveSound(cfg: Config, st: State, id: int, io: RemoveIO)
    requires StoreInv(cfg, st)
    ensures Sound(cfg, st, RemoveSpec(cfg, st, id, io))
  {
    var cleared := if WalMatches(st.disk, id) then st.disk.(wal := None) else st.disk;
    var mem := st.mem.(bindings := st.mem.bindings - {id});
    LogClearedSound(cfg, st, id);
    InvDiskOk(cfg, st.(disk := cleared));
    RemovedGood(cfg, st, id);
    SavedSound(cfg, cleared, mem, st.federated - {id});
  }

  lemma {:induction false} RemoveClean(cfg: Config, st: State, id: int, io: RemoveIO)
    requires StoreInv(cfg, st)
    ensures Clean(st) ==> Clean(RemoveSpec(cfg, st, id, io).st)
  {
    var mem := st.mem.(bindings := st.mem.bindings - {id});
    assert Keyed(mem.bindings);
    WrittenMain(cfg, st.disk, mem);
  }

  lemma {:induction false} RemovedGood(cfg: Config, st: State, id: int)
    requires StoreInv(cfg, st)
    ensures var mem := st.mem.(bindings := st.mem.bindings - {id});
      && GoodBindings(cfg, mem.bindings) && GoodTickets(mem)
      && (!WalMatches(st.disk, id) ==> GoodWal(cfg, st.disk.wal, mem.bindings))
  {
    MirroredGood(st.mem, MainMem(st.disk));
  }

  lemma {:induction false} RecordFailureSound(cfg: Config, st: State, id: int, clear: bool, now: int, save: bool)
    requires StoreInv(cfg, st)
    ensures Sound(cfg, st, RecordFailureSpec(cfg, st, id, clear, now, save))
    ensures Clean(st) ==> Clean(RecordFailureSpec(cfg, st, id, clear, now, save).st)
  {
    if id in st.mem.bindings && save {
      var b := AfterFailure(st.mem.bindings[id], clear, now);
      FailureStorable(cfg, st.mem.bindings, id, clear, now);
      StorableKeeps(cfg, st, b);
      SavedSound(cfg, st.disk, WithBinding(st.mem, b), if clear then st.federated - {id} else st.federated);
    }
  }

  /** A failed refresh leaves identity and credential alone. */
  lemma FailureStorable(cfg: Config, bindings: map<int, Binding>, id: int, clear: bool, now: int)
    requires GoodBindings(cfg, bindings) && id in bindings
    ensures var b := AfterFailure(bindings[id], clear, now);
      Storable(cfg, bindings, b) && b.telegramId == id && Token(b) == Token(bindings[id])
  {
    assert bindings[id].telegramId == id;
  }
}
