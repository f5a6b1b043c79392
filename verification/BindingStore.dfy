/**
  The binding store as it runs: three maps updated in place, a main file, and a
  one-slot write-ahead log. Every method is proved against its function in
  `StoreSpec`: the new state, the result, and each state the disk passes through.
 */
module BindingStore {
  import opened Wrappers
  import opened Text
  import opened Sorting
  import opened Canonical
  import opened AuthSpec
  import opened Records
  import opened StoreSpec
  import opened StoreFacts
  import opened StoreAnswers
  import Auth = AuthStore

  /** The two files. Writing either one is atomic; `passed` is every state the disk went through. */
  class Files {
    var main: Option<Snapshot>
    var wal: Option<Wal>
    ghost var passed: seq<Disk>

    constructor (main: Option<Snapshot>, wal: Option<Wal>)
      ensures Now() == Disk(main, wal) && passed == []
    {
      this.main, this.wal, passed := main, wal, [];
    }

    ghost function Now(): Disk
      reads this
    {
      Disk(main, wal)
    }

    method WriteMain(s: Snapshot, ok: bool)
      modifies this
      ensures Now() == if ok then old(Now()).(main := Some(s)) else old(Now())
      ensures passed == if ok then old(passed) + [Now()] else old(passed)
    {
      if ok {
        main := Some(s);
        passed := passed + [Now()];
      }
    }

    method WriteWal(w: Wal, ok: bool)
      modifies this
      ensures Now() == if ok then old(Now()).(wal := Some(w)) else old(Now())
      ensures passed == if ok then old(passed) + [Now()] else old(passed)
    {
      if ok {
        wal := Some(w);
        passed := passed + [Now()];
      }
    }

    method RemoveWal(ok: bool)
      modifies this
      ensures Now() == if ok then old(Now()).(wal := None) else old(Now())
      ensures passed == if ok then old(passed) + [Now()] else old(passed)
    {
      if ok {
        wal := None;
        passed := passed + [Now()];
      }
    }
  }

  // ---- listing records by id ----

  predicate ById(a: Binding, b: Binding) { a.telegramId < b.telegramId }

  /** `items` holds each record of `m` once. */
  ghost predicate Lists(items: seq<Binding>, m: map<int, Binding>) {
    NoDuplicates(items) && forall b :: b in items <==> b.telegramId in m && m[b.telegramId] == b
  }

  lemma {:induction false} SortedIsListing(items: seq<Binding>, r: seq<Binding>, m: map<int, Binding>)
    requires Keyed(m) && Lists(items, m) && Sorted(ById, r) && multiset(r) == multiset(items)
    ensures r == Listing(m)
  {
    MultisetMembers(r, items);
    NoDuplicatesMultiplicity(items);
    NoDuplicatesMultiplicity(r);
    var ids := seq(|r|, i requires 0 <= i < |r| => r[i].telegramId);
    forall i, j | 0 <= i < j < |ids| ensures IntLess(ids[i], ids[j]) {
      assert r[i] in items && r[j] in items && r[i] != r[j] && !ById(r[j], r[i]);
    }
    forall id ensures id in ids <==> id in m.Keys {
      if id in ids {
        var i :| 0 <= i < |ids| && ids[i] == id;
        assert r[i] in items;
      }
      if id in m.Keys {
        assert m[id] in items && m[id] in r;
        var i :| 0 <= i < |r| && r[i] == m[id];
        assert ids[i] == id;
      }
    }
    IntLessTotal();
    AscendingUnique(ids, SortedKeys(m.Keys), IntLess);
    forall i | 0 <= i < |r| ensures r[i] == m[ids[i]] { assert r[i] in items; }
  }

  /** The records of the users in `keys`, in map order. */
  method Gather(m: map<int, Binding>, keys: set<int>) returns (items: seq<Binding>)
    requires Keyed(m) && keys <= m.Keys
    ensures Lists(items, map id | id in keys :: m[id])
  {
    var ids := Collect(keys);
    items := [];
    for i := 0 to |ids|
      invariant |items| == i && forall k :: 0 <= k < i ==> ids[k] in m && items[k] == m[ids[k]]
    {
      assert ids[i] in Elements(ids);
      items := items + [m[ids[i]]];
    }
    GatheredLists(m, ids, items);
    assert (map id | id in Elements(ids) :: m[id]) == map id | id in keys :: m[id];
  }

  lemma {:induction false} GatheredLists(m: map<int, Binding>, ids: seq<int>, items: seq<Binding>)
    requires Keyed(m) && Elements(ids) <= m.Keys && NoDuplicates(ids) && |items| == |ids|
    requires forall k :: 0 <= k < |ids| ==> ids[k] in m && items[k] == m[ids[k]]
    ensures Lists(items, map id | id in Elements(ids) :: m[id])
  {
    forall i, j | 0 <= i < j < |items| ensures items[i] != items[j] { assert items[i].telegramId == ids[i] != ids[j] == items[j].telegramId; }
    forall b: Binding | b.telegramId in Elements(ids) && m[b.telegramId] == b ensures b in items {
      var k :| 0 <= k < |ids| && ids[k] == b.telegramId;
      assert items[k] == b;
    }
    forall b | b in items ensures b.telegramId in Elements(ids) && m[b.telegramId] == b {
      var k :| 0 <= k < |items| && items[k] == b;
      assert ids[k] in Elements(ids) && m[ids[k]].telegramId == ids[k];
    }
  }

  method SortById(items: seq<Binding>, ghost m: map<int, Binding>) returns (r: seq<Binding>)
    requires Keyed(m) && Lists(items, m)
    ensures r == Listing(m)
  {
    r := SortSlice(items, ById);
    SortedIsListing(items, r, m);
  }

  /** Trim, drop empty values and repeats, sort. */
  method NormalizedStrings(values: seq<string>) returns (r: seq<string>)
    ensures r == Listed(values, TrimNonEmpty)
  {
    var seen: set<string> := {};
    var result: seq<string> := [];
    for i := 0 to |values|
      invariant NoDuplicates(result) && seen == Elements(result) == Names(values[..i], TrimNonEmpty)
    {
      assert values[..i + 1] == values[..i] + [values[i]];
      NamesExtend(values[..i], values[i], TrimNonEmpty);
      var v := TrimSpace(values[i]);
      if v != "" && v !in seen {
        AppendFresh(result, v);
        seen := seen + {v};
        result := result + [v];
      }
    }
    assert values[..|values|] == values;
    StrLessTotal();
    r := SortSet(result, StrLess);
  }

  // ---- start-up, step by step ----

  lemma {:induction false} RefusalStays(cfg: Config, items: seq<Binding>, i: nat)
    requires i <= |items| && LoadBindings(cfg, items[..i]).Err?
    ensures LoadBindings(cfg, items) == LoadBindings(cfg, items[..i])
  {
    if i == |items| {
      assert items[..i] == items;
    } else {
      assert items[..|items| - 1][..i] == items[..i];
      RefusalStays(cfg, items[..|items| - 1], i);
    }
  }

  /** Memory and disk after the log is replayed. */
  ghost function Replayed(cfg: Config, mem: Mem, disk: Disk, io: StartIO): Result<(Mem, Disk), StoreError> {
    if !io.readWal then Err(DiskReadFailed)
    else if disk.wal.None? then Ok((mem, disk))
    else
      match OverlaySpec(cfg, mem, disk.wal.value)
      case Err(e) => Err(e)
      case Ok(overlaid) =>
        if !io.save then Err(PersistFailed)
        else if !io.clear then Err(ClearWalFailed)
        else Ok((overlaid, Written(cfg, disk, overlaid).(wal := None)))
  }

  ghost function ReplayTrace(cfg: Config, mem: Mem, disk: Disk, io: StartIO): seq<Disk> {
    if !io.readWal || disk.wal.None? || OverlaySpec(cfg, mem, disk.wal.value).Err? || !io.save then []
    else
      var saved := Written(cfg, disk, OverlaySpec(cfg, mem, disk.wal.value).value);
      if io.clear then [saved, saved.(wal := None)] else [saved]
  }

  /** The part of the seeded table for the users already done. */
  function SeededPart(m: map<int, Binding>, wall: int, done: set<int>): Federated {
    map id | id in done && id in SeedAll(m, wall) :: SeedAll(m, wall)[id]
  }

  lemma {:induction false} SeedNext(m: map<int, Binding>, wall: int, done: set<int>, id: int)
    requires id in m && id !in done
    ensures Seeded(SeededPart(m, wall, done), id, m[id].accessExpiresAt, m[id].permissions, wall) == SeededPart(m, wall, done + {id})
  {
  }

  /** Only the user id can make a stored binding's permissions be refused. */
  lemma {:induction false} SeedRefusal(cfg: Config, fed: Federated, b: Binding, id: int, wall: int)
    requires ValidGrammar(cfg.grammar) && IsStoredList(b.permissions, cfg.grammar)
    ensures Replacement(cfg, fed, b.(telegramId := id), wall) ==
      if id > 0 then Some(Seeded(fed, id, b.accessExpiresAt, b.permissions, wall)) else None
  {
    if id > 0 { StoredListSeeds(cfg.grammar, fed, id, b.accessExpiresAt, b.permissions, wall); }
  }

  ghost predicate AllStored(cfg: Config, m: map<int, Binding>) {
    forall id :: id in m ==> IsStoredList(m[id].permissions, cfg.grammar)
  }

  lemma {:induction false} LoadedAreStored(cfg: Config, items: seq<Binding>)
    requires ValidGrammar(cfg.grammar)
    ensures LoadBindings(cfg, items).Ok? ==> AllStored(cfg, LoadBindings(cfg, items).value.bindings)
  {
    if items != [] {
      var front, b := items[..|items| - 1], items[|items| - 1];
      LoadedAreStored(cfg, front);
      if LoadBindings(cfg, front).Ok? { OneMoreStored(cfg, LoadBindings(cfg, front).value, b); }
    }
  }

  lemma {:induction false} OneMoreStored(cfg: Config, acc: LoadedBindings, b: Binding)
    requires ValidGrammar(cfg.grammar) && AllStored(cfg, acc.bindings)
    ensures LoadBinding(cfg, acc, b).Ok? ==> AllStored(cfg, LoadBinding(cfg, acc, b).value.bindings)
  {
    if LoadBinding(cfg, acc, b).Ok? {
      var permissions := NormalizeERP(b.permissions, cfg.grammar).value;
      LoadedOne(cfg, acc, b);
      NormalizeERPStored(b.permissions, cfg.grammar);
      StoredPut(cfg, acc.bindings, b.telegramId, b.(permissions := permissions));
    }
  }

  lemma {:induction false} LoadedOne(cfg: Config, acc: LoadedBindings, b: Binding)
    requires LoadBinding(cfg, acc, b).Ok?
    ensures NormalizeERP(b.permissions, cfg.grammar).Some?
    ensures LoadBinding(cfg, acc, b).value.bindings
         == acc.bindings[b.telegramId := b.(permissions := NormalizeERP(b.permissions, cfg.grammar).value)]
  {
  }

  lemma StoredPut(cfg: Config, m: map<int, Binding>, id: int, b: Binding)
    requires AllStored(cfg, m) && IsStoredList(b.permissions, cfg.grammar)
    ensures AllStored(cfg, m[id := b])
  {
  }

  lemma {:induction false} LoadedIsStored(cfg: Config, main: Option<Snapshot>, now: int)
    requires ValidGrammar(cfg.grammar)
    ensures LoadSpec(cfg, main, now).Ok? ==> AllStored(cfg, LoadSpec(cfg, main, now).value.bindings)
  {
    if main.Some? { LoadedAreStored(cfg, main.value.bindings); }
  }

  lemma {:induction false} OverlaidIsStored(cfg: Config, mem: Mem, w: Wal)
    requires ValidGrammar(cfg.grammar) && AllStored(cfg, mem.bindings)
    ensures OverlaySpec(cfg, mem, w).Ok? ==> AllStored(cfg, OverlaySpec(cfg, mem, w).value.bindings)
  {
    var b := w.binding;
    NormalizeERPStored(b.permissions, cfg.grammar);
    if NormalizeERP(b.permissions, cfg.grammar).Some? {
      StoredPut(cfg, mem.bindings, b.telegramId, b.(permissions := NormalizeERP(b.permissions, cfg.grammar).value));
    }
  }

  lemma {:induction false} ReplayedIsStored(cfg: Config, mem: Mem, disk: Disk, io: StartIO)
    requires ValidGrammar(cfg.grammar) && AllStored(cfg, mem.bindings)
    ensures Replayed(cfg, mem, disk, io).Ok? ==> AllStored(cfg, Replayed(cfg, mem, disk, io).value.0.bindings)
  {
    if disk.wal.Some? { OverlaidIsStored(cfg, mem, disk.wal.value); }
  }

  // ---- the store ----

  class BindingStore {
    const cfg: Config
    const files: Files
    const auth: Auth.AuthStore
    var bindings: map<int, Binding>
    var tickets: map<Digest, Ticket>
    var transactions: map<Digest, Transaction>

    ghost function Mem(): Mem
      reads this
    {
      Records.Mem(bindings, tickets, transactions)
    }

    ghost function Now(): State
      reads this, files, auth
    {
      State(Mem(), files.Now(), auth.federated)
    }

    ghost predicate Valid()
      reads this
    {
      ValidGrammar(cfg.grammar) && auth.grammar == cfg.grammar && Keyed(bindings)
    }

    /** The method did what `o` says, to memory, to the disk and to the permission table. */
    twostate predicate Did<T(!new)>(new o: Outcome<T>, new r: Result<T, StoreError>)
      reads this, files, auth
    {
      Now() == o.st && files.passed == old(files.passed) + o.trace && r == o.result
    }

    constructor (cfg: Config, files: Files, auth: Auth.AuthStore)
      requires ValidGrammar(cfg.grammar) && auth.grammar == cfg.grammar
      ensures Valid() && this.cfg == cfg && this.files == files && this.auth == auth && Mem() == Records.Mem(map[], map[], map[])
    {
      this.cfg, this.files, this.auth := cfg, files, auth;
      bindings, tickets, transactions := map[], map[], map[];
    }

    // ---- start-up ----

    /** Read one record of the main file, or say why it is refused. */
    method LoadOne(ghost acc: LoadedBindings, b: Binding, subjects: set<string>) returns (r: Result<Binding, StoreError>)
      requires acc == LoadedBindings(bindings, subjects)
      ensures r.Err? ==> LoadBinding(cfg, acc, b) == Err(r.error)
      ensures r.Ok? ==> LoadBinding(cfg, acc, b) == Ok(LoadedBindings(bindings[b.telegramId := r.value], subjects + {SubjectKey(b)}))
      ensures r.Ok? ==> r.value.telegramId == b.telegramId
    {
      if b.telegramId <= 0 || b.issuer != cfg.issuer || b.subject == "" { return Err(InvalidRecord); }
      if b.telegramId in bindings { return Err(DuplicateTelegram); }
      if SubjectKey(b) in subjects { return Err(DuplicateIdentity); }
      var permissions := NormalizePermissions(b.permissions, cfg.grammar);
      if permissions.None? { return Err(BadPermissions); }
      if b.refresh == Absent { return Err(NoCredential); }
      if Open(b.refresh, BindingAAD(b)).None? { return Err(OpenFailed); }
      r := Ok(b.(permissions := permissions.value));
    }

    method LoadRecords(items: seq<Binding>) returns (r: Result<(), StoreError>)
      requires Valid() && bindings == map[]
      modifies this`bindings
      ensures Valid()
      ensures r.Err? ==> LoadBindings(cfg, items) == Err(r.error)
      ensures r.Ok? ==> LoadBindings(cfg, items).Ok? && bindings == LoadBindings(cfg, items).value.bindings
    {
      var subjects: set<string> := {};
      for i := 0 to |items|
        invariant Valid() && LoadBindings(cfg, items[..i]) == Ok(LoadedBindings(bindings, subjects))
      {
        assert items[..i + 1][..i] == items[..i];
        var one := LoadOne(LoadedBindings(bindings, subjects), items[i], subjects);
        if one.Err? {
          RefusalStays(cfg, items, i + 1);
          return Err(one.error);
        }
        bindings := bindings[items[i].telegramId := one.value];
        subjects := subjects + {SubjectKey(items[i])};
      }
      assert items[..|items|] == items;
      r := Ok(());
    }

    method Load(now: int, read: bool) returns (r: Result<(), StoreError>)
      requires Valid() && Mem() == Records.Mem(map[], map[], map[])
      modifies this
      ensures Valid()
      ensures read ==> (if r.Ok? then LoadSpec(cfg, files.main, now) == Ok(Mem()) else LoadSpec(cfg, files.main, now) == Err(r.error))
      ensures !read ==> r == Err(DiskReadFailed)
    {
      if !read { return Err(DiskReadFailed); }
      if files.main.None? { return Ok(()); }
      var s := files.main.value;
      if !HeaderMatches(cfg, s.version, s.issuer, s.clientId) { return Err(WrongFile); }
      r := LoadRecords(s.bindings);
      if r.Err? { return; }
      LoadTickets(s.tickets, now);
      LoadTransactions(s.transactions, now);
    }

    method LoadTickets(filed: map<Digest, Ticket>, now: int)
      requires tickets == map[]
      modifies this`tickets
      ensures tickets == LiveTickets(filed, now)
    {
      var rest := filed.Keys;
      while rest != {}
        invariant rest <= filed.Keys
        invariant forall d :: d in tickets <==> d !in rest && d in LiveTickets(filed, now)
        invariant forall d :: d in tickets ==> tickets[d] == filed[d]
        decreases rest
      {
        var d :| d in rest;
        rest := rest - {d};
        if filed[d].telegramId > 0 && filed[d].expiresAt > now { tickets := tickets[d := filed[d]]; }
      }
    }

    method LoadTransactions(filed: map<Digest, Transaction>, now: int)
      requires transactions == map[]
      modifies this`transactions
      ensures transactions == LiveTransactions(filed, now)
    {
      var rest := filed.Keys;
      while rest != {}
        invariant rest <= filed.Keys
        invariant forall d :: d in transactions <==> d !in rest && d in LiveTransactions(filed, now)
        invariant forall d :: d in transactions ==> transactions[d] == filed[d]
        decreases rest
      {
        var d :| d in rest;
        rest := rest - {d};
        if filed[d].telegramId > 0 && filed[d].expiresAt > now && filed[d].nonce != Absent && filed[d].verifier != Absent {
          transactions := transactions[d := filed[d]];
        }
      }
    }

    /** Whether two users share an identity, by one pass over the records. */
    method IdentityShared() returns (shared: bool)
      ensures shared <==> SharesIdentity(bindings)
    {
      var ids := Collect(bindings.Keys);
      var owners: map<string, int> := map[];
      for i := 0 to |ids|
        invariant forall k :: 0 <= k < i ==> ids[k] in bindings && SubjectKey(bindings[ids[k]]) in owners && owners[SubjectKey(bindings[ids[k]])] == ids[k]
        invariant forall key :: key in owners ==> owners[key] in bindings && SubjectKey(bindings[owners[key]]) == key
      {
        var id := ids[i];
        assert id in Elements(ids);
        var key := SubjectKey(bindings[id]);
        if key in owners && owners[key] != id {
          assert SubjectKey(bindings[owners[key]]) == SubjectKey(bindings[id]);
          return true;
        }
        owners := owners[key := id];
      }
      forall a, b | a in bindings && b in bindings && a != b ensures SubjectKey(bindings[a]) != SubjectKey(bindings[b]) {
        assert a in Elements(ids) && b in Elements(ids);
      }
      shared := false;
    }

    /** Lay the logged binding over memory, save, and retire the log. */
    method ApplyWal(io: StartIO) returns (r: Result<(), StoreError>)
      requires Valid()
      modifies this`bindings, files
      ensures Valid()
      ensures r.Ok? ==> Replayed(cfg, old(Mem()), old(files.Now()), io) == Ok((Mem(), files.Now()))
      ensures r.Err? ==> Replayed(cfg, old(Mem()), old(files.Now()), io) == Err(r.error)
      ensures var trace := ReplayTrace(cfg, old(Mem()), old(files.Now()), io);
        files.passed == old(files.passed) + trace && files.Now() == if trace == [] then old(files.Now()) else trace[|trace| - 1]
    {
      if !io.readWal { return Err(DiskReadFailed); }
      if files.wal.None? { return Ok(()); }
      var w := files.wal.value;
      if !HeaderMatches(cfg, w.version, w.issuer, w.clientId) { return Err(WrongFile); }
      var b := w.binding;
      if b.telegramId <= 0 || b.issuer != cfg.issuer || b.subject == "" || b.refresh == Absent { return Err(InvalidRecord); }
      var permissions := NormalizePermissions(b.permissions, cfg.grammar);
      if permissions.None? { return Err(BadPermissions); }
      if Open(b.refresh, BindingAAD(b)).None? { return Err(OpenFailed); }
      bindings := bindings[b.telegramId := b.(permissions := permissions.value)];
      var shared := IdentityShared();
      if shared { return Err(DuplicateIdentity); }
      r := Save(io.save);
      if r.Err? { return; }
      files.RemoveWal(io.clear);
      if !io.clear { r := Err(ClearWalFailed); }
    }

    /** Seed the permission table, one binding after another. */
    method Seed(wall: int) returns (r: Result<(), StoreError>)
      requires Valid() && auth.federated == map[]
      requires forall id :: id in bindings ==> IsStoredList(bindings[id].permissions, cfg.grammar)
      modifies auth`federated
      ensures r.Err? ==> r.error == PermissionsRefused && AnyRefused(cfg, bindings, wall)
      ensures r.Ok? ==> auth.federated == SeedAll(bindings, wall) && !AnyRefused(cfg, bindings, wall)
    {
      var ids := Collect(bindings.Keys);
      for i := 0 to |ids|
        invariant auth.federated == SeededPart(bindings, wall, Elements(ids[..i]))
        invariant forall k :: 0 <= k < i ==> ids[k] > 0
      {
        var id := ids[i];
        assert id in Elements(ids);
        assert ids[..i + 1] == ids[..i] + [id];
        AppendFresh(ids[..i], id);
        var b := bindings[id];
        SeedRefusal(cfg, auth.federated, b, id, wall);
        SeedRefusal(cfg, map[], b, id, wall);
        SeedNext(bindings, wall, Elements(ids[..i]), id);
        var replaced := auth.ReplaceFederatedPermissions(id, b.accessExpiresAt, b.permissions, wall);
        if replaced.Err? { return Err(PermissionsRefused); }
      }
      assert ids[..|ids|] == ids;
      assert SeededPart(bindings, wall, Elements(ids)) == SeedAll(bindings, wall);
      forall id | id in bindings ensures Replacement(cfg, map[], bindings[id].(telegramId := id), wall).Some? {
        assert id in Elements(ids);
        SeedRefusal(cfg, map[], bindings[id], id, wall);
      }
      r := Ok(());
    }

    /** Start-up on an empty store. */
    method Start(now: int, wall: int, io: StartIO) returns (r: Result<(), StoreError>)
      requires Valid() && Mem() == Records.Mem(map[], map[], map[]) && auth.federated == map[]
      modifies this, files, auth`federated
      ensures Valid()
      ensures var s := StartSpec(cfg, old(files.Now()), now, wall, io);
        && files.Now() == s.disk && files.passed == old(files.passed) + s.trace
        && (r.Ok? ==> s.result == Ok(Now())) && (r.Err? ==> s.result == Err(r.error))
    {
      r := Load(now, io.readMain);
      if r.Err? { return; }
      LoadedIsStored(cfg, files.main, now);
      ghost var loaded := Mem();
      r := ApplyWal(io);
      if r.Err? { return; }
      ReplayedIsStored(cfg, loaded, old(files.Now()), io);
      r := Seed(wall);
    }

    /** Write the main file from memory. */
    method Save(ok: bool) returns (r: Result<(), StoreError>)
      requires Valid()
      modifies files
      ensures files.Now() == if ok then Written(cfg, old(files.Now()), Mem()) else old(files.Now())
      ensures files.passed == if ok then old(files.passed) + [files.Now()] else old(files.passed)
      ensures r == if ok then Ok(()) else Err(PersistFailed)
    {
      var items := Gather(bindings, bindings.Keys);
      assert (map id | id in bindings.Keys :: bindings[id]) == bindings;
      var list := SortById(items, bindings);
      files.WriteMain(Snapshot(STORE_VERSION, cfg.issuer, cfg.clientId, list, tickets, transactions), ok);
      r := if ok then Ok(()) else Err(PersistFailed);
    }

    /** Forget expired tickets and transactions. */
    method Cleanup(now: int)
      modifies this`tickets, this`transactions
      ensures Mem() == StoreSpec.Cleanup(old(Mem()), now)
    {
      var rest := tickets.Keys;
      while rest != {}
        invariant forall d :: d in tickets <==> d in old(tickets) && (d in rest || old(tickets)[d].expiresAt > now)
        invariant forall d :: d in tickets ==> tickets[d] == old(tickets)[d]
        invariant transactions == old(transactions)
        decreases rest
      {
        var d :| d in rest;
        rest := rest - {d};
        if d in tickets && tickets[d].expiresAt <= now { tickets := tickets - {d}; }
      }
      var left := transactions.Keys;
      ghost var current := tickets;
      while left != {}
        invariant forall d :: d in transactions <==> d in old(transactions) && (d in left || old(transactions)[d].expiresAt > now)
        invariant forall d :: d in transactions ==> transactions[d] == old(transactions)[d]
        invariant tickets == current
        decreases left
      {
        var d :| d in left;
        left := left - {d};
        if d in transactions && transactions[d].expiresAt <= now { transactions := transactions - {d}; }
      }
    }

    method VoidTickets(id: int)
      modifies this`tickets
      ensures tickets == WithoutUser(old(tickets), id)
    {
      var rest := tickets.Keys;
      while rest != {}
        invariant forall d :: d in tickets <==> d in old(tickets) && (d in rest || old(tickets)[d].telegramId != id)
        invariant forall d :: d in tickets ==> tickets[d] == old(tickets)[d]
        decreases rest
      {
        var d :| d in rest;
        rest := rest - {d};
        if d in tickets && tickets[d].telegramId == id { tickets := tickets - {d}; }
      }
    }

    method IssueTicket(account: Account, raw: string, now: int, save: bool) returns (r: Result<string, StoreError>)
      requires Valid()
      modifies this`tickets, this`transactions, files
      ensures Valid() && Did(IssueSpec(cfg, old(Now()), account, raw, now, save), r)
      ensures IssueAnswered(old(Now()), Now(), account, raw, now, save, r)
    {
      IssueAnswers(cfg, Now(), account, raw, now, save);
      var normalized := NormalizeAccount(account);
      if normalized.None? { return Err(BadAccount); }
      var a := normalized.value;
      Cleanup(now);
      VoidTickets(a.id);
      tickets := tickets[Digest(raw) := Ticket(a.id, a.name, a.username, now + BIND_TICKET_TTL)];
      var saved := Save(save);
      if saved.Err? {
        tickets := tickets - {Digest(raw)};
        return Err(saved.error);
      }
      r := Ok(raw);
    }

    method LookupTicket(raw: string, now: int) returns (r: Result<Account, StoreError>)
      requires Valid()
      modifies this`tickets, this`transactions
      ensures Valid() && Did(LookupSpec(old(Now()), raw, now), r)
      ensures LookupAnswered(old(Now()), Now(), raw, now, r)
    {
      LookupAnswers(Now(), raw, now);
      Cleanup(now);
      var d := Digest(raw);
      if d !in tickets || tickets[d].expiresAt <= now { return Err(TicketInvalid); }
      r := Ok(Account(tickets[d].telegramId, tickets[d].displayName, tickets[d].username));
    }

    method ConsumeTicket(raw: string, now: int, save: bool) returns (r: Result<int, StoreError>)
      requires Valid()
      modifies this`tickets, this`transactions, files
      ensures Valid() && Did(ConsumeTicketSpec(cfg, old(Now()), raw, now, save), r)
      ensures RedeemAnswered(old(Now()), Now(), raw, now, save, r)
    {
      RedeemAnswers(cfg, Now(), raw, now, save);
      Cleanup(now);
      var d := Digest(raw);
      if d !in tickets || tickets[d].expiresAt <= now { return Err(TicketInvalid); }
      var ticket := tickets[d];
      tickets := tickets - {d};
      var saved := Save(save);
      if saved.Err? {
        tickets := tickets[d := ticket];
        return Err(saved.error);
      }
      r := Ok(ticket.telegramId);
    }

    method BeginTransaction(telegramId: int, nonce: string, verifier: string, state: string, now: int, save: bool) returns (r: Result<string, StoreError>)
      requires Valid()
      modifies this`tickets, this`transactions, files
      ensures Valid() && Did(BeginSpec(cfg, old(Now()), telegramId, nonce, verifier, state, now, save), r)
      ensures BeginAnswered(old(Now()), Now(), telegramId, nonce, verifier, state, now, save, r)
    {
      BeginAnswers(cfg, Now(), telegramId, nonce, verifier, state, now, save);
      var d := Digest(state);
      Cleanup(now);
      transactions := transactions[d := SealTransaction(d, telegramId, nonce, verifier, now)];
      var saved := Save(save);
      if saved.Err? {
        transactions := transactions - {d};
        return Err(saved.error);
      }
      r := Ok(state);
    }

    method BeginFromTicket(raw: string, nonce: string, verifier: string, state: string, now: int, save: bool) returns (r: Result<int, StoreError>)
      requires Valid()
      modifies this`tickets, this`transactions, files
      ensures Valid() && Did(BeginFromTicketSpec(cfg, old(Now()), raw, nonce, verifier, state, now, save), r)
      ensures TradeAnswered(old(Now()), Now(), raw, nonce, verifier, state, now, save, r)
    {
      TradeAnswers(cfg, Now(), raw, nonce, verifier, state, now, save);
      var t, d := Digest(raw), Digest(state);
      Cleanup(now);
      if t !in tickets || tickets[t].expiresAt <= now { return Err(TicketInvalid); }
      var ticket := tickets[t];
      tickets := tickets - {t};
      transactions := transactions[d := SealTransaction(d, ticket.telegramId, nonce, verifier, now)];
      var saved := Save(save);
      if saved.Err? {
        tickets := tickets[t := ticket];
        transactions := transactions - {d};
        return Err(saved.error);
      }
      r := Ok(ticket.telegramId);
    }

    /** A login whose secrets do not open is dropped, whether or not that can be saved. */
    method ConsumeTransaction(state: string, now: int, save: bool) returns (r: Result<Login, StoreError>)
      requires Valid()
      modifies this`tickets, this`transactions, files
      ensures Valid() && Did(ConsumeTransactionSpec(cfg, old(Now()), state, now, save), r)
      ensures CloseAnswered(old(Now()), Now(), state, now, save, r)
    {
      CloseAnswers(cfg, Now(), state, now, save);
      var d := Digest(state);
      Cleanup(now);
      if d !in transactions || transactions[d].expiresAt <= now { return Err(TransactionInvalid); }
      var transaction := transactions[d];
      var login := OpenTransaction(d, transaction);
      transactions := transactions - {d};
      var saved := Save(save);
      if login.None? { return Err(OpenFailed); }
      if saved.Err? {
        transactions := transactions[d := transaction];
        return Err(saved.error);
      }
      r := Ok(login.value);
    }

    method TakenByAnother(item: Binding) returns (taken: bool)
      ensures taken <==> IdentityTaken(bindings, item)
    {
      var ids := Collect(bindings.Keys);
      for i := 0 to |ids|
        invariant forall k :: 0 <= k < i && ids[k] in bindings && ids[k] != item.telegramId ==>
          bindings[ids[k]].issuer != item.issuer || bindings[ids[k]].subject != item.subject
      {
        var id := ids[i];
        assert id in Elements(ids);
        if bindings[id].issuer == item.issuer && bindings[id].subject == item.subject && id != item.telegramId { return true; }
      }
      forall id | id in bindings && id != item.telegramId ensures bindings[id].issuer != item.issuer || bindings[id].subject != item.subject {
        assert id in Elements(ids);
      }
      taken := false;
    }

    /** Every check, then the record as it will be stored. */
    method Prepare(item: Binding, token: string, now: int) returns (r: Result<Binding, StoreError>)
      requires Valid()
      ensures r == Prepared(cfg, bindings, item, token, now)
      ensures PutRefusal(cfg, bindings, item, token) == if r.Err? then Some(r.error) else None
      ensures r.Ok? ==> IsStored(cfg, r.value, item, token, now, BoundAs(bindings, item.telegramId))
    {
      PreparedAnswer(cfg, bindings, item, token, now);
      if item.telegramId <= 0 || item.issuer != cfg.issuer || item.subject == "" || token == "" { return Err(BadBinding); }
      var permissions := NormalizePermissions(item.permissions, cfg.grammar);
      if permissions.None? { return Err(BadPermissions); }
      var scopes := NormalizedStrings(item.scopes);
      var roles := NormalizedStrings(item.roles);
      var n := item.(permissions := permissions.value, scopes := scopes, roles := roles);
      assert Normalized(cfg, item) == Some(n);
      var taken := TakenByAnother(n);
      if taken { return Err(IdentityAlreadyBound); }
      if OtherIdentity(bindings, n) { return Err(TelegramAlreadyBound); }
      var boundAt := if n.telegramId in bindings then bindings[n.telegramId].boundAt else n.boundAt;
      if boundAt == 0 { boundAt := now; }
      r := Ok(n.(boundAt := boundAt, updatedAt := now, nextRefreshAt := now + PERMISSION_SYNC_INTERVAL, refresh := Sealed(token, BindingAAD(n))));
    }

    /** Let the stored binding's permissions take effect. */
    method GrantFederated(b: Binding, wall: int) returns (r: Result<(), StoreError>)
      requires Valid()
      modifies auth`federated
      ensures Did(Granted(cfg, old(Now()), [], b, wall), r)
    {
      var replaced := auth.ReplaceFederatedPermissions(b.telegramId, b.accessExpiresAt, b.permissions, wall);
      r := if replaced.Ok? then Ok(()) else Err(PermissionsRefused);
    }

    method PutBinding(item: Binding, token: string, now: int, wall: int, io: PutIO) returns (r: Result<(), StoreError>)
      requires Valid()
      modifies this`bindings, files, auth`federated
      ensures Valid() && Did(PutSpec(cfg, old(Now()), item, token, now, wall, io), r)
      ensures PutAnswered(cfg, old(Now()), Now(), item, token, now, wall, io, r)
    {
      PutAnswers(cfg, Now(), item, token, now, wall, io);
      var prepared := Prepare(item, token, now);
      if prepared.Err? { return Err(prepared.error); }
      if !io.seal { return Err(SealFailed); }
      r := Store(prepared.value, wall, io);
    }

    method Store(b: Binding, wall: int, io: PutIO) returns (r: Result<(), StoreError>)
      requires Valid()
      modifies this`bindings, files, auth`federated
      ensures Valid() && Did(StoreSteps(cfg, old(Now()), b, wall, io), r)
    {
      bindings := bindings[b.telegramId := b];
      files.WriteWal(WalOf(cfg, b), io.wal);
      if !io.wal {
        var saved := Save(io.save);
        r := GrantFederated(b, wall);
        if saved.Err? { r := Err(NothingSaved); }
        return;
      }
      var saved := Save(io.save);
      if saved.Err? { return Err(WalSavedStoreFailed); }
      files.RemoveWal(io.clear);
      if !io.clear { return Err(ClearWalFailed); }
      r := GrantFederated(b, wall);
    }

    method Binding(id: int) returns (r: Option<Binding>)
      ensures r == if id in bindings then Some(bindings[id]) else None
    {
      r := if id in bindings then Some(bindings[id]) else None;
    }

    /** The bindings to refresh now, in the order of their users' ids. */
    method Due(now: int, within: int) returns (items: seq<Binding>)
      requires Valid()
      ensures items == Listing(map id | id in bindings && IsDue(bindings[id], now, within) :: bindings[id])
      ensures forall b :: b in items <==>
        && b.telegramId in bindings && bindings[b.telegramId] == b
        && (0 < b.nextRefreshAt <= now || 0 < b.accessExpiresAt <= now + within)
    {
      var due := set id | id in bindings && IsDue(bindings[id], now, within);
      ghost var m := map id | id in due :: bindings[id];
      var gathered := Gather(bindings, due);
      items := SortById(gathered, m);
      assert m == map id | id in bindings && IsDue(bindings[id], now, within) :: bindings[id];
      ListingMembers(m);
    }

    method RefreshToken(item: Binding) returns (r: Result<string, StoreError>)
      ensures r == RefreshTokenSpec(Mem(), item)
    {
      if item.telegramId !in bindings { return Err(TransactionInvalid); }
      var current := bindings[item.telegramId];
      if current.issuer != item.issuer || current.subject != item.subject { return Err(TransactionInvalid); }
      var token := Open(current.refresh, BindingAAD(current));
      r := if token.None? then Err(OpenFailed) else Ok(token.value);
    }

    /** Remove the log entry if it is this user's. */
    method ClearWalMatching(id: int, io: RemoveIO) returns (r: Result<(), StoreError>)
      modifies files
      ensures r == if !io.read then Err(DiskReadFailed) else if WalMatches(old(files.Now()), id) && !io.clear then Err(ClearWalFailed) else Ok(())
      ensures files.Now() == if r.Ok? && WalMatches(old(files.Now()), id) then old(files.Now()).(wal := None) else old(files.Now())
      ensures files.passed == if r.Ok? && WalMatches(old(files.Now()), id) then old(files.passed) + [files.Now()] else old(files.passed)
    {
      if !io.read { return Err(DiskReadFailed); }
      if files.wal.None? || files.wal.value.binding.telegramId != id { return Ok(()); }
      files.RemoveWal(io.clear);
      r := if io.clear then Ok(()) else Err(ClearWalFailed);
    }

    method Remove(id: int, io: RemoveIO) returns (r: Result<Option<Removed>, StoreError>)
      requires Valid()
      modifies this`bindings, files, auth`federated
      ensures Valid() && Did(RemoveSpec(cfg, old(Now()), id, io), r)
      ensures (id in old(bindings) ==> Token(old(bindings)[id]).Some?) ==> RemoveAnswered(old(Now()), Now(), id, io, r)
    {
      if id in bindings ==> Token(bindings[id]).Some? { RemoveAnswers(cfg, Now(), id, io); }
      if id !in bindings { return Ok(None); }
      var item := bindings[id];
      var token := "";
      if item.refresh != Absent {
        var plain := Open(item.refresh, BindingAAD(item));
        if plain.None? { return Err(OpenFailed); }
        token := plain.value;
      }
      var cleared := ClearWalMatching(id, io);
      if cleared.Err? { return Err(cleared.error); }
      bindings := bindings - {id};
      var saved := Save(io.save);
      if saved.Err? {
        bindings := bindings[id := item];
        assert Mem() == old(Mem());
        return Err(saved.error);
      }
      auth.ClearFederatedPermissions(id);
      r := Ok(Some(Removed(item, token)));
    }

    method RecordRefreshFailure(id: int, clear: bool, now: int, save: bool) returns (r: Result<(), StoreError>)
      requires Valid()
      modifies this`bindings, files, auth`federated
      ensures Valid() && Did(RecordFailureSpec(cfg, old(Now()), id, clear, now, save), r)
      ensures FailureAnswered(old(Now()), Now(), id, clear, now, save) && r == FailureAnswer(old(bindings), id, save)
    {
      FailureAnswers(cfg, Now(), id, clear, now, save);
      if id !in bindings { return Ok(()); }
      var previous := bindings[id];
      var item := previous;
      if clear { item := item.(permissions := [], accessExpiresAt := 0); }
      item := item.(nextRefreshAt := now + PERMISSION_SYNC_INTERVAL, updatedAt := now);
      bindings := bindings[id := item];
      var saved := Save(save);
      if saved.Err? {
        bindings := bindings[id := previous];
        assert Mem() == old(Mem());
        return Err(saved.error);
      }
      if clear { auth.ClearFederatedPermissions(id); }
      r := Ok(());
    }
  }
}
