/**
  What can be done in every reachable store: new users are bound and bound ones
  unbound, tickets and logins stay on file through any operations, crashes and
  restarts until they are used or run out, and using them then succeeds.
 */
module StoreUses {
  import opened Wrappers
  import opened Sorting
  import opened Canonical
  import AuthSpec
  import opened Records
  import opened StoreSpec
  import opened StoreFacts
  import opened StoreOps
  import opened StoreEffects
  import opened StoreAnswers
  import opened StoreRuns

  // ---- binding and unbinding ----

  const PUT_OK := PutIO(true, true, true, true)

  /** Nothing speaks against the item: a proper user and identity, a credential, permissions that parse, and neither user nor identity bound otherwise. */
  ghost predicate Bindable(cfg: Config, m: map<int, Binding>, item: Binding, token: string) {
    && item.telegramId > 0 && item.issuer == cfg.issuer && item.subject != "" && token != ""
    && |item.permissions| <= 1000 && (forall v :: v in item.permissions ==> cfg.grammar.parseERP(v).Some?)
    && (forall v :: v in m && v != item.telegramId ==> !(m[v].issuer == item.issuer && m[v].subject == item.subject))
    && (item.telegramId in m ==> m[item.telegramId].issuer == item.issuer && m[item.telegramId].subject == item.subject)
  }

  lemma {:induction false} BindableExactly(cfg: Config, m: map<int, Binding>, item: Binding, token: string)
    ensures PutRefusal(cfg, m, item, token).None? <==> Bindable(cfg, m, item, token)
  {
  }

  /** The answers that leave everything as it was. */
  predicate IsRefusal(e: Option<StoreError>) {
    e in {Some(BadBinding), Some(BadPermissions), Some(IdentityAlreadyBound), Some(TelegramAlreadyBound), Some(SealFailed)}
  }

  /**
    In every reachable store an item is stored if and only if it is bindable and its
    credential is sealed. With all disk steps succeeding too the answer is a nil
    return, and from then on the table grants exactly the item's permissions until
    they expire.
   */
  lemma {:induction false} BindsExactly(cfg: Config, run: seq<Label>, c: Call, t: int)
    requires ValidGrammar(cfg.grammar) && Enabled(cfg, After(cfg, run), Run(c)) && c.op.Put? && c.wall <= t
    ensures var st, item, e := After(cfg, run).phase.st, c.op.item, Perform(cfg, After(cfg, run).phase.st, c);
      var id, s' := item.telegramId, After(cfg, run + [Run(c)]);
      var accepted := Bindable(cfg, st.mem.bindings, item, c.op.token) && c.op.io.seal;
      && s'.phase == Up(e.st) && (IsRefusal(e.error) <==> !accepted)
      && (!accepted ==> e.st == st)
      && (accepted ==> id in e.st.mem.bindings
                       && IsStored(cfg, e.st.mem.bindings[id], item, c.op.token, c.now, BoundAs(st.mem.bindings, id)))
      && (accepted && c.op.io == PUT_OK ==> e.error.None?)
      && (accepted && c.op.io == PUT_OK ==>
           AuthSpec.ActiveFederated(e.st.federated, id, t) == if t < item.accessExpiresAt then Elements(e.st.mem.bindings[id].permissions) else {})
  {
    var st, item := After(cfg, run).phase.st, c.op.item;
    assert (run + [Run(c)])[..|run|] == run;
    PutAnswers(cfg, st, item, c.op.token, c.now, c.wall, c.op.io);
    BindableExactly(cfg, st.mem.bindings, item, c.op.token);
  }

  /** A new installation binds its first user. */
  lemma {:induction false} FirstUserBinds(cfg: Config, item: Binding, token: string, now: int, wall: int)
    requires ValidGrammar(cfg.grammar) && Bindable(cfg, map[], item, token) && 0 <= wall
    ensures var s := After(cfg, [Start(now, wall, ALL_OK), Run(Call(Put(item, token, PUT_OK), now, wall, true))]);
      && s.phase.Up? && item.telegramId in s.phase.st.mem.bindings
      && IsStored(cfg, s.phase.st.mem.bindings[item.telegramId], item, token, now, None)
  {
    var start, c := Start(now, wall, ALL_OK), Call(Put(item, token, PUT_OK), now, wall, true);
    EmptyStarts(cfg, now, wall);
    assert [start] + [Run(c)] == [start, Run(c)];
    BindsExactly(cfg, [start], c, wall);
  }

  lemma {:induction false} EmptyStarts(cfg: Config, now: int, wall: int)
    requires ValidGrammar(cfg.grammar) && 0 <= wall
    ensures var s := After(cfg, [Start(now, wall, ALL_OK)]);
      s.phase.Up? && s.phase.st.mem == Mem(map[], map[], map[]) && s.clock == wall && s.log == []
  {
    var start := Start(now, wall, ALL_OK);
    EmptyDiskOk(cfg);
    assert [start][..0] == [];
    StartAccepts(cfg, Disk(None, None), now, wall, ALL_OK);
  }

  /**
    In every reachable store unbinding succeeds, and hands out the credential the user
    was bound with, if and only if the user is bound, the log could be read, an entry
    of the user's in it removed, and the rest saved.
   */
  lemma {:induction false} UnbindsExactly(cfg: Config, run: seq<Label>, id: int, io: RemoveIO)
    requires ValidGrammar(cfg.grammar) && After(cfg, run).phase.Up?
    ensures var st := After(cfg, run).phase.st;
      var o := RemoveSpec(cfg, st, id, io);
      && RemoveAnswered(st, o.st, id, io, o.result)
      && (o.result.Ok? && o.result.value.Some? <==>
            id in st.mem.bindings && io.read && (LogHolds(st.disk, id) ==> io.clear) && io.save)
      && (o.result.Ok? && o.result.value.Some? ==> Token(st.mem.bindings[id]) == Some(o.result.value.value.token))
  {
    RunsKeep(cfg, run);
    var st := After(cfg, run).phase.st;
    if id in st.mem.bindings { assert GoodBinding(cfg, st.mem.bindings[id]); }
    RemoveAnswers(cfg, st, id, io);
  }


  // ---- what stays on file ----

  /** Listed in memory, where there is one, and in the main file. */
  ghost predicate TicketKept(p: Phase, raw: string) {
    match p
    case Up(st) => Digest(raw) in st.mem.tickets && Digest(raw) in MainMem(st.disk).tickets
    case Down(d) => Digest(raw) in MainMem(d).tickets
  }

  ghost predicate LoginKept(p: Phase, state: string) {
    match p
    case Up(st) => Digest(state) in st.mem.transactions && Digest(state) in MainMem(st.disk).transactions
    case Down(d) => Digest(state) in MainMem(d).transactions
  }

  /** Lists the tickets and logins that the main file listed, or those memory held. */
  ghost predicate ListsOneOf(d: Disk, main: Mem, mem: Mem) { SameTickets(MainMem(d), main) || SameTickets(MainMem(d), mem) }

  lemma {:induction false} WrittenLists(cfg: Config, disk: Disk, mem: Mem)
    requires Keyed(mem.bindings)
    ensures SameTickets(MainMem(Written(cfg, disk, mem)), mem) && SameTickets(MainMem(Written(cfg, disk, mem).(wal := None)), mem)
  {
    WrittenMain(cfg, disk, mem);
    assert MainMem(Written(cfg, disk, mem).(wal := None)) == MainMem(Written(cfg, disk, mem));
  }

  lemma {:induction false} PutLists(cfg: Config, st: State, b: Binding, wall: int, io: PutIO, d: Disk)
    requires StoreInv(cfg, st) && Storable(cfg, st.mem.bindings, b)
    ensures var o := PutCases(cfg, st, b, wall, io);
      d == o.st.disk || d in o.trace ==> ListsOneOf(d, MainMem(st.disk), st.mem)
  {
    var mem, logged := WithBinding(st.mem, b), st.disk.(wal := Some(WalOf(cfg, b)));
    StorableGood(cfg, st.mem.bindings, b);
    assert MainMem(logged) == MainMem(st.disk);
    WrittenLists(cfg, st.disk, mem);
    WrittenLists(cfg, logged, mem);
  }

  lemma {:induction false} PutOpLists(cfg: Config, st: State, item: Binding, token: string, now: int, wall: int, io: PutIO, d: Disk)
    requires ValidGrammar(cfg.grammar) && StoreInv(cfg, st)
    ensures var o := PutSpec(cfg, st, item, token, now, wall, io);
      && SameTickets(st.mem, o.st.mem)
      && (d == o.st.disk || d in o.trace ==> ListsOneOf(d, MainMem(st.disk), st.mem))
  {
    PutShape(cfg, st, item, token, now, wall, io);
    var p := Prepared(cfg, st.mem.bindings, item, token, now);
    if p.Ok? && io.seal { PutLists(cfg, st, p.value, wall, io, d); }
  }

  lemma {:induction false} RemoveLists(cfg: Config, st: State, id: int, io: RemoveIO, d: Disk)
    requires StoreInv(cfg, st)
    ensures var o := RemoveSpec(cfg, st, id, io);
      && SameTickets(st.mem, o.st.mem)
      && (d == o.st.disk || d in o.trace ==> ListsOneOf(d, MainMem(st.disk), st.mem))
  {
    var mem := st.mem.(bindings := st.mem.bindings - {id});
    assert Keyed(mem.bindings);
    assert MainMem(st.disk.(wal := None)) == MainMem(st.disk);
    WrittenLists(cfg, if WalMatches(st.disk, id) then st.disk.(wal := None) else st.disk, mem);
  }

  lemma {:induction false} FailureLists(cfg: Config, st: State, id: int, clear: bool, now: int, save: bool, d: Disk)
    requires StoreInv(cfg, st)
    ensures var o := RecordFailureSpec(cfg, st, id, clear, now, save);
      && SameTickets(st.mem, o.st.mem)
      && (d == o.st.disk || d in o.trace ==> ListsOneOf(d, MainMem(st.disk), st.mem))
  {
    if id in st.mem.bindings {
      var b := AfterFailure(st.mem.bindings[id], clear, now);
      FailureStorable(cfg, st.mem.bindings, id, clear, now);
      StorableGood(cfg, st.mem.bindings, b);
      WrittenLists(cfg, st.disk, WithBinding(st.mem, b));
    }
  }

  /** Binding, unbinding and recording a failure leave every ticket and login where it was. */
  lemma {:induction false} BindingOpLists(cfg: Config, st: State, c: Call, d: Disk)
    requires ValidGrammar(cfg.grammar) && StoreInv(cfg, st) && (c.op.Put? || c.op.Remove? || c.op.Fail?)
    ensures var e := Perform(cfg, st, c);
      && SameTickets(st.mem, e.st.mem)
      && (d == e.st.disk || d in e.trace ==> ListsOneOf(d, MainMem(st.disk), st.mem))
  {
    match c.op
    case Put(item, token, io) => PutOpLists(cfg, st, item, token, c.now, c.wall, io, d);
    case Remove(id, rio) => RemoveLists(cfg, st, id, rio, d);
    case Fail(id, clear) => FailureLists(cfg, st, id, clear, c.now, c.save, d);
    case _ =>
  }

  /** An operation on tickets uses up the ticket, or voids it with a new one for its user. */
  predicate EndsTicket(op: Op, raw: string, user: int) {
    || ((op.Redeem? || op.Trade?) && op.raw == raw)
    || (op.Issue? && op.account.id == user)
  }

  predicate EndsLogin(op: Op, state: string) { op.Close? && op.state == state }

  lemma {:induction false} TicketInMem(cfg: Config, log: seq<Event>, st: State, c: Call, raw: string)
    requires StoreInv(cfg, st) && History(log, MainMem(st.disk)) && Admissible(log, c.op) && Given(log, raw)
    requires !c.op.Put? && !c.op.Remove? && !c.op.Fail?
    requires TicketInDate(st.mem, raw, c.now) && !EndsTicket(c.op, raw, st.mem.tickets[Digest(raw)].telegramId)
    ensures Digest(raw) in Perform(cfg, st, c).st.mem.tickets
  {
    match c.op
    case Issue(account, r) => IssueAnswers(cfg, st, account, r, c.now, c.save);
    case Lookup(r) => LookupAnswers(st, r, c.now);
    case Redeem(r) => RedeemAnswers(cfg, st, r, c.now, c.save);
    case Begin(user, nonce, verifier, state) => BeginAnswers(cfg, st, user, nonce, verifier, state, c.now, c.save);
    case Trade(r, nonce, verifier, state) => TradeAnswers(cfg, st, r, nonce, verifier, state, c.now, c.save);
    case Close(state) => CloseAnswers(cfg, st, state, c.now, c.save);
    case _ =>
  }

  /** Opening a login under a new state leaves one on file alone. */
  lemma {:induction false} TradeLeavesLogin(cfg: Config, st: State, raw: string, nonce: string, verifier: string, other: string, now: int, save: bool, d: Digest)
    requires Digest(other) !in st.mem.transactions && d in st.mem.transactions && now < st.mem.transactions[d].expiresAt
    ensures d in BeginFromTicketSpec(cfg, st, raw, nonce, verifier, other, now, save).st.mem.transactions
  {
    TradeAnswers(cfg, st, raw, nonce, verifier, other, now, save);
  }

  lemma {:induction false} BeginLeavesLogin(cfg: Config, st: State, user: int, nonce: string, verifier: string, other: string, now: int, save: bool, d: Digest)
    requires Digest(other) !in st.mem.transactions && d in st.mem.transactions && now < st.mem.transactions[d].expiresAt
    ensures d in BeginSpec(cfg, st, user, nonce, verifier, other, now, save).st.mem.transactions
  {
    BeginAnswers(cfg, st, user, nonce, verifier, other, now, save);
  }

  lemma {:induction false} CloseLeavesLogin(cfg: Config, st: State, other: string, now: int, save: bool, d: Digest)
    requires d != Digest(other) && d in st.mem.transactions && now < st.mem.transactions[d].expiresAt
    ensures d in ConsumeTransactionSpec(cfg, st, other, now, save).st.mem.transactions
  {
    CloseAnswers(cfg, st, other, now, save);
  }

  lemma {:induction false} TicketUseLeavesLogin(cfg: Config, st: State, account: Account, raw: string, now: int, save: bool, d: Digest)
    requires d in st.mem.transactions && now < st.mem.transactions[d].expiresAt
    ensures d in IssueSpec(cfg, st, account, raw, now, save).st.mem.transactions
    ensures d in LookupSpec(st, raw, now).st.mem.transactions
    ensures d in ConsumeTicketSpec(cfg, st, raw, now, save).st.mem.transactions
  {
    IssueAnswers(cfg, st, account, raw, now, save);
    LookupAnswers(st, raw, now);
    RedeemAnswers(cfg, st, raw, now, save);
  }

  lemma {:induction false} LoginInMem(cfg: Config, log: seq<Event>, st: State, c: Call, state: string)
    requires StoreInv(cfg, st) && History(log, MainMem(st.disk)) && Admissible(log, c.op)
    requires !c.op.Put? && !c.op.Remove? && !c.op.Fail? && !EndsLogin(c.op, state)
    requires Digest(state) in st.mem.transactions && c.now < st.mem.transactions[Digest(state)].expiresAt
    ensures Digest(state) in Perform(cfg, st, c).st.mem.transactions
  {
    var d := Digest(state);
    HistoryOfPart(log, st.mem, MainMem(st.disk));
    match c.op
    case Issue(account, r) => TicketUseLeavesLogin(cfg, st, account, r, c.now, c.save, d);
    case Lookup(r) => TicketUseLeavesLogin(cfg, st, Account(0, "", ""), r, c.now, c.save, d);
    case Redeem(r) => TicketUseLeavesLogin(cfg, st, Account(0, "", ""), r, c.now, c.save, d);
    case Begin(user, nonce, verifier, other) =>
      StateIsNew(log, st.mem, other);
      BeginLeavesLogin(cfg, st, user, nonce, verifier, other, c.now, c.save, d);
    case Trade(r, nonce, verifier, other) =>
      StateIsNew(log, st.mem, other);
      TradeLeavesLogin(cfg, st, r, nonce, verifier, other, c.now, c.save, d);
    case Close(other) => CloseLeavesLogin(cfg, st, other, c.now, c.save, d);
    case _ =>
  }

  // ---- one step ----

  function TimeOf(l: Label): int {
    match l
    case Run(c) => c.now
    case Crash(c, _) => c.now
    case Start(now, _, _) => now
    case HaltedStart(now, _, _, _) => now
  }

  predicate IsCall(l: Label) { l.Run? || l.Crash? }

  lemma {:induction false} CallKeepsTicket(cfg: Config, s: Sys, c: Call, raw: string, d: Disk)
    requires ValidGrammar(cfg.grammar) && SysInv(cfg, s) && s.phase.Up? && Admissible(s.log, c.op) && Given(s.log, raw)
    requires TicketKept(s.phase, raw) && c.now < s.phase.st.mem.tickets[Digest(raw)].expiresAt
    requires !EndsTicket(c.op, raw, s.phase.st.mem.tickets[Digest(raw)].telegramId)
    ensures var e := Perform(cfg, s.phase.st, c);
      && Digest(raw) in e.st.mem.tickets
      && (d == e.st.disk || d in e.trace ==> Digest(raw) in MainMem(d).tickets)
  {
    var st := s.phase.st;
    var e := Perform(cfg, st, c);
    if c.op.Put? || c.op.Remove? || c.op.Fail? {
      BindingOpLists(cfg, st, c, d);
    } else {
      TicketInMem(cfg, s.log, st, c, raw);
      TicketOpStep(cfg, s.log, st, c);
      WrittenMain(cfg, st.disk, e.st.mem);
    }
  }

  lemma {:induction false} CallKeepsLogin(cfg: Config, s: Sys, c: Call, state: string, d: Disk)
    requires ValidGrammar(cfg.grammar) && SysInv(cfg, s) && s.phase.Up? && Admissible(s.log, c.op)
    requires LoginKept(s.phase, state) && c.now < s.phase.st.mem.transactions[Digest(state)].expiresAt && !EndsLogin(c.op, state)
    ensures var e := Perform(cfg, s.phase.st, c);
      && Digest(state) in e.st.mem.transactions
      && (d == e.st.disk || d in e.trace ==> Digest(state) in MainMem(d).transactions)
  {
    var st := s.phase.st;
    var e := Perform(cfg, st, c);
    if c.op.Put? || c.op.Remove? || c.op.Fail? {
      BindingOpLists(cfg, st, c, d);
    } else {
      LoginInMem(cfg, s.log, st, c, state);
      TicketOpStep(cfg, s.log, st, c);
      WrittenMain(cfg, st.disk, e.st.mem);
    }
  }

  lemma {:induction false} ReplayLists(cfg: Config, disk: Disk, m: map<int, Binding>, now: int, wall: int, sio: StartIO, d: Disk)
    requires ValidGrammar(cfg.grammar) && GoodBindings(cfg, m) && DiskWithin(cfg, disk, m) && disk.wal.Some?
    ensures var s := StartSpec(cfg, disk, now, wall, sio);
      && (d == s.disk || d in s.trace ==> ListsOneOf(d, MainMem(disk), LoadedMem(disk, now)))
      && (s.result.Ok? ==> s.result.value.disk == s.disk && SameTickets(s.result.value.mem, LoadedMem(disk, now)))
  {
    RecoveredGood(cfg, disk, m);
    StartWithLog(cfg, disk, m, now, wall, sio);
    WrittenLists(cfg, disk, LoadedMem(disk, now).(bindings := Recovered(disk)));
  }

  /** A start-up, finished or not, leaves in the main file what is in date. */
  lemma {:induction false} StartLists(cfg: Config, disk: Disk, now: int, wall: int, sio: StartIO, d: Disk)
    requires ValidGrammar(cfg.grammar) && DiskOk(cfg, disk)
    ensures var s := StartSpec(cfg, disk, now, wall, sio);
      && (d == s.disk || d in s.trace ==> ListsOneOf(d, MainMem(disk), LoadedMem(disk, now)))
      && (s.result.Ok? ==> s.result.value.disk == s.disk && SameTickets(s.result.value.mem, LoadedMem(disk, now)))
  {
    var m :| GoodBindings(cfg, m) && DiskWithin(cfg, disk, m);
    if disk.wal.None? {
      StartWithoutLog(cfg, disk, m, now, wall, sio);
    } else {
      ReplayLists(cfg, disk, m, now, wall, sio, d);
    }
  }

  /** Exactly the tickets and logins in date are loaded from the main file. */
  lemma {:induction false} LoadedExactly(cfg: Config, disk: Disk, now: int, d: Digest)
    requires DiskOk(cfg, disk)
    ensures d in LoadedMem(disk, now).tickets <==> d in MainMem(disk).tickets && now < MainMem(disk).tickets[d].expiresAt
    ensures d in LoadedMem(disk, now).transactions <==> d in MainMem(disk).transactions && now < MainMem(disk).transactions[d].expiresAt
  {
    var m :| GoodBindings(cfg, m) && DiskWithin(cfg, disk, m);
    if d in MainMem(disk).transactions { assert GoodTransaction(d, MainMem(disk).transactions[d]); }
  }

  /** A ticket on file is the one issued, a login the one opened. */
  lemma {:induction false} FiledAsIssued(log: seq<Event>, main: Mem, raw: string, user: int, at: int)
    requires GoodLog(log) && History(log, main) && Digest(raw) in main.tickets && Issued(raw, user, at) in log
    ensures main.tickets[Digest(raw)].telegramId == user && main.tickets[Digest(raw)].expiresAt == at + 600
    ensures Given(log, raw)
  {
    var t := main.tickets[Digest(raw)];
    assert Outstanding(log, Digest(raw), t);
    IssuedTwiceIsSame(log, raw, user, t.telegramId, at, t.expiresAt - BIND_TICKET_TTL);
    var i :| 0 <= i < |log| && log[i] == Issued(raw, user, at);
    assert Gives(log[i], raw);
  }

  lemma {:induction false} FiledAsOpened(log: seq<Event>, main: Mem, state: string, login: Login, at: int)
    requires GoodLog(log) && History(log, main) && Digest(state) in main.transactions && OpenedAs(log, state, login, at)
    ensures var t := main.transactions[Digest(state)];
      && t.expiresAt == at + 600 && t.telegramId == login.telegramId
      && SecretsOf(Digest(state), t) == Some((login.nonce, login.verifier))
  {
    var t := main.transactions[Digest(state)];
    assert Pending(log, Digest(state), t);
    var i :| 0 <= i < |log| && Opens(log[i], state) && log[i].login == login && log[i].at == at;
    var j :| 0 <= j < |log| && Opens(log[j], state)
      && log[j].login == Login(t.telegramId, t.nonce.plaintext, t.verifier.plaintext) && log[j].at == t.expiresAt - TRANSACTION_TTL;
    if i < j { UsedOnce(log, i, j, state); }
    if j < i { UsedOnce(log, j, i, state); }
  }

  /** A start-up, finished or not, keeps what the main file lists and is in date. */
  lemma {:induction false} StartKeepsFiled(cfg: Config, disk: Disk, now: int, wall: int, sio: StartIO, d: Digest, e: Disk)
    requires ValidGrammar(cfg.grammar) && DiskOk(cfg, disk)
    ensures var s := StartSpec(cfg, disk, now, wall, sio); var main := MainMem(disk);
      && (d in main.tickets && now < main.tickets[d].expiresAt ==>
            && (e == s.disk || e in s.trace ==> d in MainMem(e).tickets)
            && (s.result.Ok? ==> d in s.result.value.mem.tickets && s.result.value.disk == s.disk))
      && (d in main.transactions && now < main.transactions[d].expiresAt ==>
            && (e == s.disk || e in s.trace ==> d in MainMem(e).transactions)
            && (s.result.Ok? ==> d in s.result.value.mem.transactions && s.result.value.disk == s.disk))
  {
    StartLists(cfg, disk, now, wall, sio, e);
    LoadedExactly(cfg, disk, now, d);
  }

  lemma {:induction false} StartKeepsTicket(cfg: Config, s: Sys, l: Label, raw: string)
    requires ValidGrammar(cfg.grammar) && SysInv(cfg, s) && Enabled(cfg, s, l) && !IsCall(l) && TicketKept(s.phase, raw)
    requires TimeOf(l) < MainMem(s.phase.disk).tickets[Digest(raw)].expiresAt
    ensures TicketKept(Taken(cfg, s, l).phase, raw)
  {
    match l
    case Start(now, wall, sio) =>
      StartKeepsFiled(cfg, s.phase.disk, now, wall, sio, Digest(raw), StartSpec(cfg, s.phase.disk, now, wall, sio).disk);
    case HaltedStart(now, wall, sio, k) =>
      StartKeepsFiled(cfg, s.phase.disk, now, wall, sio, Digest(raw), StartDisk(s.phase.disk, StartSpec(cfg, s.phase.disk, now, wall, sio), k));
  }

  lemma {:induction false} StepKeepsTicket(cfg: Config, s: Sys, l: Label, raw: string, user: int, at: int)
    requires ValidGrammar(cfg.grammar) && SysInv(cfg, s) && Enabled(cfg, s, l)
    requires TicketKept(s.phase, raw) && Issued(raw, user, at) in s.log && TimeOf(l) < at + 600
    requires IsCall(l) ==> !EndsTicket(l.call.op, raw, user)
    ensures TicketKept(Taken(cfg, s, l).phase, raw)
  {
    FiledAsIssued(s.log, MainMem(if s.phase.Up? then s.phase.st.disk else s.phase.disk), raw, user, at);
    if IsCall(l) {
      var e := Perform(cfg, s.phase.st, l.call);
      CallKeepsTicket(cfg, s, l.call, raw, if l.Run? then e.st.disk else CrashDisk(s.phase.st, e, l.k));
    } else {
      StartKeepsTicket(cfg, s, l, raw);
    }
  }

  lemma {:induction false} StartKeepsLogin(cfg: Config, s: Sys, l: Label, state: string)
    requires ValidGrammar(cfg.grammar) && SysInv(cfg, s) && Enabled(cfg, s, l) && !IsCall(l) && LoginKept(s.phase, state)
    requires TimeOf(l) < MainMem(s.phase.disk).transactions[Digest(state)].expiresAt
    ensures LoginKept(Taken(cfg, s, l).phase, state)
  {
    match l
    case Start(now, wall, sio) =>
      StartKeepsFiled(cfg, s.phase.disk, now, wall, sio, Digest(state), StartSpec(cfg, s.phase.disk, now, wall, sio).disk);
    case HaltedStart(now, wall, sio, k) =>
      StartKeepsFiled(cfg, s.phase.disk, now, wall, sio, Digest(state), StartDisk(s.phase.disk, StartSpec(cfg, s.phase.disk, now, wall, sio), k));
  }

  lemma {:induction false} StepKeepsLogin(cfg: Config, s: Sys, l: Label, state: string, login: Login, at: int)
    requires ValidGrammar(cfg.grammar) && SysInv(cfg, s) && Enabled(cfg, s, l)
    requires LoginKept(s.phase, state) && OpenedAs(s.log, state, login, at) && TimeOf(l) < at + 600
    requires IsCall(l) ==> !EndsLogin(l.call.op, state)
    ensures LoginKept(Taken(cfg, s, l).phase, state)
  {
    FiledAsOpened(s.log, MainMem(if s.phase.Up? then s.phase.st.disk else s.phase.disk), state, login, at);
    if IsCall(l) {
      var e := Perform(cfg, s.phase.st, l.call);
      CallKeepsLogin(cfg, s, l.call, state, if l.Run? then e.st.disk else CrashDisk(s.phase.st, e, l.k));
    } else {
      StartKeepsLogin(cfg, s, l, state);
    }
  }

  // ---- every run ----

  lemma {:induction false} IssuedStays(cfg: Config, s: Sys, l: Label, raw: string, user: int, at: int)
    requires Issued(raw, user, at) in s.log
    ensures Issued(raw, user, at) in Step(cfg, s, l).log
  {
    LogKept(cfg, s, l);
    var i :| 0 <= i < |s.log| && s.log[i] == Issued(raw, user, at);
    assert Step(cfg, s, l).log[i] == s.log[i];
  }

  lemma {:induction false} OpenedStays(cfg: Config, s: Sys, l: Label, state: string, login: Login, at: int)
    requires OpenedAs(s.log, state, login, at)
    ensures OpenedAs(Step(cfg, s, l).log, state, login, at)
  {
    LogKept(cfg, s, l);
    var i :| 0 <= i < |s.log| && Opens(s.log[i], state) && s.log[i].login == login && s.log[i].at == at;
    assert Step(cfg, s, l).log[i] == s.log[i];
  }

  /** Nothing in the run uses up or voids the ticket, and it all happens in the ticket's time. */
  predicate SparesTicket(later: seq<Label>, raw: string, user: int, until: int) {
    forall i :: 0 <= i < |later| ==> TimeOf(later[i]) < until && (IsCall(later[i]) ==> !EndsTicket(later[i].call.op, raw, user))
  }

  predicate SparesLogin(later: seq<Label>, state: string, until: int) {
    forall i :: 0 <= i < |later| ==> TimeOf(later[i]) < until && (IsCall(later[i]) ==> !EndsLogin(later[i].call.op, state))
  }

  /** A ticket stays on file until it is used, voided by a new one, or run out, through operations, failures, crashes and restarts. */
  lemma {:induction false} TicketStaysOnFile(cfg: Config, run: seq<Label>, later: seq<Label>, raw: string, user: int, at: int)
    requires ValidGrammar(cfg.grammar) && TicketKept(After(cfg, run).phase, raw) && Issued(raw, user, at) in After(cfg, run).log
    requires SparesTicket(later, raw, user, at + 600)
    ensures TicketKept(After(cfg, run + later).phase, raw) && Issued(raw, user, at) in After(cfg, run + later).log
  {
    if later == [] {
      assert run + later == run;
    } else {
      var front, l := later[..|later| - 1], later[|later| - 1];
      TicketStaysOnFile(cfg, run, front, raw, user, at);
      assert run + later == (run + front) + [l];
      assert ((run + front) + [l])[..|run + front|] == run + front;
      RunsKeep(cfg, run + front);
      IssuedStays(cfg, After(cfg, run + front), l, raw, user, at);
      if Enabled(cfg, After(cfg, run + front), l) { StepKeepsTicket(cfg, After(cfg, run + front), l, raw, user, at); }
    }
  }

  /** So does a login until it is closed or run out. */
  lemma {:induction false} LoginStaysOnFile(cfg: Config, run: seq<Label>, later: seq<Label>, state: string, login: Login, at: int)
    requires ValidGrammar(cfg.grammar) && LoginKept(After(cfg, run).phase, state) && OpenedAs(After(cfg, run).log, state, login, at)
    requires SparesLogin(later, state, at + 600)
    ensures LoginKept(After(cfg, run + later).phase, state) && OpenedAs(After(cfg, run + later).log, state, login, at)
  {
    if later == [] {
      assert run + later == run;
    } else {
      var front, l := later[..|later| - 1], later[|later| - 1];
      LoginStaysOnFile(cfg, run, front, state, login, at);
      assert run + later == (run + front) + [l];
      assert ((run + front) + [l])[..|run + front|] == run + front;
      RunsKeep(cfg, run + front);
      OpenedStays(cfg, After(cfg, run + front), l, state, login, at);
      if Enabled(cfg, After(cfg, run + front), l) { StepKeepsLogin(cfg, After(cfg, run + front), l, state, login, at); }
    }
  }

  // ---- using what is on file ----

  /** In every reachable store a ticket on file is good, for the user it was issued to, exactly until its ten minutes are over, and spending it succeeds exactly when that can be saved. */
  lemma {:induction false} TicketUsesExactly(cfg: Config, run: seq<Label>, raw: string, user: int, at: int, now: int, save: bool,
                                             nonce: string, verifier: string, state: string)
    requires ValidGrammar(cfg.grammar) && After(cfg, run).phase.Up?
    requires Digest(raw) in After(cfg, run).phase.st.mem.tickets && Issued(raw, user, at) in After(cfg, run).log
    ensures var st := After(cfg, run).phase.st;
      var looked := LookupSpec(st, raw, now).result;
      var spent: Result<int, StoreError> := if at + 600 <= now then Err(TicketInvalid) else if save then Ok(user) else Err(PersistFailed);
      && (if now < at + 600 then looked.Ok? && looked.value.id == user else looked == Err(TicketInvalid))
      && ConsumeTicketSpec(cfg, st, raw, now, save).result == spent
      && BeginFromTicketSpec(cfg, st, raw, nonce, verifier, state, now, save).result == spent
  {
    RunsKeep(cfg, run);
    var s := After(cfg, run);
    HistoryOfPart(s.log, s.phase.st.mem, MainMem(s.phase.st.disk));
    FiledAsIssued(s.log, s.phase.st.mem, raw, user, at);
    LookupAnswers(s.phase.st, raw, now);
    RedeemAnswers(cfg, s.phase.st, raw, now, save);
    TradeAnswers(cfg, s.phase.st, raw, nonce, verifier, state, now, save);
  }

  /**
    In every reachable store closing a login that is on file, opened with a nonce and a
    verifier, gives back exactly the login that was opened, until its ten minutes are
    over and if and only if it can be saved.
   */
  lemma {:induction false} LoginClosesExactly(cfg: Config, run: seq<Label>, state: string, login: Login, at: int, now: int, save: bool)
    requires ValidGrammar(cfg.grammar) && After(cfg, run).phase.Up?
    requires Digest(state) in After(cfg, run).phase.st.mem.transactions && OpenedAs(After(cfg, run).log, state, login, at)
    requires login.nonce != "" && login.verifier != ""
    ensures ConsumeTransactionSpec(cfg, After(cfg, run).phase.st, state, now, save).result
         == if at + 600 <= now then Err(TransactionInvalid) else if save then Ok(login) else Err(PersistFailed)
  {
    RunsKeep(cfg, run);
    var s := After(cfg, run);
    HistoryOfPart(s.log, s.phase.st.mem, MainMem(s.phase.st.disk));
    FiledAsOpened(s.log, s.phase.st.mem, state, login, at);
    CloseAnswers(cfg, s.phase.st, state, now, save);
  }

  // ---- from issue to close ----

  lemma {:induction false} MainIsMem(cfg: Config, s: Sys, c: Call)
    requires ValidGrammar(cfg.grammar) && SysInv(cfg, s) && Enabled(cfg, s, Run(c)) && Perform(cfg, s.phase.st, c).event.Some?
    requires !c.op.Put? && !c.op.Remove? && !c.op.Fail?
    ensures var e := Perform(cfg, s.phase.st, c); MainMem(e.st.disk) == e.st.mem
  {
    PerformGood(cfg, s.log, s.phase.st, c);
    TicketOpStep(cfg, s.log, s.phase.st, c);
    WrittenMain(cfg, s.phase.st.disk, Perform(cfg, s.phase.st, c).st.mem);
  }

  lemma {:induction false} LastOf(log: seq<Event>, e: Event)
    ensures e in log + [e]
    ensures (e.Traded? || e.Begun?) ==> OpenedAs(log + [e], e.state, e.login, e.at)
  {
    assert (log + [e])[|log|] == e;
  }

  /** A ticket issued and saved is on file. */
  lemma {:induction false} IssueFiles(cfg: Config, s: Sys, c: Call)
    requires ValidGrammar(cfg.grammar) && SysInv(cfg, s) && Enabled(cfg, s, Run(c)) && c.op.Issue? && c.op.account.id > 0 && c.save
    ensures var s' := Step(cfg, s, Run(c));
      && TicketKept(s'.phase, c.op.raw) && Issued(c.op.raw, c.op.account.id, c.now) in s'.log
  {
    IssueAnswers(cfg, s.phase.st, c.op.account, c.op.raw, c.now, c.save);
    MainIsMem(cfg, s, c);
    LastOf(s.log, Issued(c.op.raw, c.op.account.id, c.now));
  }

  /** A login traded for a good ticket and saved is on file. */
  lemma {:induction false} TradeFiles(cfg: Config, s: Sys, c: Call, user: int, at: int)
    requires ValidGrammar(cfg.grammar) && SysInv(cfg, s) && Enabled(cfg, s, Run(c)) && c.op.Trade? && c.save
    requires TicketKept(s.phase, c.op.raw) && Issued(c.op.raw, user, at) in s.log && c.now < at + 600
    ensures var s' := Step(cfg, s, Run(c));
      && LoginKept(s'.phase, c.op.state) && OpenedAs(s'.log, c.op.state, Login(user, c.op.nonce, c.op.verifier), c.now)
  {
    var op, st := c.op, s.phase.st;
    HistoryOfPart(s.log, st.mem, MainMem(st.disk));
    FiledAsIssued(s.log, st.mem, op.raw, user, at);
    TradeAnswers(cfg, st, op.raw, op.nonce, op.verifier, op.state, c.now, c.save);
    MainIsMem(cfg, s, c);
    LastOf(s.log, Traded(op.raw, op.state, Login(user, op.nonce, op.verifier), c.now));
  }

  /**
    A login succeeds. Issue a ticket and save it; let anything happen that does not use
    it up or void it, in its ten minutes; trade it and save that; let anything happen
    that does not close the login, in its ten minutes, crashes and restarts included;
    then closing the login, when the store is up and can save it, gives back the user,
    the nonce and the verifier.
   */
  lemma {:induction false} LoginCompletes(cfg: Config, run: seq<Label>, issue: Call, first: seq<Label>, trade: Call, second: seq<Label>, now: int)
    requires ValidGrammar(cfg.grammar)
    requires issue.op.Issue? && issue.op.account.id > 0 && issue.save && Enabled(cfg, After(cfg, run), Run(issue))
    requires SparesTicket(first, issue.op.raw, issue.op.account.id, issue.now + 600)
    requires trade.op.Trade? && trade.op.raw == issue.op.raw && trade.save && trade.now < issue.now + 600
    requires trade.op.nonce != "" && trade.op.verifier != ""
    requires Enabled(cfg, After(cfg, run + [Run(issue)] + first), Run(trade))
    requires SparesLogin(second, trade.op.state, trade.now + 600) && now < trade.now + 600
    ensures var s := After(cfg, run + [Run(issue)] + first + [Run(trade)] + second);
      s.phase.Up? ==>
        ConsumeTransactionSpec(cfg, s.phase.st, trade.op.state, now, true).result
          == Ok(Login(issue.op.account.id, trade.op.nonce, trade.op.verifier))
  {
    var one := run + [Run(issue)];
    var two := one + first;
    var three := two + [Run(trade)];
    var user, login := issue.op.account.id, Login(issue.op.account.id, trade.op.nonce, trade.op.verifier);
    RunsKeep(cfg, run);
    assert one[..|run|] == run;
    IssueFiles(cfg, After(cfg, run), issue);
    TicketStaysOnFile(cfg, one, first, issue.op.raw, user, issue.now);
    RunsKeep(cfg, two);
    assert three[..|two|] == two;
    TradeFiles(cfg, After(cfg, two), trade, user, issue.now);
    LoginStaysOnFile(cfg, three, second, trade.op.state, login, trade.now);
    if After(cfg, three + second).phase.Up? {
      LoginClosesExactly(cfg, three + second, trade.op.state, login, trade.now, now, true);
    }
  }
}
