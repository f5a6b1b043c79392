/**
  All runs of the binding store: any caller may invoke any operation with any
  arguments, every input and output step may fail, the process may crash between
  any two disk effects and is restarted any number of times.
 */
module StoreRuns {
  import opened Wrappers
  import opened Canonical
  import opened AuthSpec
  import opened Records
  import opened StoreSpec
  import opened StoreFacts
  import opened StoreOps
  import opened StoreEffects

  datatype Op =
    | Issue(account: Account, raw: string)
    | Lookup(raw: string)
    | Redeem(raw: string)
    | Begin(user: int, nonce: string, verifier: string, state: string)
    | Trade(raw: string, nonce: string, verifier: string, state: string)
    | Close(state: string)
    | Put(item: Binding, token: string, io: PutIO)
    | Remove(id: int, rio: RemoveIO)
    | Fail(id: int, clear: bool)

  /** An operation at the time its caller read, at the clock's time `wall`, with the outcome of its save. */
  datatype Call = Call(op: Op, now: int, wall: int, save: bool)

  /** What became durable: a ticket issued, redeemed, or traded for a login; a login begun, or closed. */
  datatype Event =
    | Issued(raw: string, user: int, at: int)
    | Redeemed(raw: string, user: int, at: int)
    | Traded(raw: string, state: string, login: Login, at: int)
    | Begun(state: string, login: Login, at: int)
    | Closed(state: string, login: Login, at: int)

  datatype Effect = Effect(st: State, trace: seq<Disk>, event: Option<Event>, error: Option<StoreError>)

  ghost function EffectOf<T>(o: Outcome<T>, event: Option<Event>): Effect {
    Effect(o.st, o.trace, if o.result.Ok? then event else None, if o.result.Err? then Some(o.result.error) else None)
  }

  ghost function Perform(cfg: Config, st: State, c: Call): Effect {
    match c.op
    case Issue(account, raw) => EffectOf(IssueSpec(cfg, st, account, raw, c.now, c.save), Some(Issued(raw, account.id, c.now)))
    case Lookup(raw) => EffectOf(LookupSpec(st, raw, c.now), None)
    case Redeem(raw) =>
      var o := ConsumeTicketSpec(cfg, st, raw, c.now, c.save);
      EffectOf(o, if o.result.Ok? then Some(Redeemed(raw, o.result.value, c.now)) else None)
    case Begin(user, nonce, verifier, state) =>
      EffectOf(BeginSpec(cfg, st, user, nonce, verifier, state, c.now, c.save), Some(Begun(state, Login(user, nonce, verifier), c.now)))
    case Trade(raw, nonce, verifier, state) =>
      var o := BeginFromTicketSpec(cfg, st, raw, nonce, verifier, state, c.now, c.save);
      EffectOf(o, if o.result.Ok? then Some(Traded(raw, state, Login(o.result.value, nonce, verifier), c.now)) else None)
    case Close(state) =>
      var o := ConsumeTransactionSpec(cfg, st, state, c.now, c.save);
      EffectOf(o, if o.result.Ok? then Some(Closed(state, o.result.value, c.now)) else None)
    case Put(item, token, io) => EffectOf(PutSpec(cfg, st, item, token, c.now, c.wall, io), None)
    case Remove(id, rio) => EffectOf(RemoveSpec(cfg, st, id, rio), None)
    case Fail(id, clear) => EffectOf(RecordFailureSpec(cfg, st, id, clear, c.now, c.save), None)
  }

  // ---- the machine ----

  datatype Phase = Up(st: State) | Down(disk: Disk)

  /** `skipped`: the users whose binding was last stored, in this process, without its permissions being replaced. */
  datatype Sys = Sys(phase: Phase, clock: int, log: seq<Event>, skipped: set<int>)

  datatype Label =
    | Run(call: Call)
    | Crash(call: Call, k: nat)
    | Start(now: int, wall: int, sio: StartIO)
    | HaltedStart(now: int, wall: int, sio: StartIO, k: nat)

  function Initial(): Sys { Sys(Down(Disk(None, None)), 0, [], {}) }

  /** Random tokens are new ones, and a login is begun for a proper user id. */
  ghost predicate Admissible(log: seq<Event>, op: Op) {
    match op
    case Issue(_, raw) => !Given(log, raw)
    case Begin(user, _, _, state) => user > 0 && !Opened(log, state)
    case Trade(_, _, _, state) => !Opened(log, state)
    case _ => true
  }

  ghost function StartDisk(disk: Disk, s: Started, k: nat): Disk
    requires k <= |s.trace|
  {
    if k == 0 then disk else s.trace[k - 1]
  }

  ghost function CrashDisk(st: State, e: Effect, k: nat): Disk
    requires k <= |e.trace|
  {
    if k == 0 then st.disk else e.trace[k - 1]
  }

  ghost predicate Enabled(cfg: Config, s: Sys, l: Label) {
    match l
    case Run(c) => s.phase.Up? && s.clock <= c.wall && Admissible(s.log, c.op)
    case Crash(c, k) => s.phase.Up? && s.clock <= c.wall && Admissible(s.log, c.op) && k <= |Perform(cfg, s.phase.st, c).trace|
    case Start(_, wall, _) => s.phase.Down? && s.clock <= wall
    case HaltedStart(now, wall, sio, k) =>
      s.phase.Down? && s.clock <= wall && k <= |StartSpec(cfg, s.phase.disk, now, wall, sio).trace|
  }

  function Logged(log: seq<Event>, event: Option<Event>): seq<Event> {
    if event.Some? then log + [event.value] else log
  }

  /** A store that returns before the permissions are replaced adds its user; the user's next finished store, clearing failure or removal drops it. */
  function Skipping(skipped: set<int>, st: State, op: Op, error: Option<StoreError>): set<int> {
    match op
    case Put(item, _, _) =>
      if error.Some? && SkipsPermissions(error.value) then skipped + {item.telegramId}
      else if error.None? || error.value == NothingSaved then skipped - {item.telegramId}
      else skipped
    case Remove(id, _) => if error.None? && id in st.mem.bindings then skipped - {id} else skipped
    case Fail(id, clear) => if error.None? && clear && id in st.mem.bindings then skipped - {id} else skipped
    case _ => skipped
  }

  ghost function Taken(cfg: Config, s: Sys, l: Label): Sys
    requires Enabled(cfg, s, l)
  {
    match l
    case Run(c) =>
      var e := Perform(cfg, s.phase.st, c);
      Sys(Up(e.st), c.wall, Logged(s.log, e.event), Skipping(s.skipped, s.phase.st, c.op, e.error))
    case Crash(c, k) =>
      var e := Perform(cfg, s.phase.st, c);
      Sys(Down(CrashDisk(s.phase.st, e, k)), c.wall, if k > 0 then Logged(s.log, e.event) else s.log, {})
    case Start(now, wall, sio) =>
      var started := StartSpec(cfg, s.phase.disk, now, wall, sio);
      Sys(if started.result.Ok? then Up(started.result.value) else Down(started.disk), wall, s.log, {})
    case HaltedStart(now, wall, sio, k) =>
      Sys(Down(StartDisk(s.phase.disk, StartSpec(cfg, s.phase.disk, now, wall, sio), k)), wall, s.log, {})
  }

  /** A step that cannot be taken changes nothing. */
  ghost function Step(cfg: Config, s: Sys, l: Label): Sys { if Enabled(cfg, s, l) then Taken(cfg, s, l) else s }

  ghost function After(cfg: Config, run: seq<Label>): Sys {
    if run == [] then Initial() else Step(cfg, After(cfg, run[..|run| - 1]), run[|run| - 1])
  }

  // ---- what the log says of tickets and logins ----

  predicate Gives(e: Event, raw: string) { e.Issued? && e.raw == raw }

  predicate Spends(e: Event, raw: string) { (e.Redeemed? || e.Traded?) && e.raw == raw }

  predicate Opens(e: Event, state: string) { (e.Traded? || e.Begun?) && e.state == state }

  predicate Closes(e: Event, state: string) { e.Closed? && e.state == state }

  predicate Given(log: seq<Event>, raw: string) { exists i :: 0 <= i < |log| && Gives(log[i], raw) }

  predicate Spent(log: seq<Event>, raw: string) { exists i :: 0 <= i < |log| && Spends(log[i], raw) }

  predicate Opened(log: seq<Event>, state: string) { exists i :: 0 <= i < |log| && Opens(log[i], state) }

  predicate WasClosed(log: seq<Event>, state: string) { exists i :: 0 <= i < |log| && Closes(log[i], state) }

  predicate OpenedAs(log: seq<Event>, state: string, login: Login, at: int) {
    exists i :: 0 <= i < |log| && Opens(log[i], state) && log[i].login == login && log[i].at == at
  }

  /** `e` may follow `log`: tokens are new; a ticket is spent once, by its user, in time; a login is closed once, as it was opened, in time. */
  ghost predicate EventOk(log: seq<Event>, e: Event) {
    match e
    case Issued(raw, _, _) => !Given(log, raw)
    case Redeemed(raw, user, at) => InTime(log, raw, user, at) && !Spent(log, raw)
    case Traded(raw, state, login, at) => InTime(log, raw, login.telegramId, at) && !Spent(log, raw) && !Opened(log, state)
    case Begun(state, _, _) => !Opened(log, state)
    case Closed(state, login, at) => ClosedInTime(log, state, login, at) && !WasClosed(log, state)
  }

  ghost predicate InTime(log: seq<Event>, raw: string, user: int, at: int) {
    exists issuedAt :: Issued(raw, user, issuedAt) in log && at < issuedAt + BIND_TICKET_TTL
  }

  ghost predicate ClosedInTime(log: seq<Event>, state: string, login: Login, at: int) {
    exists openedAt :: OpenedAs(log, state, login, openedAt) && at < openedAt + TRANSACTION_TTL
  }

  ghost predicate GoodLog(log: seq<Event>) {
    log != [] ==> GoodLog(log[..|log| - 1]) && EventOk(log[..|log| - 1], log[|log| - 1])
  }

  lemma GoodLogSnoc(log: seq<Event>, e: Event)
    requires GoodLog(log) && EventOk(log, e)
    ensures GoodLog(log + [e])
  {
    assert (log + [e])[..|log|] == log;
  }

  lemma LogGrows(log: seq<Event>, e: Event)
    ensures forall raw :: Given(log + [e], raw) <==> Given(log, raw) || Gives(e, raw)
    ensures forall raw :: Spent(log + [e], raw) <==> Spent(log, raw) || Spends(e, raw)
    ensures forall state :: Opened(log + [e], state) <==> Opened(log, state) || Opens(e, state)
    ensures forall state :: WasClosed(log + [e], state) <==> WasClosed(log, state) || Closes(e, state)
    ensures forall state, login, at :: OpenedAs(log, state, login, at) ==> OpenedAs(log + [e], state, login, at)
    ensures forall f :: f in log ==> f in log + [e]
  {
    var log' := log + [e];
    assert log'[|log|] == e;
    assert forall i :: 0 <= i < |log| ==> log'[i] == log[i];
  }

  lemma {:induction false} UsedWasMade(log: seq<Event>, token: string)
    requires GoodLog(log)
    ensures Spent(log, token) ==> Given(log, token)
    ensures WasClosed(log, token) ==> Opened(log, token)
  {
    if log != [] {
      var front, e := log[..|log| - 1], log[|log| - 1];
      assert log == front + [e];
      UsedWasMade(front, token);
      LogGrows(front, e);
      if Spends(e, token) {
        var user := if e.Redeemed? then e.user else e.login.telegramId;
        var at :| Issued(token, user, at) in front && e.at < at + BIND_TICKET_TTL;
        var i :| 0 <= i < |front| && front[i] == Issued(token, user, at);
        assert Gives(front[i], token);
      }
      if Closes(e, token) {
        var at :| OpenedAs(front, token, e.login, at) && e.at < at + TRANSACTION_TTL;
        var i :| 0 <= i < |front| && Opens(front[i], token) && front[i].login == e.login && front[i].at == at;
      }
    }
  }

  /** A ticket on file was issued to its user and has not been spent; a login on file was opened as it stands and has not been closed. */
  ghost predicate History(log: seq<Event>, main: Mem) {
    && (forall d :: d in main.tickets ==> Outstanding(log, d, main.tickets[d]))
    && (forall d :: d in main.transactions ==> Pending(log, d, main.transactions[d]))
  }

  ghost predicate Outstanding(log: seq<Event>, d: Digest, t: Ticket) {
    Issued(d.raw, t.telegramId, t.expiresAt - BIND_TICKET_TTL) in log && !Spent(log, d.raw)
  }

  ghost predicate Pending(log: seq<Event>, d: Digest, t: Transaction) {
    && GoodTransaction(d, t)
    && OpenedAs(log, d.raw, Login(t.telegramId, t.nonce.plaintext, t.verifier.plaintext), t.expiresAt - TRANSACTION_TTL)
    && !WasClosed(log, d.raw)
  }

  lemma HistoryOfPart(log: seq<Event>, part: Mem, main: Mem)
    requires History(log, main) && Mirrored(part, main)
    ensures History(log, part)
  {
  }

  /** An event leaves standing what it neither spends nor closes. */
  lemma HistoryGrows(log: seq<Event>, e: Event, main: Mem)
    requires History(log, main)
    requires forall d :: d in main.tickets ==> !Spends(e, d.raw)
    requires forall d :: d in main.transactions ==> !Closes(e, d.raw)
    ensures History(log + [e], main)
  {
    LogGrows(log, e);
  }

  lemma TicketFiled(log: seq<Event>, main: Mem, d: Digest, t: Ticket)
    requires History(log, main) && Outstanding(log, d, t)
    ensures History(log, main.(tickets := main.tickets[d := t]))
  {
  }

  lemma LoginFiled(log: seq<Event>, main: Mem, d: Digest, t: Transaction)
    requires History(log, main) && Pending(log, d, t)
    ensures History(log, main.(transactions := main.transactions[d := t]))
  {
  }

  // ---- one step ----

  ghost predicate EffectGood(cfg: Config, log: seq<Event>, st: State, e: Effect) {
    && StoreInv(cfg, e.st)
    && (forall d :: d in e.trace ==> DiskOk(cfg, d))
    && (e.event.Some? ==> EventOk(log, e.event.value) && e.trace == [e.st.disk])
    && History(Logged(log, e.event), MainMem(e.st.disk))
    && (e.event.None? ==> forall d :: d in e.trace ==> History(log, MainMem(d)))
    && (Clean(st) && !(e.error.Some? && StoredButFailed(e.error.value)) ==> Clean(e.st))
  }

  /** Storing a binding failed after memory was updated. */
  predicate StoredButFailed(e: StoreError) { e == NothingSaved || e == WalSavedStoreFailed || e == ClearWalFailed }

  lemma {:induction false} TicketEffect<T>(cfg: Config, log: seq<Event>, st: State, o: Outcome<T>, event: Option<Event>)
    requires StoreInv(cfg, st) && TicketStep(cfg, st, o) && History(log, MainMem(st.disk))
    requires EffectOf(o, event).event.Some? ==> o.trace != [] && EventOk(log, event.value)
    requires o.trace != [] ==> History(Logged(log, EffectOf(o, event).event), o.st.mem)
    ensures EffectGood(cfg, log, st, EffectOf(o, event))
  {
    TicketStepSound(cfg, st, o);
    WrittenMain(cfg, st.disk, o.st.mem);
  }

  lemma CleanedHistory(cfg: Config, log: seq<Event>, st: State, now: int)
    requires StoreInv(cfg, st) && History(log, MainMem(st.disk))
    ensures History(log, Cleanup(st.mem, now)) && GoodTickets(Cleanup(st.mem, now))
  {
    CleanupKeeps(st.mem, MainMem(st.disk), now);
    HistoryOfPart(log, Cleanup(st.mem, now), MainMem(st.disk));
  }

  lemma {:induction false} IssueToEffect(cfg: Config, log: seq<Event>, st: State, a: Account, raw: string, now: int, save: bool)
    requires StoreInv(cfg, st) && History(log, MainMem(st.disk)) && GoodLog(log)
    requires a.id > 0 && !Given(log, raw)
    ensures EffectGood(cfg, log, st, EffectOf(IssueTo(cfg, st, a, raw, now, save), Some(Issued(raw, a.id, now))))
  {
    IssueStep(cfg, st, a, raw, now, save);
    CleanedHistory(cfg, log, st, now);
    IssuedHistory(log, Cleanup(st.mem, now), a, raw, now);
    TicketEffect(cfg, log, st, IssueTo(cfg, st, a, raw, now, save), Some(Issued(raw, a.id, now)));
  }

  lemma NormalizedId(account: Account)
    ensures NormalizeAccount(account).Some? <==> account.id > 0
    ensures account.id > 0 ==> NormalizeAccount(account).value.id == account.id
  {
  }

  lemma {:induction false} IssueEffect(cfg: Config, log: seq<Event>, st: State, c: Call)
    requires StoreInv(cfg, st) && History(log, MainMem(st.disk)) && GoodLog(log)
    requires c.op.Issue? && !Given(log, c.op.raw)
    ensures EffectGood(cfg, log, st, Perform(cfg, st, c))
  {
    var raw, account := c.op.raw, c.op.account;
    NormalizedId(account);
    var n := NormalizeAccount(account);
    if n.Some? {
      IssueToEffect(cfg, log, st, n.value, raw, c.now, c.save);
    } else {
      NoTicketStep(cfg, st);
      TicketEffect<string>(cfg, log, st, Outcome(st, [], Err(BadAccount)), Some(Issued(raw, account.id, c.now)));
    }
  }

  lemma {:induction false} IssuedHistory(log: seq<Event>, mem: Mem, a: Account, raw: string, now: int)
    requires GoodLog(log) && History(log, mem) && !Given(log, raw)
    ensures History(log + [Issued(raw, a.id, now)],
      mem.(tickets := WithoutUser(mem.tickets, a.id)[Digest(raw) := Ticket(a.id, a.name, a.username, now + BIND_TICKET_TTL)]))
  {
    var e := Issued(raw, a.id, now);
    var part := mem.(tickets := WithoutUser(mem.tickets, a.id));
    HistoryOfPart(log, part, mem);
    HistoryGrows(log, e, part);
    LogGrows(log, e);
    UsedWasMade(log, raw);
    assert e in log + [e] by { assert (log + [e])[|log|] == e; }
    TicketFiled(log + [e], part, Digest(raw), Ticket(a.id, a.name, a.username, now + BIND_TICKET_TTL));
  }

  /** A ticket taken from memory in time may be spent. */
  lemma {:induction false} SpendOk(log: seq<Event>, mem: Mem, raw: string, now: int)
    requires History(log, mem) && Digest(raw) in mem.tickets && now < mem.tickets[Digest(raw)].expiresAt
    ensures InTime(log, raw, mem.tickets[Digest(raw)].telegramId, now) && !Spent(log, raw)
  {
    var t := mem.tickets[Digest(raw)];
    assert Issued(raw, t.telegramId, t.expiresAt - BIND_TICKET_TTL) in log;
  }

  lemma {:induction false} RedeemEffect(cfg: Config, log: seq<Event>, st: State, c: Call)
    requires StoreInv(cfg, st) && History(log, MainMem(st.disk)) && GoodLog(log)
    requires c.op.Redeem?
    ensures EffectGood(cfg, log, st, Perform(cfg, st, c))
  {
    var raw := c.op.raw;
    var mem := Cleanup(st.mem, c.now);
    var o := ConsumeTicketSpec(cfg, st, raw, c.now, c.save);
    ConsumeTicketStep(cfg, st, raw, c.now, c.save);
    CleanedHistory(cfg, log, st, c.now);
    if o.result.Ok? {
      SpendOk(log, mem, raw, c.now);
      var used := mem.(tickets := mem.tickets - {Digest(raw)});
      HistoryOfPart(log, used, mem);
      HistoryGrows(log, Redeemed(raw, o.result.value, c.now), used);
      TicketEffect(cfg, log, st, o, Some(Redeemed(raw, o.result.value, c.now)));
    } else {
      TicketEffect(cfg, log, st, o, None);
    }
  }

  /** A login opened under a new state token is on file as it was opened. */
  lemma {:induction false} OpenedHistory(log: seq<Event>, mem: Mem, e: Event)
    requires GoodLog(log) && History(log, mem) && (e.Traded? || e.Begun?) && !Opened(log, e.state) && e.login.telegramId > 0
    requires e.Traded? ==> Digest(e.raw) !in mem.tickets
    ensures var d := Digest(e.state);
      History(log + [e], mem.(transactions := mem.transactions[d := SealTransaction(d, e.login.telegramId, e.login.nonce, e.login.verifier, e.at)]))
  {
    var d := Digest(e.state);
    HistoryGrows(log, e, mem);
    LogGrows(log, e);
    UsedWasMade(log, e.state);
    assert (log + [e])[|log|] == e;
    assert OpenedAs(log + [e], e.state, e.login, e.at);
    LoginFiled(log + [e], mem, d, SealTransaction(d, e.login.telegramId, e.login.nonce, e.login.verifier, e.at));
  }

  lemma {:induction false} StateIsNew(log: seq<Event>, mem: Mem, state: string)
    requires History(log, mem)
    ensures Digest(state) in mem.transactions ==> Opened(log, state)
  {
    if Digest(state) in mem.transactions {
      assert Pending(log, Digest(state), mem.transactions[Digest(state)]);
    }
  }

  lemma {:induction false} BeginEffect(cfg: Config, log: seq<Event>, st: State, c: Call)
    requires StoreInv(cfg, st) && History(log, MainMem(st.disk)) && GoodLog(log)
    requires c.op.Begin? && Admissible(log, c.op)
    ensures EffectGood(cfg, log, st, Perform(cfg, st, c))
  {
    var op := c.op;
    var e := Begun(op.state, Login(op.user, op.nonce, op.verifier), c.now);
    HistoryOfPart(log, st.mem, MainMem(st.disk));
    StateIsNew(log, st.mem, op.state);
    BeginStep(cfg, st, op.user, op.nonce, op.verifier, op.state, c.now, c.save);
    CleanedHistory(cfg, log, st, c.now);
    OpenedHistory(log, Cleanup(st.mem, c.now), e);
    TicketEffect(cfg, log, st, BeginSpec(cfg, st, op.user, op.nonce, op.verifier, op.state, c.now, c.save), Some(e));
  }

  lemma {:induction false} TradeEffect(cfg: Config, log: seq<Event>, st: State, c: Call)
    requires StoreInv(cfg, st) && History(log, MainMem(st.disk)) && GoodLog(log)
    requires c.op.Trade? && Admissible(log, c.op)
    ensures EffectGood(cfg, log, st, Perform(cfg, st, c))
  {
    var op := c.op;
    var mem := Cleanup(st.mem, c.now);
    var o := BeginFromTicketSpec(cfg, st, op.raw, op.nonce, op.verifier, op.state, c.now, c.save);
    HistoryOfPart(log, st.mem, MainMem(st.disk));
    StateIsNew(log, st.mem, op.state);
    BeginFromTicketStep(cfg, st, op.raw, op.nonce, op.verifier, op.state, c.now, c.save);
    CleanedHistory(cfg, log, st, c.now);
    if o.result.Ok? {
      var e := Traded(op.raw, op.state, Login(o.result.value, op.nonce, op.verifier), c.now);
      SpendOk(log, mem, op.raw, c.now);
      var left := mem.(tickets := mem.tickets - {Digest(op.raw)});
      HistoryOfPart(log, left, mem);
      OpenedHistory(log, left, e);
      TicketEffect(cfg, log, st, o, Some(e));
    } else {
      TicketEffect(cfg, log, st, o, None);
    }
  }

  lemma {:induction false} CloseOk(log: seq<Event>, mem: Mem, state: string, now: int)
    requires History(log, mem) && Digest(state) in mem.transactions && now < mem.transactions[Digest(state)].expiresAt
    requires OpenTransaction(Digest(state), mem.transactions[Digest(state)]).Some?
    ensures EventOk(log, Closed(state, OpenTransaction(Digest(state), mem.transactions[Digest(state)]).value, now))
  {
    var t := mem.transactions[Digest(state)];
    assert Pending(log, Digest(state), t);
    assert OpenedAs(log, state, OpenTransaction(Digest(state), t).value, t.expiresAt - TRANSACTION_TTL);
  }

  /** Whatever a consumption writes, it writes memory without that login. */
  lemma {:induction false} CloseShape(cfg: Config, st: State, state: string, now: int, save: bool)
    ensures var o := ConsumeTransactionSpec(cfg, st, state, now, save);
      var mem := Cleanup(st.mem, now);
      && (o.trace != [] ==> o.st.mem == mem.(transactions := mem.transactions - {Digest(state)}))
      && (o.result.Ok? ==> o.trace != [] && Digest(state) in mem.transactions && now < mem.transactions[Digest(state)].expiresAt)
      && (o.result.Ok? ==> OpenTransaction(Digest(state), mem.transactions[Digest(state)]) == Some(o.result.value))
  {
  }

  lemma {:induction false} ClosedHistory(log: seq<Event>, mem: Mem, state: string, now: int)
    requires History(log, mem)
    ensures var used := mem.(transactions := mem.transactions - {Digest(state)});
      History(log, used) && forall login :: History(log + [Closed(state, login, now)], used)
  {
    var used := mem.(transactions := mem.transactions - {Digest(state)});
    HistoryOfPart(log, used, mem);
    forall login ensures History(log + [Closed(state, login, now)], used) { HistoryGrows(log, Closed(state, login, now), used); }
  }

  lemma {:induction false} ClosedEffect(cfg: Config, log: seq<Event>, st: State, state: string, now: int, save: bool)
    requires StoreInv(cfg, st) && History(log, MainMem(st.disk)) && GoodLog(log)
    requires ConsumeTransactionSpec(cfg, st, state, now, save).result.Ok?
    ensures var o := ConsumeTransactionSpec(cfg, st, state, now, save);
      EffectGood(cfg, log, st, EffectOf(o, Some(Closed(state, o.result.value, now))))
  {
    var o := ConsumeTransactionSpec(cfg, st, state, now, save);
    ConsumeTransactionStep(cfg, st, state, now, save);
    CleanedHistory(cfg, log, st, now);
    ClosedHistory(log, Cleanup(st.mem, now), state, now);
    CloseShape(cfg, st, state, now, save);
    CloseOk(log, Cleanup(st.mem, now), state, now);
    TicketEffect(cfg, log, st, o, Some(Closed(state, o.result.value, now)));
  }

  lemma {:induction false} NotClosedEffect(cfg: Config, log: seq<Event>, st: State, state: string, now: int, save: bool)
    requires StoreInv(cfg, st) && History(log, MainMem(st.disk))
    requires ConsumeTransactionSpec(cfg, st, state, now, save).result.Err?
    ensures EffectGood(cfg, log, st, EffectOf(ConsumeTransactionSpec(cfg, st, state, now, save), None))
  {
    ConsumeTransactionStep(cfg, st, state, now, save);
    CleanedHistory(cfg, log, st, now);
    ClosedHistory(log, Cleanup(st.mem, now), state, now);
    CloseShape(cfg, st, state, now, save);
    TicketEffect(cfg, log, st, ConsumeTransactionSpec(cfg, st, state, now, save), None);
  }

  lemma {:induction false} CloseEffect(cfg: Config, log: seq<Event>, st: State, c: Call)
    requires StoreInv(cfg, st) && History(log, MainMem(st.disk)) && GoodLog(log)
    requires c.op.Close?
    ensures EffectGood(cfg, log, st, Perform(cfg, st, c))
  {
    ClosePerform(cfg, st, c);
    if ConsumeTransactionSpec(cfg, st, c.op.state, c.now, c.save).result.Ok? {
      ClosedEffect(cfg, log, st, c.op.state, c.now, c.save);
    } else {
      NotClosedEffect(cfg, log, st, c.op.state, c.now, c.save);
    }
  }

  lemma {:induction false} ClosePerform(cfg: Config, st: State, c: Call)
    requires c.op.Close?
    ensures var o := ConsumeTransactionSpec(cfg, st, c.op.state, c.now, c.save);
      Perform(cfg, st, c) == EffectOf(o, if o.result.Ok? then Some(Closed(c.op.state, o.result.value, c.now)) else None)
  {
  }

  lemma {:induction false} LookupEffect(cfg: Config, log: seq<Event>, st: State, c: Call)
    requires StoreInv(cfg, st) && History(log, MainMem(st.disk))
    requires c.op.Lookup?
    ensures EffectGood(cfg, log, st, Perform(cfg, st, c))
  {
    LookupStep(cfg, st, c.op.raw, c.now);
    TicketEffect(cfg, log, st, LookupSpec(st, c.op.raw, c.now), None);
  }

  /** Operations on bindings log nothing and add no ticket or login. */
  lemma {:induction false} BindingEffect<T>(cfg: Config, log: seq<Event>, st: State, o: Outcome<T>)
    requires History(log, MainMem(st.disk))
    requires Sound(cfg, st, o) && KeepsTickets(MainMem(st.disk), o.st.disk, o.trace)
    requires Clean(st) && (o.result.Ok? || !StoredButFailed(o.result.error)) ==> Clean(o.st)
    ensures EffectGood(cfg, log, st, EffectOf(o, None))
  {
    HistoryOfPart(log, MainMem(o.st.disk), MainMem(st.disk));
    forall d | d in o.trace ensures History(log, MainMem(d)) { HistoryOfPart(log, MainMem(d), MainMem(st.disk)); }
  }

  lemma {:induction false} PutEffect(cfg: Config, log: seq<Event>, st: State, c: Call)
    requires ValidGrammar(cfg.grammar) && StoreInv(cfg, st) && History(log, MainMem(st.disk))
    requires c.op.Put?
    ensures EffectGood(cfg, log, st, Perform(cfg, st, c))
  {
    var p := Prepared(cfg, st.mem.bindings, c.op.item, c.op.token, c.now);
    PutShape(cfg, st, c.op.item, c.op.token, c.now, c.wall, c.op.io);
    PutPerform(cfg, st, c, PutSpec(cfg, st, c.op.item, c.op.token, c.now, c.wall, c.op.io));
    if p.Ok? && c.op.io.seal {
      StoredEffect(cfg, log, st, p.value, c.wall, c.op.io);
    } else {
      RefusedEffect(cfg, log, st, if p.Err? then p.error else SealFailed);
    }
  }

  lemma PutPerform(cfg: Config, st: State, c: Call, o: Outcome<()>)
    requires c.op.Put? && o == PutSpec(cfg, st, c.op.item, c.op.token, c.now, c.wall, c.op.io)
    ensures Perform(cfg, st, c) == EffectOf(o, None)
  {
  }

  lemma {:induction false} RefusedEffect(cfg: Config, log: seq<Event>, st: State, e: StoreError)
    requires StoreInv(cfg, st) && History(log, MainMem(st.disk))
    ensures EffectGood(cfg, log, st, EffectOf<()>(Outcome(st, [], Err(e)), None))
  {
  }

  lemma {:induction false} StoredEffect(cfg: Config, log: seq<Event>, st: State, b: Binding, wall: int, io: PutIO)
    requires StoreInv(cfg, st) && History(log, MainMem(st.disk)) && Storable(cfg, st.mem.bindings, b)
    ensures EffectGood(cfg, log, st, EffectOf(PutCases(cfg, st, b, wall, io), None))
  {
    PutSound(cfg, st, b, wall, io);
    PutMirror(cfg, st, b, wall, io);
    StoredClean(cfg, st, b, wall, io);
    BindingEffect(cfg, log, st, PutCases(cfg, st, b, wall, io));
  }

  lemma {:induction false} StoredClean(cfg: Config, st: State, b: Binding, wall: int, io: PutIO)
    requires StoreInv(cfg, st) && Storable(cfg, st.mem.bindings, b)
    ensures var o := PutCases(cfg, st, b, wall, io);
      Clean(st) && (o.result.Ok? || !StoredButFailed(o.result.error)) ==> Clean(o.st)
  {
    PutClean(cfg, st, b, wall, io);
  }

  lemma {:induction false} RemoveEffect(cfg: Config, log: seq<Event>, st: State, id: int, rio: RemoveIO)
    requires StoreInv(cfg, st) && History(log, MainMem(st.disk))
    ensures EffectGood(cfg, log, st, EffectOf(RemoveSpec(cfg, st, id, rio), None))
  {
    RemoveSound(cfg, st, id, rio);
    RemoveClean(cfg, st, id, rio);
    RemoveMirror(cfg, st, id, rio);
    BindingEffect(cfg, log, st, RemoveSpec(cfg, st, id, rio));
  }

  lemma {:induction false} FailEffect(cfg: Config, log: seq<Event>, st: State, id: int, clear: bool, now: int, save: bool)
    requires StoreInv(cfg, st) && History(log, MainMem(st.disk))
    ensures EffectGood(cfg, log, st, EffectOf(RecordFailureSpec(cfg, st, id, clear, now, save), None))
  {
    RecordFailureSound(cfg, st, id, clear, now, save);
    FailureMirror(cfg, st, id, clear, now, save);
    BindingEffect(cfg, log, st, RecordFailureSpec(cfg, st, id, clear, now, save));
  }

  lemma {:induction false} PerformGood(cfg: Config, log: seq<Event>, st: State, c: Call)
    requires ValidGrammar(cfg.grammar) && StoreInv(cfg, st) && History(log, MainMem(st.disk)) && GoodLog(log)
    requires Admissible(log, c.op)
    ensures EffectGood(cfg, log, st, Perform(cfg, st, c))
  {
    match c.op
    case Issue(_, _) => IssueEffect(cfg, log, st, c);
    case Lookup(_) => LookupEffect(cfg, log, st, c);
    case Redeem(_) => RedeemEffect(cfg, log, st, c);
    case Begin(_, _, _, _) => BeginEffect(cfg, log, st, c);
    case Trade(_, _, _, _) => TradeEffect(cfg, log, st, c);
    case Close(_) => CloseEffect(cfg, log, st, c);
    case Put(_, _, _) => PutEffect(cfg, log, st, c);
    case Remove(id, rio) => RemoveEffect(cfg, log, st, id, rio);
    case Fail(id, clear) => FailEffect(cfg, log, st, id, clear, c.now, c.save);
  }

  /** A ticket operation leaves bindings and permissions alone, and writes memory to the main file or nothing. */
  lemma {:induction false} TicketOpStep(cfg: Config, log: seq<Event>, st: State, c: Call)
    requires StoreInv(cfg, st) && History(log, MainMem(st.disk)) && Admissible(log, c.op)
    requires !c.op.Put? && !c.op.Remove? && !c.op.Fail?
    ensures var e := Perform(cfg, st, c);
      && e.st.mem.bindings == st.mem.bindings && e.st.federated == st.federated
      && ((e.trace == [] && e.st.disk == st.disk) || (e.trace == [e.st.disk] && e.st.disk == Written(cfg, st.disk, e.st.mem)))
  {
    HistoryOfPart(log, st.mem, MainMem(st.disk));
    match c.op
    case Issue(account, raw) =>
      NormalizedId(account);
      if account.id > 0 { IssueStep(cfg, st, NormalizeAccount(account).value, raw, c.now, c.save); }
    case Lookup(raw) => LookupStep(cfg, st, raw, c.now);
    case Redeem(raw) => ConsumeTicketStep(cfg, st, raw, c.now, c.save);
    case Begin(user, nonce, verifier, state) =>
      StateIsNew(log, st.mem, state);
      BeginStep(cfg, st, user, nonce, verifier, state, c.now, c.save);
    case Trade(raw, nonce, verifier, state) =>
      StateIsNew(log, st.mem, state);
      BeginFromTicketStep(cfg, st, raw, nonce, verifier, state, c.now, c.save);
    case Close(state) => ConsumeTransactionStep(cfg, st, state, c.now, c.save);
    case _ =>
  }

  lemma {:induction false} PutOpFed(cfg: Config, st: State, clock: int, skipped: set<int>, c: Call)
    requires ValidGrammar(cfg.grammar) && StoreInv(cfg, st) && clock <= c.wall && c.op.Put?
    requires FedAgrees(st.federated, st.mem.bindings, clock, skipped)
    ensures var e := Perform(cfg, st, c); FedAgrees(e.st.federated, e.st.mem.bindings, c.wall, Skipping(skipped, st, c.op, e.error))
  {
    PutShape(cfg, st, c.op.item, c.op.token, c.now, c.wall, c.op.io);
    var p := Prepared(cfg, st.mem.bindings, c.op.item, c.op.token, c.now);
    if p.Ok? && c.op.io.seal {
      PutFed(cfg, st, p.value, c.wall, c.op.io, clock, skipped);
    } else {
      RefusedSkips(cfg, st.mem.bindings, c.op.item, c.op.token, c.now, p);
      FedLater(st.federated, st.mem.bindings, clock, c.wall, skipped);
    }
  }

  lemma {:induction false} RefusedSkips(cfg: Config, m: map<int, Binding>, item: Binding, token: string, now: int, p: Result<Binding, StoreError>)
    requires p == Prepared(cfg, m, item, token, now)
    ensures p.Err? ==> !SkipsPermissions(p.error) && p.error != NothingSaved
  {
  }

  lemma {:induction false} TicketOpFed(cfg: Config, log: seq<Event>, st: State, clock: int, skipped: set<int>, c: Call)
    requires StoreInv(cfg, st) && History(log, MainMem(st.disk)) && Admissible(log, c.op) && clock <= c.wall
    requires !c.op.Put? && !c.op.Remove? && !c.op.Fail?
    requires FedAgrees(st.federated, st.mem.bindings, clock, skipped)
    ensures var e := Perform(cfg, st, c); FedAgrees(e.st.federated, e.st.mem.bindings, c.wall, skipped)
  {
    TicketOpStep(cfg, log, st, c);
    FedLater(st.federated, st.mem.bindings, clock, c.wall, skipped);
  }

  /** Each operation keeps the permission table in step for everybody it does not leave out. */
  lemma {:induction false} PerformFed(cfg: Config, log: seq<Event>, st: State, clock: int, skipped: set<int>, c: Call)
    requires ValidGrammar(cfg.grammar) && StoreInv(cfg, st) && History(log, MainMem(st.disk)) && Admissible(log, c.op) && clock <= c.wall
    requires FedAgrees(st.federated, st.mem.bindings, clock, skipped)
    ensures var e := Perform(cfg, st, c); FedAgrees(e.st.federated, e.st.mem.bindings, c.wall, Skipping(skipped, st, c.op, e.error))
  {
    match c.op
    case Put(_, _, _) => PutOpFed(cfg, st, clock, skipped, c);
    case Remove(id, rio) => RemoveFed(cfg, st, id, rio, clock, c.wall, skipped);
    case Fail(id, clear) => FailureFed(cfg, st, id, clear, c.now, c.save, clock, c.wall, skipped);
    case _ => TicketOpFed(cfg, log, st, clock, skipped, c);
  }

  // ---- every run ----

  ghost predicate SysInv(cfg: Config, s: Sys) {
    && GoodLog(s.log)
    && match s.phase
       case Up(st) =>
         && StoreInv(cfg, st) && History(s.log, MainMem(st.disk))
         && FedAgrees(st.federated, st.mem.bindings, s.clock, s.skipped)
       case Down(d) => DiskOk(cfg, d) && History(s.log, MainMem(d))
  }

  lemma {:induction false} RunKeeps(cfg: Config, s: Sys, c: Call)
    requires ValidGrammar(cfg.grammar) && SysInv(cfg, s) && Enabled(cfg, s, Run(c))
    ensures SysInv(cfg, Taken(cfg, s, Run(c)))
  {
    PerformGood(cfg, s.log, s.phase.st, c);
    PerformFed(cfg, s.log, s.phase.st, s.clock, s.skipped, c);
    var e := Perform(cfg, s.phase.st, c);
    if e.event.Some? { GoodLogSnoc(s.log, e.event.value); }
  }

  lemma {:induction false} CrashDiskGood(cfg: Config, log: seq<Event>, st: State, e: Effect, k: nat)
    requires StoreInv(cfg, st) && History(log, MainMem(st.disk)) && EffectGood(cfg, log, st, e) && k <= |e.trace|
    ensures DiskOk(cfg, CrashDisk(st, e, k)) && History(if k > 0 then Logged(log, e.event) else log, MainMem(CrashDisk(st, e, k)))
  {
    InvDiskOk(cfg, st);
    if k > 0 { assert e.trace[k - 1] in e.trace; }
  }

  lemma {:induction false} CrashKeeps(cfg: Config, s: Sys, c: Call, k: nat)
    requires ValidGrammar(cfg.grammar) && SysInv(cfg, s) && Enabled(cfg, s, Crash(c, k))
    ensures SysInv(cfg, Taken(cfg, s, Crash(c, k)))
  {
    var e := Perform(cfg, s.phase.st, c);
    PerformGood(cfg, s.log, s.phase.st, c);
    CrashDiskGood(cfg, s.log, s.phase.st, e, k);
    if e.event.Some? { GoodLogSnoc(s.log, e.event.value); }
  }

  lemma {:induction false} StartKeeps(cfg: Config, s: Sys, now: int, wall: int, sio: StartIO)
    requires ValidGrammar(cfg.grammar) && SysInv(cfg, s) && Enabled(cfg, s, Start(now, wall, sio))
    ensures SysInv(cfg, Taken(cfg, s, Start(now, wall, sio)))
  {
    var disk := s.phase.disk;
    var started := StartSpec(cfg, disk, now, wall, sio);
    RestartFacts(cfg, s.log, disk, now, wall, sio);
    if started.result.Ok? { FedSeededAll(Recovered(disk), wall); }
  }

  lemma {:induction false} RestartFacts(cfg: Config, log: seq<Event>, disk: Disk, now: int, wall: int, sio: StartIO)
    requires ValidGrammar(cfg.grammar) && DiskOk(cfg, disk) && History(log, MainMem(disk))
    ensures var started := StartSpec(cfg, disk, now, wall, sio);
      && StartSound(cfg, disk, started, now, wall, sio)
      && DiskOk(cfg, started.disk) && History(log, MainMem(started.disk))
      && (forall d :: d in started.trace ==> DiskOk(cfg, d) && History(log, MainMem(d)))
  {
    var started := StartSpec(cfg, disk, now, wall, sio);
    StartAccepts(cfg, disk, now, wall, sio);
    StartMirror(cfg, disk, now, wall, sio);
    RecoveredDiskGood(cfg, disk);
    HistoryOfPart(log, MainMem(started.disk), MainMem(disk));
    forall d | d in started.trace ensures DiskOk(cfg, d) && History(log, MainMem(d)) {
      HistoryOfPart(log, MainMem(d), MainMem(disk));
    }
  }

  lemma {:induction false} RecoveredDiskGood(cfg: Config, disk: Disk)
    requires DiskOk(cfg, disk)
    ensures GoodBindings(cfg, Recovered(disk))
  {
    var m :| GoodBindings(cfg, m) && DiskWithin(cfg, disk, m);
    RecoveredGood(cfg, disk, m);
  }

  lemma {:induction false} HaltedStartKeeps(cfg: Config, s: Sys, now: int, wall: int, sio: StartIO, k: nat)
    requires ValidGrammar(cfg.grammar) && SysInv(cfg, s) && Enabled(cfg, s, HaltedStart(now, wall, sio, k))
    ensures SysInv(cfg, Taken(cfg, s, HaltedStart(now, wall, sio, k)))
  {
    RestartFacts(cfg, s.log, s.phase.disk, now, wall, sio);
  }

  lemma {:induction false} StepKeeps(cfg: Config, s: Sys, l: Label)
    requires ValidGrammar(cfg.grammar) && SysInv(cfg, s)
    ensures SysInv(cfg, Step(cfg, s, l))
  {
    if Enabled(cfg, s, l) {
      match l
      case Run(c) => RunKeeps(cfg, s, c);
      case Crash(c, k) => CrashKeeps(cfg, s, c, k);
      case Start(now, wall, sio) => StartKeeps(cfg, s, now, wall, sio);
      case HaltedStart(now, wall, sio, k) => HaltedStartKeeps(cfg, s, now, wall, sio, k);
    }
  }

  lemma {:induction false} EmptyDiskOk(cfg: Config)
    ensures SysInv(cfg, Initial())
  {
    var m: map<int, Binding> := map[];
    assert GoodBindings(cfg, m) && DiskWithin(cfg, Disk(None, None), m);
  }

  lemma {:induction false} RunsKeep(cfg: Config, run: seq<Label>)
    requires ValidGrammar(cfg.grammar)
    ensures SysInv(cfg, After(cfg, run))
  {
    if run == [] {
      EmptyDiskOk(cfg);
    } else {
      RunsKeep(cfg, run[..|run| - 1]);
      StepKeeps(cfg, After(cfg, run[..|run| - 1]), run[|run| - 1]);
    }
  }

  // ---- what the runs guarantee ----

  /**
    In every reachable running store, identities are bound to one user each, and
    every identity in the main file or in the log is memory's. After any crash the
    restart finds those bindings, and nothing but a failing disk can stop it.
   */
  lemma {:induction false} RecoveryNeverRejects(cfg: Config, run: seq<Label>, now: int, wall: int, sio: StartIO)
    requires ValidGrammar(cfg.grammar)
    ensures match After(cfg, run).phase
      case Up(st) =>
        && OneToOne(st.mem.bindings) && SubOwner(MainMem(st.disk).bindings, st.mem.bindings)
        && SubOwner(Recovered(st.disk), st.mem.bindings)
      case Down(d) =>
        var started := StartSpec(cfg, d, now, wall, sio);
        && (started.result.Err? ==> IsIOError(started.result.error))
        && (sio == ALL_OK ==> started.result.Ok?)
        && (started.result.Ok? ==> started.result.value.mem.bindings == Recovered(d) && Clean(started.result.value))
  {
    RunsKeep(cfg, run);
    match After(cfg, run).phase
    case Up(st) => RecoveredGood(cfg, st.disk, st.mem.bindings);
    case Down(d) => StartAccepts(cfg, d, now, wall, sio);
  }

  /** For every user, save those whose last store returned before its permissions were replaced, and for every later time, the table grants exactly what the binding lists. */
  lemma {:induction false} PermissionsRefineBindings(cfg: Config, run: seq<Label>, id: int, t: int)
    requires ValidGrammar(cfg.grammar)
    ensures var s := After(cfg, run);
      s.phase.Up? && id !in s.skipped && s.clock <= t ==>
        ActiveFederated(s.phase.st.federated, id, t) == Wanted(s.phase.st.mem.bindings, id, t)
  {
    RunsKeep(cfg, run);
  }

  /**
    Cleanliness -- no log, and a main file that agrees with memory -- is kept by
    every operation, also when its own save fails, except by storing a binding with
    a failure after memory was updated; storing one with all three disk steps
    succeeding restores it from any reachable store, and so does a start-up.
   */
  lemma {:induction false} CleanAgain(cfg: Config, run: seq<Label>, l: Label)
    requires ValidGrammar(cfg.grammar) && Enabled(cfg, After(cfg, run), l)
    ensures var s := After(cfg, run); var s' := Step(cfg, s, l);
      match l
      case Run(c) =>
        var e := Perform(cfg, s.phase.st, c);
        && (Clean(s.phase.st) && !(e.error.Some? && StoredButFailed(e.error.value)) ==> Clean(s'.phase.st))
        && (FullPut(c) && e.error.None? ==> Clean(s'.phase.st))
      case Start(_, _, _) => s'.phase.Up? ==> Clean(s'.phase.st)
      case _ => s'.phase.Down?
  {
    var s := After(cfg, run);
    RunsKeep(cfg, run);
    match l
    case Run(c) =>
      PerformGood(cfg, s.log, s.phase.st, c);
      if FullPut(c) { FullPutCleans(cfg, s.phase.st, c.op.item, c.op.token, c.now, c.wall); }
    case Start(now, wall, sio) => RestartFacts(cfg, s.log, s.phase.disk, now, wall, sio);
    case _ =>
  }

  /** Storing a binding with all three disk steps succeeding. */
  predicate FullPut(c: Call) { c.op.Put? && c.op.io == PutIO(true, true, true, true) }

  lemma {:induction false} FullPutCleans(cfg: Config, st: State, item: Binding, token: string, now: int, wall: int)
    requires ValidGrammar(cfg.grammar) && StoreInv(cfg, st)
    ensures var o := PutSpec(cfg, st, item, token, now, wall, PutIO(true, true, true, true)); o.result.Ok? ==> Clean(o.st)
  {
    var io := PutIO(true, true, true, true);
    PutShape(cfg, st, item, token, now, wall, io);
    var p := Prepared(cfg, st.mem.bindings, item, token, now);
    if p.Ok? { PutClean(cfg, st, p.value, wall, io); }
  }

  /** No ticket is spent twice and no login opened or closed twice; tokens of both kinds are given out once. */
  lemma {:induction false} SingleUse(cfg: Config, run: seq<Label>, i: nat, j: nat, token: string)
    requires ValidGrammar(cfg.grammar) && i < j < |After(cfg, run).log|
    ensures var log := After(cfg, run).log;
      && !(Gives(log[i], token) && Gives(log[j], token)) && !(Spends(log[i], token) && Spends(log[j], token))
      && !(Opens(log[i], token) && Opens(log[j], token)) && !(Closes(log[i], token) && Closes(log[j], token))
  {
    RunsKeep(cfg, run);
    UsedOnce(After(cfg, run).log, i, j, token);
  }

  lemma {:induction false} UsedOnce(log: seq<Event>, i: nat, j: nat, token: string)
    requires GoodLog(log) && i < j < |log|
    ensures !(Gives(log[i], token) && Gives(log[j], token)) && !(Spends(log[i], token) && Spends(log[j], token))
    ensures !(Opens(log[i], token) && Opens(log[j], token)) && !(Closes(log[i], token) && Closes(log[j], token))
  {
    var front := log[..|log| - 1];
    if j < |front| {
      UsedOnce(front, i, j, token);
    } else {
      assert front[i] == log[i];
    }
  }

  /** A ticket spent or a login closed is gone from memory and from the disk for good, and each was used by its user within ten minutes. */
  lemma {:induction false} UsedIsGone(cfg: Config, run: seq<Label>, i: nat)
    requires ValidGrammar(cfg.grammar) && i < |After(cfg, run).log|
    ensures var s := After(cfg, run); var e := s.log[i];
      && (e.Redeemed? || e.Traded? ==> !TicketOnFile(s.phase, e.raw))
      && (e.Redeemed? || e.Traded? ==> InTime(s.log[..i], e.raw, if e.Redeemed? then e.user else e.login.telegramId, e.at))
      && (e.Closed? ==> !LoginOnFile(s.phase, e.state) && ClosedInTime(s.log[..i], e.state, e.login, e.at))
  {
    RunsKeep(cfg, run);
    var s := After(cfg, run);
    var e := s.log[i];
    EventWasOk(s.log, i);
    if e.Redeemed? || e.Traded? { assert Spends(s.log[i], e.raw); }
    if e.Closed? { assert Closes(s.log[i], e.state); }
  }

  ghost predicate TicketOnFile(p: Phase, raw: string) {
    match p
    case Up(st) => Digest(raw) in st.mem.tickets || Digest(raw) in MainMem(st.disk).tickets
    case Down(d) => Digest(raw) in MainMem(d).tickets
  }

  ghost predicate LoginOnFile(p: Phase, state: string) {
    match p
    case Up(st) => Digest(state) in st.mem.transactions || Digest(state) in MainMem(st.disk).transactions
    case Down(d) => Digest(state) in MainMem(d).transactions
  }

  lemma {:induction false} EventWasOk(log: seq<Event>, i: nat)
    requires GoodLog(log) && i < |log|
    ensures EventOk(log[..i], log[i])
  {
    if i < |log| - 1 {
      EventWasOk(log[..|log| - 1], i);
      assert log[..|log| - 1][..i] == log[..i];
    }
  }

  /** At most one ticket a user is outstanding, in memory and on disk. */
  lemma {:induction false} OneTicketPerUser(cfg: Config, run: seq<Label>, m: Mem, d: Digest, e: Digest)
    requires ValidGrammar(cfg.grammar)
    requires match After(cfg, run).phase case Up(st) => m == st.mem || m == MainMem(st.disk) case Down(disk) => m == MainMem(disk)
    requires d in m.tickets && e in m.tickets && m.tickets[d].telegramId == m.tickets[e].telegramId
    ensures d == e
  {
    RunsKeep(cfg, run);
    if After(cfg, run).phase.Up? { MirroredGood(After(cfg, run).phase.st.mem, MainMem(After(cfg, run).phase.st.disk)); }
  }

  // ---- voided tickets ----

  /**
    A new ticket voids the user's earlier one at once. A restart before the earlier
    one expires accepts that again exactly when the new ticket could not be saved.
   */
  lemma {:induction false} VoidedTicketReturns(cfg: Config, run: seq<Label>, account: Account, raw: string, d: Digest, now: int, save: bool,
                                               later: int, wall: int)
    requires ValidGrammar(cfg.grammar) && After(cfg, run).phase.Up? && account.id > 0
    requires var st := After(cfg, run).phase.st;
      d in st.mem.tickets && st.mem.tickets[d].telegramId == account.id && d != Digest(raw) && later < st.mem.tickets[d].expiresAt
    ensures var o := IssueSpec(cfg, After(cfg, run).phase.st, account, raw, now, save);
      var s := StartSpec(cfg, o.st.disk, later, wall, ALL_OK);
      && o.result == (if save then Ok(raw) else Err(PersistFailed))
      && d !in o.st.mem.tickets
      && s.result.Ok? && (d in s.result.value.mem.tickets <==> !save)
  {
    RunsKeep(cfg, run);
    NormalizedId(account);
    var st, a := After(cfg, run).phase.st, NormalizeAccount(account).value;
    var o := IssueTo(cfg, st, a, raw, now, save);
    assert IssueSpec(cfg, st, account, raw, now, save) == o;
    assert GoodTickets(MainMem(st.disk));
    IssuedDisk(cfg, st, a, raw, now, save);
    IssuedWithout(cfg, st, a, raw, now, save, d);
    StartFinds(cfg, o.st.disk, d, later, wall);
  }

  lemma {:induction false} IssuedDisk(cfg: Config, st: State, a: Account, raw: string, now: int, save: bool)
    requires StoreInv(cfg, st) && a.id > 0
    ensures var o := IssueTo(cfg, st, a, raw, now, save);
      DiskOk(cfg, o.st.disk) && if save then MainMem(o.st.disk) == o.st.mem else o.st.disk == st.disk
  {
    var o := IssueTo(cfg, st, a, raw, now, save);
    IssueStep(cfg, st, a, raw, now, save);
    TicketStepSound(cfg, st, o);
    WrittenMain(cfg, st.disk, o.st.mem);
    InvDiskOk(cfg, o.st);
  }

  /** Memory keeps the tickets of other users, as far as they are in date, and no other. */
  lemma {:induction false} IssuedWithout(cfg: Config, st: State, a: Account, raw: string, now: int, save: bool, d: Digest)
    requires d != Digest(raw)
    ensures var mem, o := Cleanup(st.mem, now), IssueTo(cfg, st, a, raw, now, save);
      d in o.st.mem.tickets <==> d in mem.tickets && mem.tickets[d].telegramId != a.id
  {
  }

  lemma {:induction false} StartFinds(cfg: Config, disk: Disk, d: Digest, later: int, wall: int)
    requires ValidGrammar(cfg.grammar) && DiskOk(cfg, disk)
    ensures var s := StartSpec(cfg, disk, later, wall, ALL_OK);
      s.result.Ok? && (d in s.result.value.mem.tickets <==> d in LiveTickets(MainMem(disk).tickets, later))
  {
    StartAccepts(cfg, disk, later, wall, ALL_OK);
  }

  ghost predicate IsIssue(l: Label, raw: string) { (l.Run? || l.Crash?) && l.call.op.Issue? && l.call.op.raw == raw }

  ghost predicate MainLists(d: Disk, raw: string) { Digest(raw) in MainMem(d).tickets }

  /** A ticket in memory is in the main file too, so the main file alone decides what is on file. */
  lemma OnFileInMain(cfg: Config, s: Sys, raw: string)
    requires SysInv(cfg, s)
    ensures TicketOnFile(s.phase, raw) <==> MainLists(if s.phase.Up? then s.phase.st.disk else s.phase.disk, raw)
  {
  }

  /** What memory holds after a ticket operation it held before, or it is the ticket just issued. */
  lemma {:induction false} TicketSource(cfg: Config, st: State, c: Call, raw: string)
    requires !c.op.Put? && !c.op.Remove? && !c.op.Fail?
    ensures Digest(raw) in Perform(cfg, st, c).st.mem.tickets ==>
      Digest(raw) in st.mem.tickets || (c.op.Issue? && c.op.raw == raw)
  {
  }

  lemma {:induction false} BindingOpMirror(cfg: Config, st: State, c: Call)
    requires ValidGrammar(cfg.grammar) && StoreInv(cfg, st)
    requires c.op.Put? || c.op.Remove? || c.op.Fail?
    ensures var e := Perform(cfg, st, c); KeepsTickets(MainMem(st.disk), e.st.disk, e.trace)
  {
    match c.op
    case Put(item, token, io) =>
      PutShape(cfg, st, item, token, c.now, c.wall, io);
      assert Mirrored(MainMem(st.disk), MainMem(st.disk));
      var p := Prepared(cfg, st.mem.bindings, item, token, c.now);
      if p.Ok? && io.seal { PutMirror(cfg, st, p.value, c.wall, io); }
    case Remove(id, rio) => RemoveMirror(cfg, st, id, rio);
    case Fail(id, clear) => FailureMirror(cfg, st, id, clear, c.now, c.save);
    case _ =>
  }

  /** No disk an operation passes through lists a ticket the main file did not, save one just issued. */
  lemma {:induction false} FiledBefore(cfg: Config, log: seq<Event>, st: State, c: Call, raw: string, d: Disk)
    requires ValidGrammar(cfg.grammar) && StoreInv(cfg, st) && History(log, MainMem(st.disk)) && Admissible(log, c.op)
    ensures var e := Perform(cfg, st, c);
      (d == e.st.disk || d in e.trace) && MainLists(d, raw) ==> MainLists(st.disk, raw) || (c.op.Issue? && c.op.raw == raw)
  {
    var e := Perform(cfg, st, c);
    if c.op.Put? || c.op.Remove? || c.op.Fail? {
      BindingOpMirror(cfg, st, c);
    } else {
      TicketOpStep(cfg, log, st, c);
      TicketSource(cfg, st, c, raw);
      WrittenMain(cfg, st.disk, e.st.mem);
    }
  }

  lemma {:induction false} StepFiles(cfg: Config, s: Sys, l: Label, raw: string)
    requires ValidGrammar(cfg.grammar) && SysInv(cfg, s) && Enabled(cfg, s, l)
    ensures TicketOnFile(Taken(cfg, s, l).phase, raw) ==> TicketOnFile(s.phase, raw) || IsIssue(l, raw)
  {
    StepKeeps(cfg, s, l);
    OnFileInMain(cfg, s, raw);
    OnFileInMain(cfg, Taken(cfg, s, l), raw);
    match l
    case Run(c) => FiledBefore(cfg, s.log, s.phase.st, c, raw, Perform(cfg, s.phase.st, c).st.disk);
    case Crash(c, k) => if k > 0 { FiledBefore(cfg, s.log, s.phase.st, c, raw, CrashDisk(s.phase.st, Perform(cfg, s.phase.st, c), k)); }
    case Start(now, wall, sio) => RestartFiles(cfg, s.phase.disk, now, wall, sio);
    case HaltedStart(now, wall, sio, k) => RestartFiles(cfg, s.phase.disk, now, wall, sio);
  }

  lemma {:induction false} RestartFiles(cfg: Config, disk: Disk, now: int, wall: int, sio: StartIO)
    requires ValidGrammar(cfg.grammar) && DiskOk(cfg, disk)
    ensures var s := StartSpec(cfg, disk, now, wall, sio);
      && KeepsTickets(MainMem(disk), s.disk, s.trace)
      && (s.result.Ok? ==> s.result.value.disk == s.disk)
  {
    StartMirror(cfg, disk, now, wall, sio);
    StartAccepts(cfg, disk, now, wall, sio);
  }

  lemma {:induction false} LogKept(cfg: Config, s: Sys, l: Label)
    ensures s.log <= Step(cfg, s, l).log
  {
  }

  lemma {:induction false} GivenStays(log: seq<Event>, longer: seq<Event>, raw: string)
    requires log <= longer && Given(log, raw)
    ensures Given(longer, raw)
  {
    var i :| 0 <= i < |log| && Gives(log[i], raw);
    assert longer[i] == log[i];
  }

  /** A ticket that was given out and is on file no more is in no later memory or main file of any run. */
  lemma {:induction false} VoidStaysVoid(cfg: Config, run: seq<Label>, later: seq<Label>, raw: string)
    requires ValidGrammar(cfg.grammar)
    requires Given(After(cfg, run).log, raw) && !TicketOnFile(After(cfg, run).phase, raw)
    ensures Given(After(cfg, run + later).log, raw) && !TicketOnFile(After(cfg, run + later).phase, raw)
  {
    if later == [] {
      assert run + later == run;
    } else {
      var front, l := later[..|later| - 1], later[|later| - 1];
      VoidStaysVoid(cfg, run, front, raw);
      assert run + later == (run + front) + [l];
      assert ((run + front) + [l])[..|run + front|] == run + front;
      var s := After(cfg, run + front);
      RunsKeep(cfg, run + front);
      LogKept(cfg, s, l);
      GivenStays(s.log, Step(cfg, s, l).log, raw);
      if Enabled(cfg, s, l) { StepFiles(cfg, s, l, raw); }
    }
  }

  lemma {:induction false} IssuedTwiceIsSame(log: seq<Event>, raw: string, u: int, v: int, at: int, at': int)
    requires GoodLog(log) && Issued(raw, u, at) in log && Issued(raw, v, at') in log
    ensures u == v && at == at'
  {
    var i :| 0 <= i < |log| && log[i] == Issued(raw, u, at);
    var j :| 0 <= j < |log| && log[j] == Issued(raw, v, at');
    if i < j { UsedOnce(log, i, j, raw); }
    if j < i { UsedOnce(log, j, i, raw); }
  }

  lemma {:induction false} IssuePerformed(cfg: Config, st: State, c: Call)
    requires c.op.Issue? && c.op.account.id > 0
    ensures Perform(cfg, st, c).st == IssueTo(cfg, st, NormalizeAccount(c.op.account).value, c.op.raw, c.now, c.save).st
  {
    NormalizedId(c.op.account);
  }

  lemma {:induction false} IssuedVoids(cfg: Config, log: seq<Event>, st: State, a: Account, raw: string, now: int, earlier: string, at: int)
    requires StoreInv(cfg, st) && History(log, MainMem(st.disk)) && GoodLog(log)
    requires a.id > 0 && !Given(log, raw) && Issued(earlier, a.id, at) in log
    ensures var next := IssueTo(cfg, st, a, raw, now, true).st;
      Given(log, earlier) && Digest(earlier) !in next.mem.tickets && Digest(earlier) !in MainMem(next.disk).tickets
  {
    var mem := Cleanup(st.mem, now);
    var i :| 0 <= i < |log| && log[i] == Issued(earlier, a.id, at);
    assert Gives(log[i], earlier);
    CleanedHistory(cfg, log, st, now);
    IssuedDisk(cfg, st, a, raw, now, true);
    IssuedWithout(cfg, st, a, raw, now, true, Digest(earlier));
    if Digest(earlier) in mem.tickets {
      var t := mem.tickets[Digest(earlier)];
      assert Outstanding(log, Digest(earlier), t);
      IssuedTwiceIsSame(log, earlier, a.id, t.telegramId, at, t.expiresAt - BIND_TICKET_TTL);
    }
  }

  /** The step that issues and saves a new ticket leaves no other ticket of its user on file. */
  lemma {:induction false} IssueVoids(cfg: Config, s: Sys, c: Call, earlier: string, at: int)
    requires ValidGrammar(cfg.grammar) && SysInv(cfg, s) && Enabled(cfg, s, Run(c))
    requires c.op.Issue? && c.op.account.id > 0 && c.save && Issued(earlier, c.op.account.id, at) in s.log
    ensures !TicketOnFile(Taken(cfg, s, Run(c)).phase, earlier) && Given(s.log, earlier)
  {
    NormalizedId(c.op.account);
    IssuePerformed(cfg, s.phase.st, c);
    IssuedVoids(cfg, s.log, s.phase.st, NormalizeAccount(c.op.account).value, c.op.raw, c.now, earlier, at);
  }

  /**
    So once a new ticket is issued and saved, no ticket issued to that user before is
    in memory or in the main file again, through any operations, crashes and restarts.
   */
  lemma {:induction false} IssueVoidsForGood(cfg: Config, run: seq<Label>, c: Call, later: seq<Label>, earlier: string, at: int)
    requires ValidGrammar(cfg.grammar) && Enabled(cfg, After(cfg, run), Run(c))
    requires c.op.Issue? && c.op.account.id > 0 && c.save && Issued(earlier, c.op.account.id, at) in After(cfg, run).log
    ensures !TicketOnFile(After(cfg, run + [Run(c)] + later).phase, earlier)
  {
    var s := After(cfg, run);
    RunsKeep(cfg, run);
    IssueVoids(cfg, s, c, earlier, at);
    assert (run + [Run(c)])[..|run|] == run;
    LogKept(cfg, s, Run(c));
    GivenStays(s.log, Step(cfg, s, Run(c)).log, earlier);
    VoidStaysVoid(cfg, run + [Run(c)], later, earlier);
  }

  // ---- consumption that could not be saved ----

  lemma CleanupTwice(mem: Mem, now: int, later: int)
    requires now <= later
    ensures Cleanup(Cleanup(mem, now), later) == Cleanup(mem, later)
  {
    var once, twice := Cleanup(mem, later), Cleanup(Cleanup(mem, now), later);
    assert once.tickets == twice.tickets;
    assert once.transactions == twice.transactions;
  }

  /** Before it starts an operation on tickets or logins drops what has expired; an earlier drop makes no difference. */
  lemma {:induction false} CleanedFirst(cfg: Config, st: State, raw: string, nonce: string, verifier: string, state: string,
                                        now: int, later: int, save: bool)
    requires now <= later
    ensures var cleaned := st.(mem := Cleanup(st.mem, now));
      && ConsumeTicketSpec(cfg, cleaned, raw, later, save) == ConsumeTicketSpec(cfg, st, raw, later, save)
      && BeginFromTicketSpec(cfg, cleaned, raw, nonce, verifier, state, later, save)
           == BeginFromTicketSpec(cfg, st, raw, nonce, verifier, state, later, save)
      && ConsumeTransactionSpec(cfg, cleaned, state, later, save) == ConsumeTransactionSpec(cfg, st, state, later, save)
  {
    CleanupTwice(st.mem, now, later);
  }

  /**
    A ticket whose redemption could not be saved is put back: the store differs from
    the one before only in what had expired, and every later use of the ticket has
    the outcome it would have had.
   */
  lemma {:induction false} FailedRedeemIsUsable(cfg: Config, st: State, raw: string, now: int, later: int, save: bool)
    requires ConsumeTicketSpec(cfg, st, raw, now, false).result == Err(PersistFailed) && now <= later
    ensures var failed := ConsumeTicketSpec(cfg, st, raw, now, false);
      && failed.st == st.(mem := Cleanup(st.mem, now)) && failed.trace == [] && Digest(raw) in failed.st.mem.tickets
      && ConsumeTicketSpec(cfg, failed.st, raw, later, save) == ConsumeTicketSpec(cfg, st, raw, later, save)
      && ConsumeTicketSpec(cfg, st, raw, now, true).result.Ok?
  {
    TakenAndPutBack(Cleanup(st.mem, now).tickets, Digest(raw));
    CleanedFirst(cfg, st, raw, "", "", "", now, later, save);
  }

  /** The same for a login that could not be closed. */
  lemma {:induction false} FailedCloseIsUsable(cfg: Config, st: State, state: string, now: int, later: int, save: bool)
    requires ConsumeTransactionSpec(cfg, st, state, now, false).result == Err(PersistFailed) && now <= later
    ensures var failed := ConsumeTransactionSpec(cfg, st, state, now, false);
      && failed.st == st.(mem := Cleanup(st.mem, now)) && failed.trace == [] && Digest(state) in failed.st.mem.transactions
      && ConsumeTransactionSpec(cfg, failed.st, state, later, save) == ConsumeTransactionSpec(cfg, st, state, later, save)
      && ConsumeTransactionSpec(cfg, st, state, now, true).result.Ok?
  {
    TakenAndPutBack(Cleanup(st.mem, now).transactions, Digest(state));
    CleanedFirst(cfg, st, "", "", "", state, now, later, save);
  }

  /**
    And for a ticket that could not be traded, in every reachable store: the ticket is
    put back, the login opened for it is withdrawn, and every later trade, under any
    state, nonce and verifier, has the outcome it would have had.
   */
  lemma {:induction false} FailedTradeIsUsable(cfg: Config, run: seq<Label>, raw: string, nonce: string, verifier: string, state: string, now: int,
                                               otherNonce: string, otherVerifier: string, otherState: string, later: int, save: bool)
    requires ValidGrammar(cfg.grammar) && After(cfg, run).phase.Up? && !Opened(After(cfg, run).log, state) && now <= later
    requires BeginFromTicketSpec(cfg, After(cfg, run).phase.st, raw, nonce, verifier, state, now, false).result == Err(PersistFailed)
    ensures var st := After(cfg, run).phase.st;
      var failed := BeginFromTicketSpec(cfg, st, raw, nonce, verifier, state, now, false);
      && failed.st == st.(mem := Cleanup(st.mem, now)) && failed.trace == []
      && Digest(raw) in failed.st.mem.tickets && Digest(state) !in failed.st.mem.transactions
      && BeginFromTicketSpec(cfg, failed.st, raw, otherNonce, otherVerifier, otherState, later, save)
           == BeginFromTicketSpec(cfg, st, raw, otherNonce, otherVerifier, otherState, later, save)
      && BeginFromTicketSpec(cfg, st, raw, otherNonce, otherVerifier, otherState, now, true).result.Ok?
  {
    var s := After(cfg, run);
    var st := s.phase.st;
    var mem, t, d := Cleanup(st.mem, now), Digest(raw), Digest(state);
    RunsKeep(cfg, run);
    HistoryOfPart(s.log, st.mem, MainMem(st.disk));
    StateIsNew(s.log, st.mem, state);
    TakenAndPutBack(mem.tickets, t);
    AddedAndWithdrawn(mem.transactions, d, SealTransaction(d, mem.tickets[t].telegramId, nonce, verifier, now));
    CleanedFirst(cfg, st, raw, otherNonce, otherVerifier, otherState, now, later, save);
  }

  // ---- where bindings come from ----

  ghost predicate Bound(p: Phase, v: int, b: Binding) {
    match p
    case Up(st) => Held(st, v, b)
    case Down(d) => OnDisk(d, v, b)
  }

  function UserOf(op: Op): int {
    match op
    case Put(item, _, _) => item.telegramId
    case Remove(id, _) => id
    case Fail(id, _) => id
    case _ => 0
  }

  /** The one binding an operation may bring in. */
  ghost function AddedBy(cfg: Config, st: State, c: Call): Option<Binding> {
    match c.op
    case Put(item, token, io) =>
      var p := Prepared(cfg, st.mem.bindings, item, token, c.now);
      if p.Ok? && io.seal then Some(p.value) else None
    case Fail(id, clear) => if id in st.mem.bindings then Some(AfterFailure(st.mem.bindings[id], clear, c.now)) else None
    case _ => None
  }

  lemma {:induction false} TicketOpFootprint(cfg: Config, log: seq<Event>, st: State, c: Call)
    requires StoreInv(cfg, st) && History(log, MainMem(st.disk)) && Admissible(log, c.op)
    requires !c.op.Put? && !c.op.Remove? && !c.op.Fail?
    ensures var e := Perform(cfg, st, c); Footprint(st, e.st, e.trace, UserOf(c.op), None)
    ensures Perform(cfg, st, c).st.mem.bindings == st.mem.bindings
  {
    TicketOpStep(cfg, log, st, c);
    WrittenCopies(cfg, st.disk, Perform(cfg, st, c).st.mem);
  }

  lemma {:induction false} PerformFootprint(cfg: Config, log: seq<Event>, st: State, c: Call)
    requires ValidGrammar(cfg.grammar) && StoreInv(cfg, st) && History(log, MainMem(st.disk)) && Admissible(log, c.op)
    ensures var e := Perform(cfg, st, c); Footprint(st, e.st, e.trace, UserOf(c.op), AddedBy(cfg, st, c))
  {
    match c.op
    case Put(item, token, io) =>
      PutShape(cfg, st, item, token, c.now, c.wall, io);
      if Prepared(cfg, st.mem.bindings, item, token, c.now).Ok? {
        PutFootprint(cfg, st, Prepared(cfg, st.mem.bindings, item, token, c.now).value, c.wall, io);
      }
    case Remove(id, rio) => RemoveFootprint(cfg, st, id, rio);
    case Fail(id, clear) => FailureFootprint(cfg, st, id, clear, c.now, c.save);
    case _ => TicketOpFootprint(cfg, log, st, c);
  }

  ghost predicate Brings(cfg: Config, s: Sys, l: Label, v: int, b: Binding) {
    && (l.Run? || l.Crash?) && s.phase.Up?
    && v == UserOf(l.call.op) && AddedBy(cfg, s.phase.st, l.call) == Some(b)
  }

  lemma {:induction false} CallBrings(cfg: Config, s: Sys, c: Call, v: int, b: Binding)
    requires ValidGrammar(cfg.grammar) && SysInv(cfg, s) && s.phase.Up? && Admissible(s.log, c.op)
    ensures var e := Perform(cfg, s.phase.st, c); var st := s.phase.st;
      Held(e.st, v, b) || (exists d :: d in e.trace && OnDisk(d, v, b)) ==>
        Held(st, v, b) || (v == UserOf(c.op) && AddedBy(cfg, st, c) == Some(b))
  {
    PerformFootprint(cfg, s.log, s.phase.st, c);
    var e := Perform(cfg, s.phase.st, c);
    FootprintBrings(s.phase.st, e.st, e.trace, UserOf(c.op), AddedBy(cfg, s.phase.st, c), v, b);
  }

  lemma {:induction false} FootprintBrings(st: State, st': State, trace: seq<Disk>, id: int, added: Option<Binding>, v: int, b: Binding)
    requires Footprint(st, st', trace, id, added)
    ensures Held(st', v, b) || (exists d :: d in trace && OnDisk(d, v, b)) ==> Held(st, v, b) || (v == id && added == Some(b))
  {
  }

  /** Every binding found after a step was there before, or is the one the step stored. */
  lemma {:induction false} StepBrings(cfg: Config, s: Sys, l: Label, v: int, b: Binding)
    requires ValidGrammar(cfg.grammar) && SysInv(cfg, s) && Enabled(cfg, s, l)
    requires Bound(Taken(cfg, s, l).phase, v, b)
    ensures Bound(s.phase, v, b) || Brings(cfg, s, l, v, b)
  {
    match l
    case Run(c) => CallBrings(cfg, s, c, v, b);
    case Crash(c, k) => CrashBrings(cfg, s, c, k, v, b);
    case Start(now, wall, sio) => StartFootprint(cfg, s.phase.disk, now, wall, sio);
    case HaltedStart(now, wall, sio, k) => StartFootprint(cfg, s.phase.disk, now, wall, sio);
  }

  lemma {:induction false} CrashBrings(cfg: Config, s: Sys, c: Call, k: nat, v: int, b: Binding)
    requires ValidGrammar(cfg.grammar) && SysInv(cfg, s) && s.phase.Up? && Admissible(s.log, c.op)
    requires k <= |Perform(cfg, s.phase.st, c).trace|
    ensures OnDisk(CrashDisk(s.phase.st, Perform(cfg, s.phase.st, c), k), v, b) ==>
      Held(s.phase.st, v, b) || (v == UserOf(c.op) && AddedBy(cfg, s.phase.st, c) == Some(b))
  {
    CallBrings(cfg, s, c, v, b);
    var trace := Perform(cfg, s.phase.st, c).trace;
    if k > 0 { assert trace[k - 1] in trace; }
  }

  ghost predicate Gone(p: Phase, id: int) { forall b :: !Bound(p, id, b) }

  predicate StoresFor(l: Label, id: int) { (l.Run? || l.Crash?) && l.call.op.Put? && l.call.op.item.telegramId == id }

  lemma {:induction false} GoneStays(cfg: Config, s: Sys, l: Label, id: int)
    requires ValidGrammar(cfg.grammar) && SysInv(cfg, s) && Gone(s.phase, id) && !StoresFor(l, id)
    ensures Gone(Step(cfg, s, l).phase, id)
  {
    if Enabled(cfg, s, l) {
      forall b | Bound(Taken(cfg, s, l).phase, id, b) ensures Bound(s.phase, id, b) {
        StepBrings(cfg, s, l, id, b);
        if Brings(cfg, s, l, id, b) && l.call.op.Fail? { assert Bound(s.phase, id, s.phase.st.mem.bindings[id]); }
      }
    }
  }

  lemma {:induction false} RemovalEmpties(cfg: Config, s: Sys, c: Call)
    requires SysInv(cfg, s) && c.op.Remove? && Enabled(cfg, s, Run(c))
    requires var o := RemoveSpec(cfg, s.phase.st, c.op.id, c.op.rio); o.result.Ok? && o.result.value.Some?
    ensures Gone(Step(cfg, s, Run(c)).phase, c.op.id)
  {
    RemovalLeavesNothing(cfg, s.phase.st, c.op.id, c.op.rio);
  }

  /**
    Unbinding is final. Once a removal is reported, no binding of that user is left
    in memory, in the main file or in the log, whatever the log held before; and
    none comes back through any later operations, failures, crashes and restarts
    until a binding is stored for that user again.
   */
  lemma {:induction false} UnbindIsFinal(cfg: Config, run: seq<Label>, c: Call, later: seq<Label>, id: int)
    requires ValidGrammar(cfg.grammar) && c.op.Remove? && c.op.id == id
    requires Enabled(cfg, After(cfg, run), Run(c))
    requires var o := RemoveSpec(cfg, After(cfg, run).phase.st, id, c.op.rio); o.result.Ok? && o.result.value.Some?
    requires forall i :: 0 <= i < |later| ==> !StoresFor(later[i], id)
    ensures Gone(After(cfg, run + [Run(c)] + later).phase, id)
  {
    if later == [] {
      assert run + [Run(c)] + later == run + [Run(c)];
      assert (run + [Run(c)])[..|run|] == run;
      RunsKeep(cfg, run);
      RemovalEmpties(cfg, After(cfg, run), c);
    } else {
      var front, l := later[..|later| - 1], later[|later| - 1];
      UnbindIsFinal(cfg, run, c, front, id);
      var whole := run + [Run(c)] + front;
      assert run + [Run(c)] + later == whole + [l];
      assert (whole + [l])[..|whole|] == whole;
      RunsKeep(cfg, whole);
      GoneStays(cfg, After(cfg, whole), l, id);
    }
  }
}
