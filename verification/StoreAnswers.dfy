/**
  What each operation of the binding store answers and does, for all its inputs: when
  exactly it succeeds, which error it gives otherwise, and what is stored then. Each
  answer is stated of the state before, the state after and the result alone.
 */
module StoreAnswers {
  import opened Wrappers
  import opened Text
  import opened Sorting
  import opened Canonical
  import opened AuthSpec
  import opened Records
  import opened StoreSpec
  import opened StoreFacts
  import opened StoreOps
  import opened StoreEffects

  // ---- lists ----

  /** `names` are the parsed values, each once, in ascending order. */
  ghost predicate ListsParsed(names: seq<string>, values: seq<string>, parse: Parser) {
    && Ascending(StrLess, names)
    && forall p :: p in names <==> exists v :: v in values && parse(v) == Some(p)
  }

  /** `names` are the trimmed non-empty values, each once, in ascending order. */
  ghost predicate ListsTrimmed(names: seq<string>, values: seq<string>) {
    && Ascending(StrLess, names)
    && forall p :: p in names <==> p != "" && exists v :: v in values && TrimSpace(v) == p
  }

  lemma {:induction false} ListedParsed(values: seq<string>, parse: Parser)
    ensures ListsParsed(Listed(values, parse), values, parse)
  {
    var names := Listed(values, parse);
    forall p ensures p in names <==> exists v :: v in values && parse(v) == Some(p) {
      if p in names { var v :| v in values && parse(v).Some? && parse(v).value == p; }
    }
  }

  lemma {:induction false} ListedTrimmed(values: seq<string>)
    ensures ListsTrimmed(Listed(values, TrimNonEmpty), values)
  {
    var names := Listed(values, TrimNonEmpty);
    forall p ensures p in names <==> p != "" && exists v :: v in values && TrimSpace(v) == p {
      if p in names { var v :| v in values && TrimNonEmpty(v).Some? && TrimNonEmpty(v).value == p; }
      if p != "" && exists v :: v in values && TrimSpace(v) == p {
        var v :| v in values && TrimSpace(v) == p;
        assert TrimNonEmpty(v) == Some(p);
      }
    }
  }

  // ---- storing a binding ----

  /** Somebody else is bound to the identity. */
  ghost predicate BoundToOther(m: map<int, Binding>, id: int, issuer: string, subject: string) {
    exists v :: v in m && v != id && m[v].issuer == issuer && m[v].subject == subject
  }

  /** Why an item is not stored, if it is not: the first of the reasons, in this order. */
  ghost function PutRefusal(cfg: Config, m: map<int, Binding>, item: Binding, token: string): Option<StoreError> {
    var id := item.telegramId;
    if id <= 0 || item.issuer != cfg.issuer || item.subject == "" || token == "" then Some(BadBinding)
    else if |item.permissions| > 1000 || exists v :: v in item.permissions && cfg.grammar.parseERP(v) == None then Some(BadPermissions)
    else if BoundToOther(m, id, item.issuer, item.subject) then Some(IdentityAlreadyBound)
    else if id in m && !(m[id].issuer == item.issuer && m[id].subject == item.subject) then Some(TelegramAlreadyBound)
    else None
  }

  /** `b` is the item as it is stored at `now`; it keeps the time the user was first bound at. */
  ghost predicate IsStored(cfg: Config, b: Binding, item: Binding, token: string, now: int, before: Option<Binding>) {
    && b.telegramId == item.telegramId && b.issuer == item.issuer && b.subject == item.subject
    && b.displayName == item.displayName && b.username == item.username && b.accessExpiresAt == item.accessExpiresAt
    && ListsParsed(b.permissions, item.permissions, cfg.grammar.parseERP)
    && ListsTrimmed(b.scopes, item.scopes) && ListsTrimmed(b.roles, item.roles)
    && Token(b) == Some(token)
    && b.updatedAt == now && b.nextRefreshAt == now + 300
    && b.boundAt == (if before.Some? && before.value.boundAt != 0 then before.value.boundAt
                     else if before.None? && item.boundAt != 0 then item.boundAt else now)
  }

  ghost function BoundAs(m: map<int, Binding>, id: int): Option<Binding> { if id in m then Some(m[id]) else None }

  /** An accepted item's answer, by which of the disk steps succeed. */
  function PutAnswer(io: PutIO): Result<(), StoreError> {
    if io.wal then (if !io.save then Err(WalSavedStoreFailed) else if !io.clear then Err(ClearWalFailed) else Ok(()))
    else if io.save then Ok(()) else Err(NothingSaved)
  }

  /** From `wall` on the table grants the user exactly these names until `expiresAt`, and everybody else what it did. */
  ghost predicate Grants(fed: Federated, fed': Federated, id: int, names: seq<string>, expiresAt: int, wall: int) {
    && (forall t :: wall <= t ==> ActiveFederated(fed', id, t) == if t < expiresAt then Elements(names) else {})
    && (forall v, t :: v != id ==> ActiveFederated(fed', v, t) == ActiveFederated(fed, v, t))
  }

  /** Tickets and logins are as they were. */
  predicate SameTickets(mem: Mem, mem': Mem) { mem'.tickets == mem.tickets && mem'.transactions == mem.transactions }

  ghost predicate PutAnswered(cfg: Config, st: State, st': State, item: Binding, token: string, now: int, wall: int, io: PutIO,
                              r: Result<(), StoreError>)
  {
    var id, m, m' := item.telegramId, st.mem.bindings, st'.mem.bindings;
    var refusal := PutRefusal(cfg, m, item, token);
    && (refusal.Some? ==> r == Err(refusal.value) && st' == st)
    && (refusal.None? && !io.seal ==> r == Err(SealFailed) && st' == st)
    && (refusal.None? && io.seal ==>
          && r == PutAnswer(io)
          && id in m' && IsStored(cfg, m'[id], item, token, now, BoundAs(m, id))
          && OthersKept(m, m', id) && SameTickets(st.mem, st'.mem)
          && (if r == Err(WalSavedStoreFailed) || r == Err(ClearWalFailed) then st'.federated == st.federated
              else Grants(st.federated, st'.federated, id, m'[id].permissions, item.accessExpiresAt, wall)))
  }

  lemma {:induction false} PreparedAnswer(cfg: Config, m: map<int, Binding>, item: Binding, token: string, now: int)
    ensures var p := Prepared(cfg, m, item, token, now); var refusal := PutRefusal(cfg, m, item, token);
      && (refusal.Some? <==> p.Err?) && (p.Err? ==> refusal == Some(p.error))
      && (p.Ok? ==> IsStored(cfg, p.value, item, token, now, BoundAs(m, item.telegramId)) && p.value.telegramId > 0)
  {
    ListedParsed(item.permissions, cfg.grammar.parseERP);
    ListedTrimmed(item.scopes);
    ListedTrimmed(item.roles);
    NormalizedAnswer(cfg, item);
    var n := Normalized(cfg, item);
    if n.Some? { TakenAnswer(m, item, n.value); }
  }

  lemma {:induction false} NormalizedAnswer(cfg: Config, item: Binding)
    ensures var n := Normalized(cfg, item);
      && (n.None? <==> |item.permissions| > 1000 || exists v :: v in item.permissions && cfg.grammar.parseERP(v) == None)
      && (n.Some? ==> n.value == item.(permissions := Listed(item.permissions, cfg.grammar.parseERP),
                                       scopes := Listed(item.scopes, TrimNonEmpty), roles := Listed(item.roles, TrimNonEmpty)))
  {
  }

  lemma {:induction false} TakenAnswer(m: map<int, Binding>, item: Binding, n: Binding)
    requires n.telegramId == item.telegramId && n.issuer == item.issuer && n.subject == item.subject
    ensures IdentityTaken(m, n) <==> BoundToOther(m, item.telegramId, item.issuer, item.subject)
    ensures OtherIdentity(m, n) <==>
      item.telegramId in m && !(m[item.telegramId].issuer == item.issuer && m[item.telegramId].subject == item.subject)
  {
  }

  lemma {:induction false} PreparedStored(cfg: Config, m: map<int, Binding>, item: Binding, token: string, now: int)
    requires ValidGrammar(cfg.grammar) && Prepared(cfg, m, item, token, now).Ok?
    ensures GoodBinding(cfg, Prepared(cfg, m, item, token, now).value)
  {
    NormalizedGood(cfg, item);
  }

  lemma {:induction false} CasesAnswer(cfg: Config, st: State, b: Binding, wall: int, io: PutIO)
    ensures var o := PutCases(cfg, st, b, wall, io);
      && o.result == PutAnswer(io)
      && o.st.mem == WithBinding(st.mem, b)
      && (if o.result == Err(WalSavedStoreFailed) || o.result == Err(ClearWalFailed) then o.st.federated == st.federated
          else Grants(st.federated, o.st.federated, b.telegramId, b.permissions, b.accessExpiresAt, wall))
  {
    var fed := GrantedFed(st, b, wall);
    forall t | wall <= t ensures ActiveFederated(fed, b.telegramId, t) == (if t < b.accessExpiresAt then Elements(b.permissions) else {})
    {
      SeededExact(st.federated, b.telegramId, b.accessExpiresAt, b.permissions, wall, t);
    }
  }

  /** Storing a binding: accepted exactly when nothing speaks against it, and then as asked for. */
  lemma {:induction false} PutAnswers(cfg: Config, st: State, item: Binding, token: string, now: int, wall: int, io: PutIO)
    requires ValidGrammar(cfg.grammar)
    ensures var o := PutSpec(cfg, st, item, token, now, wall, io); PutAnswered(cfg, st, o.st, item, token, now, wall, io, o.result)
  {
    PreparedAnswer(cfg, st.mem.bindings, item, token, now);
    var p := Prepared(cfg, st.mem.bindings, item, token, now);
    if p.Ok? {
      PreparedStored(cfg, st.mem.bindings, item, token, now);
      StoreStepsCases(cfg, st, p.value, wall, io);
      CasesAnswer(cfg, st, p.value, wall, io);
    }
  }

  // ---- unbinding ----

  predicate LogHolds(disk: Disk, id: int) { disk.wal.Some? && disk.wal.value.binding.telegramId == id }

  /** The table grants the user nothing, and everybody else what it did. */
  ghost predicate Ungrants(fed: Federated, fed': Federated, id: int) {
    && (forall t :: ActiveFederated(fed', id, t) == {})
    && (forall v, t :: v != id ==> ActiveFederated(fed', v, t) == ActiveFederated(fed, v, t))
  }

  /**
    An unbound user has nothing to remove. A bound one's binding is removed, and its
    credential handed out, when the log could be read, an entry of the user's in it
    removed, and the rest saved; otherwise memory and table stay as they were.
   */
  ghost predicate RemoveAnswered(st: State, st': State, id: int, io: RemoveIO, r: Result<Option<Removed>, StoreError>) {
    var m, m' := st.mem.bindings, st'.mem.bindings;
    if id !in m then r == Ok(None) && st' == st
    else if io.read && (LogHolds(st.disk, id) ==> io.clear) && io.save then
      && Token(m[id]).Some? && r == Ok(Some(Removed(m[id], Token(m[id]).value)))
      && id !in m' && OthersKept(m, m', id) && SameTickets(st.mem, st'.mem) && Ungrants(st.federated, st'.federated, id)
    else
      && r == (if !io.read then Err(DiskReadFailed) else if LogHolds(st.disk, id) && !io.clear then Err(ClearWalFailed) else Err(PersistFailed))
      && st'.mem == st.mem && st'.federated == st.federated
  }

  lemma {:induction false} RemoveAnswers(cfg: Config, st: State, id: int, io: RemoveIO)
    requires id in st.mem.bindings ==> Token(st.mem.bindings[id]).Some?
    ensures var o := RemoveSpec(cfg, st, id, io); RemoveAnswered(st, o.st, id, io, o.result)
  {
  }

  // ---- a refresh that failed ----

  /** What a recorded failure leaves of the binding. */
  ghost predicate FailureRecorded(b: Binding, b': Binding, clear: bool, now: int) {
    && b'.telegramId == b.telegramId && b'.issuer == b.issuer && b'.subject == b.subject
    && b'.displayName == b.displayName && b'.username == b.username && b'.scopes == b.scopes && b'.roles == b.roles
    && b'.refresh == b.refresh && b'.boundAt == b.boundAt
    && b'.permissions == (if clear then [] else b.permissions)
    && b'.accessExpiresAt == (if clear then 0 else b.accessExpiresAt)
    && b'.updatedAt == now && b'.nextRefreshAt == now + 300
  }

  /** When it is saved a clearing failure takes the user's permissions away, in the binding and in the table; any other leaves both. */
  ghost predicate FailureAnswered(st: State, st': State, id: int, clear: bool, now: int, save: bool) {
    var m, m' := st.mem.bindings, st'.mem.bindings;
    if id !in m || !save then st' == st
    else
      && id in m' && FailureRecorded(m[id], m'[id], clear, now)
      && OthersKept(m, m', id) && SameTickets(st.mem, st'.mem)
      && (if clear then Ungrants(st.federated, st'.federated, id) else st'.federated == st.federated)
  }

  function FailureAnswer(m: map<int, Binding>, id: int, save: bool): Result<(), StoreError> {
    if id in m && !save then Err(PersistFailed) else Ok(())
  }

  lemma {:induction false} FailureAnswers(cfg: Config, st: State, id: int, clear: bool, now: int, save: bool)
    ensures var o := RecordFailureSpec(cfg, st, id, clear, now, save);
      FailureAnswered(st, o.st, id, clear, now, save) && o.result == FailureAnswer(st.mem.bindings, id, save)
  {
  }

  // ---- reading ----

  /** A bound user's credential is handed out for the user's own identity only. */
  lemma {:induction false} RefreshTokenAnswers(cfg: Config, m: Mem, item: Binding)
    requires GoodBindings(cfg, m.bindings)
    ensures var id, r := item.telegramId, RefreshTokenSpec(m, item);
      if id in m.bindings && m.bindings[id].issuer == item.issuer && m.bindings[id].subject == item.subject
      then r.Ok? && Token(m.bindings[id]) == Some(r.value)
      else r == Err(TransactionInvalid)
  {
    if item.telegramId in m.bindings { assert GoodBinding(cfg, m.bindings[item.telegramId]); }
  }

  // ---- tickets and logins ----

  /** The tickets in date, but for those in `gone`. */
  ghost predicate TicketsLeft(mem: Mem, mem': Mem, now: int, gone: set<Digest>) {
    forall d :: (d in mem'.tickets <==> d in mem.tickets && now < mem.tickets[d].expiresAt && d !in gone)
      && (d in mem'.tickets ==> mem'.tickets[d] == mem.tickets[d])
  }

  /** The logins in date, but for those in `gone`. */
  ghost predicate LoginsLeft(mem: Mem, mem': Mem, now: int, gone: set<Digest>) {
    forall d :: (d in mem'.transactions <==> d in mem.transactions && now < mem.transactions[d].expiresAt && d !in gone)
      && (d in mem'.transactions ==> mem'.transactions[d] == mem.transactions[d])
  }

  predicate TicketInDate(mem: Mem, raw: string, now: int) {
    Digest(raw) in mem.tickets && now < mem.tickets[Digest(raw)].expiresAt
  }

  /** Only memory's tickets and logins changed. */
  predicate TicketsOnly(st: State, st': State) {
    st'.mem.bindings == st.mem.bindings && st'.federated == st.federated
  }

  /** A ticket on file and in date names its account; looking changes nothing but drops what has expired. */
  ghost predicate LookupAnswered(st: State, st': State, raw: string, now: int, r: Result<Account, StoreError>) {
    && TicketsOnly(st, st') && st'.disk == st.disk && TicketsLeft(st.mem, st'.mem, now, {}) && LoginsLeft(st.mem, st'.mem, now, {})
    && r == (if TicketInDate(st.mem, raw, now)
             then Ok(Account(st.mem.tickets[Digest(raw)].telegramId, st.mem.tickets[Digest(raw)].displayName,
                             st.mem.tickets[Digest(raw)].username))
             else Err(TicketInvalid))
  }

  lemma {:induction false} LookupAnswers(st: State, raw: string, now: int)
    ensures var o := LookupSpec(st, raw, now); LookupAnswered(st, o.st, raw, now, o.result)
  {
  }

  /** It is spent exactly when that can be saved. */
  ghost predicate RedeemAnswered(st: State, st': State, raw: string, now: int, save: bool, r: Result<int, StoreError>) {
    && TicketsOnly(st, st') && LoginsLeft(st.mem, st'.mem, now, {})
    && TicketsLeft(st.mem, st'.mem, now, if save then {Digest(raw)} else {})
    && r == (if !TicketInDate(st.mem, raw, now) then Err(TicketInvalid)
             else if save then Ok(st.mem.tickets[Digest(raw)].telegramId) else Err(PersistFailed))
  }

  lemma {:induction false} RedeemAnswers(cfg: Config, st: State, raw: string, now: int, save: bool)
    ensures var o := ConsumeTicketSpec(cfg, st, raw, now, save); RedeemAnswered(st, o.st, raw, now, save, o.result)
  {
    TakenAndPutBack(Cleanup(st.mem, now).tickets, Digest(raw));
  }

  /** The login is on file, under its state, with both secrets sealed for it and ten minutes to go. */
  ghost predicate LoginFiled(mem: Mem, mem': Mem, now: int, state: string, user: int, nonce: string, verifier: string) {
    var d := Digest(state);
    && d in mem'.transactions && mem'.transactions[d].telegramId == user && mem'.transactions[d].expiresAt == now + 600
    && SecretsOf(d, mem'.transactions[d]) == Some((nonce, verifier))
    && (forall e :: e != d ==> (e in mem'.transactions <==> e in mem.transactions && now < mem.transactions[e].expiresAt))
    && (forall e :: e != d && e in mem'.transactions ==> mem'.transactions[e] == mem.transactions[e])
  }

  /** The nonce and verifier of a login, if both are sealed for it. */
  function SecretsOf(d: Digest, t: Transaction): Option<(string, string)> {
    if t.nonce.Sealed? && t.nonce.aad == ForTransaction(d) && t.verifier.Sealed? && t.verifier.aad == ForTransaction(d)
    then Some((t.nonce.plaintext, t.verifier.plaintext)) else None
  }

  /** A ticket on file and in date is traded for a login exactly when that can be saved. */
  ghost predicate TradeAnswered(st: State, st': State, raw: string, nonce: string, verifier: string, state: string, now: int, save: bool,
                                r: Result<int, StoreError>)
  {
    && TicketsOnly(st, st')
    && TicketsLeft(st.mem, st'.mem, now, if save then {Digest(raw)} else {})
    && r == (if !TicketInDate(st.mem, raw, now) then Err(TicketInvalid)
             else if save then Ok(st.mem.tickets[Digest(raw)].telegramId) else Err(PersistFailed))
    && (r.Ok? ==> LoginFiled(st.mem, st'.mem, now, state, r.value, nonce, verifier))
    && (r.Err? && Digest(state) !in st.mem.transactions ==> LoginsLeft(st.mem, st'.mem, now, {}))
  }

  lemma {:induction false} TradeAnswers(cfg: Config, st: State, raw: string, nonce: string, verifier: string, state: string, now: int, save: bool)
    ensures var o := BeginFromTicketSpec(cfg, st, raw, nonce, verifier, state, now, save);
      TradeAnswered(st, o.st, raw, nonce, verifier, state, now, save, o.result)
  {
    TakenAndPutBack(Cleanup(st.mem, now).tickets, Digest(raw));
  }

  /** A login begun without a ticket. */
  ghost predicate BeginAnswered(st: State, st': State, user: int, nonce: string, verifier: string, state: string, now: int, save: bool,
                                r: Result<string, StoreError>)
  {
    && TicketsOnly(st, st') && TicketsLeft(st.mem, st'.mem, now, {})
    && r == (if save then Ok(state) else Err(PersistFailed))
    && (r.Ok? ==> LoginFiled(st.mem, st'.mem, now, state, user, nonce, verifier))
    && (r.Err? && Digest(state) !in st.mem.transactions ==> LoginsLeft(st.mem, st'.mem, now, {}))
  }

  lemma {:induction false} BeginAnswers(cfg: Config, st: State, user: int, nonce: string, verifier: string, state: string, now: int, save: bool)
    ensures var o := BeginSpec(cfg, st, user, nonce, verifier, state, now, save);
      BeginAnswered(st, o.st, user, nonce, verifier, state, now, save, o.result)
  {
  }

  /**
    A login on file and in date, with both its secrets, is closed exactly when that
    can be saved, and comes back as it was filed. One whose secrets are missing is
    dropped.
   */
  ghost predicate CloseAnswered(st: State, st': State, state: string, now: int, save: bool, r: Result<Login, StoreError>) {
    var d := Digest(state);
    && TicketsOnly(st, st') && TicketsLeft(st.mem, st'.mem, now, {})
    && if d !in st.mem.transactions || st.mem.transactions[d].expiresAt <= now then
         r == Err(TransactionInvalid) && st'.disk == st.disk && LoginsLeft(st.mem, st'.mem, now, {})
       else
         var t := st.mem.transactions[d];
         match SecretsOf(d, t)
         case Some((nonce, verifier)) =>
           if nonce == "" || verifier == "" then r == Err(OpenFailed) && LoginsLeft(st.mem, st'.mem, now, {d})
           else if save then r == Ok(Login(t.telegramId, nonce, verifier)) && LoginsLeft(st.mem, st'.mem, now, {d})
           else r == Err(PersistFailed) && st'.disk == st.disk && LoginsLeft(st.mem, st'.mem, now, {})
         case None => r == Err(OpenFailed) && LoginsLeft(st.mem, st'.mem, now, {d})
  }

  lemma {:induction false} CloseAnswers(cfg: Config, st: State, state: string, now: int, save: bool)
    ensures var o := ConsumeTransactionSpec(cfg, st, state, now, save); CloseAnswered(st, o.st, state, now, save, o.result)
  {
    TakenAndPutBack(Cleanup(st.mem, now).transactions, Digest(state));
  }

  function Cut(s: string, limit: nat): string { if |s| > limit then s[..limit] else s }

  /** A user name without the sign in front of it. */
  function Bare(s: string): string { if s != "" && s[0] == '@' then s[1..] else s }

  /** A ticket is given to a proper user, exactly when that can be saved, and carries the account's names, cut and trimmed, for ten minutes. */
  ghost predicate IssueAnswered(st: State, st': State, account: Account, raw: string, now: int, save: bool, r: Result<string, StoreError>) {
    var d := Digest(raw);
    && TicketsOnly(st, st')
    && r == (if account.id <= 0 then Err(BadAccount) else if save then Ok(raw) else Err(PersistFailed))
    && (account.id <= 0 ==> st' == st)
    && (account.id > 0 ==>
          && LoginsLeft(st.mem, st'.mem, now, {})
          && (forall e :: e != d ==>
                (e in st'.mem.tickets <==> e in st.mem.tickets && now < st.mem.tickets[e].expiresAt && st.mem.tickets[e].telegramId != account.id)
                && (e in st'.mem.tickets ==> st'.mem.tickets[e] == st.mem.tickets[e]))
          && (d in st'.mem.tickets <==> save))
    && (r.Ok? ==> st'.mem.tickets[d] == Ticket(account.id, Cut(TrimSpace(account.name), 64), Bare(Cut(TrimSpace(account.username), 32)), now + 600))
  }

  lemma {:induction false} IssueAnswers(cfg: Config, st: State, account: Account, raw: string, now: int, save: bool)
    ensures var o := IssueSpec(cfg, st, account, raw, now, save); IssueAnswered(st, o.st, account, raw, now, save, o.result)
  {
    BareIsTrimmed(BoundedText(account.username, 32));
  }

  lemma BareIsTrimmed(s: string)
    ensures TrimPrefix(s, "@") == Bare(s)
  {
    if s != "" { assert s[..1] == "@" <==> s[0] == '@'; }
  }

  // ---- what is due ----

  /** A binding just stored, or a failure just recorded, is due again in five minutes, and earlier only as its permissions run out. */
  lemma DueAgain(b: Binding, now: int, later: int, within: int)
    requires b.nextRefreshAt == now + 300 && now >= 0
    ensures IsDue(b, later, within) <==> now + 300 <= later || 0 < b.accessExpiresAt <= later + within
  {
  }
}
