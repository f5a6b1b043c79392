/**
  The operations of the account binding store as functions of its state, of the
  time, and of which input and output steps succeed.

  An outcome lists every state the disk passes through, in order: a crash leaves
  the disk in the state before the operation or in one of those. An atomic file
  write either replaces the file or leaves it alone.
 */
module StoreSpec {
  import opened Wrappers
  import opened Text
  import opened Sorting
  import opened Canonical
  import opened AuthSpec
  import opened Records

  datatype State = State(mem: Mem, disk: Disk, federated: Federated)

  datatype StoreError =
    | BadAccount | TicketInvalid | TransactionInvalid
    | BadBinding | BadPermissions | IdentityAlreadyBound | TelegramAlreadyBound
    | SealFailed | OpenFailed | PersistFailed | WalSavedStoreFailed | NothingSaved | ClearWalFailed
    | DiskReadFailed | PermissionsRefused
    | WrongFile | InvalidRecord | DuplicateTelegram | DuplicateIdentity | NoCredential

  datatype Outcome<+T> = Outcome(st: State, trace: seq<Disk>, result: Result<T, StoreError>)

  // ---- saving ----

  ghost predicate IsSortedKeys(ids: seq<int>, keys: set<int>) {
    && Ascending(IntLess, ids)
    && (forall i :: 0 <= i < |ids| ==> ids[i] in keys)
    && (forall id :: id in keys ==> id in ids)
  }

  ghost function SortedKeys(keys: set<int>): (ids: seq<int>)
    ensures IsSortedKeys(ids, keys)
  {
    assert exists ids :: IsSortedKeys(ids, keys) by {
      IntLessTotal();
      assert IsSortedKeys(Enumerate(keys, IntLess), keys);
    }
    var ids :| IsSortedKeys(ids, keys);
    ids
  }

  /** The records in the order of their users' ids, as the file lists them. */
  ghost function Listing(bindings: map<int, Binding>): (list: seq<Binding>) {
    var ids := SortedKeys(bindings.Keys);
    seq(|ids|, i requires 0 <= i < |ids| => bindings[ids[i]])
  }

  ghost function SnapshotOf(cfg: Config, mem: Mem): Snapshot {
    Snapshot(STORE_VERSION, cfg.issuer, cfg.clientId, Listing(mem.bindings), mem.tickets, mem.transactions)
  }

  ghost function Written(cfg: Config, disk: Disk, mem: Mem): Disk { disk.(main := Some(SnapshotOf(cfg, mem))) }

  function WalOf(cfg: Config, b: Binding): Wal { Wal(STORE_VERSION, cfg.issuer, cfg.clientId, b) }

  // ---- tickets and login transactions ----

  /** Expired tickets and transactions are dropped first, in memory only. */
  function Cleanup(mem: Mem, now: int): Mem {
    mem.(tickets := map d | d in mem.tickets && mem.tickets[d].expiresAt > now :: mem.tickets[d],
         transactions := map d | d in mem.transactions && mem.transactions[d].expiresAt > now :: mem.transactions[d])
  }

  function NormalizeAccount(a: Account): Option<Account> {
    if a.id <= 0 then None
    else Some(Account(a.id, BoundedText(a.name, 64), TrimPrefix(BoundedText(a.username, 32), "@")))
  }

  function WithoutUser(tickets: map<Digest, Ticket>, id: int): map<Digest, Ticket> {
    map d | d in tickets && tickets[d].telegramId != id :: tickets[d]
  }

  /** A new ticket voids the user's earlier ones; when saving fails the new one is withdrawn and the earlier ones stay void. */
  ghost function IssueTo(cfg: Config, st: State, a: Account, raw: string, now: int, save: bool): Outcome<string> {
    var mem := Cleanup(st.mem, now);
    var ticket := Ticket(a.id, a.name, a.username, now + BIND_TICKET_TTL);
    var issued := mem.(tickets := WithoutUser(mem.tickets, a.id)[Digest(raw) := ticket]);
    if save then
      var disk := Written(cfg, st.disk, issued);
      Outcome(st.(mem := issued, disk := disk), [disk], Ok(raw))
    else Outcome(st.(mem := issued.(tickets := issued.tickets - {Digest(raw)})), [], Err(PersistFailed))
  }

  ghost function IssueSpec(cfg: Config, st: State, account: Account, raw: string, now: int, save: bool): Outcome<string> {
    match NormalizeAccount(account)
    case None => Outcome(st, [], Err(BadAccount))
    case Some(a) => IssueTo(cfg, st, a, raw, now, save)
  }

  function LookupSpec(st: State, raw: string, now: int): Outcome<Account> {
    var mem := Cleanup(st.mem, now);
    Outcome(st.(mem := mem), [],
      if Digest(raw) in mem.tickets && mem.tickets[Digest(raw)].expiresAt > now
      then var t := mem.tickets[Digest(raw)]; Ok(Account(t.telegramId, t.displayName, t.username))
      else Err(TicketInvalid))
  }

  ghost function ConsumeTicketSpec(cfg: Config, st: State, raw: string, now: int, save: bool): Outcome<int> {
    var mem := Cleanup(st.mem, now);
    var d := Digest(raw);
    if d !in mem.tickets || mem.tickets[d].expiresAt <= now then Outcome(st.(mem := mem), [], Err(TicketInvalid)) else
    var used := mem.(tickets := mem.tickets - {d});
    if save then
      var disk := Written(cfg, st.disk, used);
      Outcome(st.(mem := used, disk := disk), [disk], Ok(mem.tickets[d].telegramId))
    else Outcome(st.(mem := used.(tickets := used.tickets[d := mem.tickets[d]])), [], Err(PersistFailed))
  }

  function SealTransaction(d: Digest, telegramId: int, nonce: string, verifier: string, now: int): Transaction {
    Transaction(telegramId, Sealed(nonce, TransactionAAD(d)), Sealed(verifier, TransactionAAD(d)), now + TRANSACTION_TTL)
  }

  ghost function BeginSpec(cfg: Config, st: State, telegramId: int, nonce: string, verifier: string, state: string, now: int, save: bool): Outcome<string> {
    var mem := Cleanup(st.mem, now);
    var d := Digest(state);
    var begun := mem.(transactions := mem.transactions[d := SealTransaction(d, telegramId, nonce, verifier, now)]);
    if save then
      var disk := Written(cfg, st.disk, begun);
      Outcome(st.(mem := begun, disk := disk), [disk], Ok(state))
    else Outcome(st.(mem := begun.(transactions := begun.transactions - {d})), [], Err(PersistFailed))
  }

  /** One save trades the ticket for a login transaction. */
  ghost function BeginFromTicketSpec(cfg: Config, st: State, raw: string, nonce: string, verifier: string, state: string, now: int, save: bool): Outcome<int> {
    var mem := Cleanup(st.mem, now);
    var t, d := Digest(raw), Digest(state);
    if t !in mem.tickets || mem.tickets[t].expiresAt <= now then Outcome(st.(mem := mem), [], Err(TicketInvalid)) else
    var ticket := mem.tickets[t];
    var begun := mem.(tickets := mem.tickets - {t},
                      transactions := mem.transactions[d := SealTransaction(d, ticket.telegramId, nonce, verifier, now)]);
    if save then
      var disk := Written(cfg, st.disk, begun);
      Outcome(st.(mem := begun, disk := disk), [disk], Ok(ticket.telegramId))
    else
      Outcome(st.(mem := begun.(tickets := begun.tickets[t := ticket], transactions := begun.transactions - {d})), [], Err(PersistFailed))
  }

  function OpenTransaction(d: Digest, t: Transaction): Option<Login> {
    var nonce, verifier := Open(t.nonce, TransactionAAD(d)), Open(t.verifier, TransactionAAD(d));
    if nonce.None? || verifier.None? || nonce.value == "" || verifier.value == "" then None
    else Some(Login(t.telegramId, nonce.value, verifier.value))
  }

  ghost function ConsumeTransactionSpec(cfg: Config, st: State, state: string, now: int, save: bool): Outcome<Login> {
    var mem := Cleanup(st.mem, now);
    var d := Digest(state);
    if d !in mem.transactions || mem.transactions[d].expiresAt <= now then Outcome(st.(mem := mem), [], Err(TransactionInvalid)) else
    var used := mem.(transactions := mem.transactions - {d});
    var disk := Written(cfg, st.disk, used);
    match OpenTransaction(d, mem.transactions[d])
    case None =>
      Outcome(st.(mem := used, disk := if save then disk else st.disk), if save then [disk] else [], Err(OpenFailed))
    case Some(login) =>
      if save then Outcome(st.(mem := used, disk := disk), [disk], Ok(login))
      else Outcome(st.(mem := used.(transactions := used.transactions[d := mem.transactions[d]])), [], Err(PersistFailed))
  }

  // ---- bindings ----

  /** Which steps of storing a binding succeed. */
  datatype PutIO = PutIO(seal: bool, wal: bool, save: bool, clear: bool)

  function TrimNonEmpty(v: string): Option<string> { if TrimSpace(v) == "" then None else Some(TrimSpace(v)) }

  ghost predicate IdentityTaken(bindings: map<int, Binding>, item: Binding) {
    exists id :: id in bindings && id != item.telegramId && bindings[id].issuer == item.issuer && bindings[id].subject == item.subject
  }

  predicate OtherIdentity(bindings: map<int, Binding>, item: Binding) {
    item.telegramId in bindings &&
    (bindings[item.telegramId].issuer != item.issuer || bindings[item.telegramId].subject != item.subject)
  }

  /** The item with its lists in stored form, or `None` when its permissions are rejected. */
  ghost function Normalized(cfg: Config, item: Binding): Option<Binding> {
    if NormalizeERP(item.permissions, cfg.grammar).None? then None
    else Some(item.(permissions := NormalizeERP(item.permissions, cfg.grammar).value,
                    scopes := Listed(item.scopes, TrimNonEmpty), roles := Listed(item.roles, TrimNonEmpty)))
  }

  function Stamped(bindings: map<int, Binding>, item: Binding, token: string, now: int): Binding {
    var boundAt := if item.telegramId in bindings then bindings[item.telegramId].boundAt else item.boundAt;
    item.(boundAt := if boundAt == 0 then now else boundAt, updatedAt := now,
          nextRefreshAt := now + PERMISSION_SYNC_INTERVAL, refresh := Sealed(token, BindingAAD(item)))
  }

  /** The record to be stored, once it has passed every check. */
  ghost function Prepared(cfg: Config, bindings: map<int, Binding>, item: Binding, token: string, now: int): Result<Binding, StoreError> {
    if item.telegramId <= 0 || item.issuer != cfg.issuer || item.subject == "" || token == "" then Err(BadBinding)
    else
      match Normalized(cfg, item)
      case None => Err(BadPermissions)
      case Some(n) =>
        if IdentityTaken(bindings, n) then Err(IdentityAlreadyBound)
        else if OtherIdentity(bindings, n) then Err(TelegramAlreadyBound)
        else Ok(Stamped(bindings, n, token, now))
  }

  ghost function Replacement(cfg: Config, fed: Federated, b: Binding, wall: int): Option<Federated> {
    Replaced(cfg.grammar, fed, b.telegramId, b.accessExpiresAt, b.permissions, wall)
  }

  /** The last step of a stored binding: its permissions take effect. */
  ghost function Granted(cfg: Config, st: State, trace: seq<Disk>, b: Binding, wall: int): Outcome<()> {
    match Replacement(cfg, st.federated, b, wall)
    case None => Outcome(st, trace, Err(PermissionsRefused))
    case Some(fed) => Outcome(st.(federated := fed), trace, Ok(()))
  }

  /**
    Storing a binding: memory first, then the write-ahead log, the main file, and
    the log's removal. When the log cannot be written the main file alone decides.
    The two middle failures return before the permissions are replaced.
   */
  ghost function StoreSteps(cfg: Config, st: State, b: Binding, wall: int, io: PutIO): Outcome<()> {
    var mem := st.mem.(bindings := st.mem.bindings[b.telegramId := b]);
    var logged := st.disk.(wal := Some(WalOf(cfg, b)));
    if !io.wal then
      if !io.save then Granted(cfg, st.(mem := mem), [], b, wall).(result := Err(NothingSaved))
      else
        var saved := Written(cfg, st.disk, mem);
        Granted(cfg, st.(mem := mem, disk := saved), [saved], b, wall)
    else if !io.save then Outcome(st.(mem := mem, disk := logged), [logged], Err(WalSavedStoreFailed))
    else
      var saved := Written(cfg, logged, mem);
      if !io.clear then Outcome(st.(mem := mem, disk := saved), [logged, saved], Err(ClearWalFailed))
      else Granted(cfg, st.(mem := mem, disk := saved.(wal := None)), [logged, saved, saved.(wal := None)], b, wall)
  }

  ghost function PutSpec(cfg: Config, st: State, item: Binding, token: string, now: int, wall: int, io: PutIO): Outcome<()> {
    match Prepared(cfg, st.mem.bindings, item, token, now)
    case Err(e) => Outcome(st, [], Err(e))
    case Ok(b) => if io.seal then StoreSteps(cfg, st, b, wall, io) else Outcome(st, [], Err(SealFailed))
  }

  function RefreshTokenSpec(mem: Mem, item: Binding): Result<string, StoreError> {
    if item.telegramId !in mem.bindings then Err(TransactionInvalid) else
    var current := mem.bindings[item.telegramId];
    if current.issuer != item.issuer || current.subject != item.subject then Err(TransactionInvalid) else
    match Token(current)
    case None => Err(OpenFailed)
    case Some(token) => Ok(token)
  }

  datatype RemoveIO = RemoveIO(read: bool, clear: bool, save: bool)

  datatype Removed = Removed(binding: Binding, token: string)

  predicate WalMatches(disk: Disk, id: int) { disk.wal.Some? && disk.wal.value.binding.telegramId == id }

  /** Unbinding: a log entry of the same user goes first, then memory, then the main file. */
  ghost function RemoveSpec(cfg: Config, st: State, id: int, io: RemoveIO): Outcome<Option<Removed>> {
    if id !in st.mem.bindings then Outcome(st, [], Ok(None)) else
    var item := st.mem.bindings[id];
    if item.refresh != Absent && Token(item).None? then Outcome(st, [], Err(OpenFailed)) else
    var token := if item.refresh == Absent then "" else Token(item).value;
    if !io.read then Outcome(st, [], Err(DiskReadFailed))
    else if WalMatches(st.disk, id) && !io.clear then Outcome(st, [], Err(ClearWalFailed))
    else
      var cleared := if WalMatches(st.disk, id) then st.disk.(wal := None) else st.disk;
      var first := if WalMatches(st.disk, id) then [cleared] else [];
      var mem := st.mem.(bindings := st.mem.bindings - {id});
      if !io.save then Outcome(st.(disk := cleared), first, Err(PersistFailed))
      else
        var disk := Written(cfg, cleared, mem);
        Outcome(State(mem, disk, st.federated - {id}), first + [disk], Ok(Some(Removed(item, token))))
  }

  function AfterFailure(b: Binding, clear: bool, now: int): Binding {
    var kept := if clear then b.(permissions := [], accessExpiresAt := 0) else b;
    kept.(nextRefreshAt := now + PERMISSION_SYNC_INTERVAL, updatedAt := now)
  }

  ghost function RecordFailureSpec(cfg: Config, st: State, id: int, clear: bool, now: int, save: bool): Outcome<()> {
    if id !in st.mem.bindings then Outcome(st, [], Ok(()))
    else if !save then Outcome(st, [], Err(PersistFailed))
    else
      var mem := st.mem.(bindings := st.mem.bindings[id := AfterFailure(st.mem.bindings[id], clear, now)]);
      var disk := Written(cfg, st.disk, mem);
      Outcome(State(mem, disk, if clear then st.federated - {id} else st.federated), [disk], Ok(()))
  }

  predicate IsDue(b: Binding, now: int, within: int) {
    || 0 < b.nextRefreshAt <= now
    || 0 < b.accessExpiresAt <= now + within
  }

  // ---- start-up ----

  datatype LoadedBindings = LoadedBindings(bindings: map<int, Binding>, subjects: set<string>)

  predicate HeaderMatches(cfg: Config, version: int, issuer: string, clientId: string) {
    version == STORE_VERSION && issuer == cfg.issuer && clientId == cfg.clientId
  }

  ghost function LoadBinding(cfg: Config, acc: LoadedBindings, b: Binding): Result<LoadedBindings, StoreError> {
    if b.telegramId <= 0 || b.issuer != cfg.issuer || b.subject == "" then Err(InvalidRecord)
    else if b.telegramId in acc.bindings then Err(DuplicateTelegram)
    else if SubjectKey(b) in acc.subjects then Err(DuplicateIdentity)
    else if NormalizeERP(b.permissions, cfg.grammar).None? then Err(BadPermissions)
    else if b.refresh == Absent then Err(NoCredential)
    else if Token(b).None? then Err(OpenFailed)
    else
      var kept := b.(permissions := NormalizeERP(b.permissions, cfg.grammar).value);
      Ok(LoadedBindings(acc.bindings[b.telegramId := kept], acc.subjects + {SubjectKey(b)}))
  }

  ghost function LoadBindings(cfg: Config, items: seq<Binding>): Result<LoadedBindings, StoreError> {
    if items == [] then Ok(LoadedBindings(map[], {})) else
      LoadNext(cfg, LoadBindings(cfg, items[..|items| - 1]), items[|items| - 1])
  }

  ghost function LoadNext(cfg: Config, sofar: Result<LoadedBindings, StoreError>, b: Binding): Result<LoadedBindings, StoreError> {
    if sofar.Ok? then LoadBinding(cfg, sofar.value, b) else sofar
  }

  function LiveTickets(tickets: map<Digest, Ticket>, now: int): map<Digest, Ticket> {
    map d | d in tickets && tickets[d].telegramId > 0 && tickets[d].expiresAt > now :: tickets[d]
  }

  function LiveTransactions(ts: map<Digest, Transaction>, now: int): map<Digest, Transaction> {
    map d | d in ts && ts[d].telegramId > 0 && ts[d].expiresAt > now && ts[d].nonce != Absent && ts[d].verifier != Absent :: ts[d]
  }

  ghost function LoadSpec(cfg: Config, main: Option<Snapshot>, now: int): Result<Mem, StoreError> {
    if main.None? then Ok(Mem(map[], map[], map[])) else
    var s := main.value;
    if !HeaderMatches(cfg, s.version, s.issuer, s.clientId) then Err(WrongFile) else
    match LoadBindings(cfg, s.bindings)
    case Err(e) => Err(e)
    case Ok(l) => Ok(Mem(l.bindings, LiveTickets(s.tickets, now), LiveTransactions(s.transactions, now)))
  }

  ghost predicate SharesIdentity(bindings: map<int, Binding>) {
    exists a, b :: a in bindings && b in bindings && a != b && SubjectKey(bindings[a]) == SubjectKey(bindings[b])
  }

  /** Memory with the logged binding laid over it, or why the log is refused. */
  ghost function OverlaySpec(cfg: Config, mem: Mem, w: Wal): Result<Mem, StoreError> {
    var b := w.binding;
    if !HeaderMatches(cfg, w.version, w.issuer, w.clientId) then Err(WrongFile)
    else if b.telegramId <= 0 || b.issuer != cfg.issuer || b.subject == "" || b.refresh == Absent then Err(InvalidRecord)
    else if NormalizeERP(b.permissions, cfg.grammar).None? then Err(BadPermissions)
    else if Token(b).None? then Err(OpenFailed)
    else
      var kept := b.(permissions := NormalizeERP(b.permissions, cfg.grammar).value);
      var bindings := mem.bindings[b.telegramId := kept];
      if SharesIdentity(bindings) then Err(DuplicateIdentity) else Ok(mem.(bindings := bindings))
  }

  datatype StartIO = StartIO(readMain: bool, readWal: bool, save: bool, clear: bool)

  /** What a start-up leaves on disk, the states the disk passed through, and the running store it yields. */
  datatype Started = Started(disk: Disk, trace: seq<Disk>, result: Result<State, StoreError>)

  ghost predicate AnyRefused(cfg: Config, bindings: map<int, Binding>, wall: int) {
    exists id :: id in bindings && Replacement(cfg, map[], bindings[id].(telegramId := id), wall).None?
  }

  /** The federated table seeded from the bindings. */
  function SeedAll(bindings: map<int, Binding>, wall: int): Federated {
    map id | id in bindings && bindings[id].permissions != [] && wall < bindings[id].accessExpiresAt
      :: Grant(Elements(bindings[id].permissions), bindings[id].accessExpiresAt)
  }

  ghost function SeedSpec(cfg: Config, mem: Mem, disk: Disk, trace: seq<Disk>, wall: int): Started {
    Started(disk, trace, if AnyRefused(cfg, mem.bindings, wall) then Err(PermissionsRefused) else Ok(State(mem, disk, SeedAll(mem.bindings, wall))))
  }

  /** Start-up: load the main file, replay and retire the log, re-seed the permissions. */
  ghost function StartSpec(cfg: Config, disk: Disk, now: int, wall: int, io: StartIO): Started {
    if !io.readMain then Started(disk, [], Err(DiskReadFailed)) else
    match LoadSpec(cfg, disk.main, now)
    case Err(e) => Started(disk, [], Err(e))
    case Ok(mem) =>
      if !io.readWal then Started(disk, [], Err(DiskReadFailed))
      else if disk.wal.None? then SeedSpec(cfg, mem, disk, [], wall)
      else
        match OverlaySpec(cfg, mem, disk.wal.value)
        case Err(e) => Started(disk, [], Err(e))
        case Ok(overlaid) =>
          if !io.save then Started(disk, [], Err(PersistFailed))
          else
            var saved := Written(cfg, disk, overlaid);
            if !io.clear then Started(saved, [saved], Err(ClearWalFailed))
            else SeedSpec(cfg, overlaid, saved.(wal := None), [saved, saved.(wal := None)], wall)
  }
}
