/**
  The account service: any number of goroutines running refreshes, logins and
  unbinds, each under its user's lock, over the binding store and an identity
  provider that rotates credentials.

  Every read of the store, every store operation, and every call to the provider
  is one step, and steps of different goroutines interleave freely. The process may
  crash between any two disk effects and be restarted any number of times.
 */
module Service {
  import opened Wrappers
  import opened Canonical
  import opened Records
  import opened StoreSpec
  import opened StoreFacts
  import Runs = StoreRuns
  import Locks

  /** `local` maps a provider permission to a local one; `shown` cuts a name for display. */
  datatype Setup = Setup(cfg: Config, local: Parser, shown: string -> string)

  /** A grant the client has verified; no expiry is the zero time. */
  datatype VerifiedGrant = VerifiedGrant(
    issuer: string, subject: string, displayName: string, username: string,
    scopes: seq<string>, roles: seq<string>, permissions: seq<string>, accessExpiresAt: Option<int>, token: string)

  /** One user's binding to one provider identity. */
  datatype Key = Key(user: int, issuer: string, subject: string)

  datatype Exchange = Exchange(login: Login, issuer: string, subject: string)

  /**
    What the provider has done. `returned`: to whom each credential went. `newest`:
    the latest one of each binding in this process; `superseded`: those it replaced.
    `exchanged`: the logins that were exchanged for a grant.
   */
  datatype Provider = Provider(
    returned: map<string, Key>, newest: map<Key, string>, superseded: set<string>,
    revoked: set<string>, exchanged: set<Exchange>)

  datatype Task = Sweep(item: Binding) | RefreshNow(user: int) | Complete(login: Login) | Unbind(user: int)

  /** Where a goroutine is: before its lock, in a refresh, in a login, storing a grant, unbinding, or done with its grant. */
  datatype Pc =
    | Entering
    | Lookup
    | Check(item: Binding)
    | ReadToken(item: Binding, current: Binding)
    | Calling(item: Binding, current: Binding, token: string)
    | Failed(item: Binding, clear: bool)
    | Recording(item: Binding, clear: bool)
    | Granted(item: Binding, token: string, grant: VerifiedGrant)
    | Exchanging
    | Persist(grant: VerifiedGrant)
    | Stored(grant: VerifiedGrant)
    | Unstored(grant: VerifiedGrant)
    | Compare(grant: VerifiedGrant, stored: Binding)
    | Revoking(token: string, got: Option<VerifiedGrant>)
    | Removing
    | Done(got: Option<VerifiedGrant>)

  datatype Thread = Thread(task: Task, pc: Pc)

  datatype World = World(sys: Runs.Sys, table: Locks.Table<nat>, threads: map<nat, Thread>, prov: Provider)

  function User(task: Task): int {
    match task
    case Sweep(item) => item.telegramId
    case RefreshNow(user) => user
    case Complete(login) => login.telegramId
    case Unbind(user) => user
  }

  function FirstPc(task: Task): Pc {
    match task
    case Sweep(item) => Check(item)
    case RefreshNow(_) => Lookup
    case Complete(_) => Exchanging
    case Unbind(_) => Removing
  }

  // ---- the bodies, step by step ----

  function LocalPermissions(values: seq<string>, local: Parser): seq<string> {
    if values == [] then []
    else LocalPermissions(values[..|values| - 1], local)
         + (if local(values[|values| - 1]).Some? then [local(values[|values| - 1]).value] else [])
  }

  function ItemOf(setup: Setup, user: int, g: VerifiedGrant): Binding {
    Binding(user, g.issuer, g.subject, setup.shown(g.displayName), setup.shown(g.username), g.scopes, g.roles,
            LocalPermissions(g.permissions, setup.local), if g.accessExpiresAt.None? then 0 else g.accessExpiresAt.value,
            0, Absent, 0, 0)
  }

  /** `user` is bound, to the identity of `b`. */
  predicate SameIdentity(mem: Mem, user: int, issuer: string, subject: string) {
    user in mem.bindings && mem.bindings[user].issuer == issuer && mem.bindings[user].subject == subject
  }

  predicate Usable(cfg: Config, g: VerifiedGrant) { g.issuer == cfg.issuer && g.subject != "" && g.token != "" }

  function WithToken(g: VerifiedGrant, presented: string): VerifiedGrant {
    if g.token == "" then g.(token := presented) else g
  }

  predicate MakesCall(cfg: Config, pc: Pc) { pc.Recording? || pc.Removing? || (pc.Persist? && Usable(cfg, pc.grant)) }

  predicate AsksProvider(pc: Pc) { pc.Calling? || pc.Exchanging? || pc.Revoking? }

  predicate IsLocal(cfg: Config, pc: Pc) { !MakesCall(cfg, pc) && !AsksProvider(pc) && !pc.Entering? && !pc.Done? }

  /** A step that only reads the store. */
  function ReadStep(cfg: Config, mem: Mem, user: int, pc: Pc): Pc
    requires IsLocal(cfg, pc)
  {
    match pc
    case Lookup => if user in mem.bindings then Check(mem.bindings[user]) else Done(None)
    case Check(item) =>
      if SameIdentity(mem, user, item.issuer, item.subject) then ReadToken(item, mem.bindings[user]) else Done(None)
    case ReadToken(item, current) =>
      (match RefreshTokenSpec(mem, current)
       case Err(_) => Done(None)
       case Ok(token) => Calling(item, current, token))
    case Failed(item, clear) => if user in mem.bindings then Recording(item, clear) else Done(None)
    case Granted(item, token, g) =>
      if SameIdentity(mem, user, item.issuer, item.subject) && SameIdentity(mem, user, g.issuer, g.subject)
      then Persist(WithToken(g, token)) else Done(Some(g))
    case Persist(g) => Unstored(g)
    case Stored(g) => if user in mem.bindings then Done(Some(g)) else Unstored(g)
    case Unstored(g) =>
      if g.token == "" then Done(Some(g))
      else if SameIdentity(mem, user, g.issuer, g.subject) then Compare(g, mem.bindings[user])
      else Revoking(g.token, Some(g))
    case Compare(g, stored) => if RefreshTokenSpec(mem, stored) == Ok(g.token) then Done(Some(g)) else Revoking(g.token, Some(g))
    case _ => pc
  }

  datatype Reply = Refused(clear: bool) | Replied(grant: VerifiedGrant)

  datatype Oracle = Oracle(now: int, wall: int, save: bool, io: PutIO, rio: RemoveIO, reply: Reply)

  /** The store operation a goroutine is about to make. */
  function CallOf(setup: Setup, user: int, pc: Pc, o: Oracle): Runs.Call
    requires MakesCall(setup.cfg, pc)
  {
    Runs.Call(
      match pc
      case Recording(item, clear) => Runs.Fail(item.telegramId, clear)
      case Persist(g) => Runs.Put(ItemOf(setup, user, g), g.token, o.io)
      case _ => Runs.Remove(user, o.rio),
      o.now, o.wall, o.save)
  }

  ghost function AfterCall(setup: Setup, st: State, user: int, pc: Pc, o: Oracle): Pc
    requires MakesCall(setup.cfg, pc)
  {
    match pc
    case Recording(_, _) => Done(None)
    case Persist(g) =>
      if PutSpec(setup.cfg, st, ItemOf(setup, user, g), g.token, o.now, o.wall, o.io).result.Ok? then Stored(g) else Unstored(g)
    case _ =>
      match RemoveSpec(setup.cfg, st, user, o.rio).result
      case Ok(Some(r)) => if r.token != "" then Revoking(r.token, None) else Done(None)
      case _ => Done(None)
  }

  /** The provider hands out `token` for `key`. */
  function Hands(prov: Provider, key: Key, token: string): Provider {
    if token == "" then prov else
      prov.(returned := prov.returned[token := key], newest := prov.newest[key := token],
            superseded := prov.superseded + (if key in prov.newest && prov.newest[key] != token then {prov.newest[key]} else {}))
  }

  function LoginOf(task: Task): Login { if task.Complete? then task.login else Login(User(task), "", "") }

  function ProviderAfter(prov: Provider, task: Task, pc: Pc, reply: Reply): Provider
    requires AsksProvider(pc)
  {
    if pc.Revoking? then prov.(revoked := prov.revoked + {pc.token})
    else if reply.Refused? then prov
    else
      var g := reply.grant;
      var handed := Hands(prov, Key(User(task), g.issuer, g.subject), g.token);
      if pc.Calling? then handed
      else handed.(exchanged := handed.exchanged + {Exchange(LoginOf(task), g.issuer, g.subject)})
  }

  function PcAfter(pc: Pc, reply: Reply): Pc
    requires AsksProvider(pc)
  {
    if pc.Revoking? then Done(pc.got)
    else if reply.Refused? then (if pc.Calling? then Failed(pc.item, reply.clear) else Done(None))
    else if pc.Calling? then Granted(pc.item, pc.token, reply.grant)
    else Persist(reply.grant)
  }

  /**
    The client's contract. A refresh returns the configured issuer and the expected
    subject, and no credential, the one presented, or one never seen before; a login
    returns any identity and no credential or one never seen before.
   */
  predicate Allowed(cfg: Config, prov: Provider, pc: Pc, reply: Reply) {
    match reply
    case Refused(_) => true
    case Replied(g) =>
      && |g.permissions| <= MAX_PERMISSIONS
      && (pc.Calling? ==> g.issuer == cfg.issuer && g.subject == pc.current.subject)
      && (g.token == "" || g.token !in prov.returned || (pc.Calling? && g.token == pc.token))
  }

  // ---- the machine ----

  datatype Label =
    | Ticket(call: Runs.Call)
    | Accept(tid: nat, call: Runs.Call)
    | Spawn(tid: nat, task: Task)
    | Enter(tid: nat, unused: nat)
    | Take(tid: nat)
    | Act(tid: nat, o: Oracle)
    | Free(tid: nat)
    | Exit(tid: nat)
    | CrashInTicket(call: Runs.Call, k: nat)
    | CrashInAct(tid: nat, o: Oracle, k: nat)
    | Start(now: int, wall: int, sio: StartIO)
    | HaltedStart(now: int, wall: int, sio: StartIO, k: nat)

  const NO_LOCKS: Locks.Table<nat> := Locks.Table(map[], map[], map[])

  function Initial(): World { World(Runs.Initial(), NO_LOCKS, map[], Provider(map[], map[], {}, {}, {})) }

  predicate Holds(w: World, tid: nat) { tid in w.threads && tid in w.table.regs && w.table.regs[tid].stage == Locks.Holding }

  /** The store operations outside the lock: issuing, previewing and trading tickets, and closing a login. */
  predicate IsTicketOp(op: Runs.Op) { op.Issue? || op.Lookup? || op.Trade? || op.Close? }

  /** The store's own step behind a step of the service, if it takes one. */
  ghost function SysLabel(setup: Setup, w: World, l: Label): Option<Runs.Label> {
    match l
    case Ticket(call) => Some(Runs.Run(call))
    case Accept(_, call) => Some(Runs.Run(call))
    case Act(tid, o) =>
      if tid in w.threads && MakesCall(setup.cfg, w.threads[tid].pc)
      then Some(Runs.Run(CallOf(setup, User(w.threads[tid].task), w.threads[tid].pc, o))) else None
    case CrashInTicket(call, k) => Some(Runs.Crash(call, k))
    case CrashInAct(tid, o, k) =>
      if tid in w.threads && MakesCall(setup.cfg, w.threads[tid].pc)
      then Some(Runs.Crash(CallOf(setup, User(w.threads[tid].task), w.threads[tid].pc, o), k)) else None
    case Start(now, wall, sio) => Some(Runs.Start(now, wall, sio))
    case HaltedStart(now, wall, sio, k) => Some(Runs.HaltedStart(now, wall, sio, k))
    case _ => None
  }

  /** A body goes on while it holds its lock; the provider keeps its client's contract; sealing never fails. */
  ghost predicate Enabled(setup: Setup, w: World, l: Label) {
    && (SysLabel(setup, w, l).Some? ==> Runs.Enabled(setup.cfg, w.sys, SysLabel(setup, w, l).value))
    && match l
       case Ticket(call) => IsTicketOp(call.op) && !call.op.Close?
       case Accept(tid, call) => call.op.Close? && tid !in w.threads && tid !in w.table.regs
       case Spawn(tid, task) => w.sys.phase.Up? && !task.Complete? && tid !in w.threads && tid !in w.table.regs
       case Enter(tid, unused) => tid in w.threads && Locks.CanRegister(w.table, tid, User(w.threads[tid].task), unused)
       case Take(tid) => tid in w.threads && Locks.CanAcquire(w.table, tid)
       case Act(tid, o) =>
         && w.sys.phase.Up? && Holds(w, tid) && !w.threads[tid].pc.Done? && !w.threads[tid].pc.Entering?
         && (AsksProvider(w.threads[tid].pc) ==> Allowed(setup.cfg, w.prov, w.threads[tid].pc, o.reply))
         && o.io.seal
       case Free(tid) => tid in w.threads && w.threads[tid].pc.Done? && Locks.CanUnlock(w.table, tid)
       case Exit(tid) => tid in w.threads && Locks.CanLeave(w.table, tid)
       case CrashInTicket(call, _) => IsTicketOp(call.op)
       case CrashInAct(tid, o, _) => Holds(w, tid) && MakesCall(setup.cfg, w.threads[tid].pc) && o.io.seal
       case Start(_, _, _) => true
       case HaltedStart(_, _, _, _) => true
  }

  function KeysOf(bindings: map<int, Binding>): set<Key> {
    set v | v in bindings :: Key(v, bindings[v].issuer, bindings[v].subject)
  }

  function TokenOrEmpty(b: Binding): string { if Token(b).Some? then Token(b).value else "" }

  /** A process begins with the credentials it loaded. */
  function Loaded(prov: Provider, bindings: map<int, Binding>): Provider {
    prov.(newest := map k | k in KeysOf(bindings) && k.user in bindings :: TokenOrEmpty(bindings[k.user]), superseded := {})
  }

  ghost function SysAfter(setup: Setup, w: World, l: Label): Runs.Sys {
    match SysLabel(setup, w, l)
    case None => w.sys
    case Some(sl) => Runs.Step(setup.cfg, w.sys, sl)
  }

  ghost function ActAfter(setup: Setup, w: World, tid: nat, o: Oracle): World
    requires Enabled(setup, w, Act(tid, o))
  {
    var th := w.threads[tid];
    var user := User(th.task);
    var st := w.sys.phase.st;
    if MakesCall(setup.cfg, th.pc) then
      w.(sys := SysAfter(setup, w, Act(tid, o)), threads := w.threads[tid := Thread(th.task, AfterCall(setup, st, user, th.pc, o))])
    else if AsksProvider(th.pc) then
      w.(prov := ProviderAfter(w.prov, th.task, th.pc, o.reply), threads := w.threads[tid := Thread(th.task, PcAfter(th.pc, o.reply))])
    else
      w.(threads := w.threads[tid := Thread(th.task, ReadStep(setup.cfg, st.mem, user, th.pc))])
  }

  ghost function Taken(setup: Setup, w: World, l: Label): World
    requires Enabled(setup, w, l)
  {
    match l
    case Ticket(_) => w.(sys := SysAfter(setup, w, l))
    case Accept(tid, call) =>
      var r := ConsumeTransactionSpec(setup.cfg, w.sys.phase.st, call.op.state, call.now, call.save).result;
      if r.Ok? then w.(sys := SysAfter(setup, w, l), threads := w.threads[tid := Thread(Complete(r.value), Entering)])
      else w.(sys := SysAfter(setup, w, l))
    case Spawn(tid, task) => w.(threads := w.threads[tid := Thread(task, Entering)])
    case Enter(tid, unused) => w.(table := Locks.Register(w.table, tid, User(w.threads[tid].task), unused))
    case Take(tid) =>
      w.(table := Locks.Acquire(w.table, tid), threads := w.threads[tid := Thread(w.threads[tid].task, FirstPc(w.threads[tid].task))])
    case Act(tid, o) => ActAfter(setup, w, tid, o)
    case Free(tid) => w.(table := Locks.Unlock(w.table, tid))
    case Exit(tid) => w.(table := Locks.Leave(w.table, tid), threads := w.threads - {tid})
    case CrashInTicket(_, _) => World(SysAfter(setup, w, l), NO_LOCKS, map[], w.prov)
    case CrashInAct(_, _, _) => World(SysAfter(setup, w, l), NO_LOCKS, map[], w.prov)
    case Start(_, _, _) =>
      var sys := SysAfter(setup, w, l);
      World(sys, NO_LOCKS, map[], if sys.phase.Up? then Loaded(w.prov, sys.phase.st.mem.bindings) else w.prov)
    case HaltedStart(_, _, _, _) => World(SysAfter(setup, w, l), NO_LOCKS, map[], w.prov)
  }

  /** A step that cannot be taken changes nothing. */
  ghost function Step(setup: Setup, w: World, l: Label): World { if Enabled(setup, w, l) then Taken(setup, w, l) else w }

  ghost function After(setup: Setup, run: seq<Label>): World {
    if run == [] then Initial() else Step(setup, After(setup, run[..|run| - 1]), run[|run| - 1])
  }
}
