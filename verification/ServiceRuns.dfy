/**
  Every run of the service: the invariant of all goroutines together, and what it
  guarantees about credentials, unbinding and the origin of bindings.
 */
module ServiceRuns {
  import opened Wrappers
  import opened Canonical
  import opened Records
  import opened StoreSpec
  import opened StoreFacts
  import opened StoreOps
  import opened StoreEffects
  import Runs = StoreRuns
  import Locks
  import opened Service
  import opened ServiceInv

  // ---- the invariant ----

  predicate LoginClosed(log: seq<Runs.Event>, login: Login) {
    exists i :: 0 <= i < |log| && log[i].Closed? && log[i].login == login
  }

  /** The service opens logins only by trading tickets. */
  predicate OnlyTraded(log: seq<Runs.Event>) { forall i :: 0 <= i < |log| ==> !log[i].Begun? }

  ghost predicate Facts(setup: Setup, w: World) {
    && Runs.SysInv(setup.cfg, w.sys) && ProvInv(w.prov) && Owned(w.sys.phase, w.prov)
    && (forall x :: x in w.prov.exchanged ==> LoginClosed(w.sys.log, x.login))
    && OnlyTraded(w.sys.log)
  }

  /** A goroutine is past its lock exactly when it has acquired it; nobody counted is missing. */
  ghost predicate LocksOk(w: World) {
    && Locks.Good(w.table)
    && (forall tid :: tid in w.table.regs ==> tid in w.threads && w.table.regs[tid].user == User(w.threads[tid].task))
    && (forall tid :: tid in w.threads ==> ThreadOk(w, tid))
  }

  ghost predicate ThreadOk(w: World, tid: nat)
    requires tid in w.threads
  {
    && (w.threads[tid].pc.Entering? <==> tid !in w.table.regs || w.table.regs[tid].stage == Locks.Waiting)
    && (w.threads[tid].task.Complete? ==> LoginClosed(w.sys.log, w.threads[tid].task.login))
  }

  ghost predicate ThreadsOk(setup: Setup, w: World) {
    match w.sys.phase
    case Up(st) =>
      && (forall tid :: Holds(w, tid) ==> PcInv(setup.cfg, st, w.prov, w.threads[tid].task, w.threads[tid].pc))
      && (forall u :: !Locks.HasHolder(w.table.regs, u) ==> Current(st.mem, w.prov, u))
    case Down(_) => w.threads == map[] && w.table == NO_LOCKS
  }

  ghost predicate Inv(setup: Setup, w: World) {
    ValidSetup(setup) && Facts(setup, w) && LocksOk(w) && ThreadsOk(setup, w)
  }

  // ---- the store underneath ----

  /** A store step whose one new binding is traced keeps every stored binding traced. */
  lemma {:induction false} SysStepFacts(cfg: Config, s: Runs.Sys, prov: Provider, l: Runs.Label)
    requires ValidGrammar(cfg.grammar) && Runs.SysInv(cfg, s) && Runs.Enabled(cfg, s, l)
    requires Owned(s.phase, prov) && OnlyTraded(s.log)
    requires forall v, b :: Runs.Brings(cfg, s, l, v, b) ==> Traced(prov, v, b)
    requires (l.Run? || l.Crash?) ==> !l.call.op.Begin?
    ensures var s' := Runs.Step(cfg, s, l);
      && Runs.SysInv(cfg, s') && Owned(s'.phase, prov) && OnlyTraded(s'.log)
      && forall login :: LoginClosed(s.log, login) ==> LoginClosed(s'.log, login)
  {
    Runs.StepKeeps(cfg, s, l);
    forall v, b | Runs.Bound(Runs.Step(cfg, s, l).phase, v, b) ensures Traced(prov, v, b) {
      Runs.StepBrings(cfg, s, l, v, b);
    }
    LogAfter(cfg, s, l);
  }

  lemma {:induction false} LogAfter(cfg: Config, s: Runs.Sys, l: Runs.Label)
    requires Runs.Enabled(cfg, s, l) && OnlyTraded(s.log)
    requires (l.Run? || l.Crash?) ==> !l.call.op.Begin?
    ensures OnlyTraded(Runs.Step(cfg, s, l).log)
    ensures forall login :: LoginClosed(s.log, login) ==> LoginClosed(Runs.Step(cfg, s, l).log, login)
  {
    if l.Run? || l.Crash? {
      var e := Runs.Perform(cfg, s.phase.st, l.call).event;
      if e.Some? { LoggedLogins(s.log, e.value); }
    }
  }

  lemma LoggedLogins(log: seq<Runs.Event>, e: Runs.Event)
    requires OnlyTraded(log) && !e.Begun?
    ensures OnlyTraded(log + [e])
    ensures forall login :: LoginClosed(log, login) ==> LoginClosed(log + [e], login)
    ensures e.Closed? ==> LoginClosed(log + [e], e.login)
  {
    assert (log + [e])[|log|] == e;
    forall login | LoginClosed(log, login) ensures LoginClosed(log + [e], login) {
      var i :| 0 <= i < |log| && log[i].Closed? && log[i].login == login;
      assert (log + [e])[i] == log[i];
    }
  }

  // ---- a goroutine's own step ----

  /** If a goroutine's step keeps its own invariant and leaves other users' alone, the whole invariant stands. */
  lemma {:induction false} ActCombine(setup: Setup, w: World, w': World, tid: nat, pc: Pc)
    requires LocksOk(w) && ThreadsOk(setup, w) && Holds(w, tid) && w.sys.phase.Up? && w'.sys.phase.Up?
    requires w'.table == w.table && w'.threads == w.threads[tid := Thread(w.threads[tid].task, pc)] && !pc.Entering?
    requires forall login :: LoginClosed(w.sys.log, login) ==> LoginClosed(w'.sys.log, login)
    requires forall v :: v != User(w.threads[tid].task) ==> Frame(w.sys.phase.st, w.prov, w'.sys.phase.st, w'.prov, v)
    requires PcInv(setup.cfg, w'.sys.phase.st, w'.prov, w.threads[tid].task, pc)
    ensures LocksOk(w') && ThreadsOk(setup, w')
  {
    forall t | Holds(w', t) ensures PcInv(setup.cfg, w'.sys.phase.st, w'.prov, w'.threads[t].task, w'.threads[t].pc) {
      if t != tid {
        assert Holds(w, t) && w.table.regs[t].user != w.table.regs[tid].user;
        PcStable(setup.cfg, w.sys.phase.st, w.prov, w'.sys.phase.st, w'.prov, w.threads[t].task, w.threads[t].pc);
      }
    }
    forall u | !Locks.HasHolder(w'.table.regs, u) ensures Current(w'.sys.phase.st.mem, w'.prov, u) {
      assert u != w.table.regs[tid].user;
      CurrentStable(w.sys.phase.st, w.prov, w'.sys.phase.st, w'.prov, u);
    }
    forall t | t in w'.threads ensures ThreadOk(w', t) { assert ThreadOk(w, t); }
  }

  function AtPc(w: World, tid: nat, pc: Pc): map<nat, Thread>
    requires tid in w.threads
  {
    w.threads[tid := Thread(w.threads[tid].task, pc)]
  }

  lemma {:induction false} ReadActKeeps(setup: Setup, w: World, tid: nat)
    requires LocksOk(w) && ThreadsOk(setup, w) && Holds(w, tid) && w.sys.phase.Up? && GoodBindings(setup.cfg, w.sys.phase.st.mem.bindings)
    requires IsLocal(setup.cfg, w.threads[tid].pc)
    ensures var w' := w.(threads := AtPc(w, tid, ReadStep(setup.cfg, w.sys.phase.st.mem, User(w.threads[tid].task), w.threads[tid].pc)));
      LocksOk(w') && ThreadsOk(setup, w')
  {
    var th, st := w.threads[tid], w.sys.phase.st;
    var pc := ReadStep(setup.cfg, st.mem, User(th.task), th.pc);
    ReadKeeps(setup.cfg, st, w.prov, th.task, th.pc);
    forall v ensures Frame(st, w.prov, st, w.prov, v) { FrameRefl(st, w.prov, v); }
    ActCombine(setup, w, w.(threads := AtPc(w, tid, pc)), tid, pc);
  }

  /** What the provider's answer leaves true of its own books, of the stored bindings, and of the goroutine that asked. */
  ghost predicate ProviderKept(setup: Setup, st: State, prov: Provider, task: Task, pc: Pc, reply: Reply)
    requires AsksProvider(pc)
  {
    var prov' := ProviderAfter(prov, task, pc, reply);
    && ProvInv(prov') && Owned(Runs.Up(st), prov') && PcInv(setup.cfg, st, prov', task, PcAfter(pc, reply))
    && (forall v :: v != User(task) ==> Frame(st, prov, st, prov', v))
    && (forall x :: x in prov'.exchanged && x !in prov.exchanged ==> task.Complete? && x.login == task.login)
  }

  lemma {:induction false} RevokedKept(setup: Setup, st: State, prov: Provider, task: Task, pc: Pc, reply: Reply)
    requires ProvInv(prov) && Owned(Runs.Up(st), prov) && PcInv(setup.cfg, st, prov, task, pc) && pc.Revoking?
    ensures ProviderKept(setup, st, prov, task, pc, reply)
  {
    var prov' := ProviderAfter(prov, task, pc, reply);
    RevokeReply(setup.cfg, st, prov, task, pc, reply);
    forall v, b | Runs.Bound(Runs.Up(st), v, b) && Token(b).Some? ensures Token(b).value != pc.token { assert Held(st, v, b); }
    forall v | v != User(task) ensures Frame(st, prov, st, prov', v) { ProviderFrame(st, prov, task, pc, reply, v); }
    OwnedAfterProvider(Runs.Up(st), prov, prov');
  }

  lemma {:induction false} RefusedKept(setup: Setup, st: State, prov: Provider, task: Task, pc: Pc, reply: Reply)
    requires ProvInv(prov) && Owned(Runs.Up(st), prov) && PcInv(setup.cfg, st, prov, task, pc) && (pc.Calling? || pc.Exchanging?) && reply.Refused?
    ensures ProviderKept(setup, st, prov, task, pc, reply)
  {
    forall v ensures Frame(st, prov, st, prov, v) { FrameRefl(st, prov, v); }
  }

  lemma {:induction false} GrantedKept(setup: Setup, st: State, prov: Provider, task: Task, pc: Pc, reply: Reply)
    requires StoreInv(setup.cfg, st) && ProvInv(prov) && Owned(Runs.Up(st), prov) && PcInv(setup.cfg, st, prov, task, pc)
    requires (pc.Calling? || pc.Exchanging?) && reply.Replied? && Allowed(setup.cfg, prov, pc, reply)
    ensures ProviderKept(setup, st, prov, task, pc, reply)
  {
    var prov' := ProviderAfter(prov, task, pc, reply);
    var k := Key(User(task), reply.grant.issuer, reply.grant.subject);
    if pc.Calling? { RefreshReply(setup.cfg, st, prov, task, pc, reply); } else { LoginReply(setup.cfg, st, prov, task, pc, reply); }
    HandsKeeps(prov, k, reply.grant.token);
    ExchangedKeeps(Hands(prov, k, reply.grant.token), prov'.exchanged);
    forall v | v != User(task) ensures Frame(st, prov, st, prov', v) { ProviderFrame(st, prov, task, pc, reply, v); }
    OwnedAfterProvider(Runs.Up(st), prov, prov');
  }

  lemma {:induction false} ProviderActFacts(setup: Setup, st: State, prov: Provider, task: Task, pc: Pc, reply: Reply)
    requires StoreInv(setup.cfg, st) && ProvInv(prov) && Owned(Runs.Up(st), prov)
    requires PcInv(setup.cfg, st, prov, task, pc) && AsksProvider(pc) && Allowed(setup.cfg, prov, pc, reply)
    ensures ProviderKept(setup, st, prov, task, pc, reply)
  {
    if pc.Revoking? { RevokedKept(setup, st, prov, task, pc, reply); }
    else if reply.Refused? { RefusedKept(setup, st, prov, task, pc, reply); }
    else { GrantedKept(setup, st, prov, task, pc, reply); }
  }

  lemma ExchangedKeeps(prov: Provider, exchanged: set<Exchange>)
    requires ProvInv(prov)
    ensures ProvInv(prov.(exchanged := exchanged))
  {
    forall k | k in prov.newest ensures IsNewest(prov.(exchanged := exchanged), k) { assert IsNewest(prov, k); }
  }

  lemma {:induction false} ProviderActKeeps(setup: Setup, w: World, tid: nat, reply: Reply)
    requires LocksOk(w) && ThreadsOk(setup, w) && Facts(setup, w) && Holds(w, tid) && w.sys.phase.Up?
    requires AsksProvider(w.threads[tid].pc) && Allowed(setup.cfg, w.prov, w.threads[tid].pc, reply)
    ensures var th := w.threads[tid];
      var w' := w.(prov := ProviderAfter(w.prov, th.task, th.pc, reply), threads := AtPc(w, tid, PcAfter(th.pc, reply)));
      LocksOk(w') && ThreadsOk(setup, w') && Facts(setup, w')
  {
    var th, st := w.threads[tid], w.sys.phase.st;
    ProviderActFacts(setup, st, w.prov, th.task, th.pc, reply);
    assert ThreadOk(w, tid);
    var w' := w.(prov := ProviderAfter(w.prov, th.task, th.pc, reply), threads := AtPc(w, tid, PcAfter(th.pc, reply)));
    ActCombine(setup, w, w', tid, PcAfter(th.pc, reply));
  }

  /** The store operation of a goroutine touches its own user only, and brings in at most a traced binding. */
  ghost predicate OwnCall(setup: Setup, st: State, prov: Provider, u: int, c: Runs.Call) {
    && Runs.UserOf(c.op) == u && (c.op.Put? || c.op.Remove? || c.op.Fail?)
    && (Runs.AddedBy(setup.cfg, st, c).Some? ==> Traced(prov, u, Runs.AddedBy(setup.cfg, st, c).value))
  }

  lemma {:induction false} CallActFacts(setup: Setup, st: State, prov: Provider, task: Task, pc: Pc, o: Oracle)
    requires ValidSetup(setup) && StoreInv(setup.cfg, st) && ProvInv(prov) && Owned(Runs.Up(st), prov)
    requires PcInv(setup.cfg, st, prov, task, pc) && MakesCall(setup.cfg, pc) && o.io.seal
    ensures var c := CallOf(setup, User(task), pc, o);
      && OwnCall(setup, st, prov, User(task), c)
      && PcInv(setup.cfg, Runs.Perform(setup.cfg, st, c).st, prov, task, AfterCall(setup, st, User(task), pc, o))
  {
    match pc
    case Persist(g) =>
      PersistKeeps(setup, st, prov, task, pc, o);
      PersistTraced(setup, st, prov, task, g, CallOf(setup, User(task), pc, o));
    case Recording(_, _) => RecordingKeeps(setup, st, prov, task, pc, o);
    case Removing => RemovingKeeps(setup, st, prov, task, pc, o);
  }

  /** A grant stored by a login has its exchange; one stored by a refresh inherits that of the binding it renews. */
  lemma {:induction false} PersistTraced(setup: Setup, st: State, prov: Provider, task: Task, g: VerifiedGrant, c: Runs.Call)
    requires Owned(Runs.Up(st), prov) && PcInv(setup.cfg, st, prov, task, Persist(g)) && Usable(setup.cfg, g)
    requires var added := Runs.AddedBy(setup.cfg, st, c);
      added.Some? ==> KeyOf(User(task), added.value) == Key(User(task), g.issuer, g.subject) && Token(added.value) == Some(g.token)
    ensures var added := Runs.AddedBy(setup.cfg, st, c);
      added.Some? ==> Traced(prov, User(task), added.value)
  {
    var u, m := User(task), st.mem.bindings;
    if Refreshing(task) {
      assert Runs.Bound(Runs.Up(st), u, m[u]) && Traced(prov, u, m[u]);
      var login :| Exchange(login, m[u].issuer, m[u].subject) in prov.exchanged && login.telegramId == u;
    } else {
      assert Exchange(task.login, g.issuer, g.subject) in prov.exchanged && task.login.telegramId == u;
    }
  }

  lemma {:induction false} CallFrames(setup: Setup, s: Runs.Sys, prov: Provider, u: int, c: Runs.Call)
    requires ValidSetup(setup) && Runs.SysInv(setup.cfg, s) && s.phase.Up? && OwnCall(setup, s.phase.st, prov, u, c)
    ensures forall v :: v != u ==> Frame(s.phase.st, prov, Runs.Perform(setup.cfg, s.phase.st, c).st, prov, v)
  {
    var st := s.phase.st;
    var e := Runs.Perform(setup.cfg, st, c);
    Runs.PerformFootprint(setup.cfg, s.log, st, c);
    forall v | v != u ensures Frame(st, prov, e.st, prov, v) {
      StoreFrame(st, prov, e.st, e.trace, u, Runs.AddedBy(setup.cfg, st, c), v);
    }
  }

  ghost function AfterCallWorld(setup: Setup, w: World, tid: nat, o: Oracle): World
    requires tid in w.threads && w.sys.phase.Up? && MakesCall(setup.cfg, w.threads[tid].pc)
  {
    var th := w.threads[tid];
    w.(sys := Runs.Step(setup.cfg, w.sys, Runs.Run(CallOf(setup, User(th.task), th.pc, o))),
       threads := AtPc(w, tid, AfterCall(setup, w.sys.phase.st, User(th.task), th.pc, o)))
  }

  lemma {:induction false} CallKeepsFacts(setup: Setup, s: Runs.Sys, prov: Provider, u: int, c: Runs.Call)
    requires ValidSetup(setup) && Runs.SysInv(setup.cfg, s) && Runs.Enabled(setup.cfg, s, Runs.Run(c))
    requires Owned(s.phase, prov) && OnlyTraded(s.log) && OwnCall(setup, s.phase.st, prov, u, c)
    ensures var s' := Runs.Step(setup.cfg, s, Runs.Run(c));
      && Runs.SysInv(setup.cfg, s') && Owned(s'.phase, prov) && OnlyTraded(s'.log)
      && s'.phase == Runs.Up(Runs.Perform(setup.cfg, s.phase.st, c).st)
      && (forall login :: LoginClosed(s.log, login) ==> LoginClosed(s'.log, login))
  {
    SysStepFacts(setup.cfg, s, prov, Runs.Run(c));
  }

  lemma {:induction false} CallActKeeps(setup: Setup, w: World, tid: nat, o: Oracle)
    requires ValidSetup(setup) && LocksOk(w) && ThreadsOk(setup, w) && Facts(setup, w) && Holds(w, tid) && w.sys.phase.Up?
    requires MakesCall(setup.cfg, w.threads[tid].pc) && o.io.seal
    requires Runs.Enabled(setup.cfg, w.sys, Runs.Run(CallOf(setup, User(w.threads[tid].task), w.threads[tid].pc, o)))
    ensures var w' := AfterCallWorld(setup, w, tid, o); LocksOk(w') && ThreadsOk(setup, w') && Facts(setup, w')
  {
    var th, st := w.threads[tid], w.sys.phase.st;
    var c := CallOf(setup, User(th.task), th.pc, o);
    CallActFacts(setup, st, w.prov, th.task, th.pc, o);
    CallFrames(setup, w.sys, w.prov, User(th.task), c);
    CallKeepsFacts(setup, w.sys, w.prov, User(th.task), c);
    ActCombine(setup, w, AfterCallWorld(setup, w, tid, o), tid, AfterCall(setup, st, User(th.task), th.pc, o));
  }

  // ---- the other steps ----

  /** A step that leaves every user's frame alone and touches no goroutine keeps what holds of them. */
  lemma {:induction false} StoreStepThreads(setup: Setup, w: World, sys: Runs.Sys)
    requires LocksOk(w) && ThreadsOk(setup, w) && w.sys.phase.Up? && sys.phase.Up?
    requires forall login :: LoginClosed(w.sys.log, login) ==> LoginClosed(sys.log, login)
    requires forall v :: Frame(w.sys.phase.st, w.prov, sys.phase.st, w.prov, v)
    ensures LocksOk(w.(sys := sys)) && ThreadsOk(setup, w.(sys := sys))
  {
    var w', st := w.(sys := sys), w.sys.phase.st;
    forall tid | Holds(w', tid) ensures PcInv(setup.cfg, sys.phase.st, w.prov, w'.threads[tid].task, w'.threads[tid].pc) {
      PcStable(setup.cfg, st, w.prov, sys.phase.st, w.prov, w.threads[tid].task, w.threads[tid].pc);
    }
    forall u | !Locks.HasHolder(w'.table.regs, u) ensures Current(sys.phase.st.mem, w.prov, u) {
      CurrentStable(st, w.prov, sys.phase.st, w.prov, u);
    }
    forall tid | tid in w'.threads ensures ThreadOk(w', tid) { assert ThreadOk(w, tid); }
  }

  lemma {:induction false} TicketCallFacts(setup: Setup, w: World, call: Runs.Call)
    requires Inv(setup, w) && Runs.Enabled(setup.cfg, w.sys, Runs.Run(call)) && IsTicketOp(call.op)
    ensures var sys := Runs.Step(setup.cfg, w.sys, Runs.Run(call));
      && Facts(setup, w.(sys := sys)) && LocksOk(w.(sys := sys)) && ThreadsOk(setup, w.(sys := sys))
      && forall login :: LoginClosed(w.sys.log, login) ==> LoginClosed(sys.log, login)
  {
    var st, e := w.sys.phase.st, Runs.Perform(setup.cfg, w.sys.phase.st, call);
    SysStepFacts(setup.cfg, w.sys, w.prov, Runs.Run(call));
    Runs.TicketOpFootprint(setup.cfg, w.sys.log, st, call);
    forall v ensures Frame(st, w.prov, e.st, w.prov, v) { SameBindingsFrame(st, w.prov, e.st, e.trace, v); }
    StoreStepThreads(setup, w, Runs.Step(setup.cfg, w.sys, Runs.Run(call)));
  }

  lemma {:induction false} SameBindingsFrame(st: State, prov: Provider, st': State, trace: seq<Disk>, v: int)
    requires st'.mem.bindings == st.mem.bindings && Footprint(st, st', trace, 0, None)
    ensures Frame(st, prov, st', prov, v)
  {
    forall t | NotBound(st, t) ensures NotBound(st', t) {
      forall w, b | Held(st', w, b) ensures Token(b) != Some(t) { assert Held(st, w, b); }
    }
  }

  lemma {:induction false} AcceptKeeps(setup: Setup, w: World, tid: nat, call: Runs.Call)
    requires Inv(setup, w) && Enabled(setup, w, Accept(tid, call))
    ensures Inv(setup, Taken(setup, w, Accept(tid, call)))
  {
    TicketCallFacts(setup, w, call);
    var w1 := w.(sys := Runs.Step(setup.cfg, w.sys, Runs.Run(call)));
    var r := ConsumeTransactionSpec(setup.cfg, w.sys.phase.st, call.op.state, call.now, call.save).result;
    if r.Ok? {
      LoggedLogins(w.sys.log, Runs.Closed(call.op.state, r.value, call.now));
      Spawned(setup, w1, tid, Complete(r.value));
    }
  }

  lemma {:induction false} Spawned(setup: Setup, w: World, tid: nat, task: Task)
    requires LocksOk(w) && ThreadsOk(setup, w) && w.sys.phase.Up? && tid !in w.threads && tid !in w.table.regs
    requires task.Complete? ==> LoginClosed(w.sys.log, task.login)
    ensures var w' := w.(threads := w.threads[tid := Thread(task, Entering)]); LocksOk(w') && ThreadsOk(setup, w')
  {
    var w' := w.(threads := w.threads[tid := Thread(task, Entering)]);
    forall t | t in w'.threads ensures ThreadOk(w', t) { assert t != tid ==> ThreadOk(w, t); }
    forall t | Holds(w', t) ensures Holds(w, t) {}
  }

  lemma {:induction false} EnterKeeps(setup: Setup, w: World, tid: nat, unused: nat)
    requires LocksOk(w) && ThreadsOk(setup, w)
    requires tid in w.threads && Locks.CanRegister(w.table, tid, User(w.threads[tid].task), unused)
    ensures var w' := w.(table := Locks.Register(w.table, tid, User(w.threads[tid].task), unused)); LocksOk(w') && ThreadsOk(setup, w')
  {
    var w' := w.(table := Locks.Register(w.table, tid, User(w.threads[tid].task), unused));
    Locks.RegisterKeeps(w.table, tid, User(w.threads[tid].task), unused);
    forall t | t in w'.threads ensures ThreadOk(w', t) { assert ThreadOk(w, t); }
    forall t | Holds(w', t) ensures Holds(w, t) {}
    forall u { Locks.HoldersJoin(w.table.regs, tid, w'.table.regs[tid], u); }
  }

  function AfterTake(w: World, tid: nat): World
    requires tid in w.threads && Locks.CanAcquire(w.table, tid)
  {
    w.(table := Locks.Acquire(w.table, tid), threads := w.threads[tid := Thread(w.threads[tid].task, FirstPc(w.threads[tid].task))])
  }

  lemma {:induction false} TakeLocks(w: World, tid: nat)
    requires LocksOk(w) && tid in w.threads && Locks.CanAcquire(w.table, tid)
    ensures LocksOk(AfterTake(w, tid)) && !Locks.HasHolder(w.table.regs, User(w.threads[tid].task))
  {
    var w' := AfterTake(w, tid);
    Locks.AcquireKeeps(w.table, tid);
    assert Locks.GoodEntry(w.table, w.table.regs[tid].user);
    forall t | t in w'.threads ensures ThreadOk(w', t) { assert ThreadOk(w, t); }
  }

  lemma {:induction false} TakeKeeps(setup: Setup, w: World, tid: nat)
    requires LocksOk(w) && ThreadsOk(setup, w) && w.sys.phase.Up? && tid in w.threads && Locks.CanAcquire(w.table, tid)
    ensures LocksOk(AfterTake(w, tid)) && ThreadsOk(setup, AfterTake(w, tid))
  {
    var w' := AfterTake(w, tid);
    TakeLocks(w, tid);
    var u := User(w.threads[tid].task);
    assert Current(w.sys.phase.st.mem, w.prov, u);
    FirstPcInv(setup.cfg, w.sys.phase.st, w.prov, w.threads[tid].task);
    forall t | Holds(w', t) && t != tid ensures Holds(w, t) && w'.threads[t] == w.threads[t] {}
    TakeIdle(setup, w, tid);
  }

  /** Users nobody holds the lock of after the step nobody held it of before. */
  lemma {:induction false} TakeIdle(setup: Setup, w: World, tid: nat)
    requires LocksOk(w) && ThreadsOk(setup, w) && w.sys.phase.Up? && tid in w.threads && Locks.CanAcquire(w.table, tid)
    ensures forall v :: !Locks.HasHolder(AfterTake(w, tid).table.regs, v) ==> Current(w.sys.phase.st.mem, w.prov, v)
  {
    var u := User(w.threads[tid].task);
    assert Current(w.sys.phase.st.mem, w.prov, u);
    forall v | !Locks.HasHolder(AfterTake(w, tid).table.regs, v) ensures Current(w.sys.phase.st.mem, w.prov, v) {
      if v != u { Locks.HoldersMove(w.table.regs, tid, Locks.Holding, v); }
    }
  }

  lemma FirstPcInv(cfg: Config, st: State, prov: Provider, task: Task)
    requires Current(st.mem, prov, User(task))
    ensures PcInv(cfg, st, prov, task, FirstPc(task))
  {
  }

  lemma {:induction false} ThreadAfterFree(w: World, tid: nat, t: nat)
    requires tid in w.threads && Locks.CanUnlock(w.table, tid) && t in w.threads && ThreadOk(w, t)
    ensures ThreadOk(w.(table := Locks.Unlock(w.table, tid)), t)
  {
  }

  lemma {:induction false} FreeLocks(w: World, tid: nat)
    requires LocksOk(w) && tid in w.threads && Locks.CanUnlock(w.table, tid)
    ensures LocksOk(w.(table := Locks.Unlock(w.table, tid)))
  {
    var w' := w.(table := Locks.Unlock(w.table, tid));
    Locks.UnlockKeeps(w.table, tid);
    forall t | t in w'.threads ensures ThreadOk(w', t) { ThreadAfterFree(w, tid, t); }
    forall t | t in w'.table.regs ensures t in w'.threads && w'.table.regs[t].user == User(w'.threads[t].task) {
      assert t in w.table.regs;
    }
  }

  lemma {:induction false} FreeKeeps(setup: Setup, w: World, tid: nat)
    requires LocksOk(w) && ThreadsOk(setup, w) && w.sys.phase.Up?
    requires tid in w.threads && w.threads[tid].pc.Done? && Locks.CanUnlock(w.table, tid)
    ensures LocksOk(w.(table := Locks.Unlock(w.table, tid))) && ThreadsOk(setup, w.(table := Locks.Unlock(w.table, tid)))
  {
    var w' := w.(table := Locks.Unlock(w.table, tid));
    FreeLocks(w, tid);
    assert Holds(w, tid);
    forall t | Holds(w', t) ensures Holds(w, t) {}
    FreeIdle(setup, w, tid);
  }

  /** The goroutine is done, so its own user's binding is current when it lets go. */
  lemma {:induction false} FreeIdle(setup: Setup, w: World, tid: nat)
    requires LocksOk(w) && ThreadsOk(setup, w) && w.sys.phase.Up?
    requires tid in w.threads && w.threads[tid].pc.Done? && Locks.CanUnlock(w.table, tid)
    ensures forall v :: !Locks.HasHolder(Locks.Unlock(w.table, tid).regs, v) ==> Current(w.sys.phase.st.mem, w.prov, v)
  {
    assert Holds(w, tid);
    forall v | !Locks.HasHolder(Locks.Unlock(w.table, tid).regs, v) ensures Current(w.sys.phase.st.mem, w.prov, v) {
      if v != w.table.regs[tid].user { Locks.HoldersMove(w.table.regs, tid, Locks.Released, v); }
    }
  }

  lemma {:induction false} ExitKeeps(setup: Setup, w: World, tid: nat)
    requires LocksOk(w) && ThreadsOk(setup, w) && tid in w.threads && Locks.CanLeave(w.table, tid)
    ensures var w' := w.(table := Locks.Leave(w.table, tid), threads := w.threads - {tid}); LocksOk(w') && ThreadsOk(setup, w')
  {
    var w' := w.(table := Locks.Leave(w.table, tid), threads := w.threads - {tid});
    Locks.LeaveKeeps(w.table, tid);
    forall t | t in w'.threads ensures ThreadOk(w', t) { assert ThreadOk(w, t); }
    forall t | Holds(w', t) ensures Holds(w, t) {}
    forall u { Locks.HoldersLeave(w.table.regs, tid, u); }
  }

  /** The lock steps and the start of a goroutine touch nothing else. */
  lemma {:induction false} LockStepKeeps(setup: Setup, w: World, l: Label)
    requires LocksOk(w) && ThreadsOk(setup, w) && Enabled(setup, w, l)
    requires l.Spawn? || l.Enter? || l.Take? || l.Free? || l.Exit?
    ensures var w' := Taken(setup, w, l); LocksOk(w') && ThreadsOk(setup, w') && w'.sys == w.sys && w'.prov == w.prov
  {
    match l
    case Spawn(tid, task) => Spawned(setup, w, tid, task);
    case Enter(tid, unused) => EnterKeeps(setup, w, tid, unused);
    case Take(tid) => TakeKeeps(setup, w, tid);
    case Free(tid) => FreeKeeps(setup, w, tid);
    case Exit(tid) => ExitKeeps(setup, w, tid);
  }

  lemma NoLocksGood()
    ensures Locks.Good(NO_LOCKS)
  {
  }

  /** When the process dies, the disk, the provider and the log of tickets and logins are all that is left. */
  lemma {:induction false} DownKeeps(setup: Setup, w: World, l: Runs.Label)
    requires Inv(setup, w) && Runs.Enabled(setup.cfg, w.sys, l) && (l.Crash? || l.HaltedStart?)
    requires l.Crash? ==> !l.call.op.Begin?
    requires forall v, b :: Runs.Brings(setup.cfg, w.sys, l, v, b) ==> Traced(w.prov, v, b)
    ensures Inv(setup, World(Runs.Step(setup.cfg, w.sys, l), NO_LOCKS, map[], w.prov))
  {
    SysStepFacts(setup.cfg, w.sys, w.prov, l);
    NoLocksGood();
  }

  lemma {:induction false} CrashInActKeeps(setup: Setup, w: World, tid: nat, o: Oracle, k: nat)
    requires Inv(setup, w) && Holds(w, tid) && w.sys.phase.Up? && MakesCall(setup.cfg, w.threads[tid].pc) && o.io.seal
    requires Runs.Enabled(setup.cfg, w.sys, Runs.Crash(CallOf(setup, User(w.threads[tid].task), w.threads[tid].pc, o), k))
    ensures var c := CallOf(setup, User(w.threads[tid].task), w.threads[tid].pc, o);
      Inv(setup, World(Runs.Step(setup.cfg, w.sys, Runs.Crash(c, k)), NO_LOCKS, map[], w.prov))
  {
    var th, st := w.threads[tid], w.sys.phase.st;
    CallActFacts(setup, st, w.prov, th.task, th.pc, o);
    DownKeeps(setup, w, Runs.Crash(CallOf(setup, User(th.task), th.pc, o), k));
  }

  lemma {:induction false} LoadedKeeps(setup: Setup, st: State, prov: Provider)
    requires ProvInv(prov) && Owned(Runs.Up(st), prov)
    ensures ProvInv(Loaded(prov, st.mem.bindings)) && Owned(Runs.Up(st), Loaded(prov, st.mem.bindings))
    ensures forall u :: Current(st.mem, Loaded(prov, st.mem.bindings), u)
  {
    var m := st.mem.bindings;
    var prov' := Loaded(prov, m);
    forall v | v in m ensures Traced(prov, v, m[v]) { assert Runs.Bound(Runs.Up(st), v, m[v]); }
    forall k | k in prov'.newest ensures IsNewest(prov', k) { assert Traced(prov, k.user, m[k.user]); }
    forall v, b | Runs.Bound(Runs.Up(st), v, b) ensures Traced(prov', v, b) { assert Traced(prov, v, b); }
    forall u ensures Current(st.mem, prov', u) {
      if u in m { assert KeyOf(u, m[u]) in KeysOf(m); }
    }
  }

  lemma {:induction false} StartKeeps(setup: Setup, w: World, now: int, wall: int, sio: StartIO)
    requires Inv(setup, w) && Enabled(setup, w, Start(now, wall, sio))
    ensures Inv(setup, Taken(setup, w, Start(now, wall, sio)))
  {
    var l := Runs.Start(now, wall, sio);
    SysStepFacts(setup.cfg, w.sys, w.prov, l);
    NoLocksGood();
    var sys := Runs.Step(setup.cfg, w.sys, l);
    if sys.phase.Up? { LoadedKeeps(setup, sys.phase.st, w.prov); }
  }

  lemma {:induction false} ActKeeps(setup: Setup, w: World, tid: nat, o: Oracle)
    requires Inv(setup, w) && Enabled(setup, w, Act(tid, o))
    ensures Inv(setup, ActAfter(setup, w, tid, o))
  {
    var pc := w.threads[tid].pc;
    if MakesCall(setup.cfg, pc) { CallActKeeps(setup, w, tid, o); }
    else if AsksProvider(pc) { ProviderActKeeps(setup, w, tid, o.reply); }
    else { ReadActKeeps(setup, w, tid); }
  }

  lemma {:induction false} TicketLabelKeeps(setup: Setup, w: World, l: Label)
    requires Inv(setup, w) && Enabled(setup, w, l) && (l.Ticket? || l.Accept?)
    ensures Inv(setup, Taken(setup, w, l))
  {
    match l
    case Ticket(call) => TicketCallFacts(setup, w, call);
    case Accept(tid, call) => AcceptKeeps(setup, w, tid, call);
  }

  lemma {:induction false} CrashInTicketKeeps(setup: Setup, w: World, call: Runs.Call, k: nat)
    requires Inv(setup, w) && Enabled(setup, w, CrashInTicket(call, k))
    ensures Inv(setup, Taken(setup, w, CrashInTicket(call, k)))
  {
    DownKeeps(setup, w, Runs.Crash(call, k));
  }

  lemma {:induction false} CrashInActLabelKeeps(setup: Setup, w: World, tid: nat, o: Oracle, k: nat)
    requires Inv(setup, w) && Enabled(setup, w, CrashInAct(tid, o, k))
    ensures Inv(setup, Taken(setup, w, CrashInAct(tid, o, k)))
  {
    CrashInActKeeps(setup, w, tid, o, k);
  }

  lemma {:induction false} StartLabelKeeps(setup: Setup, w: World, l: Label)
    requires Inv(setup, w) && Enabled(setup, w, l) && (l.Start? || l.HaltedStart?)
    ensures Inv(setup, Taken(setup, w, l))
  {
    match l
    case Start(now, wall, sio) => StartKeeps(setup, w, now, wall, sio);
    case HaltedStart(now, wall, sio, k) => DownKeeps(setup, w, Runs.HaltedStart(now, wall, sio, k));
  }

  lemma {:induction false} LockLabelKeeps(setup: Setup, w: World, l: Label)
    requires Inv(setup, w) && Enabled(setup, w, l)
    requires l.Spawn? || l.Enter? || l.Take? || l.Free? || l.Exit?
    ensures Inv(setup, Taken(setup, w, l))
  {
    LockStepKeeps(setup, w, l);
  }

  lemma {:induction false} StepKeeps(setup: Setup, w: World, l: Label)
    requires Inv(setup, w)
    ensures Inv(setup, Step(setup, w, l))
  {
    if Enabled(setup, w, l) {
      if l.Act? { ActKeeps(setup, w, l.tid, l.o); }
      else if l.Ticket? || l.Accept? { TicketLabelKeeps(setup, w, l); }
      else if l.CrashInTicket? { CrashInTicketKeeps(setup, w, l.call, l.k); }
      else if l.CrashInAct? { CrashInActLabelKeeps(setup, w, l.tid, l.o, l.k); }
      else if l.Start? || l.HaltedStart? { StartLabelKeeps(setup, w, l); }
      else { LockLabelKeeps(setup, w, l); }
    }
  }

  lemma {:induction false} InitialInv(setup: Setup)
    requires ValidSetup(setup)
    ensures Inv(setup, Initial())
  {
    Runs.EmptyDiskOk(setup.cfg);
    NoLocksGood();
    assert forall v, b :: !Runs.Bound(Initial().sys.phase, v, b);
  }

  lemma {:induction false} RunsKeep(setup: Setup, run: seq<Label>)
    requires ValidSetup(setup)
    ensures Inv(setup, After(setup, run))
  {
    if run == [] {
      InitialInv(setup);
    } else {
      RunsKeep(setup, run[..|run| - 1]);
      StepKeeps(setup, After(setup, run[..|run| - 1]), run[|run| - 1]);
    }
  }

  // ---- what the runs guarantee ----

  /** The store's own run behind a run of the service. */
  ghost function StoreRun(setup: Setup, run: seq<Label>): seq<Runs.Label> {
    if run == [] then [] else
      var before, l := run[..|run| - 1], run[|run| - 1];
      var w := After(setup, before);
      if Enabled(setup, w, l) && SysLabel(setup, w, l).Some?
      then StoreRun(setup, before) + [SysLabel(setup, w, l).value] else StoreRun(setup, before)
  }

  /** Every run of the service is a run of the store, so everything proved of all store runs holds in it. */
  lemma {:induction false} ServiceRunsTheStore(setup: Setup, run: seq<Label>)
    ensures Runs.After(setup.cfg, StoreRun(setup, run)) == After(setup, run).sys
  {
    if run != [] {
      var before, l := run[..|run| - 1], run[|run| - 1];
      var w := After(setup, before);
      ServiceRunsTheStore(setup, before);
      if Enabled(setup, w, l) {
        SysOfStep(setup, w, l);
        if SysLabel(setup, w, l).Some? {
          var front := StoreRun(setup, before);
          assert (front + [SysLabel(setup, w, l).value])[..|front|] == front;
        }
      }
    }
  }

  lemma {:induction false} SysOfStep(setup: Setup, w: World, l: Label)
    requires Enabled(setup, w, l)
    ensures Taken(setup, w, l).sys == SysAfter(setup, w, l)
  {
  }

  /** No two goroutines are past the lock of one user, and the lock table is empty once they have all left. */
  lemma {:induction false} OneGoroutineAUser(setup: Setup, run: seq<Label>, s: nat, t: nat)
    requires ValidSetup(setup)
    ensures var w := After(setup, run);
      && (Holds(w, s) && Holds(w, t) && User(w.threads[s].task) == User(w.threads[t].task) ==> s == t)
      && (w.threads == map[] ==> w.table.locks == map[])
  {
    RunsKeep(setup, run);
    var w := After(setup, run);
    forall u | u in w.table.locks ensures exists tid :: tid in w.table.regs {
      assert Locks.GoodEntry(w.table, u);
      var tid :| tid in Locks.Registered(w.table.regs, u);
    }
  }

  lemma {:induction false} HoldsMeansUp(setup: Setup, w: World, tid: nat)
    requires Inv(setup, w) && Holds(w, tid)
    ensures w.sys.phase.Up? && PcInv(setup.cfg, w.sys.phase.st, w.prov, w.threads[tid].task, w.threads[tid].pc)
  {
  }

  /** Every refresh call presents the newest credential returned for that binding in this process: never a superseded one, never a revoked one. */
  lemma {:induction false} PresentsNewest(setup: Setup, run: seq<Label>, tid: nat)
    requires ValidSetup(setup) && Holds(After(setup, run), tid) && After(setup, run).threads[tid].pc.Calling?
    ensures var w := After(setup, run);
      var pc := w.threads[tid].pc;
      var k := Key(User(w.threads[tid].task), pc.current.issuer, pc.current.subject);
      && k in w.prov.newest && w.prov.newest[k] == pc.token
      && pc.token !in w.prov.superseded && pc.token !in w.prov.revoked
  {
    var w := After(setup, run);
    RunsKeep(setup, run);
    HoldsMeansUp(setup, w, tid);
    var u, mem := User(w.threads[tid].task), w.sys.phase.st.mem;
    assert IsNewest(w.prov, KeyOf(u, mem.bindings[u]));
    assert Runs.Bound(w.sys.phase, u, mem.bindings[u]) && Traced(w.prov, u, mem.bindings[u]);
  }

  /** Until the process restarts, a credential replaced as the newest of its binding stays on the list of superseded ones. */
  lemma {:induction false} SupersededForGood(setup: Setup, w: World, l: Label, k: Key)
    requires Enabled(setup, w, l) && !l.Start?
    ensures var prov' := Taken(setup, w, l).prov;
      && w.prov.superseded <= prov'.superseded
      && (k in w.prov.newest ==> k in prov'.newest && (prov'.newest[k] == w.prov.newest[k] || w.prov.newest[k] in prov'.superseded))
  {
  }

  /** When a goroutine is done with a grant, the user's binding carries its credential, unrevoked, or the credential was revoked. */
  lemma {:induction false} NothingStray(setup: Setup, run: seq<Label>, tid: nat)
    requires ValidSetup(setup) && Holds(After(setup, run), tid)
    requires After(setup, run).threads[tid].pc.Done? && After(setup, run).threads[tid].pc.got.Some?
    ensures var w := After(setup, run);
      var g, u := w.threads[tid].pc.got.value, User(w.threads[tid].task);
      g.token != "" ==> (w.sys.phase.Up? && Carries(w.sys.phase.st.mem, u, g) && g.token !in w.prov.revoked) || g.token in w.prov.revoked
  {
    RunsKeep(setup, run);
    HoldsMeansUp(setup, After(setup, run), tid);
  }

  /** No credential carried by a binding, in memory or on disk, before or after a crash, has ever been revoked; and each went to that very binding. */
  lemma {:induction false} StoredIsNotRevoked(setup: Setup, run: seq<Label>, v: int, b: Binding)
    requires ValidSetup(setup) && Runs.Bound(After(setup, run).sys.phase, v, b)
    ensures var prov := After(setup, run).prov;
      Token(b).Some? && Token(b).value !in prov.revoked && Token(b).value in prov.returned && prov.returned[Token(b).value] == KeyOf(v, b)
  {
    RunsKeep(setup, run);
    assert Traced(After(setup, run).prov, v, b);
  }

  /** The checks a refresh makes after its call never fail: every grant goes on to be stored, every failure to be recorded. */
  lemma {:induction false} LateChecksPass(setup: Setup, run: seq<Label>, tid: nat)
    requires ValidSetup(setup) && Holds(After(setup, run), tid) && After(setup, run).sys.phase.Up?
    ensures var w := After(setup, run);
      var th, mem := w.threads[tid], w.sys.phase.st.mem;
      && (th.pc.Granted? ==> ReadStep(setup.cfg, mem, User(th.task), th.pc) == Persist(WithToken(th.pc.grant, th.pc.token)))
      && (th.pc.Failed? ==> ReadStep(setup.cfg, mem, User(th.task), th.pc) == Recording(th.pc.item, th.pc.clear))
      && (th.pc.Stored? ==> ReadStep(setup.cfg, mem, User(th.task), th.pc) == Done(Some(th.pc.grant)))
  {
    RunsKeep(setup, run);
    HoldsMeansUp(setup, After(setup, run), tid);
  }

  /** A sweep working from a snapshot, however old, writes only to a binding with the snapshot's own identity, and leaves it that identity. */
  lemma {:induction false} StaleSnapshotHarmless(setup: Setup, run: seq<Label>, tid: nat, o: Oracle)
    requires ValidSetup(setup) && Enabled(setup, After(setup, run), Act(tid, o))
    requires var th := After(setup, run).threads[tid]; th.task.Sweep? && MakesCall(setup.cfg, th.pc)
    ensures var w := After(setup, run);
      var item, after := w.threads[tid].task.item, SysAfter(setup, w, Act(tid, o)).phase;
      && after.Up?
      && SameIdentity(w.sys.phase.st.mem, item.telegramId, item.issuer, item.subject)
      && SameIdentity(after.st.mem, item.telegramId, item.issuer, item.subject)
      && OthersKept(w.sys.phase.st.mem.bindings, after.st.mem.bindings, item.telegramId)
  {
    var w := After(setup, run);
    RunsKeep(setup, run);
    HoldsMeansUp(setup, w, tid);
    var th := w.threads[tid];
    SweepKeepsOthers(setup, w.sys, w.prov, th.task, th.pc, o);
    SweepWrites(setup, w.sys.phase.st, w.prov, th.task, th.pc, o);
  }

  lemma {:induction false} SweepKeepsOthers(setup: Setup, s: Runs.Sys, prov: Provider, task: Task, pc: Pc, o: Oracle)
    requires ValidSetup(setup) && Runs.SysInv(setup.cfg, s) && s.phase.Up? && task.Sweep? && MakesCall(setup.cfg, pc)
    requires PcInv(setup.cfg, s.phase.st, prov, task, pc)
    ensures SameIdentity(s.phase.st.mem, task.item.telegramId, task.item.issuer, task.item.subject)
    ensures OthersKept(s.phase.st.mem.bindings, Runs.Perform(setup.cfg, s.phase.st, CallOf(setup, User(task), pc, o)).st.mem.bindings, task.item.telegramId)
  {
    Runs.PerformFootprint(setup.cfg, s.log, s.phase.st, CallOf(setup, User(task), pc, o));
  }

  lemma {:induction false} SweepWrites(setup: Setup, st: State, prov: Provider, task: Task, pc: Pc, o: Oracle)
    requires ValidSetup(setup) && StoreInv(setup.cfg, st) && task.Sweep? && MakesCall(setup.cfg, pc) && o.io.seal
    requires PcInv(setup.cfg, st, prov, task, pc)
    ensures var mem := Runs.Perform(setup.cfg, st, CallOf(setup, User(task), pc, o)).st.mem;
      SameIdentity(mem, task.item.telegramId, task.item.issuer, task.item.subject)
  {
    var u := User(task);
    match pc
    case Persist(g) => PutIdentity(setup.cfg, st, ItemOf(setup, u, g), g.token, o.now, o.wall, o.io);
    case Recording(_, _) => FailureStorable(setup.cfg, st.mem.bindings, u, pc.clear, o.now);
  }

  /** Storing a binding of the identity the user has, accepted or not, leaves the user that identity. */
  lemma {:induction false} PutIdentity(cfg: Config, st: State, item: Binding, token: string, now: int, wall: int, io: PutIO)
    requires ValidGrammar(cfg.grammar) && GoodBindings(cfg, st.mem.bindings)
    requires SameIdentity(st.mem, item.telegramId, item.issuer, item.subject)
    ensures SameIdentity(PutSpec(cfg, st, item, token, now, wall, io).st.mem, item.telegramId, item.issuer, item.subject)
  {
    PutShape(cfg, st, item, token, now, wall, io);
    assert GoodBinding(cfg, st.mem.bindings[item.telegramId]);
  }

  // ---- unbinding ----

  /** A login of user `u` is about to store its grant. */
  predicate StoresLogin(w: World, l: Label, u: int) {
    (l.Act? || l.CrashInAct?) && l.tid in w.threads && w.threads[l.tid].task.Complete?
    && User(w.threads[l.tid].task) == u && w.threads[l.tid].pc.Persist?
  }

  lemma {:induction false} GoneStays(setup: Setup, w: World, l: Label, u: int)
    requires Inv(setup, w) && Runs.Gone(w.sys.phase, u) && !StoresLogin(w, l, u)
    ensures Runs.Gone(Step(setup, w, l).sys.phase, u)
  {
    if Enabled(setup, w, l) {
      SysOfStep(setup, w, l);
      if SysLabel(setup, w, l).Some? {
        var sl := SysLabel(setup, w, l).value;
        if Runs.StoresFor(sl, u) { OnlyLoginsStore(setup, w, l, u); }
        Runs.GoneStays(setup.cfg, w.sys, sl, u);
      }
    }
  }

  /** For a user with no binding, nobody but a login stores one. */
  lemma {:induction false} OnlyLoginsStore(setup: Setup, w: World, l: Label, u: int)
    requires Inv(setup, w) && Enabled(setup, w, l) && Runs.Gone(w.sys.phase, u)
    requires SysLabel(setup, w, l).Some? && Runs.StoresFor(SysLabel(setup, w, l).value, u)
    ensures StoresLogin(w, l, u)
  {
    assert l.Act? || l.CrashInAct?;
    HoldsMeansUp(setup, w, l.tid);
    var st := w.sys.phase.st;
    if Refreshing(w.threads[l.tid].task) { assert Runs.Bound(w.sys.phase, u, st.mem.bindings[u]); }
  }

  /** The state after the first `i` of the later steps. */
  ghost function Later(setup: Setup, w: World, later: seq<Label>, i: nat): World
    requires i <= |later|
  {
    if i == 0 then w else Step(setup, Later(setup, w, later, i - 1), later[i - 1])
  }

  /** The goroutine's next step is an unbind's removal, and it will succeed. */
  ghost predicate Removes(setup: Setup, w: World, tid: nat, o: Oracle) {
    && Enabled(setup, w, Act(tid, o)) && w.threads[tid].pc.Removing?
    && var r := RemoveSpec(setup.cfg, w.sys.phase.st, User(w.threads[tid].task), o.rio).result; r.Ok? && r.value.Some?
  }

  ghost predicate NoLoginStores(setup: Setup, w: World, later: seq<Label>, i: nat, u: int)
    requires i <= |later|
  {
    i > 0 ==> NoLoginStores(setup, w, later, i - 1, u) && !StoresLogin(Later(setup, w, later, i - 1), later[i - 1], u)
  }

  lemma {:induction false} RemovalEmpties(setup: Setup, w: World, tid: nat, o: Oracle)
    requires Runs.SysInv(setup.cfg, w.sys) && Removes(setup, w, tid, o)
    ensures Runs.Gone(SysAfter(setup, w, Act(tid, o)).phase, User(w.threads[tid].task))
  {
    Runs.RemovalEmpties(setup.cfg, w.sys, CallOf(setup, User(w.threads[tid].task), w.threads[tid].pc, o));
  }

  lemma {:induction false} GoneStaysLater(setup: Setup, w: World, later: seq<Label>, i: nat, u: int)
    requires Inv(setup, w) && Runs.Gone(w.sys.phase, u) && i <= |later| && NoLoginStores(setup, w, later, i, u)
    ensures Inv(setup, Later(setup, w, later, i)) && Runs.Gone(Later(setup, w, later, i).sys.phase, u)
  {
    if i > 0 {
      GoneStaysLater(setup, w, later, i - 1, u);
      var before := Later(setup, w, later, i - 1);
      StepKeeps(setup, before, later[i - 1]);
      GoneStays(setup, before, later[i - 1], u);
    }
  }

  /**
    Once an unbind has removed a binding, the user has none anywhere -- through
    refreshes under way, sweeps over old snapshots, failures, crashes and restarts --
    until a login for that user stores one.
   */
  lemma {:induction false} UnbindIsFinal(setup: Setup, run: seq<Label>, tid: nat, o: Oracle, later: seq<Label>, i: nat)
    requires ValidSetup(setup) && Removes(setup, After(setup, run), tid, o) && i <= |later|
    requires NoLoginStores(setup, Taken(setup, After(setup, run), Act(tid, o)), later, i, User(After(setup, run).threads[tid].task))
    ensures Runs.Gone(Later(setup, Taken(setup, After(setup, run), Act(tid, o)), later, i).sys.phase, User(After(setup, run).threads[tid].task))
  {
    RunsKeep(setup, run);
    StepKeeps(setup, After(setup, run), Act(tid, o));
    RemovalEmpties(setup, After(setup, run), tid, o);
    SysOfStep(setup, After(setup, run), Act(tid, o));
    GoneStaysLater(setup, Taken(setup, After(setup, run), Act(tid, o)), later, i, User(After(setup, run).threads[tid].task));
  }

  // ---- where bindings come from ----

  /** A ticket issued to the user, traded in time for a login, and that login closed in time. */
  ghost predicate Chain(log: seq<Runs.Event>, i: nat, j: nat, k: nat, user: int, login: Login) {
    && i < j < k < |log|
    && log[i].Issued? && log[j].Traded? && log[k].Closed?
    && log[i].user == user == login.telegramId
    && log[j].raw == log[i].raw && log[j].login == login && log[j].at < log[i].at + BIND_TICKET_TTL
    && log[k].state == log[j].state && log[k].login == login && log[k].at < log[j].at + TRANSACTION_TTL
  }

  /** The ticket is spent by that trade alone, and the login opened by it and closed once. */
  ghost predicate UsedOnlyIn(log: seq<Runs.Event>, j: nat, k: nat)
    requires j < |log| && k < |log| && log[j].Traded?
  {
    forall x :: 0 <= x < |log| ==>
      && (Runs.Spends(log[x], log[j].raw) ==> x == j)
      && (Runs.Opens(log[x], log[j].state) ==> x == j)
      && (Runs.Closes(log[x], log[j].state) ==> x == k)
  }

  lemma {:induction false} ChainUsedOnce(log: seq<Runs.Event>, i: nat, j: nat, k: nat, user: int, login: Login)
    requires Runs.GoodLog(log) && Chain(log, i, j, k, user, login)
    ensures UsedOnlyIn(log, j, k)
  {
    forall x: nat | x < |log|
      ensures Runs.Spends(log[x], log[j].raw) || Runs.Opens(log[x], log[j].state) ==> x == j
      ensures Runs.Closes(log[x], log[j].state) ==> x == k
    {
      if x != j { OnceEach(log, x, j, log[j].raw); OnceEach(log, x, j, log[j].state); }
      if x != k { OnceEach(log, x, k, log[j].state); }
    }
  }

  lemma {:induction false} OnceEach(log: seq<Runs.Event>, x: nat, y: nat, token: string)
    requires Runs.GoodLog(log) && x < |log| && y < |log| && x != y
    ensures !(Runs.Spends(log[x], token) && Runs.Spends(log[y], token)) && !(Runs.Opens(log[x], token) && Runs.Opens(log[y], token))
    ensures !(Runs.Closes(log[x], token) && Runs.Closes(log[y], token))
  {
    if x < y { Runs.UsedOnce(log, x, y, token); } else { Runs.UsedOnce(log, y, x, token); }
  }

  /** Such a login, exchanged for a grant of the binding's identity. */
  ghost predicate Origin(w: World, v: int, b: Binding, i: nat, j: nat, k: nat, login: Login) {
    && Chain(w.sys.log, i, j, k, v, login) && UsedOnlyIn(w.sys.log, j, k)
    && Exchange(login, b.issuer, b.subject) in w.prov.exchanged
  }

  lemma {:induction false} ClosedHasChain(log: seq<Runs.Event>, login: Login)
    requires Runs.GoodLog(log) && OnlyTraded(log) && LoginClosed(log, login)
    ensures exists i: nat, j: nat, k: nat :: Chain(log, i, j, k, login.telegramId, login)
  {
    var k :| 0 <= k < |log| && log[k].Closed? && log[k].login == login;
    Runs.EventWasOk(log, k);
    var before := log[..k];
    var openedAt :| Runs.OpenedAs(before, log[k].state, login, openedAt) && log[k].at < openedAt + TRANSACTION_TTL;
    var j :| 0 <= j < |before| && Runs.Opens(before[j], log[k].state) && before[j].login == login && before[j].at == openedAt;
    assert log[j] == before[j] && log[j].Traded?;
    Runs.EventWasOk(log, j);
    var issuedAt :| Runs.Issued(log[j].raw, login.telegramId, issuedAt) in log[..j] && log[j].at < issuedAt + BIND_TICKET_TTL;
    var i :| 0 <= i < j && log[..j][i] == Runs.Issued(log[j].raw, login.telegramId, issuedAt);
    assert Chain(log, i, j, k, login.telegramId, login);
  }

  /**
    Every binding of a user, in memory, in the main file or in the log, goes back to
    a ticket issued to that user, traded once for a login within ten minutes, closed
    once within ten minutes, and exchanged -- with the nonce and verifier it was opened
    with -- for a grant of exactly the binding's identity. No refresh changes that.
   */
  lemma {:induction false} Provenance(setup: Setup, run: seq<Label>, v: int, b: Binding)
    requires ValidSetup(setup) && Runs.Bound(After(setup, run).sys.phase, v, b)
    ensures exists i: nat, j: nat, k: nat, login: Login :: Origin(After(setup, run), v, b, i, j, k, login)
  {
    RunsKeep(setup, run);
    var w := After(setup, run);
    assert Traced(w.prov, v, b);
    var login :| Exchange(login, b.issuer, b.subject) in w.prov.exchanged && login.telegramId == v;
    ClosedHasChain(w.sys.log, login);
    var i: nat, j: nat, k: nat :| Chain(w.sys.log, i, j, k, login.telegramId, login);
    ChainUsedOnce(w.sys.log, i, j, k, login.telegramId, login);
    assert Origin(w, v, b, i, j, k, login);
  }

  // ---- what it rests on ----

  /**
    Sealing must not fail. Were it to fail when a refresh stores its credential, memory
    would stay as it was, and so carry the newest one exactly when the refresh had not
    rotated it; a rotated-away one would be presented by the next refresh.
   */
  lemma {:induction false} SealFailureStrands(setup: Setup, run: seq<Label>, tid: nat, o: Oracle)
    requires ValidSetup(setup) && Holds(After(setup, run), tid) && !o.io.seal
    requires var th := After(setup, run).threads[tid]; th.pc.Persist? && Refreshing(th.task)
    ensures var w := After(setup, run);
      var u, g := User(w.threads[tid].task), w.threads[tid].pc.grant;
      && w.sys.phase.Up? && u in w.sys.phase.st.mem.bindings
      && var st' := PutSpec(setup.cfg, w.sys.phase.st, ItemOf(setup, u, g), g.token, o.now, o.wall, o.io).st;
         st'.mem == w.sys.phase.st.mem && (Current(st'.mem, w.prov, u) <==> Token(st'.mem.bindings[u]) == Some(g.token))
  {
    var w := After(setup, run);
    RunsKeep(setup, run);
    HoldsMeansUp(setup, w, tid);
    var st, g, u := w.sys.phase.st, w.threads[tid].pc.grant, User(w.threads[tid].task);
    PutShape(setup.cfg, st, ItemOf(setup, u, g), g.token, o.now, o.wall, o.io);
  }
}
