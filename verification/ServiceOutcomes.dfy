/**
  What comes of the service's operations, over every run: what a stored grant leaves
  in the binding and in the permission table, what a refused refresh takes away, and
  that an unbind revokes the credential it removed -- whatever other goroutines do in
  between.
 */
module ServiceOutcomes {
  import opened Wrappers
  import opened Sorting
  import opened Canonical
  import opened Records
  import opened StoreSpec
  import opened StoreFacts
  import opened StoreOps
  import opened StoreEffects
  import opened StoreAnswers
  import AuthSpec
  import Runs = StoreRuns
  import Locks
  import opened Service
  import opened ServiceInv
  import opened ServiceAnswers
  import opened ServiceRuns

  // ---- other goroutines' steps ----

  /** The user's binding and permissions are the same in both. */
  ghost predicate UserSame(st: State, st': State, u: int) {
    && (u in st'.mem.bindings <==> u in st.mem.bindings)
    && (u in st.mem.bindings ==> st'.mem.bindings[u] == st.mem.bindings[u])
    && (forall t :: AuthSpec.ActiveFederated(st'.federated, u, t) == AuthSpec.ActiveFederated(st.federated, u, t))
  }

  /** The goroutine makes no step, and the process goes on. */
  predicate Undisturbed(l: Label, tid: nat) { !(l.Act? && l.tid == tid) && !l.CrashInTicket? && !l.CrashInAct? }

  /** Storing, removing or recording for one user leaves another's binding and permissions alone. */
  lemma {:induction false} OtherCallSame(cfg: Config, st: State, c: Runs.Call, u: int)
    requires ValidGrammar(cfg.grammar) && StoreInv(cfg, st) && (c.op.Put? || c.op.Remove? || c.op.Fail?) && Runs.UserOf(c.op) != u
    ensures UserSame(st, Runs.Perform(cfg, st, c).st, u)
  {
    match c.op
    case Put(item, token, io) => PutAnswers(cfg, st, item, token, c.now, c.wall, io);
    case Remove(id, rio) =>
      if id in st.mem.bindings { assert GoodBinding(cfg, st.mem.bindings[id]); }
      RemoveAnswers(cfg, st, id, rio);
    case Fail(id, clear) => FailureAnswers(cfg, st, id, clear, c.now, c.save);
    case _ =>
  }

  lemma {:induction false} OtherUser(w: World, s: nat, t: nat)
    requires LocksOk(w) && Holds(w, s) && Holds(w, t) && s != t
    ensures User(w.threads[s].task) != User(w.threads[t].task)
  {
    assert w.table.regs[s].user != w.table.regs[t].user;
  }

  lemma {:induction false} OwnCallSame(setup: Setup, st: State, prov: Provider, task: Task, pc: Pc, o: Oracle, u: int)
    requires ValidGrammar(setup.cfg.grammar) && StoreInv(setup.cfg, st) && PcInv(setup.cfg, st, prov, task, pc)
    requires MakesCall(setup.cfg, pc) && u != User(task)
    ensures UserSame(st, Runs.Perform(setup.cfg, st, CallOf(setup, User(task), pc, o)).st, u)
  {
    OtherCallSame(setup.cfg, st, CallOf(setup, User(task), pc, o), u);
  }

  lemma {:induction false} OtherActSame(setup: Setup, w: World, s: nat, o: Oracle, tid: nat)
    requires Inv(setup, w) && Enabled(setup, w, Act(s, o)) && Holds(w, tid) && s != tid
    ensures SysAfter(setup, w, Act(s, o)).phase.Up?
    ensures UserSame(w.sys.phase.st, SysAfter(setup, w, Act(s, o)).phase.st, User(w.threads[tid].task))
  {
    OtherUser(w, s, tid);
    if MakesCall(setup.cfg, w.threads[s].pc) {
      OwnCallSame(setup, w.sys.phase.st, w.prov, w.threads[s].task, w.threads[s].pc, o, User(w.threads[tid].task));
    }
  }

  lemma {:induction false} TicketSame(cfg: Config, s: Runs.Sys, c: Runs.Call, u: int)
    requires ValidGrammar(cfg.grammar) && Runs.SysInv(cfg, s) && Runs.Enabled(cfg, s, Runs.Run(c)) && IsTicketOp(c.op)
    ensures var s' := Runs.Step(cfg, s, Runs.Run(c)); s'.phase.Up? && UserSame(s.phase.st, s'.phase.st, u)
  {
    Runs.TicketOpStep(cfg, s.log, s.phase.st, c);
  }

  lemma {:induction false} OtherStoreSame(setup: Setup, w: World, l: Label, tid: nat)
    requires Inv(setup, w) && Enabled(setup, w, l) && Holds(w, tid) && w.sys.phase.Up? && Undisturbed(l, tid)
    ensures SysAfter(setup, w, l).phase.Up? && UserSame(w.sys.phase.st, SysAfter(setup, w, l).phase.st, User(w.threads[tid].task))
  {
    match l
    case Ticket(call) => TicketSame(setup.cfg, w.sys, call, User(w.threads[tid].task));
    case Accept(_, call) => TicketSame(setup.cfg, w.sys, call, User(w.threads[tid].task));
    case Act(s, o) => OtherActSame(setup, w, s, o, tid);
    case _ =>
  }

  predicate IsLockLabel(l: Label) { l.Spawn? || l.Enter? || l.Take? || l.Free? || l.Exit? }

  lemma {:induction false} OtherLockSame(setup: Setup, w: World, l: Label, tid: nat)
    requires Enabled(setup, w, l) && Holds(w, tid) && IsLockLabel(l) && !w.threads[tid].pc.Done?
    ensures Holds(Taken(setup, w, l), tid) && Taken(setup, w, l).threads[tid] == w.threads[tid]
  {
  }

  lemma {:induction false} OtherThreadSame(setup: Setup, w: World, l: Label, tid: nat)
    requires Enabled(setup, w, l) && Holds(w, tid) && w.sys.phase.Up? && Undisturbed(l, tid) && !w.threads[tid].pc.Done?
    ensures Holds(Taken(setup, w, l), tid) && Taken(setup, w, l).threads[tid] == w.threads[tid]
  {
    if IsLockLabel(l) { OtherLockSame(setup, w, l, tid); }
  }

  lemma {:induction false} RevokedGrows(setup: Setup, w: World, l: Label)
    ensures w.prov.revoked <= Step(setup, w, l).prov.revoked
  {
  }

  /** Whatever else happens, a goroutine under its lock stays where it is, and so do its user's binding and permissions. */
  lemma {:induction false} OtherStep(setup: Setup, w: World, l: Label, tid: nat)
    requires Inv(setup, w) && Holds(w, tid) && Undisturbed(l, tid) && !w.threads[tid].pc.Done?
    ensures var w' := Step(setup, w, l);
      && Inv(setup, w') && Holds(w', tid) && w'.threads[tid] == w.threads[tid]
      && w.sys.phase.Up? && w'.sys.phase.Up? && UserSame(w.sys.phase.st, w'.sys.phase.st, User(w.threads[tid].task))
  {
    HoldsMeansUp(setup, w, tid);
    StepKeeps(setup, w, l);
    if Enabled(setup, w, l) {
      OtherStoreSame(setup, w, l, tid);
      OtherThreadSame(setup, w, l, tid);
      SysOfStep(setup, w, l);
    }
  }

  /** The goroutine is where it was, and so are its user's binding and permissions. */
  ghost predicate StaysPut(w: World, w': World, tid: nat) {
    && tid in w.threads && Holds(w', tid) && w'.threads[tid] == w.threads[tid]
    && w.sys.phase.Up? && w'.sys.phase.Up? && UserSame(w.sys.phase.st, w'.sys.phase.st, User(w.threads[tid].task))
  }

  lemma {:induction false} StaysTwice(w: World, w': World, w'': World, tid: nat)
    requires StaysPut(w, w', tid) && StaysPut(w', w'', tid)
    ensures StaysPut(w, w'', tid)
  {
  }

  /** One more step of a run. */
  lemma {:induction false} AfterStep(setup: Setup, run: seq<Label>, l: Label)
    ensures After(setup, run + [l]) == Step(setup, After(setup, run), l)
  {
    assert (run + [l])[..|run|] == run;
  }

  /** Through any such steps. */
  lemma {:induction false} OthersSteps(setup: Setup, run: seq<Label>, mid: seq<Label>, tid: nat)
    requires ValidSetup(setup) && Holds(After(setup, run), tid) && !After(setup, run).threads[tid].pc.Done?
    requires forall i :: 0 <= i < |mid| ==> Undisturbed(mid[i], tid)
    ensures StaysPut(After(setup, run), After(setup, run + mid), tid)
  {
    if mid == [] {
      RunsKeep(setup, run);
      assert run + mid == run;
      HoldsMeansUp(setup, After(setup, run), tid);
    } else {
      var front, l := mid[..|mid| - 1], mid[|mid| - 1];
      OthersSteps(setup, run, front, tid);
      assert run + mid == (run + front) + [l];
      AfterStep(setup, run + front, l);
      RunsKeep(setup, run + front);
      OtherStep(setup, After(setup, run + front), l, tid);
      StaysTwice(After(setup, run), After(setup, run + front), After(setup, run + mid), tid);
    }
  }

  // ---- a goroutine's own steps ----

  /** Its call to the store. */
  lemma {:induction false} CallStep(setup: Setup, w: World, tid: nat, o: Oracle)
    requires Enabled(setup, w, Act(tid, o)) && MakesCall(setup.cfg, w.threads[tid].pc)
    ensures var th, st, w' := w.threads[tid], w.sys.phase.st, Step(setup, w, Act(tid, o));
      && w'.sys.phase == Runs.Up(Runs.Perform(setup.cfg, st, CallOf(setup, User(th.task), th.pc, o)).st)
      && w'.threads == w.threads[tid := Thread(th.task, AfterCall(setup, st, User(th.task), th.pc, o))]
      && w'.prov == w.prov && w'.table == w.table
  {
  }

  /** A step that only reads the store. */
  lemma {:induction false} LocalStep(setup: Setup, w: World, tid: nat, o: Oracle)
    requires Enabled(setup, w, Act(tid, o)) && IsLocal(setup.cfg, w.threads[tid].pc)
    ensures var th, w' := w.threads[tid], Step(setup, w, Act(tid, o));
      w' == w.(threads := w.threads[tid := Thread(th.task, ReadStep(setup.cfg, w.sys.phase.st.mem, User(th.task), th.pc))])
  {
  }

  /** Its call to the provider. */
  lemma {:induction false} AskStep(setup: Setup, w: World, tid: nat, o: Oracle)
    requires Enabled(setup, w, Act(tid, o)) && AsksProvider(w.threads[tid].pc)
    ensures var th, w' := w.threads[tid], Step(setup, w, Act(tid, o));
      && w'.sys == w.sys && w'.table == w.table && w'.prov == ProviderAfter(w.prov, th.task, th.pc, o.reply)
      && w'.threads == w.threads[tid := Thread(th.task, PcAfter(th.pc, o.reply))]
  {
  }

  // ---- a grant that is stored ----

  lemma {:induction false} PersistAnswers(setup: Setup, st: State, task: Task, g: VerifiedGrant, o: Oracle)
    requires ValidSetup(setup) && |g.permissions| <= MAX_PERMISSIONS && Usable(setup.cfg, g)
    ensures var u, pc := User(task), Persist(g);
      var st', pc' := Runs.Perform(setup.cfg, st, CallOf(setup, u, pc, o)).st, AfterCall(setup, st, u, pc, o);
      && (pc' == Stored(g) || pc' == Unstored(g))
      && GrantAnswered(setup, st, st', u, g, o, pc' == Stored(g))
  {
    GrantAnswers(setup, st, User(task), g, o);
  }

  /** One step from `Persist`: to the answer, and to the state it speaks of. */
  ghost predicate GrantStep(setup: Setup, w: World, w': World, tid: nat, o: Oracle) {
    && tid in w.threads && tid in w'.threads && w.threads[tid].pc.Persist? && w.sys.phase.Up? && w'.sys.phase.Up?
    && var g := w.threads[tid].pc.grant;
       && (w'.threads[tid].pc == Stored(g) || w'.threads[tid].pc == Unstored(g))
       && GrantAnswered(setup, w.sys.phase.st, w'.sys.phase.st, User(w.threads[tid].task), g, o, w'.threads[tid].pc == Stored(g))
  }

  lemma {:induction false} PersistStep(setup: Setup, w: World, tid: nat, o: Oracle)
    requires ValidSetup(setup) && Enabled(setup, w, Act(tid, o)) && w.threads[tid].pc.Persist?
    requires |w.threads[tid].pc.grant.permissions| <= MAX_PERMISSIONS
    ensures GrantStep(setup, w, Step(setup, w, Act(tid, o)), tid, o)
  {
    var th := w.threads[tid];
    if Usable(setup.cfg, th.pc.grant) {
      CallStep(setup, w, tid, o);
      PersistAnswers(setup, w.sys.phase.st, th.task, th.pc.grant, o);
    } else {
      LocalStep(setup, w, tid, o);
    }
  }

  /** What the table then grants. */
  lemma {:induction false} GrantedNames(setup: Setup, st: State, st': State, u: int, g: VerifiedGrant, o: Oracle, p: string, t: int)
    requires GrantAnswered(setup, st, st', u, g, o, true) && o.wall <= t
    ensures p in AuthSpec.ActiveFederated(st'.federated, u, t) <==>
      Lists(setup, g, p) && t < if g.accessExpiresAt.None? then 0 else g.accessExpiresAt.value
  {
    assert Reflects(setup, st'.mem.bindings[u], g);
  }

  /**
    In every run, a grant under its user's lock is stored if and only if it is usable
    for an identity that is free for the user; what is stored reflects it; and with the
    disk written the goroutine goes on to report it. From then on the table grants
    exactly the permissions the grant lists, until its expiry.
   */
  lemma {:induction false} GrantTakesEffect(setup: Setup, run: seq<Label>, tid: nat, o: Oracle, p: string, t: int)
    requires ValidSetup(setup) && Enabled(setup, After(setup, run), Act(tid, o)) && After(setup, run).threads[tid].pc.Persist?
    ensures GrantStep(setup, After(setup, run), After(setup, run + [Act(tid, o)]), tid, o)
    ensures var w, w' := After(setup, run), After(setup, run + [Act(tid, o)]);
      var u, g := User(w.threads[tid].task), w.threads[tid].pc.grant;
      w'.threads[tid].pc == Stored(g) && o.wall <= t ==>
        (p in AuthSpec.ActiveFederated(w'.sys.phase.st.federated, u, t) <==>
           Lists(setup, g, p) && t < if g.accessExpiresAt.None? then 0 else g.accessExpiresAt.value)
  {
    var w := After(setup, run);
    var g := w.threads[tid].pc.grant;
    RunsKeep(setup, run);
    HoldsMeansUp(setup, w, tid);
    PersistStep(setup, w, tid, o);
    AfterStep(setup, run, Act(tid, o));
    var w' := After(setup, run + [Act(tid, o)]);
    if w'.threads[tid].pc == Stored(g) && o.wall <= t {
      GrantedNames(setup, w.sys.phase.st, w'.sys.phase.st, User(w.threads[tid].task), g, o, p, t);
    }
  }

  /** A refresh's grant is always usable for a free identity: it is stored whenever the disk can be written. */
  lemma {:induction false} RefreshStores(setup: Setup, run: seq<Label>, tid: nat, o: Oracle)
    requires ValidSetup(setup) && Enabled(setup, After(setup, run), Act(tid, o))
    requires After(setup, run).threads[tid].pc.Persist? && Refreshing(After(setup, run).threads[tid].task)
    ensures var w, w' := After(setup, run), After(setup, run + [Act(tid, o)]);
      var u, g := User(w.threads[tid].task), w.threads[tid].pc.grant;
      && GrantFits(setup.cfg, w.sys.phase.st.mem.bindings, u, g)
      && tid in w'.threads && (w'.threads[tid].pc == Stored(g) <==> DiskWritten(o.io))
  {
    var w := After(setup, run);
    var th := w.threads[tid];
    GrantTakesEffect(setup, run, tid, o, "", 0);
    RunsKeep(setup, run);
    HoldsMeansUp(setup, w, tid);
    OwnIdentityFits(setup.cfg, w.sys.phase.st, User(th.task), th.pc.grant);
  }

  lemma {:induction false} OwnIdentityFits(cfg: Config, st: State, u: int, g: VerifiedGrant)
    requires GoodBindings(cfg, st.mem.bindings) && SameIdentity(st.mem, u, g.issuer, g.subject) && Usable(cfg, g)
    ensures GrantFits(cfg, st.mem.bindings, u, g)
  {
    assert GoodBinding(cfg, st.mem.bindings[u]);
  }

  // ---- a refresh that is refused ----

  /** In every run a refresh that finds its user with the item's identity reads the credential memory holds and presents it; any other ends there. */
  lemma {:induction false} RefreshAsks(setup: Setup, run: seq<Label>, tid: nat, o: Oracle)
    requires ValidSetup(setup) && Enabled(setup, After(setup, run), Act(tid, o))
    requires var pc := After(setup, run).threads[tid].pc; pc.Lookup? || pc.Check? || pc.ReadToken?
    ensures var w, w' := After(setup, run), After(setup, run + [Act(tid, o)]);
      && tid in w'.threads && w'.sys == w.sys && w'.prov == w.prov
      && ReadLeads(w.sys.phase.st.mem.bindings, User(w.threads[tid].task), w.threads[tid].pc, w'.threads[tid].pc)
  {
    RunsKeep(setup, run);
    AfterStep(setup, run, Act(tid, o));
    ReadOutcome(setup, After(setup, run), tid, o);
  }

  lemma {:induction false} ReadOutcome(setup: Setup, w: World, tid: nat, o: Oracle)
    requires Inv(setup, w) && Enabled(setup, w, Act(tid, o))
    requires var pc := w.threads[tid].pc; pc.Lookup? || pc.Check? || pc.ReadToken?
    ensures var w' := Step(setup, w, Act(tid, o));
      && tid in w'.threads && w'.sys == w.sys && w'.prov == w.prov
      && ReadLeads(w.sys.phase.st.mem.bindings, User(w.threads[tid].task), w.threads[tid].pc, w'.threads[tid].pc)
  {
    LocalStep(setup, w, tid, o);
    ReadAnswers(setup, w.sys.phase.st, w.prov, w.threads[tid].task, w.threads[tid].pc);
  }

  /** Where reading the bindings leads. */
  ghost predicate ReadLeads(m: map<int, Binding>, u: int, pc: Pc, pc': Pc) {
    && (pc.Lookup? ==> pc' == if u in m then Check(m[u]) else Done(None))
    && (pc.Check? && u in m && m[u].issuer == pc.item.issuer && m[u].subject == pc.item.subject ==> pc' == ReadToken(pc.item, m[u]))
    && (pc.Check? && !(u in m && m[u].issuer == pc.item.issuer && m[u].subject == pc.item.subject) ==> pc' == Done(None))
    && (pc.ReadToken? ==> u in m && Token(m[u]).Some? && pc' == Calling(pc.item, pc.current, Token(m[u]).value))
  }

  lemma {:induction false} ReadAnswers(setup: Setup, st: State, prov: Provider, task: Task, pc: Pc)
    requires GoodBindings(setup.cfg, st.mem.bindings) && PcInv(setup.cfg, st, prov, task, pc) && (pc.Lookup? || pc.Check? || pc.ReadToken?)
    ensures ReadLeads(st.mem.bindings, User(task), pc, ReadStep(setup.cfg, st.mem, User(task), pc))
  {
    if pc.ReadToken? { RefreshTokenAnswers(setup.cfg, st.mem, pc.current); }
  }

  /**
    In every run what the provider answers is kept: a login's grant goes on to be
    stored as it is, a refresh's with the credential presented where it brought none;
    a refused login ends there.
   */
  lemma {:induction false} AnswersAreKept(setup: Setup, run: seq<Label>, tid: nat, o: Oracle)
    requires ValidSetup(setup) && Enabled(setup, After(setup, run), Act(tid, o))
    requires var pc := After(setup, run).threads[tid].pc; pc.Exchanging? || pc.Calling? || pc.Granted?
    ensures var w, w' := After(setup, run), After(setup, run + [Act(tid, o)]);
      var pc := w.threads[tid].pc;
      && tid in w'.threads && w'.sys == w.sys && w'.prov.revoked == w.prov.revoked
      && (pc.Granted? ==> w'.threads[tid].pc == Persist(if pc.grant.token == "" then pc.grant.(token := pc.token) else pc.grant))
      && (pc.Calling? ==>
            w'.threads[tid].pc == if o.reply.Refused? then Failed(pc.item, o.reply.clear) else Granted(pc.item, pc.token, o.reply.grant))
      && (pc.Exchanging? ==> w'.threads[tid].pc == if o.reply.Refused? then Done(None) else Persist(o.reply.grant))
  {
    var w := After(setup, run);
    AfterStep(setup, run, Act(tid, o));
    if w.threads[tid].pc.Granted? {
      LateChecksPass(setup, run, tid);
      LocalStep(setup, w, tid, o);
    } else {
      AskStep(setup, w, tid, o);
    }
  }

  /** From the refused call on, to where the failure is about to be recorded. */
  lemma {:induction false} RefusalReachesRecording(setup: Setup, run: seq<Label>, tid: nat, ask: Oracle, mid1: seq<Label>, look: Oracle, mid2: seq<Label>)
    requires ValidSetup(setup) && Enabled(setup, After(setup, run), Act(tid, ask))
    requires After(setup, run).threads[tid].pc.Calling? && ask.reply.Refused?
    requires forall i :: 0 <= i < |mid1| ==> Undisturbed(mid1[i], tid)
    requires Enabled(setup, After(setup, run + [Act(tid, ask)] + mid1), Act(tid, look))
    requires forall i :: 0 <= i < |mid2| ==> Undisturbed(mid2[i], tid)
    ensures var w, w' := After(setup, run), After(setup, run + [Act(tid, ask)] + mid1 + [Act(tid, look)] + mid2);
      && Holds(w', tid) && w'.threads[tid] == Thread(w.threads[tid].task, Recording(w.threads[tid].pc.item, ask.reply.clear))
      && w.sys.phase.Up? && w'.sys.phase.Up? && UserSame(w.sys.phase.st, w'.sys.phase.st, User(w.threads[tid].task))
  {
    var r0 := run + [Act(tid, ask)];
    var r1 := r0 + mid1;
    var r2 := r1 + [Act(tid, look)];
    AskStep(setup, After(setup, run), tid, ask);
    AfterStep(setup, run, Act(tid, ask));
    OthersSteps(setup, r0, mid1, tid);
    LateChecksPass(setup, r1, tid);
    LocalStep(setup, After(setup, r1), tid, look);
    AfterStep(setup, r1, Act(tid, look));
    OthersSteps(setup, r2, mid2, tid);
  }

  lemma {:induction false} RecordStep(setup: Setup, w: World, tid: nat, o: Oracle)
    requires Inv(setup, w) && Enabled(setup, w, Act(tid, o)) && w.threads[tid].pc.Recording?
    ensures var w' := Step(setup, w, Act(tid, o)); var u := User(w.threads[tid].task);
      && w.sys.phase.Up? && w'.sys.phase.Up? && u in w.sys.phase.st.mem.bindings
      && FailureAnswered(w.sys.phase.st, w'.sys.phase.st, u, w.threads[tid].pc.clear, o.now, o.save)
      && tid in w'.threads && w'.threads[tid].pc == Done(None)
  {
    HoldsMeansUp(setup, w, tid);
    CallStep(setup, w, tid, o);
    RecordCall(setup, w.sys.phase.st, w.prov, w.threads[tid].task, w.threads[tid].pc, o);
  }

  lemma {:induction false} RecordCall(setup: Setup, st: State, prov: Provider, task: Task, pc: Pc, o: Oracle)
    requires pc.Recording? && PcInv(setup.cfg, st, prov, task, pc)
    ensures var u := User(task); var st' := Runs.Perform(setup.cfg, st, CallOf(setup, u, pc, o)).st;
      && u in st.mem.bindings && FailureAnswered(st, st', u, pc.clear, o.now, o.save)
      && AfterCall(setup, st, u, pc, o) == Done(None)
  {
    FailureAnswers(setup.cfg, st, User(task), pc.clear, o.now, o.save);
  }

  /**
    In every run, when the provider refuses a refresh and the failure is then recorded
    and saved -- anything else happening in between -- a rejected or denied credential
    has cost the user all permissions, in the binding and in the table; after any other
    refusal the user has the permissions and the expiry the call found. What is not
    saved changes nothing.
   */
  lemma {:induction false} RefusalTakesEffect(setup: Setup, run: seq<Label>, tid: nat, ask: Oracle, mid1: seq<Label>, look: Oracle,
                                              mid2: seq<Label>, rec: Oracle)
    requires ValidSetup(setup) && Enabled(setup, After(setup, run), Act(tid, ask))
    requires After(setup, run).threads[tid].pc.Calling? && ask.reply.Refused?
    requires forall i :: 0 <= i < |mid1| ==> Undisturbed(mid1[i], tid)
    requires Enabled(setup, After(setup, run + [Act(tid, ask)] + mid1), Act(tid, look))
    requires forall i :: 0 <= i < |mid2| ==> Undisturbed(mid2[i], tid)
    requires Enabled(setup, After(setup, run + [Act(tid, ask)] + mid1 + [Act(tid, look)] + mid2), Act(tid, rec))
    ensures var w := After(setup, run);
      var w' := After(setup, run + [Act(tid, ask)] + mid1 + [Act(tid, look)] + mid2 + [Act(tid, rec)]);
      var u := User(w.threads[tid].task);
      && w.sys.phase.Up? && w'.sys.phase.Up? && u in w.sys.phase.st.mem.bindings && u in w'.sys.phase.st.mem.bindings
      && tid in w'.threads && w'.threads[tid].pc == Done(None)
      && RefusalShows(w.sys.phase.st, w'.sys.phase.st, u, ask.reply.clear, rec.now, rec.save)
  {
    var r2 := run + [Act(tid, ask)] + mid1 + [Act(tid, look)] + mid2;
    RefusalReachesRecording(setup, run, tid, ask, mid1, look, mid2);
    RunsKeep(setup, r2);
    RecordStep(setup, After(setup, r2), tid, rec);
    AfterStep(setup, r2, Act(tid, rec));
  }

  /** What a refused refresh leaves of the user's binding and permissions. */
  ghost predicate RefusalShows(st: State, st': State, u: int, clear: bool, now: int, saved: bool)
    requires u in st.mem.bindings && u in st'.mem.bindings
  {
    var b, b' := st.mem.bindings[u], st'.mem.bindings[u];
    && b'.issuer == b.issuer && b'.subject == b.subject && Token(b') == Token(b)
    && b'.permissions == (if clear && saved then [] else b.permissions)
    && b'.accessExpiresAt == (if clear && saved then 0 else b.accessExpiresAt)
    && (saved ==> b'.nextRefreshAt == now + 300)
    && forall t :: AuthSpec.ActiveFederated(st'.federated, u, t)
                == if clear && saved then {} else AuthSpec.ActiveFederated(st.federated, u, t)
  }

  // ---- an unbind ----

  /** The call behind an unbind, and where it leads. */
  lemma {:induction false} RemovingAnswers(setup: Setup, st: State, u: int, o: Oracle)
    requires GoodBindings(setup.cfg, st.mem.bindings)
    ensures var st', pc := Runs.Perform(setup.cfg, st, CallOf(setup, u, Removing, o)).st, AfterCall(setup, st, u, Removing, o);
      && (Removable(st, u, o.rio) ==>
            && Token(st.mem.bindings[u]).Some? && u !in st'.mem.bindings && Ungrants(st.federated, st'.federated, u)
            && pc == Revoking(Token(st.mem.bindings[u]).value, None))
      && (!Removable(st, u, o.rio) ==> pc == Done(None) && st'.mem == st.mem)
  {
    if u in st.mem.bindings { assert GoodBinding(setup.cfg, st.mem.bindings[u]); }
    RemoveAnswers(setup.cfg, st, u, o.rio);
  }

  lemma {:induction false} RemoveStep(setup: Setup, w: World, tid: nat, o: Oracle)
    requires Inv(setup, w) && Enabled(setup, w, Act(tid, o)) && w.threads[tid].pc.Removing?
    ensures var w' := Step(setup, w, Act(tid, o)); var u := User(w.threads[tid].task);
      && w.sys.phase.Up? && w'.sys.phase.Up? && Holds(w', tid)
      && (Removable(w.sys.phase.st, u, o.rio) ==>
            && Token(w.sys.phase.st.mem.bindings[u]).Some? && u !in w'.sys.phase.st.mem.bindings
            && Ungrants(w.sys.phase.st.federated, w'.sys.phase.st.federated, u)
            && w'.threads[tid] == Thread(w.threads[tid].task, Revoking(Token(w.sys.phase.st.mem.bindings[u]).value, None)))
      && (!Removable(w.sys.phase.st, u, o.rio) ==>
            w'.threads[tid].pc == Done(None) && w'.sys.phase.st.mem == w.sys.phase.st.mem && w'.prov == w.prov)
  {
    HoldsMeansUp(setup, w, tid);
    CallStep(setup, w, tid, o);
    RemovingAnswers(setup, w.sys.phase.st, User(w.threads[tid].task), o);
  }

  /** All that unbinding needs. */
  predicate Removable(st: State, u: int, io: RemoveIO) {
    u in st.mem.bindings && io.read && (LogHolds(st.disk, u) ==> io.clear) && io.save
  }

  /**
    In every run an unbind removes the binding if and only if there is one, the log
    could be read, an entry of the user's in it removed, and the rest saved. Then it
    revokes the credential the binding carried -- anything else happening in between --
    and is done; otherwise it is done at once and has changed nothing in memory.
   */
  lemma {:induction false} UnbindRevokes(setup: Setup, run: seq<Label>, tid: nat, o: Oracle, mid: seq<Label>, rev: Oracle)
    requires ValidSetup(setup) && Enabled(setup, After(setup, run), Act(tid, o)) && After(setup, run).threads[tid].pc.Removing?
    requires forall i :: 0 <= i < |mid| ==> Undisturbed(mid[i], tid)
    requires var w := After(setup, run); Removable(w.sys.phase.st, User(w.threads[tid].task), o.rio)
    requires Enabled(setup, After(setup, run + [Act(tid, o)] + mid), Act(tid, rev))
    ensures var w, w' := After(setup, run), After(setup, run + [Act(tid, o)] + mid + [Act(tid, rev)]);
      var u := User(w.threads[tid].task);
      && Token(w.sys.phase.st.mem.bindings[u]).Some? && Token(w.sys.phase.st.mem.bindings[u]).value in w'.prov.revoked
      && w'.sys.phase.Up? && u !in w'.sys.phase.st.mem.bindings
      && (forall t :: AuthSpec.ActiveFederated(w'.sys.phase.st.federated, u, t) == {})
      && tid in w'.threads && w'.threads[tid].pc == Done(None)
  {
    var r0 := run + [Act(tid, o)];
    var r1 := r0 + mid;
    RunsKeep(setup, run);
    RemoveStep(setup, After(setup, run), tid, o);
    AfterStep(setup, run, Act(tid, o));
    OthersSteps(setup, r0, mid, tid);
    AskStep(setup, After(setup, r1), tid, rev);
    AfterStep(setup, r1, Act(tid, rev));
  }

  lemma {:induction false} UnbindWithout(setup: Setup, run: seq<Label>, tid: nat, o: Oracle)
    requires ValidSetup(setup) && Enabled(setup, After(setup, run), Act(tid, o)) && After(setup, run).threads[tid].pc.Removing?
    requires var w := After(setup, run); !Removable(w.sys.phase.st, User(w.threads[tid].task), o.rio)
    ensures var w, w' := After(setup, run), After(setup, run + [Act(tid, o)]);
      && w.sys.phase.Up? && w'.sys.phase.Up? && tid in w'.threads && w'.threads[tid].pc == Done(None)
      && w'.sys.phase.st.mem == w.sys.phase.st.mem && w'.prov == w.prov
  {
    RunsKeep(setup, run);
    RemoveStep(setup, After(setup, run), tid, o);
    AfterStep(setup, run, Act(tid, o));
  }
}
