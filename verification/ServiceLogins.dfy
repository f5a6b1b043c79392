/**
  A login from its callback to the binding, over every run: closing the login starts a
  goroutine with exactly the login that was opened; under its user's lock that asks the
  provider first; and a grant is stored whenever its identity is free for the user.
 */
module ServiceLogins {
  import opened Wrappers
  import opened Records
  import opened StoreSpec
  import opened StoreFacts
  import opened StoreAnswers
  import AuthSpec
  import Runs = StoreRuns
  import Uses = StoreUses
  import Locks
  import opened Service
  import opened ServiceInv
  import opened ServiceAnswers
  import opened ServiceRuns
  import opened ServiceOutcomes

  /** In every run closing a login that is on file, in time and saved, starts a goroutine with the login as it was opened; too late or not saved, none. */
  lemma {:induction false} LoginStarts(setup: Setup, run: seq<Label>, tid: nat, call: Runs.Call, login: Login, at: int)
    requires ValidSetup(setup) && Enabled(setup, After(setup, run), Accept(tid, call))
    requires var w := After(setup, run);
      && w.sys.phase.Up? && Digest(call.op.state) in w.sys.phase.st.mem.transactions
      && Runs.OpenedAs(w.sys.log, call.op.state, login, at) && login.nonce != "" && login.verifier != ""
    ensures var w, w' := After(setup, run), After(setup, run + [Accept(tid, call)]);
      w'.threads == if call.now < at + 600 && call.save then w.threads[tid := Thread(Complete(login), Entering)] else w.threads
  {
    ServiceRunsTheStore(setup, run);
    Uses.LoginClosesExactly(setup.cfg, StoreRun(setup, run), call.op.state, login, at, call.now, call.save);
    AfterStep(setup, run, Accept(tid, call));
  }

  /** Under its user's lock a goroutine begins with the first step of what it is there for; nothing else changes. */
  lemma {:induction false} BodyBegins(setup: Setup, run: seq<Label>, tid: nat)
    requires Enabled(setup, After(setup, run), Take(tid))
    ensures var w, w' := After(setup, run), After(setup, run + [Take(tid)]);
      && w'.sys == w.sys && w'.prov == w.prov && Holds(w', tid) && w'.threads.Keys == w.threads.Keys
      && w'.threads[tid] == Thread(w.threads[tid].task,
           match w.threads[tid].task
           case Sweep(item) => Check(item)
           case RefreshNow(_) => Lookup
           case Complete(_) => Exchanging
           case Unbind(_) => Removing)
      && (forall s :: s in w.threads && s != tid ==> w'.threads[s] == w.threads[s])
  {
    AfterStep(setup, run, Take(tid));
  }

  /** From the lock to where the grant is about to be stored. */
  lemma {:induction false} LoginReachesStore(setup: Setup, run: seq<Label>, tid: nat, mid1: seq<Label>, ask: Oracle, mid2: seq<Label>)
    requires ValidSetup(setup) && Enabled(setup, After(setup, run), Take(tid)) && After(setup, run).threads[tid].task.Complete?
    requires (forall i :: 0 <= i < |mid1| ==> Undisturbed(mid1[i], tid)) && (forall i :: 0 <= i < |mid2| ==> Undisturbed(mid2[i], tid))
    requires Enabled(setup, After(setup, run + [Take(tid)] + mid1), Act(tid, ask)) && ask.reply.Replied?
    ensures var w, w' := After(setup, run), After(setup, run + [Take(tid)] + mid1 + [Act(tid, ask)] + mid2);
      Holds(w', tid) && w'.threads[tid] == Thread(w.threads[tid].task, Persist(ask.reply.grant)) && w'.sys.phase.Up?
  {
    var r0 := run + [Take(tid)];
    var r1 := r0 + mid1;
    var r2 := r1 + [Act(tid, ask)];
    BodyBegins(setup, run, tid);
    OthersSteps(setup, r0, mid1, tid);
    AskStep(setup, After(setup, r1), tid, ask);
    AfterStep(setup, r1, Act(tid, ask));
    OthersSteps(setup, r2, mid2, tid);
  }

  /**
    In every run a login that took its user's lock and was granted, anything else
    happening in between, is stored if and only if the grant is usable and its identity
    is free for the user then: the binding is what the grant says, and with the disk
    written the table grants its permissions until they expire.
   */
  lemma {:induction false} LoginBinds(setup: Setup, run: seq<Label>, tid: nat, mid1: seq<Label>, ask: Oracle, mid2: seq<Label>, o: Oracle,
                                      p: string, t: int)
    requires ValidSetup(setup) && Enabled(setup, After(setup, run), Take(tid)) && After(setup, run).threads[tid].task.Complete?
    requires (forall i :: 0 <= i < |mid1| ==> Undisturbed(mid1[i], tid)) && (forall i :: 0 <= i < |mid2| ==> Undisturbed(mid2[i], tid))
    requires Enabled(setup, After(setup, run + [Take(tid)] + mid1), Act(tid, ask)) && ask.reply.Replied?
    requires Enabled(setup, After(setup, run + [Take(tid)] + mid1 + [Act(tid, ask)] + mid2), Act(tid, o)) && o.wall <= t
    ensures var before := run + [Take(tid)] + mid1 + [Act(tid, ask)] + mid2;
      var st, phase := After(setup, before).sys.phase.st, After(setup, before + [Act(tid, o)]).sys.phase;
      var u, g := After(setup, run).threads[tid].task.login.telegramId, ask.reply.grant;
      && After(setup, before).sys.phase.Up? && phase.Up?
      && BoundAsGranted(setup, st, phase.st, u, g, DiskWritten(o.io), p, t)
  {
    var before := run + [Take(tid)] + mid1 + [Act(tid, ask)] + mid2;
    LoginReachesStore(setup, run, tid, mid1, ask, mid2);
    GrantTakesEffect(setup, before, tid, o, p, t);
  }

  /** The grant is stored exactly when it fits, and then shows in the binding and, with the disk written, in the table. */
  ghost predicate BoundAsGranted(setup: Setup, st: State, st': State, u: int, g: VerifiedGrant, written: bool, p: string, t: int) {
    && (GrantFits(setup.cfg, st.mem.bindings, u, g) ==> u in st'.mem.bindings && Reflects(setup, st'.mem.bindings[u], g))
    && (!GrantFits(setup.cfg, st.mem.bindings, u, g) ==> st' == st)
    && (GrantFits(setup.cfg, st.mem.bindings, u, g) && written ==>
          (p in AuthSpec.ActiveFederated(st'.federated, u, t) <==>
             Lists(setup, g, p) && t < if g.accessExpiresAt.None? then 0 else g.accessExpiresAt.value))
  }
}
