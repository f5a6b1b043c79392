/**
  The bodies of the service's operations as they are written, over the store and
  the provider's client. Each is proved to pass through exactly the steps that
  `Service` interleaves: what is proved of the steps holds of this code.
 */
module AccountService {
  import opened Wrappers
  import opened Canonical
  import opened Records
  import opened StoreSpec
  import opened StoreEffects
  import opened StoreAnswers
  import opened Service
  import opened ServiceInv
  import opened ServiceAnswers
  import Runs = StoreRuns
  import B = BindingStore

  /** A body between two of its steps. */
  datatype At = At(st: State, prov: Provider, pc: Pc)

  predicate Over(pc: Pc) { pc.Entering? || pc.Done? }

  ghost function Next(setup: Setup, task: Task, o: Oracle, c: At): At
    requires !Over(c.pc)
  {
    if MakesCall(setup.cfg, c.pc) then
      At(Runs.Perform(setup.cfg, c.st, CallOf(setup, User(task), c.pc, o)).st, c.prov, AfterCall(setup, c.st, User(task), c.pc, o))
    else if AsksProvider(c.pc) then At(c.st, ProviderAfter(c.prov, task, c.pc, o.reply), PcAfter(c.pc, o.reply))
    else At(c.st, c.prov, ReadStep(setup.cfg, c.st.mem, User(task), c.pc))
  }

  /** A step of the machine takes a goroutine's configuration to the next. */
  lemma {:induction false} ActIsNext(setup: Setup, w: World, tid: nat, o: Oracle)
    requires Enabled(setup, w, Act(tid, o))
    ensures var w' := Taken(setup, w, Act(tid, o));
      && w'.sys.phase.Up?
      && At(w'.sys.phase.st, w'.prov, w'.threads[tid].pc)
         == Next(setup, w.threads[tid].task, o, At(w.sys.phase.st, w.prov, w.threads[tid].pc))
  {
  }

  /**
    A set of configurations that no step with the answers `o` leads out of. A body
    that gets from one configuration to another through such steps alone ends in
    every set of this kind that it starts in.
   */
  ghost predicate Closed(setup: Setup, task: Task, o: Oracle, reach: At -> bool) {
    forall c {:trigger Next(setup, task, o, c)} :: reach(c) && !Over(c.pc) ==> reach(Next(setup, task, o, c))
  }

  lemma {:induction false} OneMore(setup: Setup, task: Task, o: Oracle, reach: At -> bool, c: At)
    requires Closed(setup, task, o, reach) && reach(c) && !Over(c.pc)
    ensures reach(Next(setup, task, o, c))
  {
  }

  lemma {:induction false} ReadMore(setup: Setup, task: Task, o: Oracle, reach: At -> bool, st: State, prov: Provider, pc: Pc)
    requires Closed(setup, task, o, reach) && reach(At(st, prov, pc)) && IsLocal(setup.cfg, pc)
    ensures var c := At(st, prov, ReadStep(setup.cfg, st.mem, User(task), pc)); reach(c)
  {
    OneMore(setup, task, o, reach, At(st, prov, pc));
  }

  lemma {:induction false} AskMore(setup: Setup, task: Task, o: Oracle, reach: At -> bool, st: State, prov: Provider, pc: Pc)
    requires Closed(setup, task, o, reach) && reach(At(st, prov, pc)) && AsksProvider(pc)
    ensures var c := At(st, ProviderAfter(prov, task, pc, o.reply), PcAfter(pc, o.reply)); reach(c)
  {
    OneMore(setup, task, o, reach, At(st, prov, pc));
  }

  lemma {:induction false} PerformPut(cfg: Config, st: State, c: Runs.Call)
    requires c.op.Put?
    ensures Runs.Perform(cfg, st, c).st == PutSpec(cfg, st, c.op.item, c.op.token, c.now, c.wall, c.op.io).st
  {
  }

  /** The store operation of a goroutine at `Persist` is storing its item. */
  lemma {:induction false} PersistIsPut(setup: Setup, st: State, user: int, g: VerifiedGrant, o: Oracle)
    requires Usable(setup.cfg, g)
    ensures Runs.Perform(setup.cfg, st, CallOf(setup, user, Persist(g), o)).st
         == PutSpec(setup.cfg, st, ItemOf(setup, user, g), g.token, o.now, o.wall, o.io).st
  {
    PerformPut(setup.cfg, st, CallOf(setup, user, Persist(g), o));
  }

  lemma {:induction false} PutMore(setup: Setup, task: Task, o: Oracle, reach: At -> bool, st: State, prov: Provider, g: VerifiedGrant)
    requires Closed(setup, task, o, reach) && reach(At(st, prov, Persist(g))) && Usable(setup.cfg, g)
    ensures var put := PutSpec(setup.cfg, st, ItemOf(setup, User(task), g), g.token, o.now, o.wall, o.io);
      var c := At(put.st, prov, if put.result.Ok? then Stored(g) else Unstored(g));
      reach(c)
  {
    PersistIsPut(setup, st, User(task), g, o);
    OneMore(setup, task, o, reach, At(st, prov, Persist(g)));
  }

  lemma {:induction false} RecordMore(setup: Setup, task: Task, o: Oracle, reach: At -> bool, st: State, prov: Provider, item: Binding, clear: bool)
    requires Closed(setup, task, o, reach) && reach(At(st, prov, Recording(item, clear)))
    ensures var c := At(RecordFailureSpec(setup.cfg, st, item.telegramId, clear, o.now, o.save).st, prov, Done(None));
      reach(c)
  {
    OneMore(setup, task, o, reach, At(st, prov, Recording(item, clear)));
  }

  lemma {:induction false} RemoveMore(setup: Setup, task: Task, o: Oracle, reach: At -> bool, st: State, prov: Provider)
    requires Closed(setup, task, o, reach) && reach(At(st, prov, Removing))
    ensures var out := RemoveSpec(setup.cfg, st, User(task), o.rio);
      var left := out.result.Ok? && out.result.value.Some? && out.result.value.value.token != "";
      var c := At(out.st, prov, if left then Revoking(out.result.value.value.token, None) else Done(None));
      reach(c)
  {
    OneMore(setup, task, o, reach, At(st, prov, Removing));
  }

  /** A grant stored without an error is what the user's binding reflects. */
  lemma {:induction false} StoredBears(setup: Setup, st: State, user: int, g: VerifiedGrant, o: Oracle)
    requires ValidGrammar(setup.cfg.grammar)
    ensures var put := PutSpec(setup.cfg, st, ItemOf(setup, user, g), g.token, o.now, o.wall, o.io);
      put.result.Ok? ==> user in put.st.mem.bindings && Reflects(setup, put.st.mem.bindings[user], g)
  {
    var item := ItemOf(setup, user, g);
    var put := PutSpec(setup.cfg, st, item, g.token, o.now, o.wall, o.io);
    PutAnswers(setup.cfg, st, item, g.token, o.now, o.wall, o.io);
    if put.result.Ok? { StoredReflects(setup, put.st.mem.bindings[user], user, g, o.now, BoundAs(st.mem.bindings, user)); }
  }

  /** The user still has the identity the item was read with. */
  predicate StillHas(m: map<int, Binding>, item: Binding) {
    item.telegramId in m && m[item.telegramId].issuer == item.issuer && m[item.telegramId].subject == item.subject
  }

  /** A grant without a new credential keeps the one presented. */
  function Kept(g: VerifiedGrant, presented: string): VerifiedGrant { if g.token == "" then g.(token := presented) else g }

  /** The user still has the item's identity, and the provider answers with a grant for it. */
  ghost predicate Grantable(m: map<int, Binding>, item: Binding, reply: Reply) {
    && StillHas(m, item) && Token(m[item.telegramId]).Some? && reply.Replied?
    && reply.grant.issuer == item.issuer && reply.grant.subject == item.subject && |reply.grant.permissions| <= MAX_PERMISSIONS
  }

  /** What is to be revoked of a grant, given what memory now holds. */
  ghost function Stray(mem: Mem, user: int, g: VerifiedGrant): set<string> {
    if g.token == "" || Carries(mem, user, g) then {} else {g.token}
  }

  /** The client of the identity provider; what it answers is decided outside. */
  class Client {
    ghost var prov: Provider

    constructor (ghost prov: Provider)
      ensures this.prov == prov
    {
      this.prov := prov;
    }

    method Ask(ghost task: Task, ghost pc: Pc, reply: Reply) returns (r: Reply)
      requires AsksProvider(pc)
      modifies this
      ensures r == reply && prov == ProviderAfter(old(prov), task, pc, reply)
    {
      prov := ProviderAfter(prov, task, pc, reply);
      r := reply;
    }
  }

  class AccountService {
    const setup: Setup
    const store: B.BindingStore
    const client: Client

    ghost predicate Valid()
      reads this, store
    {
      store.Valid() && store.cfg == setup.cfg && ValidSetup(setup)
    }

    /** The configuration with the body about to take step `pc`. */
    ghost function Here(pc: Pc): At
      reads this, store, store.files, store.auth, client
    {
      At(store.Now(), client.prov, pc)
    }

    ghost predicate IsBoundTo(user: int, b: Binding)
      reads this, store
    {
      user in store.bindings && store.bindings[user] == b
    }

    constructor (setup: Setup, store: B.BindingStore, client: Client)
      requires store.Valid() && store.cfg == setup.cfg && ValidSetup(setup)
      ensures Valid() && this.setup == setup && this.store == store && this.client == client
    {
      this.setup, this.store, this.client := setup, store, client;
    }

    /** Map the grant to a binding, store it, and read it back; nothing when that failed or the user is not bound after all. */
    method PersistGrant(task: Task, g: VerifiedGrant, o: Oracle, ghost reach: At -> bool) returns (stored: Option<Binding>)
      requires Valid() && Closed(setup, task, o, reach) && reach(Here(Persist(g)))
      modifies store`bindings, store.files, store.auth`federated
      ensures Valid() && reach(Here(if stored.Some? then Done(Some(g)) else Unstored(g)))
      ensures stored.Some? ==> IsBoundTo(User(task), stored.value) && Reflects(setup, stored.value, g)
      ensures |g.permissions| <= MAX_PERMISSIONS ==>
        GrantAnswered(setup, old(store.Now()), store.Now(), User(task), g, o, stored.Some?)
    {
      if !Usable(setup.cfg, g) {
        ReadMore(setup, task, o, reach, store.Now(), client.prov, Persist(g));
        return None;
      }
      var put := StoreGrant(task, g, o, reach);
      if !put { return None; }
      ReadMore(setup, task, o, reach, store.Now(), client.prov, Stored(g));
      stored := store.Binding(User(task));
    }

    method StoreGrant(task: Task, g: VerifiedGrant, o: Oracle, ghost reach: At -> bool) returns (ok: bool)
      requires Valid() && Usable(setup.cfg, g) && Closed(setup, task, o, reach) && reach(Here(Persist(g)))
      modifies store`bindings, store.files, store.auth`federated
      ensures Valid() && reach(Here(if ok then Stored(g) else Unstored(g)))
      ensures ok ==> User(task) in store.bindings && Reflects(setup, store.bindings[User(task)], g)
      ensures |g.permissions| <= MAX_PERMISSIONS ==> GrantAnswered(setup, old(store.Now()), store.Now(), User(task), g, o, ok)
    {
      if |g.permissions| <= MAX_PERMISSIONS { GrantAnswers(setup, store.Now(), User(task), g, o); }
      ghost var out := PutSpec(setup.cfg, store.Now(), ItemOf(setup, User(task), g), g.token, o.now, o.wall, o.io);
      PutMore(setup, task, o, reach, store.Now(), client.prov, g);
      StoredBears(setup, store.Now(), User(task), g, o);
      var put := store.PutBinding(ItemOf(setup, User(task), g), g.token, o.now, o.wall, o.io);
      assert store.Now() == out.st && put == out.result;
      assert store.bindings == out.st.mem.bindings;
      ok := put.Ok?;
    }

    /** Revoke a grant's credential unless the user's binding carries it. */
    method RevokeUnstoredGrant(task: Task, g: VerifiedGrant, o: Oracle, ghost reach: At -> bool)
      requires Valid() && Closed(setup, task, o, reach) && reach(Here(Unstored(g)))
      modifies client
      ensures Valid() && reach(Here(Done(Some(g))))
      ensures client.prov == old(client.prov).(revoked := old(client.prov).revoked + Stray(store.Mem(), User(task), g))
    {
      ReadMore(setup, task, o, reach, store.Now(), client.prov, Unstored(g));
      if g.token == "" { return; }
      var found := store.Binding(User(task));
      if found.Some? && found.value.issuer == g.issuer && found.value.subject == g.subject {
        ReadMore(setup, task, o, reach, store.Now(), client.prov, Compare(g, found.value));
        var token := store.RefreshToken(found.value);
        if token == Ok(g.token) { return; }
      } else {
      }
      AskMore(setup, task, o, reach, store.Now(), client.prov, Revoking(g.token, Some(g)));
      var _ := client.Ask(task, Revoking(g.token, Some(g)), o.reply);
    }

    /** Store a grant, or see that it does not go astray. */
    method Keep(task: Task, g: VerifiedGrant, o: Oracle, ghost reach: At -> bool) returns (stored: Option<Binding>)
      requires Valid() && Closed(setup, task, o, reach) && reach(Here(Persist(g)))
      modifies store`bindings, store.files, store.auth`federated, client
      ensures Valid() && reach(Here(Done(Some(g))))
      ensures stored.Some? ==> IsBoundTo(User(task), stored.value) && Reflects(setup, stored.value, g)
      ensures |g.permissions| <= MAX_PERMISSIONS ==>
        GrantAnswered(setup, old(store.Now()), store.Now(), User(task), g, o, stored.Some?)
      ensures client.prov == old(client.prov).(revoked := old(client.prov).revoked + Stray(store.Mem(), User(task), g))
    {
      stored := PersistGrant(task, g, o, reach);
      if stored.None? { RevokeUnstoredGrant(task, g, o, reach); }
    }

    /** One refresh of `item`'s user, if the user still has the item's identity; `ok` when its grant was stored. */
    method RefreshOne(task: Task, item: Binding, o: Oracle, ghost reach: At -> bool) returns (ok: bool, ghost got: Option<VerifiedGrant>)
      requires Valid() && item.telegramId == User(task) && Closed(setup, task, o, reach) && reach(Here(Check(item)))
      modifies store`bindings, store.files, store.auth`federated, client
      ensures Valid() && reach(Here(Done(got)))
      ensures ok ==> got.Some? && item.telegramId in store.bindings && Reflects(setup, store.bindings[item.telegramId], got.value)
      ensures !StillHas(old(store.bindings), item) ==>
        !ok && got.None? && store.Now() == old(store.Now()) && client.prov == old(client.prov)
      ensures StillHas(old(store.bindings), item) && Token(old(store.bindings)[item.telegramId]).Some? && o.reply.Refused? ==>
        && !ok && got.None? && client.prov == old(client.prov)
        && FailureAnswered(old(store.Now()), store.Now(), item.telegramId, o.reply.clear, o.now, o.save)
      ensures Grantable(old(store.bindings), item, o.reply) ==>
        var g := Kept(o.reply.grant, Token(old(store.bindings)[item.telegramId]).value);
        && got == Some(g) && GrantAnswered(setup, old(store.Now()), store.Now(), item.telegramId, g, o, ok)
        && client.prov.revoked == old(client.prov).revoked + Stray(store.Mem(), item.telegramId, g)
    {
      ReadMore(setup, task, o, reach, store.Now(), client.prov, Check(item));
      var found := store.Binding(item.telegramId);
      if found.None? || found.value.issuer != item.issuer || found.value.subject != item.subject { return false, None; }
      var current := found.value;
      ReadMore(setup, task, o, reach, store.Now(), client.prov, ReadToken(item, current));
      var token := store.RefreshToken(current);
      if token.Err? { return false, None; }
      AskMore(setup, task, o, reach, store.Now(), client.prov, Calling(item, current, token.value));
      var reply := client.Ask(task, Calling(item, current, token.value), o.reply);
      if reply.Refused? {
        NoteFailure(task, item, reply.clear, o, reach);
        return false, None;
      }
      ok, got := CheckAndKeep(task, item, token.value, reply.grant, o, reach);
    }

    /** After a granted refresh: look at the binding once more, then store. */
    method CheckAndKeep(task: Task, item: Binding, token: string, g: VerifiedGrant, o: Oracle, ghost reach: At -> bool)
      returns (ok: bool, ghost got: Option<VerifiedGrant>)
      requires Valid() && item.telegramId == User(task) && Closed(setup, task, o, reach) && reach(Here(Granted(item, token, g)))
      modifies store`bindings, store.files, store.auth`federated, client
      ensures Valid() && reach(Here(Done(got)))
      ensures ok ==> got.Some? && item.telegramId in store.bindings && Reflects(setup, store.bindings[item.telegramId], got.value)
      ensures StillHas(old(store.bindings), item) && g.issuer == item.issuer && g.subject == item.subject && |g.permissions| <= MAX_PERMISSIONS ==>
        && got == Some(Kept(g, token))
        && GrantAnswered(setup, old(store.Now()), store.Now(), item.telegramId, Kept(g, token), o, ok)
        && client.prov.revoked == old(client.prov).revoked + Stray(store.Mem(), item.telegramId, Kept(g, token))
    {
      ReadMore(setup, task, o, reach, store.Now(), client.prov, Granted(item, token, g));
      var latest := store.Binding(item.telegramId);
      if latest.None? { return false, Some(g); }
      if latest.value.issuer != item.issuer || latest.value.subject != item.subject { return false, Some(g); }
      if g.issuer != latest.value.issuer || g.subject != latest.value.subject { return false, Some(g); }
      var kept := g;
      if kept.token == "" { kept := kept.(token := token); }
      got := Some(kept);
      var stored := Keep(task, kept, o, reach);
      ok := stored.Some?;
    }

    /** Record a failed refresh while the user is still bound. */
    method NoteFailure(task: Task, item: Binding, clear: bool, o: Oracle, ghost reach: At -> bool)
      requires Valid() && item.telegramId == User(task) && Closed(setup, task, o, reach) && reach(Here(Failed(item, clear)))
      modifies store`bindings, store.files, store.auth`federated
      ensures Valid() && reach(Here(Done(None)))
      ensures FailureAnswered(old(store.Now()), store.Now(), item.telegramId, clear, o.now, o.save)
    {
      ReadMore(setup, task, o, reach, store.Now(), client.prov, Failed(item, clear));
      var still := store.Binding(item.telegramId);
      if still.None? { return; }
      RecordMore(setup, task, o, reach, store.Now(), client.prov, item, clear);
      var _ := store.RecordRefreshFailure(item.telegramId, clear, o.now, o.save);
    }

    /** A refresh on demand, and the binding as it reads afterwards: the one memory has, with the credential and identity of the grant. */
    method RefreshNow(user: int, o: Oracle, ghost reach: At -> bool) returns (r: Option<Binding>, ghost got: Option<VerifiedGrant>)
      requires Valid() && Closed(setup, Service.RefreshNow(user), o, reach) && reach(Here(Lookup))
      modifies store`bindings, store.files, store.auth`federated, client
      ensures Valid() && reach(Here(Done(got)))
      ensures r.Some? ==> got.Some? && IsBoundTo(user, r.value) && Reflects(setup, r.value, got.value)
      ensures user !in old(store.bindings) ==> r.None? && got.None? && store.Now() == old(store.Now()) && client.prov == old(client.prov)
      ensures user in old(store.bindings) && Token(old(store.bindings)[user]).Some? && o.reply.Refused? ==>
        && r.None? && got.None? && client.prov == old(client.prov)
        && FailureAnswered(old(store.Now()), store.Now(), user, o.reply.clear, o.now, o.save)
      ensures user in old(store.bindings) && Grantable(old(store.bindings), old(store.bindings)[user], o.reply) ==>
        var g := Kept(o.reply.grant, Token(old(store.bindings)[user]).value);
        && got == Some(g) && GrantAnswered(setup, old(store.Now()), store.Now(), user, g, o, r.Some?)
        && client.prov.revoked == old(client.prov).revoked + Stray(store.Mem(), user, g)
    {
      var task := Service.RefreshNow(user);
      ReadMore(setup, task, o, reach, store.Now(), client.prov, Lookup);
      var found := store.Binding(user);
      if found.None? { return None, None; }
      assert found.value.telegramId == user;
      var ok;
      ok, got := RefreshOne(task, found.value, o, reach);
      if !ok { return None, got; }
      r := store.Binding(user);
    }

    /** A login, after its transaction was consumed: the binding it stored, if it did. */
    method Complete(login: Login, o: Oracle, ghost reach: At -> bool) returns (r: Option<Binding>, ghost got: Option<VerifiedGrant>)
      requires Valid() && Closed(setup, Service.Complete(login), o, reach) && reach(Here(Exchanging))
      modifies store`bindings, store.files, store.auth`federated, client
      ensures Valid() && reach(Here(Done(got)))
      ensures r.Some? ==> got.Some? && IsBoundTo(login.telegramId, r.value) && Reflects(setup, r.value, got.value)
      ensures o.reply.Refused? ==> r.None? && got.None? && store.Now() == old(store.Now()) && client.prov == old(client.prov)
      ensures o.reply.Replied? && |o.reply.grant.permissions| <= MAX_PERMISSIONS ==>
        && got == Some(o.reply.grant)
        && GrantAnswered(setup, old(store.Now()), store.Now(), login.telegramId, o.reply.grant, o, r.Some?)
        && client.prov.revoked == old(client.prov).revoked + Stray(store.Mem(), login.telegramId, o.reply.grant)
    {
      var task := Service.Complete(login);
      AskMore(setup, task, o, reach, store.Now(), client.prov, Exchanging);
      var reply := client.Ask(task, Exchanging, o.reply);
      if reply.Refused? { return None, None; }
      r := Keep(task, reply.grant, o, reach);
      got := Some(reply.grant);
    }

    /** Remove the binding and revoke the credential it carried; `removed` when there was one to remove and it went. */
    method Unbind(user: int, o: Oracle, ghost reach: At -> bool) returns (removed: bool)
      requires Valid() && Closed(setup, Service.Unbind(user), o, reach) && reach(Here(Removing))
      modifies store`bindings, store.files, store.auth`federated, client
      ensures Valid() && reach(Here(Done(None)))
      ensures (user in old(store.bindings) ==> Token(old(store.bindings)[user]).Some?) ==>
        && (removed <==>
              && user in old(store.bindings) && o.rio.read
              && (LogHolds(old(store.Now()).disk, user) ==> o.rio.clear) && o.rio.save)
        && (!removed ==> store.Mem() == old(store.Mem()) && client.prov == old(client.prov))
      ensures removed && Token(old(store.bindings)[user]).Some? ==>
        && user !in store.bindings && Ungrants(old(store.Now()).federated, store.Now().federated, user)
        && OthersKept(old(store.bindings), store.bindings, user)
        && client.prov.revoked == old(client.prov).revoked + ({Token(old(store.bindings)[user]).value} - {""})
    {
      var task := Service.Unbind(user);
      RemoveMore(setup, task, o, reach, store.Now(), client.prov);
      var r := store.Remove(user, o.rio);
      removed := r.Ok? && r.value.Some?;
      if !removed || r.value.value.token == "" { return; }
      var token := r.value.value.token;
      AskMore(setup, task, o, reach, store.Now(), client.prov, Revoking(token, None));
      var _ := client.Ask(task, Revoking(token, None), o.reply);
    }
  }
}
