/**
  What holds of a goroutine at each of its steps while it has its user's lock, and
  that no step of another user's goroutine disturbs it.
 */
module ServiceInv {
  import opened Wrappers
  import opened Canonical
  import opened Records
  import opened StoreSpec
  import opened StoreFacts
  import opened StoreOps
  import opened StoreEffects
  import Runs = StoreRuns
  import opened Service

  // ---- credentials ----

  /** No binding in memory or on disk carries the credential. */
  ghost predicate NotBound(st: State, token: string) {
    forall v, b :: Held(st, v, b) ==> Token(b) != Some(token)
  }

  function KeyOf(v: int, b: Binding): Key { Key(v, b.issuer, b.subject) }

  /** If the user is bound, memory carries the newest credential returned for that binding. */
  ghost predicate Current(mem: Mem, prov: Provider, u: int) {
    u in mem.bindings ==>
      var k := KeyOf(u, mem.bindings[u]);
      k in prov.newest && Token(mem.bindings[u]) == Some(prov.newest[k])
  }

  ghost predicate Carries(mem: Mem, u: int, g: VerifiedGrant) {
    SameIdentity(mem, u, g.issuer, g.subject) && Token(mem.bindings[u]) == Some(g.token)
  }

  /** A credential of this user that nothing holds. */
  ghost predicate Loose(st: State, prov: Provider, u: int, token: string) {
    token in prov.returned && prov.returned[token].user == u && NotBound(st, token)
  }

  /** The grant's credential is the newest of its binding, not revoked, and held by nothing else. */
  ghost predicate Live(st: State, prov: Provider, u: int, g: VerifiedGrant) {
    var k := Key(u, g.issuer, g.subject);
    && g.token in prov.returned && prov.returned[g.token] == k
    && k in prov.newest && prov.newest[k] == g.token && g.token !in prov.revoked
    && (NotBound(st, g.token) || Carries(st.mem, u, g))
  }

  /** Each credential belongs to one binding; the newest ones are not superseded. */
  ghost predicate ProvInv(prov: Provider) {
    && (forall k :: k in prov.newest ==> IsNewest(prov, k))
    && prov.superseded <= prov.returned.Keys && prov.revoked <= prov.returned.Keys
  }

  ghost predicate IsNewest(prov: Provider, k: Key)
    requires k in prov.newest
  {
    prov.newest[k] in prov.returned && prov.returned[prov.newest[k]] == k && prov.newest[k] !in prov.superseded
  }

  /** A stored binding's credential was returned for it and is not revoked, and a login for its identity was exchanged. */
  ghost predicate Traced(prov: Provider, v: int, b: Binding) {
    && Token(b).Some? && Token(b).value in prov.returned && prov.returned[Token(b).value] == KeyOf(v, b)
    && Token(b).value !in prov.revoked
    && WasExchanged(prov.exchanged, v, b)
  }

  ghost predicate WasExchanged(exchanged: set<Exchange>, v: int, b: Binding) {
    exists login :: Exchange(login, b.issuer, b.subject) in exchanged && login.telegramId == v
  }

  ghost predicate Owned(p: Runs.Phase, prov: Provider) {
    forall v, b :: Runs.Bound(p, v, b) ==> Traced(prov, v, b)
  }

  // ---- a goroutine at its step ----

  predicate Refreshing(task: Task) { task.Sweep? || task.RefreshNow? }

  /** In a refresh of `item`, whose identity the user still has. */
  ghost predicate OnItem(mem: Mem, task: Task, item: Binding) {
    && Refreshing(task) && item.telegramId == User(task) && SameIdentity(mem, User(task), item.issuer, item.subject)
    && (task.Sweep? ==> item == task.item)
  }

  ghost predicate OnCurrent(mem: Mem, task: Task, item: Binding, current: Binding) {
    OnItem(mem, task, item) && current.telegramId == User(task) && SameIdentity(mem, User(task), current.issuer, current.subject)
  }

  /** Between receiving a grant and storing it, memory may be behind for the grant's own binding, never for another one. */
  ghost predicate Pending(st: State, prov: Provider, u: int, g: VerifiedGrant) {
    && |g.permissions| <= MAX_PERMISSIONS
    && (g.token != "" ==> Live(st, prov, u, g))
    && ((g.token != "" && SameIdentity(st.mem, u, g.issuer, g.subject)) || Current(st.mem, prov, u))
  }

  ghost predicate PcInv(cfg: Config, st: State, prov: Provider, task: Task, pc: Pc) {
    var u, mem := User(task), st.mem;
    match pc
    case Entering => true
    case Lookup => task.RefreshNow? && Current(mem, prov, u)
    case Exchanging => task.Complete? && Current(mem, prov, u)
    case Removing => task.Unbind? && Current(mem, prov, u)
    case Check(item) => Refreshing(task) && item.telegramId == u && (task.Sweep? ==> item == task.item) && Current(mem, prov, u)
    case ReadToken(item, current) => OnCurrent(mem, task, item, current) && Current(mem, prov, u)
    case Calling(item, current, token) =>
      OnCurrent(mem, task, item, current) && Token(mem.bindings[u]) == Some(token) && Current(mem, prov, u)
    case Failed(item, _) => OnItem(mem, task, item) && Current(mem, prov, u)
    case Recording(item, _) => OnItem(mem, task, item) && Current(mem, prov, u)
    case Granted(item, token, g) =>
      && OnItem(mem, task, item) && SameIdentity(mem, u, g.issuer, g.subject)
      && token != "" && Usable(cfg, WithToken(g, token)) && Pending(st, prov, u, WithToken(g, token))
    case Persist(g) =>
      && Pending(st, prov, u, g)
      && (Refreshing(task) ==> SameIdentity(mem, u, g.issuer, g.subject) && Usable(cfg, g))
      && (task.Sweep? ==> g.issuer == task.item.issuer && g.subject == task.item.subject)
      && (Refreshing(task) || (task.Complete? && Exchange(task.login, g.issuer, g.subject) in prov.exchanged))
    case Stored(g) => Carries(mem, u, g) && Current(mem, prov, u)
    case Unstored(g) => (g.token == "" || Carries(mem, u, g) || Loose(st, prov, u, g.token)) && Current(mem, prov, u)
    case Compare(g, stored) =>
      && g.token != "" && (Carries(mem, u, g) || Loose(st, prov, u, g.token)) && Current(mem, prov, u)
      && SameIdentity(mem, u, g.issuer, g.subject)
      && stored.telegramId == u && SameIdentity(mem, u, stored.issuer, stored.subject)
    case Revoking(token, got) => Loose(st, prov, u, token) && (got.Some? ==> got.value.token == token) && Current(mem, prov, u)
    case Done(got) => (got.Some? ==> Settled(mem, prov, u, got.value)) && Current(mem, prov, u)
  }

  /** Nothing is stray: the grant had no credential, or the user's binding carries it, or it was revoked. */
  ghost predicate Settled(mem: Mem, prov: Provider, u: int, g: VerifiedGrant) {
    g.token == "" || Carries(mem, u, g) || g.token in prov.revoked
  }

  // ---- other users' steps ----

  /** Everything the invariant of a goroutine of user `u` speaks of is as it was. */
  ghost predicate Frame(st: State, prov: Provider, st': State, prov': Provider, u: int) {
    && (u in st'.mem.bindings <==> u in st.mem.bindings)
    && (u in st.mem.bindings ==> st'.mem.bindings[u] == st.mem.bindings[u])
    && (forall t :: t in prov.returned ==> t in prov'.returned && prov'.returned[t] == prov.returned[t])
    && (forall k: Key :: k.user == u ==> (k in prov'.newest <==> k in prov.newest))
    && (forall k: Key :: k.user == u && k in prov.newest ==> prov'.newest[k] == prov.newest[k])
    && prov.revoked <= prov'.revoked && prov.exchanged <= prov'.exchanged
    && (forall t :: t in prov.returned && prov.returned[t].user == u && t in prov'.revoked ==> t in prov.revoked)
    && (forall t :: t in prov.returned && prov.returned[t].user == u && NotBound(st, t) ==> NotBound(st', t))
  }

  lemma {:induction false} CurrentStable(st: State, prov: Provider, st': State, prov': Provider, u: int)
    requires Frame(st, prov, st', prov', u) && Current(st.mem, prov, u)
    ensures Current(st'.mem, prov', u)
  {
    if u in st.mem.bindings { assert KeyOf(u, st.mem.bindings[u]).user == u; }
  }

  lemma {:induction false} GrantStable(st: State, prov: Provider, st': State, prov': Provider, u: int, g: VerifiedGrant)
    requires Frame(st, prov, st', prov', u)
    ensures Carries(st.mem, u, g) ==> Carries(st'.mem, u, g)
    ensures Live(st, prov, u, g) ==> Live(st', prov', u, g)
    ensures Loose(st, prov, u, g.token) ==> Loose(st', prov', u, g.token)
    ensures Settled(st.mem, prov, u, g) ==> Settled(st'.mem, prov', u, g)
    ensures Pending(st, prov, u, g) ==> Pending(st', prov', u, g)
  {
    if Current(st.mem, prov, u) { CurrentStable(st, prov, st', prov', u); }
    assert Key(u, g.issuer, g.subject).user == u;
  }

  lemma {:induction false} LooseStable(st: State, prov: Provider, st': State, prov': Provider, u: int, token: string)
    requires Frame(st, prov, st', prov', u) && Loose(st, prov, u, token)
    ensures Loose(st', prov', u, token)
  {
  }

  lemma {:induction false} PcStable(cfg: Config, st: State, prov: Provider, st': State, prov': Provider, task: Task, pc: Pc)
    requires Frame(st, prov, st', prov', User(task)) && PcInv(cfg, st, prov, task, pc)
    ensures PcInv(cfg, st', prov', task, pc)
  {
    var u := User(task);
    if Current(st.mem, prov, u) { CurrentStable(st, prov, st', prov', u); }
    match pc
    case Granted(_, token, g) => GrantStable(st, prov, st', prov', u, WithToken(g, token));
    case Persist(g) => GrantStable(st, prov, st', prov', u, g);
    case Stored(g) => GrantStable(st, prov, st', prov', u, g);
    case Unstored(g) => GrantStable(st, prov, st', prov', u, g);
    case Compare(g, _) => GrantStable(st, prov, st', prov', u, g);
    case Revoking(token, _) => LooseStable(st, prov, st', prov', u, token);
    case Done(got) => if got.Some? { GrantStable(st, prov, st', prov', u, got.value); }
    case _ =>
  }

  lemma FrameRefl(st: State, prov: Provider, u: int)
    ensures Frame(st, prov, st, prov, u)
  {
  }

  // ---- reads ----

  /** Reading under the lock keeps the invariant; in particular the checks after a refresh never fail. */
  lemma {:induction false} ReadKeeps(cfg: Config, st: State, prov: Provider, task: Task, pc: Pc)
    requires GoodBindings(cfg, st.mem.bindings) && PcInv(cfg, st, prov, task, pc) && IsLocal(cfg, pc)
    ensures PcInv(cfg, st, prov, task, ReadStep(cfg, st.mem, User(task), pc))
  {
    var u, m := User(task), st.mem.bindings;
    if u in m { assert GoodBinding(cfg, m[u]) && m[u].telegramId == u; }
  }

  // ---- calls to the provider ----

  lemma {:induction false} HandsKeeps(prov: Provider, k: Key, token: string)
    requires ProvInv(prov)
    requires token != "" && token in prov.returned ==> prov.returned[token] == k && k in prov.newest && prov.newest[k] == token
    ensures ProvInv(Hands(prov, k, token))
    ensures forall t :: t in prov.returned ==> t in Hands(prov, k, token).returned && Hands(prov, k, token).returned[t] == prov.returned[t]
  {
    var prov' := Hands(prov, k, token);
    forall j | j in prov'.newest ensures IsNewest(prov', j) { assert j in prov.newest ==> IsNewest(prov, j); }
    if k in prov.newest { assert IsNewest(prov, k); }
  }

  /** What the provider does for user `u` leaves other users' goroutines alone. */
  lemma {:induction false} ProviderFrame(st: State, prov: Provider, task: Task, pc: Pc, reply: Reply, v: int)
    requires ProvInv(prov) && AsksProvider(pc) && v != User(task)
    requires pc.Revoking? ==> pc.token in prov.returned && prov.returned[pc.token].user == User(task)
    requires !pc.Revoking? && reply.Replied? && reply.grant.token != "" && reply.grant.token in prov.returned ==>
      prov.returned[reply.grant.token] == Key(User(task), reply.grant.issuer, reply.grant.subject)
    ensures Frame(st, prov, st, ProviderAfter(prov, task, pc, reply), v)
  {
  }

  lemma {:induction false} OwnedAfterProvider(p: Runs.Phase, prov: Provider, prov': Provider)
    requires Owned(p, prov) && prov.exchanged <= prov'.exchanged
    requires forall t :: t in prov.returned ==> t in prov'.returned && prov'.returned[t] == prov.returned[t]
    requires forall v, b :: Runs.Bound(p, v, b) && Token(b).Some? ==> (Token(b).value in prov'.revoked ==> Token(b).value in prov.revoked)
    ensures Owned(p, prov')
  {
    forall v, b | Runs.Bound(p, v, b) ensures Traced(prov', v, b) {
      assert Traced(prov, v, b);
      var login :| Exchange(login, b.issuer, b.subject) in prov.exchanged && login.telegramId == v;
      assert Exchange(login, b.issuer, b.subject) in prov'.exchanged;
    }
  }

  lemma {:induction false} RefreshReply(cfg: Config, st: State, prov: Provider, task: Task, pc: Pc, reply: Reply)
    requires ProvInv(prov) && Owned(Runs.Up(st), prov) && GoodBindings(cfg, st.mem.bindings)
    requires pc.Calling? && PcInv(cfg, st, prov, task, pc) && Allowed(cfg, prov, pc, reply) && reply.Replied?
    ensures var g := reply.grant;
      g.token != "" && g.token in prov.returned ==>
        var k := Key(User(task), g.issuer, g.subject); prov.returned[g.token] == k && k in prov.newest && prov.newest[k] == g.token
    ensures PcInv(cfg, st, ProviderAfter(prov, task, pc, reply), task, PcAfter(pc, reply))
  {
    var u, m := User(task), st.mem.bindings;
    assert GoodBinding(cfg, m[u]);
    assert Runs.Bound(Runs.Up(st), u, m[u]) && Traced(prov, u, m[u]);
    if reply.grant.token !in prov.returned { UnknownIsNotBound(st, prov, reply.grant.token); }
  }

  lemma {:induction false} UnknownIsNotBound(st: State, prov: Provider, token: string)
    requires Owned(Runs.Up(st), prov) && token !in prov.returned
    ensures NotBound(st, token)
  {
    forall v, b | Held(st, v, b) ensures Token(b) != Some(token) {
      assert Runs.Bound(Runs.Up(st), v, b) && Traced(prov, v, b);
    }
  }

  lemma {:induction false} LoginReply(cfg: Config, st: State, prov: Provider, task: Task, pc: Pc, reply: Reply)
    requires ProvInv(prov) && Owned(Runs.Up(st), prov) && GoodBindings(cfg, st.mem.bindings)
    requires pc.Exchanging? && PcInv(cfg, st, prov, task, pc) && Allowed(cfg, prov, pc, reply) && reply.Replied?
    ensures PcInv(cfg, st, ProviderAfter(prov, task, pc, reply), task, PcAfter(pc, reply))
  {
    var g := reply.grant;
    if g.token != "" { UnknownIsNotBound(st, prov, g.token); }
    if User(task) in st.mem.bindings && !SameIdentity(st.mem, User(task), g.issuer, g.subject) {
      assert KeyOf(User(task), st.mem.bindings[User(task)]) != Key(User(task), g.issuer, g.subject);
    }
  }

  lemma {:induction false} RevokeReply(cfg: Config, st: State, prov: Provider, task: Task, pc: Pc, reply: Reply)
    requires ProvInv(prov) && pc.Revoking? && PcInv(cfg, st, prov, task, pc)
    ensures PcInv(cfg, st, ProviderAfter(prov, task, pc, reply), task, PcAfter(pc, reply))
    ensures ProvInv(ProviderAfter(prov, task, pc, reply))
  {
    var prov' := ProviderAfter(prov, task, pc, reply);
    forall k | k in prov'.newest ensures IsNewest(prov', k) { assert IsNewest(prov, k); }
  }

  // ---- calls to the store ----

  /** The binding's credential went to this user. */
  ghost predicate IsUsers(prov: Provider, u: int, b: Binding) {
    Token(b).Some? && Token(b).value in prov.returned && prov.returned[Token(b).value].user == u
  }

  lemma {:induction false} StoreFrame(st: State, prov: Provider, st': State, trace: seq<Disk>, u: int, added: Option<Binding>, v: int)
    requires Footprint(st, st', trace, u, added) && v != u
    requires added.Some? ==> IsUsers(prov, u, added.value)
    ensures Frame(st, prov, st', prov, v)
  {
    forall t | t in prov.returned && prov.returned[t].user == v && NotBound(st, t) ensures NotBound(st', t) {
      forall w, b | Held(st', w, b) ensures Token(b) != Some(t) {
        assert Held(st, w, b) || (w == u && added == Some(b));
      }
    }
  }

  lemma {:induction false} LocalParses(setup: Setup, values: seq<string>)
    requires ValidSetup(setup)
    ensures |LocalPermissions(values, setup.local)| <= |values|
    ensures AllParse(LocalPermissions(values, setup.local), setup.cfg.grammar.parseERP)
  {
    if values != [] { LocalParses(setup, values[..|values| - 1]); }
  }

  /** What the mapping yields, the binding store accepts. */
  ghost predicate ValidSetup(setup: Setup) {
    && ValidGrammar(setup.cfg.grammar)
    && (forall v :: setup.local(v).Some? ==> setup.cfg.grammar.parseERP(setup.local(v).value).Some?)
  }

  /** A usable grant for the identity the user already has passes every check of the store. */
  lemma {:induction false} SameIdentityIsPrepared(setup: Setup, mem: Mem, user: int, g: VerifiedGrant, now: int)
    requires ValidSetup(setup) && GoodBindings(setup.cfg, mem.bindings) && |g.permissions| <= MAX_PERMISSIONS
    requires SameIdentity(mem, user, g.issuer, g.subject) && Usable(setup.cfg, g)
    ensures Prepared(setup.cfg, mem.bindings, ItemOf(setup, user, g), g.token, now).Ok?
  {
    LocalParses(setup, g.permissions);
    AcceptedIdentity(setup.cfg, mem.bindings, ItemOf(setup, user, g), g.token, now);
  }

  lemma {:induction false} AcceptedIdentity(cfg: Config, m: map<int, Binding>, item: Binding, token: string, now: int)
    requires GoodBindings(cfg, m) && item.telegramId in m && m[item.telegramId].issuer == item.issuer && m[item.telegramId].subject == item.subject
    requires item.issuer == cfg.issuer && item.subject != "" && token != "" && NormalizeERP(item.permissions, cfg.grammar).Some?
    ensures Prepared(cfg, m, item, token, now).Ok?
  {
    assert GoodBinding(cfg, m[item.telegramId]) && m[item.telegramId].telegramId == item.telegramId;
    var n := Normalized(cfg, item).value;
    assert n.telegramId == item.telegramId && n.issuer == item.issuer && n.subject == item.subject;
    assert !IdentityTaken(m, n);
  }

  /** Storing the grant under the lock: accepted, it is what memory carries; refused, memory is another binding's and still current. */
  lemma {:induction false} PersistKeeps(setup: Setup, st: State, prov: Provider, task: Task, pc: Pc, o: Oracle)
    requires ValidSetup(setup) && StoreInv(setup.cfg, st) && ProvInv(prov) && Owned(Runs.Up(st), prov)
    requires pc.Persist? && MakesCall(setup.cfg, pc) && PcInv(setup.cfg, st, prov, task, pc) && o.io.seal
    ensures var u := User(task);
      var c := CallOf(setup, u, pc, o);
      var added := Runs.AddedBy(setup.cfg, st, c);
      && Runs.UserOf(c.op) == u
      && (added.Some? ==> KeyOf(u, added.value) == Key(u, pc.grant.issuer, pc.grant.subject) && Token(added.value) == Some(pc.grant.token))
      && PcInv(setup.cfg, Runs.Perform(setup.cfg, st, c).st, prov, task, AfterCall(setup, st, u, pc, o))
  {
    var u, g := User(task), pc.grant;
    var item := ItemOf(setup, u, g);
    PutShape(setup.cfg, st, item, g.token, o.now, o.wall, o.io);
    var p := Prepared(setup.cfg, st.mem.bindings, item, g.token, o.now);
    if p.Ok? {
      StoredGrant(setup.cfg, st, prov, task, g, p.value, o.wall, o.io);
    } else {
      RefusedGrant(setup, st, prov, u, g, o.now);
    }
  }

  lemma {:induction false} StoredGrant(cfg: Config, st: State, prov: Provider, task: Task, g: VerifiedGrant, b: Binding, wall: int, io: PutIO)
    requires Live(st, prov, User(task), g)
    requires b.telegramId == User(task) && b.issuer == g.issuer && b.subject == g.subject && Token(b) == Some(g.token)
    ensures var st' := PutCases(cfg, st, b, wall, io).st;
      Carries(st'.mem, User(task), g) && Current(st'.mem, prov, User(task))
  {
  }

  lemma {:induction false} RefusedGrant(setup: Setup, st: State, prov: Provider, u: int, g: VerifiedGrant, now: int)
    requires ValidSetup(setup) && GoodBindings(setup.cfg, st.mem.bindings)
    requires Pending(st, prov, u, g) && Usable(setup.cfg, g)
    requires Prepared(setup.cfg, st.mem.bindings, ItemOf(setup, u, g), g.token, now).Err?
    ensures !SameIdentity(st.mem, u, g.issuer, g.subject) && Current(st.mem, prov, u) && Loose(st, prov, u, g.token)
  {
    if SameIdentity(st.mem, u, g.issuer, g.subject) { SameIdentityIsPrepared(setup, st.mem, u, g, now); }
  }

  /** Recording a failure changes neither identity nor credential. */
  lemma {:induction false} RecordingKeeps(setup: Setup, st: State, prov: Provider, task: Task, pc: Pc, o: Oracle)
    requires StoreInv(setup.cfg, st) && Owned(Runs.Up(st), prov)
    requires pc.Recording? && PcInv(setup.cfg, st, prov, task, pc)
    ensures var u := User(task);
      var c := CallOf(setup, u, pc, o);
      var added := Runs.AddedBy(setup.cfg, st, c);
      && Runs.UserOf(c.op) == u
      && (added.Some? ==> Traced(prov, u, added.value))
      && PcInv(setup.cfg, Runs.Perform(setup.cfg, st, c).st, prov, task, AfterCall(setup, st, u, pc, o))
  {
    var u := User(task);
    var m := st.mem.bindings;
    FailureStorable(setup.cfg, m, u, pc.clear, o.now);
    assert Runs.Bound(Runs.Up(st), u, m[u]) && Traced(prov, u, m[u]);
    var login :| Exchange(login, m[u].issuer, m[u].subject) in prov.exchanged && login.telegramId == u;
    assert WasExchanged(prov.exchanged, u, AfterFailure(m[u], pc.clear, o.now));
  }

  /** A removed binding's credential is nowhere else, so revoking it harms no one. */
  lemma {:induction false} RemovingKeeps(setup: Setup, st: State, prov: Provider, task: Task, pc: Pc, o: Oracle)
    requires StoreInv(setup.cfg, st) && Owned(Runs.Up(st), prov)
    requires pc.Removing? && PcInv(setup.cfg, st, prov, task, pc)
    ensures var u := User(task);
      var c := CallOf(setup, u, pc, o);
      && Runs.UserOf(c.op) == u && Runs.AddedBy(setup.cfg, st, c).None?
      && PcInv(setup.cfg, Runs.Perform(setup.cfg, st, c).st, prov, task, AfterCall(setup, st, u, pc, o))
  {
    var u := User(task);
    var out := RemoveSpec(setup.cfg, st, u, o.rio);
    RemoveFootprint(setup.cfg, st, u, o.rio);
    RemovalLeavesNothing(setup.cfg, st, u, o.rio);
    if out.result.Ok? && out.result.value.Some? {
      var r := out.result.value.value;
      RemovedToken(setup.cfg, st, u, o.rio);
      RemovedIsLoose(st, out.st, out.trace, prov, u, r.binding, r.token);
    }
  }

  lemma {:induction false} RemovedToken(cfg: Config, st: State, u: int, rio: RemoveIO)
    requires StoreInv(cfg, st)
    ensures var out := RemoveSpec(cfg, st, u, rio);
      && (out.result.Ok? && out.result.value.Some? ==> Token(out.result.value.value.binding) == Some(out.result.value.value.token))
      && (out.result.Ok? && out.result.value.Some? ==> u !in out.st.mem.bindings)
      && (!(out.result.Ok? && out.result.value.Some?) ==> out.st.mem == st.mem)
  {
    if u in st.mem.bindings { assert GoodBinding(cfg, st.mem.bindings[u]); }
  }

  lemma {:induction false} RemovedIsLoose(st: State, st': State, trace: seq<Disk>, prov: Provider, u: int, b: Binding, token: string)
    requires Owned(Runs.Up(st), prov) && Footprint(st, st', trace, u, None)
    requires NotHeld(st', u) && InMem(st.mem, u, b) && Token(b) == Some(token)
    ensures Loose(st', prov, u, token)
  {
    assert Runs.Bound(Runs.Up(st), u, b) && Traced(prov, u, b);
    forall v, c | Held(st', v, c) ensures Token(c) != Some(token) {
      assert v != u;
      assert Runs.Bound(Runs.Up(st), v, c) && Traced(prov, v, c);
    }
  }
}
