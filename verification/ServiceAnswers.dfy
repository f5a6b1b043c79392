/**
  What becomes of a grant: which of its permissions end up in the binding, and when
  exactly it is stored.
 */
module ServiceAnswers {
  import opened Wrappers
  import opened Text
  import opened Sorting
  import opened Canonical
  import opened Records
  import opened StoreSpec
  import opened StoreFacts
  import opened StoreEffects
  import opened StoreAnswers
  import opened Service
  import opened ServiceInv

  /** The grant lists a provider permission that stands for `p` here. */
  ghost predicate Lists(setup: Setup, g: VerifiedGrant, p: string) {
    exists v :: v in g.permissions && setup.local(v).Some? && setup.cfg.grammar.parseERP(setup.local(v).value) == Some(p)
  }

  /** The binding is what the grant says: its identity, names, expiry and credential; and of its permissions those that stand for one here, each once, sorted. */
  ghost predicate Reflects(setup: Setup, b: Binding, g: VerifiedGrant) {
    && b.issuer == g.issuer && b.subject == g.subject && Token(b) == Some(g.token)
    && b.displayName == setup.shown(g.displayName) && b.username == setup.shown(g.username)
    && b.accessExpiresAt == (if g.accessExpiresAt.None? then 0 else g.accessExpiresAt.value)
    && Ascending(StrLess, b.permissions) && (forall p :: p in b.permissions <==> Lists(setup, g, p))
    && ListsTrimmed(b.scopes, g.scopes) && ListsTrimmed(b.roles, g.roles)
  }

  lemma {:induction false} LocalExactly(values: seq<string>, local: Parser)
    ensures forall q :: q in LocalPermissions(values, local) <==> exists v :: v in values && local(v) == Some(q)
  {
    if values != [] {
      var front, v := values[..|values| - 1], values[|values| - 1];
      LocalExactly(front, local);
      forall q ensures q in LocalPermissions(values, local) <==> exists u :: u in values && local(u) == Some(q) {
        assert forall u :: u in values <==> u in front || u == v;
      }
    }
  }

  lemma {:induction false} ListsExactly(setup: Setup, g: VerifiedGrant, p: string)
    ensures (exists q :: q in LocalPermissions(g.permissions, setup.local) && setup.cfg.grammar.parseERP(q) == Some(p)) <==> Lists(setup, g, p)
  {
    LocalExactly(g.permissions, setup.local);
    if Lists(setup, g, p) {
      var v :| v in g.permissions && setup.local(v).Some? && setup.cfg.grammar.parseERP(setup.local(v).value) == Some(p);
      assert setup.local(v).value in LocalPermissions(g.permissions, setup.local);
    }
  }

  /** A grant stored as its item reflects it. */
  lemma {:induction false} StoredReflects(setup: Setup, b: Binding, user: int, g: VerifiedGrant, now: int, before: Option<Binding>)
    requires IsStored(setup.cfg, b, ItemOf(setup, user, g), g.token, now, before)
    ensures Reflects(setup, b, g) && b.telegramId == user
  {
    forall p ensures p in b.permissions <==> Lists(setup, g, p) { ListsExactly(setup, g, p); }
  }

  /** A usable grant for an identity free for this user. */
  ghost predicate GrantFits(cfg: Config, m: map<int, Binding>, user: int, g: VerifiedGrant) {
    && user > 0 && g.issuer == cfg.issuer && g.subject != "" && g.token != ""
    && !BoundToOther(m, user, g.issuer, g.subject)
    && (user in m ==> m[user].issuer == g.issuer && m[user].subject == g.subject)
  }

  lemma {:induction false} ItemRefusal(setup: Setup, m: map<int, Binding>, user: int, g: VerifiedGrant)
    requires ValidSetup(setup) && |g.permissions| <= MAX_PERMISSIONS
    ensures PutRefusal(setup.cfg, m, ItemOf(setup, user, g), g.token).None? <==> GrantFits(setup.cfg, m, user, g)
  {
    LocalParses(setup, g.permissions);
  }

  /** All that storing a grant needs of the disk for a nil return. */
  predicate DiskWritten(io: PutIO) { io.save && (io.wal ==> io.clear) }

  /**
    A grant is stored, and what is stored reflects it, if and only if it is usable for
    an identity free for the user and sealing succeeds; storing it returns nil exactly
    when the disk could be written too, and then the table grants exactly what the
    binding lists until it expires. A grant that is not stored changes nothing.
   */
  ghost predicate GrantAnswered(setup: Setup, st: State, st': State, user: int, g: VerifiedGrant, o: Oracle, nil: bool) {
    var m, m' := st.mem.bindings, st'.mem.bindings;
    var stored := GrantFits(setup.cfg, m, user, g) && o.io.seal;
    && (nil <==> stored && DiskWritten(o.io))
    && (stored ==> user in m' && Reflects(setup, m'[user], g) && OthersKept(m, m', user) && SameTickets(st.mem, st'.mem))
    && (stored ==> m'[user].updatedAt == o.now && m'[user].nextRefreshAt == o.now + 300)
    && (nil ==> Grants(st.federated, st'.federated, user, m'[user].permissions, m'[user].accessExpiresAt, o.wall))
    && (!stored ==> st' == st)
  }

  lemma {:induction false} GrantAnswers(setup: Setup, st: State, user: int, g: VerifiedGrant, o: Oracle)
    requires ValidSetup(setup) && |g.permissions| <= MAX_PERMISSIONS
    ensures var put := PutSpec(setup.cfg, st, ItemOf(setup, user, g), g.token, o.now, o.wall, o.io);
      GrantAnswered(setup, st, put.st, user, g, o, put.result.Ok?)
  {
    var item := ItemOf(setup, user, g);
    var put := PutSpec(setup.cfg, st, item, g.token, o.now, o.wall, o.io);
    ItemRefusal(setup, st.mem.bindings, user, g);
    PutAnswers(setup.cfg, st, item, g.token, o.now, o.wall, o.io);
    if GrantFits(setup.cfg, st.mem.bindings, user, g) && o.io.seal {
      StoredReflects(setup, put.st.mem.bindings[user], user, g, o.now, BoundAs(st.mem.bindings, user));
    }
  }
}
