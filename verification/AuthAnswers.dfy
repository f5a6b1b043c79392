/**
  What the authorization commands answer and change, for all their inputs, and which
  files the store loads. Each answer is stated of the tables before and after.
 */
module AuthAnswers {
  import opened Wrappers
  import opened Sorting
  import opened Canonical
  import opened AuthSpec
  import opened AuthRuns

  /** Everybody else's role is what it was. */
  ghost predicate OtherRolesKept(a: Authz, a': Authz, id: int) { forall v :: v != id ==> RoleOf(a', v) == RoleOf(a, v) }

  ghost predicate RolesKept(a: Authz, a': Authz) { forall v :: RoleOf(a', v) == RoleOf(a, v) }

  predicate PermissionsKept(a: Authz, a': Authz) { a'.permissions == a.permissions && a'.federated == a.federated }

  /** A start-up on the file finds these roles and durable permissions -- unless chat id 0 holds something. */
  ghost predicate FileHolds(g: Grammar, file: Option<seq<Entry>>, a: Authz) {
    NoZero(a) ==> forall pairing :: InitSpec(g, file, pairing) == Ok(Opened(a.roles, a.permissions, pairing))
  }

  /** The change is on file when it could be saved, and the file is as it was when not. */
  ghost predicate Kept(g: Grammar, s: Store, s': Store, saved: bool) {
    if saved then FileHolds(g, s'.file, s'.mem) else s'.file == s.file
  }

  lemma {:induction false} SavedKept(g: Grammar, s: Store, mem: Authz, ok: bool)
    requires Tidy(g, mem)
    ensures Kept(g, s, Saved(mem, s.file, ok), ok)
  {
    if ok && NoZero(mem) {
      forall pairing ensures InitSpec(g, Some(SaveOf(mem)), pairing) == Ok(Opened(mem.roles, mem.permissions, pairing)) {
        SaveLoadRoundTrip(g, mem, pairing);
      }
    }
  }

  /** Pairing succeeds exactly with the code while one is open; it makes the chat the owner and closes pairing. */
  lemma {:induction false} BindAnswers(g: Grammar, s: Store, code: string, id: int, ok: bool)
    requires Tidy(g, s.mem)
    ensures var r := BindSpec(s, code, id, ok); var a, a' := s.mem, r.0.mem;
      && (r.1 <==> a.code != "" && code == a.code)
      && (r.1 ==> RoleOf(a', id) == OWNER && a'.code == "" && OtherRolesKept(a, a', id) && PermissionsKept(a, a') && Kept(g, s, r.0, ok))
      && (!r.1 ==> r.0 == s)
  {
    if s.mem.code != "" && code == s.mem.code { SavedKept(g, s, WithOwner(s.mem, id), ok); }
  }

  /** A role is given to any account but id 0, whatever it was before; the answer tells whether that was saved. */
  lemma {:induction false} SetRoleAnswers(g: Grammar, s: Store, id: int, role: int, ok: bool)
    requires Tidy(g, s.mem)
    ensures var r := SetRoleSpec(s, id, role, ok); var a, a' := s.mem, r.0.mem;
      && r.1 == (if id == 0 then Err(BadId) else if role < 0 || role > 2 then Err(BadRole) else if ok then Ok(()) else Err(SaveFailed))
      && (id == 0 || role < 0 || role > 2 ==> r.0 == s)
      && (id != 0 && 0 <= role <= 2 ==>
            RoleOf(a', id) == role && a'.code == a.code && OtherRolesKept(a, a', id) && PermissionsKept(a, a') && Kept(g, s, r.0, ok))
  {
    if id != 0 && 0 <= role <= 2 { SavedKept(g, s, WithRole(s.mem, id, role), ok); }
  }

  ghost predicate Named(g: Grammar, values: seq<string>, p: string) { exists v :: v in values && g.parse(v) == Some(p) }

  ghost predicate NoneParses(g: Grammar, values: seq<string>) { values == [] || exists v :: v in values && g.parse(v) == None }

  lemma {:induction false} NamesNamed(g: Grammar, values: seq<string>, p: string)
    ensures p in Names(values, g.parse) <==> Named(g, values, p)
  {
  }

  lemma {:induction false} WithPermissionsExactly(a: Authz, id: int, names: set<string>)
    ensures var a' := WithPermissions(a, id, names);
      && Durable(a', id) == names && (forall v :: v != id ==> Durable(a', v) == Durable(a, v))
      && RolesKept(a, a') && a'.code == a.code && a'.federated == a.federated
  {
  }

  /** The named permissions are added to the account's own, and nothing else changes. */
  lemma {:induction false} GrantAnswers(g: Grammar, s: Store, id: int, values: seq<string>, ok: bool)
    requires ValidGrammar(g) && Tidy(g, s.mem)
    ensures var r := GrantSpec(g, s, id, values, ok); var a, a' := s.mem, r.0.mem;
      var accepted := !NoneParses(g, values) && id != 0;
      && r.1 == (if NoneParses(g, values) then Err(BadPermission) else if id == 0 then Err(BadId) else if ok then Ok(()) else Err(SaveFailed))
      && (!accepted ==> r.0 == s)
      && (accepted ==> RolesKept(a, a') && a'.code == a.code && a'.federated == a.federated && Kept(g, s, r.0, ok))
      && (accepted ==> forall p :: p in Durable(a', id) <==> p in Durable(a, id) || Named(g, values, p))
      && (accepted ==> forall v :: v != id ==> Durable(a', v) == Durable(a, v))
  {
    if !NoneParses(g, values) && id != 0 {
      var names := Durable(s.mem, id) + Names(values, g.parse);
      GrantCanonical(g, s.mem, id, values);
      WithPermissionsExactly(s.mem, id, names);
      SavedKept(g, s, WithPermissions(s.mem, id, names), ok);
      forall p ensures p in names <==> p in Durable(s.mem, id) || Named(g, values, p) { NamesNamed(g, values, p); }
    }
  }

  /** The named permissions are taken from the account's own, and nothing else changes. */
  lemma {:induction false} RevokeAnswers(g: Grammar, s: Store, id: int, values: seq<string>, ok: bool)
    requires ValidGrammar(g) && Tidy(g, s.mem)
    ensures var r := RevokeSpec(g, s, id, values, ok); var a, a' := s.mem, r.0.mem;
      var accepted := !NoneParses(g, values) && id != 0;
      && r.1 == (if NoneParses(g, values) then Err(BadPermission) else if id == 0 then Err(BadId) else if ok then Ok(()) else Err(SaveFailed))
      && (!accepted ==> r.0 == s)
      && (accepted ==> RolesKept(a, a') && a'.code == a.code && a'.federated == a.federated && Kept(g, s, r.0, ok))
      && (accepted ==> forall p :: p in Durable(a', id) <==> p in Durable(a, id) && !Named(g, values, p))
      && (accepted ==> forall v :: v != id ==> Durable(a', v) == Durable(a, v))
  {
    if !NoneParses(g, values) && id != 0 {
      var names := Durable(s.mem, id) - Names(values, g.parse);
      RevokeCanonical(g, s.mem, id, values);
      WithPermissionsExactly(s.mem, id, names);
      SavedKept(g, s, WithPermissions(s.mem, id, names), ok);
      forall p ensures p in names <==> p in Durable(s.mem, id) && !Named(g, values, p) { NamesNamed(g, values, p); }
    }
  }

  /** Temporary permissions are refused only for an improper id or a name that does not parse; then the table grants exactly the named ones until they expire. */
  lemma {:induction false} ReplaceAnswers(g: Grammar, fed: Federated, id: int, expiresAt: int, values: seq<string>, now: int, p: string, t: int)
    requires now <= t
    ensures var r := Replaced(g, fed, id, expiresAt, values, now);
      && (r.Some? <==> id > 0 && (values == [] || !NoneParses(g, values)))
      && (r.Some? ==> (p in ActiveFederated(r.value, id, t) <==> Named(g, values, p) && t < expiresAt))
      && (r.Some? ==> forall v, u :: v != id ==> ActiveFederated(r.value, v, u) == ActiveFederated(fed, v, u))
  {
    NamesNamed(g, values, p);
  }

  // ---- promoting and demoting ----

  /** A promotion or demotion that meets no other command gives the role to any account but the owner's and id 0, and changes nobody else's. */
  lemma {:induction false} HandlerAnswers(g: Grammar, w: World, tid: nat, caller: int, role: int, target: int, saved: bool)
    requires Inv(g, w) && Enabled(w, Admit(tid, caller, role, target), true)
    ensures var w' := Step(g, Step(g, Step(g, w, Admit(tid, caller, role, target)), Guard(tid)), Change(tid, saved));
      var a, a' := w.store.mem, w'.store.mem;
      && RoleOf(a', target) == (if RoleOf(a, target) == OWNER || target == 0 then RoleOf(a, target) else role)
      && OtherRolesKept(a, a', target) && PermissionsKept(a, a') && a'.code == a.code && w'.handlers == w.handlers
  {
    GuardOutcome(g, w, tid, caller, role, target);
    if RoleOf(w.store.mem, target) != OWNER {
      ChangeOutcome(g, w, tid, role, target, saved);
      SetRoleAnswers(g, w.store, target, role, saved);
    }
  }

  lemma {:induction false} GuardOutcome(g: Grammar, w: World, tid: nat, caller: int, role: int, target: int)
    requires tid !in w.handlers
    ensures Step(g, Step(g, w, Admit(tid, caller, role, target)), Guard(tid))
         == if RoleOf(w.store.mem, target) == OWNER then w else w.(handlers := w.handlers[tid := Handler(role, target, true)])
  {
    assert w.handlers[tid := Handler(role, target, false)] - {tid} == w.handlers;
  }

  lemma {:induction false} ChangeOutcome(g: Grammar, w: World, tid: nat, role: int, target: int, saved: bool)
    requires tid !in w.handlers
    ensures Step(g, w.(handlers := w.handlers[tid := Handler(role, target, true)]), Change(tid, saved))
         == w.(store := SetRoleSpec(w.store, target, role, saved).0)
  {
    assert w.handlers[tid := Handler(role, target, true)] - {tid} == w.handlers;
  }

  // ---- loading ----

  /** An entry that can be used. */
  ghost predicate Readable(g: Grammar, e: Entry) {
    e.id != 0 && 0 <= e.role <= 2 && forall v :: v in e.permissions ==> g.parse(v).Some?
  }

  ghost predicate IdsDistinct(entries: seq<Entry>) { forall i, j :: 0 <= i < j < |entries| ==> entries[i].id != entries[j].id }

  /** The tables hold what the entries say, and nothing else. */
  ghost predicate Holds(g: Grammar, entries: seq<Entry>, l: Loaded) {
    && (forall id :: id in l.seen <==> exists i :: 0 <= i < |entries| && entries[i].id == id)
    && l.roles.Keys <= l.seen && l.permissions.Keys <= l.seen
    && forall i :: 0 <= i < |entries| ==> HoldsEntry(g, entries[i], l)
  }

  ghost predicate HoldsEntry(g: Grammar, e: Entry, l: Loaded) {
    && (if e.id in l.roles then l.roles[e.id] else USER) == e.role
    && forall p :: (e.id in l.permissions && p in l.permissions[e.id]) <==> Named(g, e.permissions, p)
  }

  lemma {:induction false} EntryExactly(g: Grammar, acc: Loaded, e: Entry)
    ensures LoadEntry(g, acc, e).Ok? <==> Readable(g, e) && e.id !in acc.seen
    ensures LoadEntry(g, acc, e).Ok? && acc.roles.Keys <= acc.seen && acc.permissions.Keys <= acc.seen ==>
      var l := LoadEntry(g, acc, e).value;
      && l.seen == acc.seen + {e.id} && HoldsEntry(g, e, l) && l.roles.Keys <= l.seen && l.permissions.Keys <= l.seen
      && (forall id :: id != e.id ==> (id in l.roles <==> id in acc.roles) && (id in acc.roles ==> l.roles[id] == acc.roles[id]))
      && (forall id :: id != e.id ==> (id in l.permissions <==> id in acc.permissions) && (id in acc.permissions ==> l.permissions[id] == acc.permissions[id]))
  {
    var names := NormalizeIfPresent(e.permissions, g);
    if names.Some? { forall p ensures p in Elements(names.value) <==> Named(g, e.permissions, p) { NamesNamed(g, e.permissions, p); } }
  }

  lemma {:induction false} HoldsNext(g: Grammar, front: seq<Entry>, acc: Loaded, e: Entry)
    requires Holds(g, front, acc) && LoadEntry(g, acc, e).Ok?
    ensures Holds(g, front + [e], LoadEntry(g, acc, e).value)
  {
    var entries, l := front + [e], LoadEntry(g, acc, e).value;
    EntryExactly(g, acc, e);
    assert entries[|front|] == e && forall i :: 0 <= i < |front| ==> entries[i] == front[i];
    forall id ensures id in l.seen <==> exists i :: 0 <= i < |entries| && entries[i].id == id {
      if id in acc.seen {
        var i :| 0 <= i < |front| && front[i].id == id;
        assert entries[i].id == id;
      } else if id == e.id {
        assert entries[|front|].id == id;
      }
      if exists i :: 0 <= i < |entries| && entries[i].id == id {
        var i :| 0 <= i < |entries| && entries[i].id == id;
        if i < |front| { assert front[i].id == id; }
      }
    }
    forall i | 0 <= i < |entries| ensures HoldsEntry(g, entries[i], l) {
      if i < |front| {
        assert front[i].id in acc.seen && HoldsEntry(g, front[i], acc);
      }
    }
  }

  lemma EntriesNext(g: Grammar, front: seq<Entry>, e: Entry)
    ensures (forall i :: 0 <= i < |front + [e]| ==> Readable(g, (front + [e])[i])) <==>
      (forall i :: 0 <= i < |front| ==> Readable(g, front[i])) && Readable(g, e)
    ensures IdsDistinct(front + [e]) <==> IdsDistinct(front) && forall i :: 0 <= i < |front| ==> front[i].id != e.id
  {
    var entries := front + [e];
    assert entries[|front|] == e && forall i :: 0 <= i < |front| ==> entries[i] == front[i];
    if forall i :: 0 <= i < |entries| ==> Readable(g, entries[i]) {
      assert Readable(g, entries[|front|]);
      forall i | 0 <= i < |front| ensures Readable(g, front[i]) { assert Readable(g, entries[i]); }
    }
    if IdsDistinct(entries) {
      forall i | 0 <= i < |front| ensures front[i].id != e.id { assert entries[i].id != entries[|front|].id; }
      forall i, j | 0 <= i < j < |front| ensures front[i].id != front[j].id { assert entries[i].id != entries[j].id; }
    }
  }

  /** A file is loaded exactly when every entry in it can be used and no account is in it twice; then the tables hold what it says. */
  lemma {:induction false} LoadsExactly(g: Grammar, entries: seq<Entry>)
    ensures LoadAll(g, entries).Ok? <==> (forall i :: 0 <= i < |entries| ==> Readable(g, entries[i])) && IdsDistinct(entries)
    ensures LoadAll(g, entries).Ok? ==> Holds(g, entries, LoadAll(g, entries).value)
  {
    if entries != [] {
      var front, e := entries[..|entries| - 1], entries[|entries| - 1];
      assert entries == front + [e];
      LoadsExactly(g, front);
      EntriesNext(g, front, e);
      if LoadAll(g, front).Ok? {
        var acc := LoadAll(g, front).value;
        EntryExactly(g, acc, e);
        assert e.id in acc.seen <==> exists i :: 0 <= i < |front| && front[i].id == e.id;
        if LoadEntry(g, acc, e).Ok? { HoldsNext(g, front, acc, e); }
      }
    }
  }
}
