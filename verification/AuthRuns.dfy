/**
  All runs of the authorization commands. The promote and demote handlers are
  split at their store calls -- the owner check of the command, the owner guard of
  the handler, the role change -- and interleave freely with each other, with
  pairing, with permission changes, with crashes and with restarts.
 */
module AuthRuns {
  import opened Wrappers
  import opened Canonical
  import opened AuthSpec

  /** A promote (to `ADMIN`) or demote (to `USER`) in flight. */
  datatype Handler = Handler(role: int, target: int, guarded: bool)

  datatype World = World(up: bool, store: Store, handlers: map<nat, Handler>)

  datatype Label =
    | Start(pairing: string)
    | Crash
    | Bind(code: string, id: int, saved: bool)
    | Admit(tid: nat, caller: int, role: int, target: int)
    | Guard(tid: nat)
    | Change(tid: nat, saved: bool)
    | Allow(id: int, values: seq<string>, saved: bool)
    | Revoke(id: int, values: seq<string>, saved: bool)
    | Federate(id: int, expiresAt: int, values: seq<string>, now: int)
    | Clear(id: int)

  const EMPTY := Authz(map[], map[], map[], "")

  function Initial(): World { World(false, Store(EMPTY, None), map[]) }

  /** `checked`: the commands let only the owner through to the handlers, as they do. */
  ghost predicate Enabled(w: World, l: Label, checked: bool) {
    match l
    case Start(pairing) => !w.up && pairing != ""
    case Admit(tid, caller, role, _) =>
      w.up && tid !in w.handlers && (role == ADMIN || role == USER) && (checked ==> RoleOf(w.store.mem, caller) >= OWNER)
    case Guard(tid) => w.up && tid in w.handlers && !w.handlers[tid].guarded
    case Change(tid, _) => w.up && tid in w.handlers && w.handlers[tid].guarded
    case _ => w.up
  }

  ghost function Step(g: Grammar, w: World, l: Label): World {
    match l
    case Start(pairing) =>
      (match InitSpec(g, w.store.file, pairing)
       case Err(_) => w
       case Ok(mem) => World(true, Store(mem, w.store.file), map[]))
    case Crash => World(false, Store(EMPTY, w.store.file), map[])
    case Bind(code, id, saved) => w.(store := BindSpec(w.store, code, id, saved).0)
    case Admit(tid, _, role, target) => w.(handlers := w.handlers[tid := Handler(role, target, false)])
    case Guard(tid) =>
      if tid !in w.handlers then w
      else if RoleOf(w.store.mem, w.handlers[tid].target) == OWNER then w.(handlers := w.handlers - {tid})
      else w.(handlers := w.handlers[tid := w.handlers[tid].(guarded := true)])
    case Change(tid, saved) =>
      if tid !in w.handlers then w else
        World(w.up, SetRoleSpec(w.store, w.handlers[tid].target, w.handlers[tid].role, saved).0, w.handlers - {tid})
    case Allow(id, values, saved) => w.(store := GrantSpec(g, w.store, id, values, saved).0)
    case Revoke(id, values, saved) => w.(store := RevokeSpec(g, w.store, id, values, saved).0)
    case Federate(id, expiresAt, values, now) =>
      (match Replaced(g, w.store.mem.federated, id, expiresAt, values, now)
       case None => w
       case Some(fed) => w.(store := w.store.(mem := w.store.mem.(federated := fed))))
    case Clear(id) => w.(store := w.store.(mem := w.store.mem.(federated := w.store.mem.federated - {id})))
  }

  ghost function After(g: Grammar, run: seq<Label>): World {
    if run == [] then Initial() else Step(g, After(g, run[..|run| - 1]), run[|run| - 1])
  }

  ghost predicate IsRun(g: Grammar, run: seq<Label>, checked: bool) {
    run != [] ==> IsRun(g, run[..|run| - 1], checked) && Enabled(After(g, run[..|run| - 1]), run[|run| - 1], checked)
  }

  // ---- the invariant ----

  ghost predicate OneOwner(roles: map<int, int>) {
    forall a, b :: a in roles && b in roles && roles[a] == OWNER && roles[b] == OWNER ==> a == b
  }

  ghost predicate GoodFile(g: Grammar, file: Option<seq<Entry>>) {
    file.Some? ==> exists a :: WrittenFrom(g, file.value, a)
  }

  ghost predicate WrittenFrom(g: Grammar, entries: seq<Entry>, a: Authz) {
    Tidy(g, a) && OneOwner(a.roles) && entries == SaveOf(a)
  }

  ghost predicate GoodMem(g: Grammar, a: Authz) {
    Tidy(g, a) && OneOwner(a.roles) && (a.code == "" <==> HasOwner(a.roles))
  }

  /** A handler past the owner check means there is an owner; past its guard, that the target is not it. */
  ghost predicate GoodHandlers(w: World) {
    forall tid :: tid in w.handlers ==>
      && (w.handlers[tid].role == ADMIN || w.handlers[tid].role == USER)
      && HasOwner(w.store.mem.roles)
      && (w.handlers[tid].guarded ==> RoleOf(w.store.mem, w.handlers[tid].target) != OWNER)
  }

  ghost predicate Inv(g: Grammar, w: World) {
    && GoodFile(g, w.store.file)
    && (w.up ==> GoodMem(g, w.store.mem))
    && GoodHandlers(w)
    && (!w.up ==> w.handlers == map[])
  }

  lemma SavedIsGood(g: Grammar, mem: Authz, file: Option<seq<Entry>>, ok: bool)
    requires GoodMem(g, mem) && GoodFile(g, file)
    ensures GoodFile(g, Saved(mem, file, ok).file)
  {
    if ok { assert WrittenFrom(g, SaveOf(mem), mem); }
  }

  /** A permission update leaves roles and pairing alone. */
  lemma PermissionsOnly(g: Grammar, mem: Authz, id: int, names: set<string>)
    requires GoodMem(g, mem) && Tidy(g, WithPermissions(mem, id, names))
    ensures GoodMem(g, WithPermissions(mem, id, names))
  {
  }

  lemma StartKeeps(g: Grammar, w: World, pairing: string)
    requires Inv(g, w) && Enabled(w, Start(pairing), true)
    ensures Inv(g, Step(g, w, Start(pairing)))
  {
    if w.store.file.None? {
      assert LoadAll(g, []) == Ok(Loaded({}, map[], map[]));
    } else {
      var a :| WrittenFrom(g, w.store.file.value, a);
      SaveLoadRoundTrip(g, a, pairing);
    }
  }

  lemma BindKeeps(g: Grammar, w: World, code: string, id: int, saved: bool)
    requires Inv(g, w) && w.up
    ensures Inv(g, Step(g, w, Bind(code, id, saved)))
  {
    var mem := w.store.mem;
    if !(mem.code == "" || code != mem.code) {
      var next := WithOwner(mem, id);
      assert !HasOwner(mem.roles);
      assert next.roles[id] == OWNER;
      assert HasOwner(next.roles);
      SavedIsGood(g, next, w.store.file, saved);
    }
  }

  /** Giving a non-owner another non-owner role moves no ownership. */
  lemma {:induction false} RoleChangeKeeps(g: Grammar, mem: Authz, target: int, role: int)
    requires GoodMem(g, mem) && HasOwner(mem.roles)
    requires RoleOf(mem, target) != OWNER && (role == ADMIN || role == USER)
    ensures GoodMem(g, WithRole(mem, target, role)) && HasOwner(WithRole(mem, target, role).roles)
    ensures forall id :: RoleOf(WithRole(mem, target, role), id) == OWNER <==> RoleOf(mem, id) == OWNER
  {
    var next := WithRole(mem, target, role);
    var owner :| owner in mem.roles && mem.roles[owner] == OWNER;
    assert owner in next.roles && next.roles[owner] == OWNER;
  }

  lemma {:induction false} ChangeKeeps(g: Grammar, w: World, tid: nat, saved: bool)
    requires Inv(g, w) && Enabled(w, Change(tid, saved), true)
    ensures Inv(g, Step(g, w, Change(tid, saved)))
  {
    var h := w.handlers[tid];
    if h.target != 0 {
      RoleChangeKeeps(g, w.store.mem, h.target, h.role);
      SavedIsGood(g, WithRole(w.store.mem, h.target, h.role), w.store.file, saved);
    }
  }

  lemma {:induction false} AllowKeeps(g: Grammar, w: World, id: int, values: seq<string>, saved: bool)
    requires ValidGrammar(g) && Inv(g, w) && w.up
    ensures Inv(g, Step(g, w, Allow(id, values, saved)))
  {
    if NormalizeGrant(values, g).Some? && id != 0 {
      var added := Durable(w.store.mem, id) + Names(values, g.parse);
      GrantCanonical(g, w.store.mem, id, values);
      PermissionsOnly(g, w.store.mem, id, added);
      SavedIsGood(g, WithPermissions(w.store.mem, id, added), w.store.file, saved);
    }
  }

  lemma {:induction false} RevokeKeeps(g: Grammar, w: World, id: int, values: seq<string>, saved: bool)
    requires ValidGrammar(g) && Inv(g, w) && w.up
    ensures Inv(g, Step(g, w, Revoke(id, values, saved)))
  {
    if NormalizeGrant(values, g).Some? && id != 0 {
      var left := Durable(w.store.mem, id) - Names(values, g.parse);
      RevokeCanonical(g, w.store.mem, id, values);
      PermissionsOnly(g, w.store.mem, id, left);
      SavedIsGood(g, WithPermissions(w.store.mem, id, left), w.store.file, saved);
    }
  }

  lemma {:induction false} FederateKeeps(g: Grammar, w: World, id: int, expiresAt: int, values: seq<string>, now: int)
    requires ValidGrammar(g) && Inv(g, w) && w.up
    ensures Inv(g, Step(g, w, Federate(id, expiresAt, values, now)))
  {
    var replaced := Replaced(g, w.store.mem.federated, id, expiresAt, values, now);
    ReplacedCanonical(g, w.store.mem.federated, id, expiresAt, values, now);
    if replaced.Some? { FederatedOnly(g, w.store.mem, replaced.value); }
  }

  lemma {:induction false} ReplacedCanonical(g: Grammar, fed: Federated, id: int, expiresAt: int, values: seq<string>, now: int)
    requires ValidGrammar(g) && forall v :: v in fed ==> CanonicalSet(g, fed[v].permissions)
    ensures var r := Replaced(g, fed, id, expiresAt, values, now);
      r.Some? ==> forall v :: v in r.value ==> CanonicalSet(g, r.value[v].permissions)
  {
    if values != [] && NormalizeIfPresent(values, g).Some? { NamesCanonical(g, values); }
  }

  /** Federated grants touch neither roles nor pairing. */
  lemma {:induction false} FederatedOnly(g: Grammar, mem: Authz, fed: Federated)
    requires GoodMem(g, mem) && forall id :: id in fed ==> CanonicalSet(g, fed[id].permissions)
    ensures GoodMem(g, mem.(federated := fed))
  {
  }

  lemma {:induction false} ClearKeeps(g: Grammar, w: World, id: int)
    requires Inv(g, w) && w.up
    ensures Inv(g, Step(g, w, Clear(id)))
  {
    FederatedOnly(g, w.store.mem, w.store.mem.federated - {id});
  }

  lemma {:induction false} StepKeeps(g: Grammar, w: World, l: Label)
    requires ValidGrammar(g) && Inv(g, w) && Enabled(w, l, true)
    ensures Inv(g, Step(g, w, l))
  {
    match l
    case Start(pairing) => StartKeeps(g, w, pairing);
    case Crash =>
    case Bind(code, id, saved) => BindKeeps(g, w, code, id, saved);
    case Admit(tid, caller, role, target) =>
      assert w.store.mem.roles[caller] == OWNER;
    case Guard(tid) =>
    case Change(tid, saved) => ChangeKeeps(g, w, tid, saved);
    case Allow(id, values, saved) => AllowKeeps(g, w, id, values, saved);
    case Revoke(id, values, saved) => RevokeKeeps(g, w, id, values, saved);
    case Federate(id, expiresAt, values, now) => FederateKeeps(g, w, id, expiresAt, values, now);
    case Clear(id) => ClearKeeps(g, w, id);
  }

  lemma {:induction false} RunsKeep(g: Grammar, run: seq<Label>)
    requires ValidGrammar(g) && IsRun(g, run, true)
    ensures Inv(g, After(g, run))
  {
    if run != [] {
      RunsKeep(g, run[..|run| - 1]);
      StepKeeps(g, After(g, run[..|run| - 1]), run[|run| - 1]);
    }
  }

  // ---- what it gives ----

  /** In every reachable state: at most one owner, in memory and in the file, and pairing is open exactly while there is none. */
  lemma {:induction false} OwnerUnique(g: Grammar, run: seq<Label>)
    requires ValidGrammar(g) && IsRun(g, run, true)
    ensures var w := After(g, run);
      && (w.up ==> OneOwner(w.store.mem.roles) && (w.store.mem.code != "" <==> !HasOwner(w.store.mem.roles)))
      && (w.store.file.Some? ==> exists a: Authz :: OneOwner(a.roles) && w.store.file.value == SaveOf(a))
  {
    RunsKeep(g, run);
    var w := After(g, run);
    if w.store.file.Some? {
      var a :| WrittenFrom(g, w.store.file.value, a);
      assert OneOwner(a.roles) && w.store.file.value == SaveOf(a);
    }
  }

  /** Once bound, the owner keeps the role through every step the process takes. */
  lemma {:induction false} OwnerKeepsRole(g: Grammar, run: seq<Label>, l: Label, owner: int)
    requires ValidGrammar(g) && IsRun(g, run, true) && Enabled(After(g, run), l, true) && l != Crash
    requires After(g, run).up && RoleOf(After(g, run).store.mem, owner) == OWNER
    ensures RoleOf(Step(g, After(g, run), l).store.mem, owner) == OWNER
  {
    RunsKeep(g, run);
    var w := After(g, run);
    if l.Bind? { assert owner in w.store.mem.roles; assert HasOwner(w.store.mem.roles); }
    if l.Change? { assert w.handlers[l.tid].target != owner; }
  }

  /** Every reachable state survives a save and a restart unchanged, save for the federated grants, unless chat id 0 was bound. */
  lemma {:induction false} ReachableRoundTrip(g: Grammar, run: seq<Label>, pairing: string)
    requires ValidGrammar(g) && IsRun(g, run, true) && After(g, run).up
    ensures var a := After(g, run).store.mem;
      0 !in a.roles && 0 !in a.permissions ==>
        InitSpec(g, Some(SaveOf(a)), pairing) == Ok(Authz(a.roles, a.permissions, map[], if a.code == "" then "" else pairing))
  {
    RunsKeep(g, run);
    SaveLoadRoundTrip(g, After(g, run).store.mem, pairing);
  }

  predicate BindsZero(l: Label) { l.Bind? && l.id == 0 }

  ghost predicate NoZero(a: Authz) { 0 !in a.roles && 0 !in a.permissions }

  /** Memory and the file hold nothing for chat id 0. */
  ghost predicate ZeroFree(g: Grammar, w: World) {
    && (w.up ==> NoZero(w.store.mem))
    && (w.store.file.Some? ==> LoadAll(g, w.store.file.value).Ok?)
  }

  lemma {:induction false} SavedZeroFree(g: Grammar, mem: Authz, file: Option<seq<Entry>>, ok: bool)
    requires Tidy(g, mem) && NoZero(mem) && (file.Some? ==> LoadAll(g, file.value).Ok?)
    ensures var s := Saved(mem, file, ok); s.file.Some? ==> LoadAll(g, s.file.value).Ok?
  {
    SaveLoadRoundTrip(g, mem, "");
  }

  lemma {:induction false} StartZeroFree(g: Grammar, w: World, pairing: string)
    requires Inv(g, w) && ZeroFree(g, w)
    ensures ZeroFree(g, Step(g, w, Start(pairing))) && InitSpec(g, w.store.file, pairing).Ok?
  {
    if w.store.file.None? {
      assert LoadAll(g, []) == Ok(Loaded({}, map[], map[]));
    } else {
      var a :| WrittenFrom(g, w.store.file.value, a);
      SaveLoadRoundTrip(g, a, pairing);
    }
  }

  /** A step that gives or takes a role keeps id 0 out, and saves what it made or leaves the file. */
  lemma {:induction false} RoleStepZeroFree(g: Grammar, w: World, l: Label)
    requires NoZero(w.store.mem) && (l.Bind? || l.Change?) && !BindsZero(l)
    ensures var next := Step(g, w, l).store; NoZero(next.mem) && (next == w.store || next == Saved(next.mem, w.store.file, l.saved))
  {
  }

  lemma {:induction false} PermissionsZeroFree(mem: Authz, id: int, names: set<string>)
    requires NoZero(mem) && id != 0
    ensures NoZero(WithPermissions(mem, id, names))
  {
  }

  /** So does one that gives permissions. */
  lemma {:induction false} AllowZeroFree(g: Grammar, s: Store, id: int, values: seq<string>, saved: bool)
    requires NoZero(s.mem)
    ensures var next := GrantSpec(g, s, id, values, saved).0; NoZero(next.mem) && (next == s || next == Saved(next.mem, s.file, saved))
  {
    if NormalizeGrant(values, g).Some? && id != 0 {
      PermissionsZeroFree(s.mem, id, Durable(s.mem, id) + Names(values, g.parse));
    }
  }

  /** And one that takes them. */
  lemma {:induction false} RevokeZeroFree(g: Grammar, s: Store, id: int, values: seq<string>, saved: bool)
    requires NoZero(s.mem)
    ensures var next := RevokeSpec(g, s, id, values, saved).0; NoZero(next.mem) && (next == s || next == Saved(next.mem, s.file, saved))
  {
    if NormalizeGrant(values, g).Some? && id != 0 {
      PermissionsZeroFree(s.mem, id, Durable(s.mem, id) - Names(values, g.parse));
    }
  }

  lemma {:induction false} StepZeroFree(g: Grammar, w: World, l: Label)
    requires ValidGrammar(g) && Inv(g, w) && ZeroFree(g, w) && Enabled(w, l, true) && !BindsZero(l)
    ensures ZeroFree(g, Step(g, w, l))
  {
    var next := Step(g, w, l);
    StepKeeps(g, w, l);
    match l
    case Start(pairing) => StartZeroFree(g, w, pairing);
    case Bind(_, _, saved) =>
      RoleStepZeroFree(g, w, l);
      SavedZeroFree(g, next.store.mem, w.store.file, saved);
    case Change(_, saved) =>
      RoleStepZeroFree(g, w, l);
      SavedZeroFree(g, next.store.mem, w.store.file, saved);
    case Allow(id, values, saved) =>
      AllowZeroFree(g, w.store, id, values, saved);
      SavedZeroFree(g, next.store.mem, w.store.file, saved);
    case Revoke(id, values, saved) =>
      RevokeZeroFree(g, w.store, id, values, saved);
      SavedZeroFree(g, next.store.mem, w.store.file, saved);
    case _ =>
  }

  /**
    In a run in which pairing is never done on behalf of chat id 0, id 0 never holds
    anything, and whatever the run left on file the next start-up accepts it.
   */
  lemma {:induction false} RestartsWithoutZero(g: Grammar, run: seq<Label>, pairing: string)
    requires ValidGrammar(g) && IsRun(g, run, true) && forall i :: 0 <= i < |run| ==> !BindsZero(run[i])
    ensures ZeroFree(g, After(g, run)) && InitSpec(g, After(g, run).store.file, pairing).Ok?
  {
    if run != [] {
      var front := run[..|run| - 1];
      RestartsWithoutZero(g, front, pairing);
      RunsKeep(g, front);
      StepZeroFree(g, After(g, front), run[|run| - 1]);
    }
    RunsKeep(g, run);
    StartZeroFree(g, After(g, run), pairing);
  }

  /** A promotion admitted and guarded while there is no owner, and then the pairing of its target. */
  function Promotion(caller: int, id: int, pairing: string): seq<Label> {
    [Start(pairing), Admit(0, caller, ADMIN, id), Guard(0)] + [Bind(pairing, id, true)] + [Change(0, true)]
  }

  lemma AfterSnoc(g: Grammar, run: seq<Label>, l: Label, checked: bool)
    ensures After(g, run + [l]) == Step(g, After(g, run), l)
    ensures IsRun(g, run + [l], checked) <==> IsRun(g, run, checked) && Enabled(After(g, run), l, checked)
  {
    assert (run + [l])[..|run|] == run;
  }

  /** Without the check the promotion gets past its guard while pairing is open. */
  lemma {:induction false} Admitted(g: Grammar, caller: int, id: int, pairing: string)
    requires pairing != ""
    ensures var run := [Start(pairing), Admit(0, caller, ADMIN, id), Guard(0)];
      && IsRun(g, run, false)
      && After(g, run) == World(true, Store(Authz(map[], map[], map[], pairing), None), map[0 := Handler(ADMIN, id, true)])
  {
    assert LoadAll(g, []) == Ok(Loaded({}, map[], map[]));
    AfterSnoc(g, [], Start(pairing), false);
    AfterSnoc(g, [Start(pairing)], Admit(0, caller, ADMIN, id), false);
    AfterSnoc(g, [Start(pairing), Admit(0, caller, ADMIN, id)], Guard(0), false);
    assert [] + [Start(pairing)] == [Start(pairing)];
    assert [Start(pairing)] + [Admit(0, caller, ADMIN, id)] == [Start(pairing), Admit(0, caller, ADMIN, id)];
    assert [Start(pairing), Admit(0, caller, ADMIN, id)] + [Guard(0)] == [Start(pairing), Admit(0, caller, ADMIN, id), Guard(0)];
  }

  /**
    The owner check in front of the handlers is needed. Without it there is a run in
    which the owner just bound loses the role and pairing is closed with no owner left;
    with it that is not a run.
   */
  lemma {:induction false} UncheckedPromotionStripsOwner(g: Grammar, caller: int, id: int, pairing: string)
    requires ValidGrammar(g) && id != 0 && pairing != ""
    ensures var run := Promotion(caller, id, pairing);
      && IsRun(g, run, false) && !IsRun(g, run, true)
      && RoleOf(After(g, run[..4]).store.mem, id) == OWNER
      && After(g, run).up && !HasOwner(After(g, run).store.mem.roles) && After(g, run).store.mem.code == ""
  {
    var run := Promotion(caller, id, pairing);
    var three := [Start(pairing), Admit(0, caller, ADMIN, id), Guard(0)];
    Admitted(g, caller, id, pairing);
    AfterSnoc(g, three, Bind(pairing, id, true), false);
    AfterSnoc(g, three + [Bind(pairing, id, true)], Change(0, true), false);
    assert run[..4] == three + [Bind(pairing, id, true)];
    if IsRun(g, run, true) { OwnerUnique(g, run); }
  }
}
