/**
  The authorization store: tables updated in place, saved as a list of entries.
  Every method is proved against the functions of `AuthSpec`.
 */
module AuthStore {
  import opened Wrappers
  import opened Sorting
  import opened Canonical
  import opened AuthSpec

  datatype Member = Member(id: int, role: int, permissions: seq<string>)

  /** Role descending, then id ascending. */
  predicate MemberLess(a: Member, b: Member) {
    a.role > b.role || (a.role == b.role && a.id < b.id)
  }

  /** Given to the account for good, or lent to it until a time not yet come. */
  predicate InForce(a: Authz, id: int, p: string, now: int) {
    || (id in a.permissions && p in a.permissions[id])
    || (id in a.federated && now < a.federated[id].expiresAt && p in a.federated[id].permissions)
  }

  ghost function EffectiveList(a: Authz, id: int, now: int): (r: seq<string>)
    ensures Ascending(StrLess, r) && forall p :: p in r <==> InForce(a, id, p, now)
  {
    StrLessTotal();
    Enumerate(Effective(a, id, now), StrLess)
  }

  ghost function MemberOf(a: Authz, id: int, now: int): Member {
    Member(id, RoleOf(a, id), EffectiveList(a, id, now))
  }

  lemma {:induction false} LoadErrorStays(g: Grammar, entries: seq<Entry>, i: nat)
    requires i <= |entries| && LoadAll(g, entries[..i]).Err?
    ensures LoadAll(g, entries) == LoadAll(g, entries[..i])
  {
    if i == |entries| {
      assert entries[..i] == entries;
    } else {
      assert entries[..|entries| - 1][..i] == entries[..i];
      LoadErrorStays(g, entries[..|entries| - 1], i);
    }
  }

  class AuthStore {
    const grammar: Grammar
    var roles: map<int, int>
    var permissions: map<int, set<string>>
    var federated: Federated
    var code: string
    var file: Option<seq<Entry>>

    ghost function Mem(): Authz
      reads this
    {
      Authz(roles, permissions, federated, code)
    }

    ghost function State(): Store
      reads this
    {
      Store(Mem(), file)
    }

    constructor (grammar: Grammar, file: Option<seq<Entry>>)
      ensures this.grammar == grammar && State() == Store(Authz(map[], map[], map[], ""), file)
    {
      this.grammar := grammar;
      this.file := file;
      roles, permissions, federated, code := map[], map[], map[], "";
    }

    /** Start-up. On an error the program exits. */
    method Init(pairing: string) returns (r: Result<(), AuthError>)
      modifies this
      ensures file == old(file)
      ensures r.Ok? ==> InitSpec(grammar, file, pairing) == Ok(Mem())
      ensures r.Err? ==> InitSpec(grammar, file, pairing) == Err(r.error)
    {
      roles, permissions, federated, code := map[], map[], map[], "";
      var loaded := Load();
      if loaded.Err? { return Err(loaded.error); }
      var owner := FindOwner();
      if !owner { code := pairing; }
      r := Ok(());
    }

    method FindOwner() returns (found: bool)
      ensures found <==> HasOwner(roles)
    {
      var ids := Collect(roles.Keys);
      found := false;
      for i := 0 to |ids|
        invariant found <==> exists k :: 0 <= k < i && ids[k] in roles && roles[ids[k]] == OWNER
      {
        assert ids[i] in Elements(ids);
        if roles[ids[i]] == OWNER { found := true; }
      }
      if found {
        var k :| 0 <= k < |ids| && ids[k] in roles && roles[ids[k]] == OWNER;
        var id := ids[k];
        assert HasOwner(roles) by { assert id in roles && roles[id] == OWNER; }
      } else {
        forall id | id in roles ensures roles[id] != OWNER { assert id in Elements(ids); }
      }
    }

    method Load() returns (r: Result<(), AuthError>)
      requires roles == map[] && permissions == map[]
      modifies this`roles, this`permissions
      ensures r.Ok? ==> LoadAll(grammar, if file.None? then [] else file.value).Ok?
      ensures r.Ok? ==> var l := LoadAll(grammar, if file.None? then [] else file.value).value; roles == l.roles && permissions == l.permissions
      ensures r.Err? ==> LoadAll(grammar, if file.None? then [] else file.value) == Err(r.error)
    {
      if file.None? { return Ok(()); }
      var entries := file.value;
      var seen: set<int> := {};
      for i := 0 to |entries|
        invariant LoadAll(grammar, entries[..i]) == Ok(Loaded(seen, roles, permissions))
      {
        assert entries[..i + 1] == entries[..i] + [entries[i]];
        LoadSnoc(grammar, entries[..i], entries[i]);
        var e := entries[i];
        var names := NormalizeEntry(e.permissions);
        if e.id == 0 || e.id in seen || e.role < USER || e.role > OWNER || names.None? {
          LoadErrorStays(grammar, entries, i + 1);
          return Err(if e.id == 0 then BadId else if e.id in seen then DuplicateId
                     else if e.role < USER || e.role > OWNER then BadRole else BadPermission);
        }
        seen := seen + {e.id};
        if e.role > USER { roles := roles[e.id := e.role]; }
        if |names.value| > 0 { permissions := permissions[e.id := Elements(names.value)]; }
      }
      assert entries[..|entries|] == entries;
      r := Ok(());
    }

    method NormalizeEntry(values: seq<string>) returns (r: Option<seq<string>>)
      ensures r == NormalizeIfPresent(values, grammar)
    {
      if |values| == 0 { return Some([]); }
      r := NormalizedPermissions(values, grammar);
    }

    method EntryFor(id: int) returns (e: Entry)
      ensures e == EntryOf(Mem(), id)
    {
      StrLessTotal();
      var names := SortedElements(if id in permissions then permissions[id] else {}, StrLess);
      e := Entry(id, if id in roles then roles[id] else USER, names);
    }

    method Snapshot() returns (entries: seq<Entry>)
      ensures entries == SaveOf(Mem())
    {
      IntLessTotal();
      var ids := SortedElements(roles.Keys + permissions.Keys, IntLess);
      entries := [];
      ghost var a := Mem();
      for i := 0 to |ids|
        invariant entries == AuthSpec.Entries(a, ids[..i])
      {
        EntriesSnoc(a, ids, i);
        var e := EntryFor(ids[i]);
        entries := entries + [e];
      }
      assert ids[..|ids|] == ids;
    }

    method Save(ok: bool) returns (r: Result<(), AuthError>)
      modifies this`file
      ensures State() == Saved(old(Mem()), old(file), ok) && r == Status(ok)
    {
      var entries := Snapshot();
      if !ok { return Err(SaveFailed); }
      file := Some(entries);
      r := Ok(());
    }

    method Bind(pairing: string, id: int, ok: bool) returns (bound: bool)
      modifies this
      ensures (State(), bound) == BindSpec(old(State()), pairing, id, ok)
    {
      if code == "" || pairing != code { return false; }
      roles := roles[id := OWNER];
      code := "";
      assert Mem() == WithOwner(old(Mem()), id);
      var _ := Save(ok);
      bound := true;
    }

    method SetRole(id: int, role: int, ok: bool) returns (r: Result<(), AuthError>)
      modifies this
      ensures (State(), r) == SetRoleSpec(old(State()), id, role, ok)
    {
      if id == 0 { return Err(BadId); }
      if role < USER || role > OWNER { return Err(BadRole); }
      if role == USER { roles := roles - {id}; } else { roles := roles[id := role]; }
      assert Mem() == WithRole(old(Mem()), id, role);
      r := Save(ok);
    }

    method GrantPermissions(id: int, values: seq<string>, ok: bool) returns (r: Result<(), AuthError>)
      modifies this
      ensures (State(), r) == GrantSpec(grammar, old(State()), id, values, ok)
    {
      var names := NormalizedPermissions(values, grammar);
      if names.None? { return Err(BadPermission); }
      if id == 0 { return Err(BadId); }
      assert Elements(names.value) == Names(values, grammar.parse);
      assert names.value != [] by { assert values[0] in values; assert grammar.parse(values[0]).value in Names(values, grammar.parse); }
      assert names.value[0] in Elements(names.value);
      permissions := permissions[id := (if id in permissions then permissions[id] else {}) + Elements(names.value)];
      assert Mem() == WithPermissions(old(Mem()), id, Durable(old(Mem()), id) + Names(values, grammar.parse));
      r := Save(ok);
    }

    method RevokePermissions(id: int, values: seq<string>, ok: bool) returns (r: Result<(), AuthError>)
      modifies this
      ensures (State(), r) == RevokeSpec(grammar, old(State()), id, values, ok)
    {
      var names := NormalizedPermissions(values, grammar);
      if names.None? { return Err(BadPermission); }
      if id == 0 { return Err(BadId); }
      assert Elements(names.value) == Names(values, grammar.parse);
      var left := (if id in permissions then permissions[id] else {}) - Elements(names.value);
      if left == {} { permissions := permissions - {id}; } else { permissions := permissions[id := left]; }
      assert Mem() == WithPermissions(old(Mem()), id, Durable(old(Mem()), id) - Names(values, grammar.parse));
      r := Save(ok);
    }

    /** Replace one user's temporary permissions; none, or a past expiry, clears them. */
    method ReplaceFederatedPermissions(id: int, expiresAt: int, values: seq<string>, now: int) returns (r: Result<(), AuthError>)
      modifies this`federated
      ensures r.Ok? <==> Replaced(grammar, old(federated), id, expiresAt, values, now).Some?
      ensures federated == if r.Ok? then Replaced(grammar, old(federated), id, expiresAt, values, now).value else old(federated)
    {
      if id <= 0 { return Err(BadId); }
      var names := NormalizeEntry(values);
      if names.None? { return Err(BadPermission); }
      assert values == [] ==> names.value == [];
      assert values != [] ==> Elements(names.value) == Names(values, grammar.parse);
      assert values != [] ==> values[0] in values && grammar.parse(values[0]).value in Names(values, grammar.parse);
      if |names.value| == 0 || now >= expiresAt {
        federated := federated - {id};
      } else {
        federated := federated[id := Grant(Elements(names.value), expiresAt)];
      }
      r := Ok(());
    }

    /** Whatever was granted before, only the account's durable permissions are left in force; nobody else's change. */
    method ClearFederatedPermissions(id: int)
      modifies this`federated
      ensures forall t :: Effective(Mem(), id, t) == Durable(old(Mem()), id)
      ensures forall v, t :: v != id ==> Effective(Mem(), v, t) == Effective(old(Mem()), v, t)
      ensures federated == old(federated) - {id}
    {
      federated := federated - {id};
    }

    /** For a well-formed name: an admin or owner, or the canonical name is among the effective permissions. */
    method HasPermission(id: int, value: string, now: int) returns (has: bool)
      ensures has <==> (grammar.parse(value).Some? &&
        (RoleOf(Mem(), id) >= ADMIN || grammar.parse(value).value in EffectiveList(Mem(), id, now)))
      ensures has <==> (grammar.parse(value).Some? &&
        ((id in roles && roles[id] >= 1) || InForce(Mem(), id, grammar.parse(value).value, now)))
    {
      StrLessTotal();
      var name := grammar.parse(value);
      if name.None? { return false; }
      if (if id in roles then roles[id] else USER) >= ADMIN { return true; }
      if id in permissions && name.value in permissions[id] { return true; }
      if id !in federated || now >= federated[id].expiresAt { return false; }
      has := name.value in federated[id].permissions;
    }

    /** The effective permissions: each once, ascending, from both sources. */
    method Permissions(id: int, now: int) returns (r: seq<string>)
      ensures r == EffectiveList(Mem(), id, now)
    {
      StrLessTotal();
      var seen := if id in permissions then permissions[id] else {};
      var names := Collect(seen);
      if id in federated && now < federated[id].expiresAt {
        var rest := federated[id].permissions;
        while rest != {}
          invariant rest <= federated[id].permissions
          invariant NoDuplicates(names) && Elements(names) == seen + (federated[id].permissions - rest)
          decreases rest
        {
          var p :| p in rest;
          rest := rest - {p};
          AppendFresh(names, p);
          if p !in seen { names := names + [p]; }
        }
      }
      assert Elements(names) == Effective(Mem(), id, now);
      r := SortSet(names, StrLess);
    }

    /** Every account with a role or an effective permission, once, highest role first and then by id. */
    method Members(now: int) returns (ms: seq<Member>)
      ensures Sorted(MemberLess, ms)
      ensures forall i, j :: 0 <= i < j < |ms| ==> ms[i].role > ms[j].role || (ms[i].role == ms[j].role && ms[i].id < ms[j].id)
      ensures forall i :: 0 <= i < |ms| ==> ms[i] == MemberOf(Mem(), ms[i].id, now)
      ensures forall i :: 0 <= i < |ms| ==> ms[i].role == if ms[i].id in roles then roles[ms[i].id] else 0
      ensures forall i, p :: 0 <= i < |ms| ==> (p in ms[i].permissions <==> InForce(Mem(), ms[i].id, p, now))
      ensures forall i, j :: 0 <= i < j < |ms| ==> ms[i].id != ms[j].id
      ensures forall id :: (exists i :: 0 <= i < |ms| && ms[i].id == id) <==>
        (id in roles || id in permissions || (id in federated && now < federated[id].expiresAt))
    {
      var active := set id | id in federated && now < federated[id].expiresAt;
      var ids := Collect(roles.Keys + permissions.Keys + active);
      var items := Records(ids, now);
      ms := SortSlice(items, MemberLess);
      MembersOnce(Mem(), ids, items, ms, now);
      forall id ensures id in ids <==> id in roles || id in permissions || (id in federated && now < federated[id].expiresAt) {
        assert id in ids <==> id in Elements(ids);
      }
    }

    method Records(ids: seq<int>, now: int) returns (items: seq<Member>)
      ensures |items| == |ids| && forall k :: 0 <= k < |ids| ==> items[k] == MemberOf(Mem(), ids[k], now)
    {
      items := [];
      for i := 0 to |ids|
        invariant |items| == i
        invariant forall k :: 0 <= k < i ==> items[k] == MemberOf(Mem(), ids[k], now)
      {
        var m := Record(ids[i], now);
        items := items + [m];
      }
    }

    method Record(id: int, now: int) returns (m: Member)
      ensures m == MemberOf(Mem(), id, now)
    {
      var names := Permissions(id, now);
      m := Member(id, if id in roles then roles[id] else USER, names);
    }
  }

  /** Sorting the records of distinct accounts keeps one record an account. */
  lemma MembersOnce(a: Authz, ids: seq<int>, items: seq<Member>, ms: seq<Member>, now: int)
    requires NoDuplicates(ids) && |items| == |ids|
    requires forall k :: 0 <= k < |ids| ==> items[k] == MemberOf(a, ids[k], now)
    requires multiset(ms) == multiset(items)
    ensures forall i :: 0 <= i < |ms| ==> ms[i] == MemberOf(a, ms[i].id, now)
    ensures forall i, j :: 0 <= i < j < |ms| ==> ms[i].id != ms[j].id
    ensures forall id :: (exists i :: 0 <= i < |ms| && ms[i].id == id) <==> id in ids
  {
    MultisetMembers(ms, items);
    assert NoDuplicates(items) by {
      forall i, j | 0 <= i < j < |items| ensures items[i] != items[j] { assert items[i].id == ids[i] && items[j].id == ids[j]; }
    }
    NoDuplicatesMultiplicity(items);
    NoDuplicatesMultiplicity(ms);
    forall i | 0 <= i < |ms| ensures ms[i] == MemberOf(a, ms[i].id, now) && ms[i].id in ids {
      assert ms[i] in items;
    }
    forall i, j | 0 <= i < j < |ms| ensures ms[i].id != ms[j].id { assert ms[i] != ms[j]; }
    forall id | id in ids ensures exists i :: 0 <= i < |ms| && ms[i].id == id {
      var k :| 0 <= k < |ids| && ids[k] == id;
      assert items[k] in ms;
    }
  }
}
