/**
  Authorization state as a value: roles, durable permissions, expiring federated
  permissions and the owner pairing code, with the file it is saved to. The
  operations are functions of the state and of whether the save succeeded.
 */
module AuthSpec {
  import opened Wrappers
  import opened Sorting
  import opened Canonical

  const USER := 0
  const ADMIN := 1
  const OWNER := 2

  /** Temporary permissions from the identity provider, void from `expiresAt` on. */
  datatype Grant = Grant(permissions: set<string>, expiresAt: int)

  type Federated = map<int, Grant>

  datatype Authz = Authz(roles: map<int, int>, permissions: map<int, set<string>>, federated: Federated, code: string)

  /** One record of the persisted file. */
  datatype Entry = Entry(id: int, role: int, permissions: seq<string>)

  datatype Store = Store(mem: Authz, file: Option<seq<Entry>>)

  datatype AuthError = BadId | BadRole | BadPermission | SaveFailed | DuplicateId

  function RoleOf(a: Authz, id: int): int { if id in a.roles then a.roles[id] else USER }

  function Durable(a: Authz, id: int): set<string> { if id in a.permissions then a.permissions[id] else {} }

  function ActiveFederated(fed: Federated, id: int, now: int): set<string> {
    if id in fed && now < fed[id].expiresAt then fed[id].permissions else {}
  }

  /** The explicit permissions that count at `now`, from both sources. */
  function Effective(a: Authz, id: int, now: int): set<string> {
    Durable(a, id) + ActiveFederated(a.federated, id, now)
  }

  ghost predicate HasOwner(roles: map<int, int>) { exists id :: id in roles && roles[id] == OWNER }

  // ---- federated permissions ----

  /** The federated table after a replacement, or `None` when it is refused. */
  ghost function Replaced(g: Grammar, fed: Federated, id: int, expiresAt: int, values: seq<string>, now: int): Option<Federated> {
    if id <= 0 || NormalizeIfPresent(values, g).None? then None else
    if values == [] || now >= expiresAt then Some(fed - {id})
    else Some(fed[id := Grant(Names(values, g.parse), expiresAt)])
  }

  /** The table after a replacement by a list in stored form. */
  function Seeded(fed: Federated, id: int, expiresAt: int, names: seq<string>, now: int): Federated {
    if names == [] || now >= expiresAt then fed - {id} else fed[id := Grant(Elements(names), expiresAt)]
  }

  /** A stored binding's list is never refused. */
  lemma {:induction false} StoredListSeeds(g: Grammar, fed: Federated, id: int, expiresAt: int, names: seq<string>, now: int)
    requires ValidGrammar(g) && 0 < id && IsStoredList(names, g)
    ensures Replaced(g, fed, id, expiresAt, names, now) == Some(Seeded(fed, id, expiresAt, names, now))
  {
    StoredListAccepted(names, g);
  }

  /** From then on the table grants that user exactly that list until it expires, and every other user what it did. */
  lemma SeededExact(fed: Federated, id: int, expiresAt: int, names: seq<string>, now: int, t: int)
    requires now <= t
    ensures ActiveFederated(Seeded(fed, id, expiresAt, names, now), id, t) == (if t < expiresAt then Elements(names) else {})
    ensures forall other :: other != id ==>
      ActiveFederated(Seeded(fed, id, expiresAt, names, now), other, t) == ActiveFederated(fed, other, t)
  {
  }

  // ---- saving and loading ----

  ghost function SavedIds(a: Authz): (ids: seq<int>)
    ensures Ascending(IntLess, ids) && Elements(ids) == a.roles.Keys + a.permissions.Keys
  {
    IntLessTotal();
    Enumerate(a.roles.Keys + a.permissions.Keys, IntLess)
  }

  ghost function EntryOf(a: Authz, id: int): Entry {
    StrLessTotal();
    Entry(id, RoleOf(a, id), Enumerate(Durable(a, id), StrLess))
  }

  ghost function Entries(a: Authz, ids: seq<int>): seq<Entry> {
    if ids == [] then [] else Entries(a, ids[..|ids| - 1]) + [EntryOf(a, ids[|ids| - 1])]
  }

  lemma EntriesSnoc(a: Authz, ids: seq<int>, i: nat)
    requires i < |ids|
    ensures Entries(a, ids[..i + 1]) == Entries(a, ids[..i]) + [EntryOf(a, ids[i])]
  {
    assert ids[..i + 1][..i] == ids[..i];
  }

  ghost function SaveOf(a: Authz): seq<Entry> { Entries(a, SavedIds(a)) }

  /** What has been read of a file: the ids seen, and the tables built from them. */
  datatype Loaded = Loaded(seen: set<int>, roles: map<int, int>, permissions: map<int, set<string>>)

  ghost function LoadEntry(g: Grammar, acc: Loaded, e: Entry): Result<Loaded, AuthError> {
    if e.id == 0 then Err(BadId)
    else if e.id in acc.seen then Err(DuplicateId)
    else if e.role < USER || e.role > OWNER then Err(BadRole)
    else if NormalizeIfPresent(e.permissions, g).None? then Err(BadPermission)
    else
      var names := NormalizeIfPresent(e.permissions, g).value;
      Ok(Loaded(acc.seen + {e.id},
                if e.role > USER then acc.roles[e.id := e.role] else acc.roles,
                if names != [] then acc.permissions[e.id := Elements(names)] else acc.permissions))
  }

  ghost function LoadAll(g: Grammar, entries: seq<Entry>): Result<Loaded, AuthError> {
    if entries == [] then Ok(Loaded({}, map[], map[])) else
      LoadMore(g, LoadAll(g, entries[..|entries| - 1]), entries[|entries| - 1])
  }

  ghost function LoadMore(g: Grammar, sofar: Result<Loaded, AuthError>, e: Entry): Result<Loaded, AuthError> {
    if sofar.Ok? then LoadEntry(g, sofar.value, e) else sofar
  }

  // ---- operations ----

  ghost function Saved(mem: Authz, file: Option<seq<Entry>>, ok: bool): Store {
    Store(mem, if ok then Some(SaveOf(mem)) else file)
  }

  function Status(ok: bool): Result<(), AuthError> { if ok then Ok(()) else Err(SaveFailed) }

  ghost function Opened(roles: map<int, int>, permissions: map<int, set<string>>, pairing: string): Authz {
    Authz(roles, permissions, map[], if HasOwner(roles) then "" else pairing)
  }

  /** Start-up: tables from the file, and a pairing code exactly when no owner was found. */
  ghost function InitSpec(g: Grammar, file: Option<seq<Entry>>, pairing: string): Result<Authz, AuthError> {
    match LoadAll(g, if file.None? then [] else file.value)
    case Err(e) => Err(e)
    case Ok(l) => Ok(Opened(l.roles, l.permissions, pairing))
  }

  function WithOwner(a: Authz, id: int): Authz { a.(roles := a.roles[id := OWNER], code := "") }

  function WithRole(a: Authz, id: int, role: int): Authz {
    a.(roles := if role == USER then a.roles - {id} else a.roles[id := role])
  }

  function WithPermissions(a: Authz, id: int, names: set<string>): Authz {
    a.(permissions := if names == {} then a.permissions - {id} else a.permissions[id := names])
  }

  ghost function BindSpec(s: Store, code: string, id: int, ok: bool): (Store, bool) {
    if s.mem.code == "" || code != s.mem.code then (s, false) else (Saved(WithOwner(s.mem, id), s.file, ok), true)
  }

  ghost function SetRoleSpec(s: Store, id: int, role: int, ok: bool): (Store, Result<(), AuthError>) {
    if id == 0 then (s, Err(BadId))
    else if role < USER || role > OWNER then (s, Err(BadRole))
    else (Saved(WithRole(s.mem, id, role), s.file, ok), Status(ok))
  }

  ghost function GrantSpec(g: Grammar, s: Store, id: int, values: seq<string>, ok: bool): (Store, Result<(), AuthError>) {
    if NormalizeGrant(values, g).None? then (s, Err(BadPermission))
    else if id == 0 then (s, Err(BadId))
    else (Saved(WithPermissions(s.mem, id, Durable(s.mem, id) + Names(values, g.parse)), s.file, ok), Status(ok))
  }

  ghost function RevokeSpec(g: Grammar, s: Store, id: int, values: seq<string>, ok: bool): (Store, Result<(), AuthError>) {
    if NormalizeGrant(values, g).None? then (s, Err(BadPermission))
    else if id == 0 then (s, Err(BadId))
    else (Saved(WithPermissions(s.mem, id, Durable(s.mem, id) - Names(values, g.parse)), s.file, ok), Status(ok))
  }

  // ---- what every reachable state satisfies ----

  /** No user-role entries, no empty permission sets, only canonical names. */
  ghost predicate Tidy(g: Grammar, a: Authz) {
    && (forall id :: id in a.roles ==> a.roles[id] == ADMIN || a.roles[id] == OWNER)
    && (forall id :: id in a.permissions ==> CanonicalSet(g, a.permissions[id]))
    && (forall id :: id in a.federated ==> CanonicalSet(g, a.federated[id].permissions))
  }

  ghost predicate CanonicalSet(g: Grammar, names: set<string>) {
    names != {} && forall p :: p in names ==> g.parse(p) == Some(p)
  }

  lemma NamesCanonical(g: Grammar, values: seq<string>)
    requires ValidGrammar(g) && values != [] && AllParse(values, g.parse)
    ensures CanonicalSet(g, Names(values, g.parse))
  {
    var names := Names(values, g.parse);
    forall p | p in names ensures g.parse(p) == Some(p) {
      var v :| v in values && g.parse(v).Some? && g.parse(v).value == p;
    }
    assert values[0] in values;
    assert g.parse(values[0]).value in names;
  }

  /** Granting keeps every stored set canonical. */
  lemma {:induction false} GrantCanonical(g: Grammar, a: Authz, id: int, values: seq<string>)
    requires ValidGrammar(g) && Tidy(g, a) && NormalizeGrant(values, g).Some?
    ensures Tidy(g, WithPermissions(a, id, Durable(a, id) + Names(values, g.parse)))
  {
    NamesCanonical(g, values);
    var names := Durable(a, id) + Names(values, g.parse);
    assert CanonicalSet(g, names);
  }

  /** So does revoking. */
  lemma {:induction false} RevokeCanonical(g: Grammar, a: Authz, id: int, values: seq<string>)
    requires Tidy(g, a)
    ensures Tidy(g, WithPermissions(a, id, Durable(a, id) - Names(values, g.parse)))
  {
    var left := Durable(a, id) - Names(values, g.parse);
    assert left != {} ==> CanonicalSet(g, left);
  }

  // ---- load after save ----

  function Only<T>(m: map<int, T>, ids: set<int>): map<int, T> {
    map id | id in m && id in ids :: m[id]
  }

  lemma OnlyAll<T>(m: map<int, T>, ids: set<int>)
    requires m.Keys <= ids
    ensures Only(m, ids) == m
  {
  }

  lemma OnlyExtends<T>(m: map<int, T>, ids: set<int>, id: int)
    ensures Only(m, ids + {id}) == if id in m then Only(m, ids)[id := m[id]] else Only(m, ids)
  {
  }

  lemma EntryReadsBack(g: Grammar, a: Authz, id: int)
    requires Tidy(g, a)
    ensures NormalizeIfPresent(EntryOf(a, id).permissions, g) == Some(EntryOf(a, id).permissions)
    ensures Elements(EntryOf(a, id).permissions) == Durable(a, id)
    ensures EntryOf(a, id).permissions == [] <==> id !in a.permissions
  {
    StrLessTotal();
    var names := EntryOf(a, id).permissions;
    NormalIsListed(names, g.parse);
    EmptyHasNoMembers(names);
  }

  lemma EntryLoads(g: Grammar, a: Authz, ids: set<int>, id: int)
    requires Tidy(g, a) && id !in ids && id != 0
    ensures LoadEntry(g, LoadedOnly(a, ids), EntryOf(a, id)) == Ok(LoadedOnly(a, ids + {id}))
  {
    EntryReadsBack(g, a, id);
    OnlyExtends(a.roles, ids, id);
    OnlyExtends(a.permissions, ids, id);
  }

  ghost function LoadedOnly(a: Authz, ids: set<int>): Loaded { Loaded(ids, Only(a.roles, ids), Only(a.permissions, ids)) }

  lemma LoadSnoc(g: Grammar, front: seq<Entry>, e: Entry)
    ensures LoadAll(g, front + [e]) == LoadMore(g, LoadAll(g, front), e)
  {
    assert (front + [e])[..|front|] == front;
  }

  lemma {:induction false} LoadsPrefix(g: Grammar, a: Authz, ids: seq<int>)
    requires Tidy(g, a) && Ascending(IntLess, ids) && 0 !in ids
    ensures LoadAll(g, Entries(a, ids)) == Ok(LoadedOnly(a, Elements(ids)))
  {
    if ids == [] {
      assert LoadedOnly(a, Elements(ids)) == Loaded({}, map[], map[]);
    } else {
      var front, id := ids[..|ids| - 1], ids[|ids| - 1];
      LastIsNew(ids);
      LoadsPrefix(g, a, front);
      LoadSnoc(g, Entries(a, front), EntryOf(a, id));
      EntryLoads(g, a, Elements(front), id);
    }
  }

  /** The last of an ascending listing is not among the others. */
  lemma {:induction false} LastIsNew(ids: seq<int>)
    requires Ascending(IntLess, ids) && ids != []
    ensures var front, id := ids[..|ids| - 1], ids[|ids| - 1];
      Elements(ids) == Elements(front) + {id} && id !in front && id in ids && forall x :: x in front ==> x in ids
  {
    var front, id := ids[..|ids| - 1], ids[|ids| - 1];
    assert ids == front + [id];
    forall k | 0 <= k < |front| ensures front[k] != id { assert IntLess(ids[k], ids[|front|]); }
  }

  lemma {:induction false} EntriesAt(a: Authz, ids: seq<int>, i: nat)
    requires i < |ids|
    ensures |Entries(a, ids)| == |ids| && Entries(a, ids)[i].id == ids[i]
  {
    if i < |ids| - 1 { EntriesAt(a, ids[..|ids| - 1], i); }
    else if i > 0 { EntriesAt(a, ids[..i], 0); }
  }

  lemma {:induction false} LoadMeetsZero(g: Grammar, entries: seq<Entry>, i: nat)
    requires i < |entries| && entries[i].id == 0
    ensures LoadAll(g, entries).Err?
  {
    if i < |entries| - 1 { LoadMeetsZero(g, entries[..|entries| - 1], i); }
  }

  lemma {:induction false} ListedLoads(g: Grammar, a: Authz, ids: seq<int>)
    requires Tidy(g, a) && Ascending(IntLess, ids) && 0 !in ids
    requires Elements(ids) == a.roles.Keys + a.permissions.Keys
    ensures LoadAll(g, Entries(a, ids)) == Ok(Loaded(Elements(ids), a.roles, a.permissions))
  {
    LoadsPrefix(g, a, ids);
    OnlyAll(a.roles, Elements(ids));
    OnlyAll(a.permissions, Elements(ids));
  }

  lemma {:induction false} ListedRejected(g: Grammar, a: Authz, ids: seq<int>)
    requires 0 in ids
    ensures LoadAll(g, Entries(a, ids)).Err?
  {
    var i :| 0 <= i < |ids| && ids[i] == 0;
    EntriesAt(a, ids, i);
    LoadMeetsZero(g, Entries(a, ids), i);
  }

  /**
    Load after save restores roles and durable permissions exactly, and drops the
    federated grants -- unless chat id 0 holds a role, which loading refuses.
    `Bind` is the only operation that does not refuse id 0.
   */
  lemma {:induction false} SaveLoadRoundTrip(g: Grammar, a: Authz, pairing: string)
    requires Tidy(g, a)
    ensures InitSpec(g, Some(SaveOf(a)), pairing).Ok? <==> 0 !in a.roles && 0 !in a.permissions
    ensures InitSpec(g, Some(SaveOf(a)), pairing).Ok? ==>
      InitSpec(g, Some(SaveOf(a)), pairing).value == Opened(a.roles, a.permissions, pairing)
  {
    var ids := SavedIds(a);
    assert 0 in ids <==> 0 in a.roles || 0 in a.permissions;
    if 0 in ids {
      ListedRejected(g, a, ids);
    } else {
      ListedLoads(g, a, ids);
    }
  }

  /** The one way there: the pairing code sent on behalf of chat id 0. */
  lemma BindZeroBreaksReload(g: Grammar, code: string, pairing: string)
    requires code != ""
    ensures var s := Store(Authz(map[], map[], map[], code), None);
            var bound := BindSpec(s, code, 0, true);
            bound.1 && InitSpec(g, bound.0.file, pairing).Err?
  {
    var s := Store(Authz(map[], map[], map[], code), None);
    SaveLoadRoundTrip(g, BindSpec(s, code, 0, true).0.mem, pairing);
  }
}
