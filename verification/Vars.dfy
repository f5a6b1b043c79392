/**
  `{{name}}` placeholders in a request: finding them all, replacing them all, and
  which arguments are still missing. Both consumers of the scan read the same
  tokens.
 */
module Vars {
  import opened Wrappers
  import opened Sorting
  import T = VarTable

  // ---- the pattern `\{\{(\w+)\}\}` ----

  predicate IsWord(c: char) { 'a' <= c <= 'z' || 'A' <= c <= 'Z' || '0' <= c <= '9' || c == '_' }

  /** `s[i..e]` is a placeholder. */
  ghost predicate IsMatch(s: string, i: nat, e: nat) {
    && i + 5 <= e <= |s|
    && s[i] == '{' && s[i + 1] == '{' && s[e - 2] == '}' && s[e - 1] == '}'
    && forall k :: i + 2 <= k < e - 2 ==> IsWord(s[k])
  }

  /** Placeholders never overlap. */
  lemma MatchesApart(s: string, i: nat, e: nat, j: nat, f: nat)
    requires IsMatch(s, i, e) && IsMatch(s, j, f) && i <= j
    ensures (i == j && e == f) || e <= j
  {
    assert IsWord(s[i + 2]) && IsWord(s[j + 2]);
  }

  /** The end of the run of word characters that starts at `i`. */
  function WordEnd(s: string, i: nat): (e: nat)
    requires i <= |s|
    ensures i <= e <= |s| && (forall k :: i <= k < e ==> IsWord(s[k])) && (e < |s| ==> !IsWord(s[e]))
    decreases |s| - i
  {
    if i < |s| && IsWord(s[i]) then WordEnd(s, i + 1) else i
  }

  /** The end of the placeholder that starts at `i`, or `None`. */
  function MatchAt(s: string, i: nat): (r: Option<nat>)
    requires i <= |s|
    ensures r.Some? ==> IsMatch(s, i, r.value)
  {
    if i + 5 <= |s| && s[i] == '{' && s[i + 1] == '{' then
      var w := WordEnd(s, i + 2);
      if w > i + 2 && w + 2 <= |s| && s[w] == '}' && s[w + 1] == '}' then Some(w + 2) else None
    else None
  }

  lemma MatchAtExact(s: string, i: nat, e: nat)
    requires i <= |s|
    ensures MatchAt(s, i) == Some(e) <==> IsMatch(s, i, e)
  {
    if IsMatch(s, i, e) {
      var w := WordEnd(s, i + 2);
      assert IsWord(s[i + 2]) && !IsWord(s[e - 2]);
    }
  }

  // ---- the tokens ----

  datatype Token = Lit(c: char) | Ref(name: string)

  /** The leftmost scan from `i` on. */
  function Tokens(s: string, i: nat): seq<Token>
    requires i <= |s|
    decreases |s| - i
  {
    if i == |s| then []
    else
      match MatchAt(s, i)
      case Some(e) => [Ref(s[i + 2..e - 2])] + Tokens(s, e)
      case None => [Lit(s[i])] + Tokens(s, i + 1)
  }

  function Text(t: Token): string { if t.Lit? then [t.c] else "{{" + t.name + "}}" }

  function Render(ts: seq<Token>): string { if ts == [] then "" else Text(ts[0]) + Render(ts[1..]) }

  lemma RenderSplit(t: Token, ts: seq<Token>)
    ensures Render([t] + ts) == Text(t) + Render(ts)
  {
    assert ([t] + ts)[1..] == ts;
  }

  lemma MatchText(s: string, i: nat, e: nat)
    requires IsMatch(s, i, e)
    ensures s[i..] == Text(Ref(s[i + 2..e - 2])) + s[e..]
  {
    assert s[i..e] == "{{" + s[i + 2..e - 2] + "}}";
    assert s[i..] == s[i..e] + s[e..];
  }

  lemma {:induction false} MatchInFront(s: string, i: nat, e: nat, rest: seq<Token>)
    requires IsMatch(s, i, e) && Render(rest) == s[e..]
    ensures Render([Ref(s[i + 2..e - 2])] + rest) == s[i..]
  {
    RenderSplit(Ref(s[i + 2..e - 2]), rest);
    MatchText(s, i, e);
  }

  lemma {:induction false} LiteralInFront(s: string, i: nat, rest: seq<Token>)
    requires i < |s| && Render(rest) == s[i + 1..]
    ensures Render([Lit(s[i])] + rest) == s[i..]
  {
    RenderSplit(Lit(s[i]), rest);
    assert s[i..] == [s[i]] + s[i + 1..];
  }

  /** The literal and the placeholder segments put together again are the input. */
  lemma {:induction false} TokensCoverInput(s: string, i: nat)
    requires i <= |s|
    ensures Render(Tokens(s, i)) == s[i..]
    decreases |s| - i
  {
    if i < |s| {
      match MatchAt(s, i)
      case Some(e) =>
        TokensCoverInput(s, e);
        MatchInFront(s, i, e, Tokens(s, e));
      case None =>
        TokensCoverInput(s, i + 1);
        LiteralInFront(s, i, Tokens(s, i + 1));
    }
  }

  function NamesOf(ts: seq<Token>): seq<string> {
    if ts == [] then [] else (if ts[0].Ref? then [ts[0].name] else []) + NamesOf(ts[1..])
  }

  lemma NamesSplit(t: Token, ts: seq<Token>)
    ensures NamesOf([t] + ts) == (if t.Ref? then [t.name] else []) + NamesOf(ts)
  {
    assert ([t] + ts)[1..] == ts;
  }

  /** Some placeholder at or after `i` names `name`. */
  ghost predicate Occurs(s: string, i: nat, name: string) {
    exists j: nat, e: nat :: i <= j && IsMatch(s, j, e) && s[j + 2..e - 2] == name
  }

  lemma {:induction false} OccursAfterMatch(s: string, i: nat, f: nat, name: string)
    requires IsMatch(s, i, f)
    ensures Occurs(s, i, name) <==> s[i + 2..f - 2] == name || Occurs(s, f, name)
  {
    if Occurs(s, i, name) {
      var j: nat, e: nat :| i <= j && IsMatch(s, j, e) && s[j + 2..e - 2] == name;
      MatchesApart(s, i, f, j, e);
    }
    if Occurs(s, f, name) {
      var j: nat, e: nat :| f <= j && IsMatch(s, j, e) && s[j + 2..e - 2] == name;
      assert i <= j && IsMatch(s, j, e);
    }
  }

  lemma {:induction false} OccursAfterLiteral(s: string, i: nat, name: string)
    requires i < |s| && MatchAt(s, i).None?
    ensures Occurs(s, i, name) <==> Occurs(s, i + 1, name)
  {
    forall e: nat ensures !IsMatch(s, i, e) { MatchAtExact(s, i, e); }
    if Occurs(s, i + 1, name) {
      var j: nat, e: nat :| i + 1 <= j && IsMatch(s, j, e) && s[j + 2..e - 2] == name;
      assert i <= j && IsMatch(s, j, e);
    }
  }

  /** The scan misses no placeholder and invents none. */
  lemma {:induction false} NamesExact(s: string, i: nat, name: string)
    requires i <= |s|
    ensures name in NamesOf(Tokens(s, i)) <==> Occurs(s, i, name)
    decreases |s| - i
  {
    if i < |s| {
      match MatchAt(s, i)
      case Some(f) =>
        NamesExact(s, f, name);
        NamesSplit(Ref(s[i + 2..f - 2]), Tokens(s, f));
        OccursAfterMatch(s, i, f, name);
      case None =>
        NamesExact(s, i + 1, name);
        NamesSplit(Lit(s[i]), Tokens(s, i + 1));
        OccursAfterLiteral(s, i, name);
    }
  }

  // ---- replacement ----

  type Resolver = string -> Option<string>

  /** A resolved placeholder becomes its value; an unresolved one, and everything else, stays. */
  function Substitute(t: Token, resolve: Resolver): string {
    if t.Ref? && resolve(t.name).Some? then resolve(t.name).value else Text(t)
  }

  function Expand(ts: seq<Token>, resolve: Resolver): string {
    if ts == [] then "" else Substitute(ts[0], resolve) + Expand(ts[1..], resolve)
  }

  /** Every placeholder replaced by its value. */
  function Fill(ts: seq<Token>, value: string -> string): string {
    if ts == [] then "" else (if ts[0].Ref? then value(ts[0].name) else [ts[0].c]) + Fill(ts[1..], value)
  }

  lemma {:induction false} ExpandFills(ts: seq<Token>, resolve: Resolver, value: string -> string)
    requires forall n :: n in NamesOf(ts) ==> resolve(n) == Some(value(n))
    ensures Expand(ts, resolve) == Fill(ts, value)
  {
    if ts != [] {
      assert ts == [ts[0]] + ts[1..];
      NamesSplit(ts[0], ts[1..]);
      forall n | n in NamesOf(ts[1..]) ensures n in NamesOf(ts) {}
      if ts[0].Ref? { assert ts[0].name in NamesOf(ts); }
      ExpandFills(ts[1..], resolve, value);
    }
  }

  /** Nothing resolved, nothing changed. */
  lemma {:induction false} ExpandUnresolved(ts: seq<Token>, resolve: Resolver)
    requires forall n :: n in NamesOf(ts) ==> resolve(n).None?
    ensures Expand(ts, resolve) == Render(ts)
  {
    if ts != [] {
      assert ts == [ts[0]] + ts[1..];
      NamesSplit(ts[0], ts[1..]);
      forall n | n in NamesOf(ts[1..]) ensures n in NamesOf(ts) {}
      if ts[0].Ref? { assert ts[0].name in NamesOf(ts); }
      ExpandUnresolved(ts[1..], resolve);
    }
  }

  // ---- the two library calls ----

  lemma NamesNext(names: seq<string>, t: Token, ts: seq<Token>)
    ensures names + NamesOf([t] + ts) == (if t.Ref? then names + [t.name] else names) + NamesOf(ts)
  {
    NamesSplit(t, ts);
  }

  method FindAll(s: string) returns (names: seq<string>)
    ensures names == NamesOf(Tokens(s, 0))
  {
    names := [];
    var i := 0;
    ghost var goal := NamesOf(Tokens(s, 0));
    while i < |s|
      invariant i <= |s| && names + NamesOf(Tokens(s, i)) == goal
      decreases |s| - i
    {
      var m := MatchAt(s, i);
      if m.Some? {
        NamesNext(names, Ref(s[i + 2..m.value - 2]), Tokens(s, m.value));
        names := names + [s[i + 2..m.value - 2]];
        i := m.value;
      } else {
        NamesNext(names, Lit(s[i]), Tokens(s, i + 1));
        i := i + 1;
      }
    }
  }

  lemma ExpandSplit(t: Token, ts: seq<Token>, resolve: Resolver)
    ensures Expand([t] + ts, resolve) == Substitute(t, resolve) + Expand(ts, resolve)
  {
    assert ([t] + ts)[1..] == ts;
  }

  lemma ExpandNext(out: string, t: Token, ts: seq<Token>, resolve: Resolver)
    ensures out + Expand([t] + ts, resolve) == (out + Substitute(t, resolve)) + Expand(ts, resolve)
  {
    ExpandSplit(t, ts, resolve);
  }

  method ReplaceAll(s: string, resolve: Resolver) returns (out: string)
    ensures out == Expand(Tokens(s, 0), resolve)
  {
    out := "";
    var i := 0;
    ghost var goal := Expand(Tokens(s, 0), resolve);
    while i < |s|
      invariant i <= |s| && out + Expand(Tokens(s, i), resolve) == goal
      decreases |s| - i
    {
      var m := MatchAt(s, i);
      if m.Some? {
        var t := Ref(s[i + 2..m.value - 2]);
        ExpandNext(out, t, Tokens(s, m.value), resolve);
        out := out + Substitute(t, resolve);
        i := m.value;
      } else {
        var t := Lit(s[i]);
        ExpandNext(out, t, Tokens(s, i + 1), resolve);
        out := out + Substitute(t, resolve);
        i := i + 1;
      }
    }
  }

  // ---- the variable table and the requests ----

  /** The fields of a group that may hold placeholders. */
  datatype Group = Group(baseURL: string, endpoint: string, body: string, headers: map<string, string>)

  datatype Request = Request(url: string, body: Option<string>, headers: map<string, string>)

  function TrimLeftSlash(s: string): string { if s != "" && s[0] == '/' then TrimLeftSlash(s[1..]) else s }

  function TrimRightSlash(s: string): string { if s != "" && s[|s| - 1] == '/' then TrimRightSlash(s[..|s| - 1]) else s }

  function BuildURL(base: string, endpoint: string): string {
    if endpoint == "" then base else TrimRightSlash(base) + "/" + TrimLeftSlash(endpoint)
  }

  lemma {:induction false} TrimLeftSlashExact(s: string) returns (cut: string)
    ensures s == cut + TrimLeftSlash(s) && (forall c :: c in cut ==> c == '/')
    ensures TrimLeftSlash(s) == "" || TrimLeftSlash(s)[0] != '/'
  {
    cut := "";
    if s != "" && s[0] == '/' {
      var rest := TrimLeftSlashExact(s[1..]);
      cut := [s[0]] + rest;
      assert s == [s[0]] + s[1..];
    }
  }

  lemma {:induction false} TrimRightSlashExact(s: string) returns (cut: string)
    ensures s == TrimRightSlash(s) + cut && (forall c :: c in cut ==> c == '/')
    ensures TrimRightSlash(s) == "" || TrimRightSlash(s)[|TrimRightSlash(s)| - 1] != '/'
  {
    cut := "";
    if s != "" && s[|s| - 1] == '/' {
      var rest := TrimRightSlashExact(s[..|s| - 1]);
      cut := rest + [s[|s| - 1]];
      assert s == s[..|s| - 1] + [s[|s| - 1]];
    }
  }

  /** Base and endpoint are joined by exactly one slash, whichever of them brought some; without an endpoint the base is used as it is. */
  lemma {:induction false} JoinedBySlash(base: string, endpoint: string) returns (b: string, after: string, before: string, e: string)
    ensures endpoint == "" ==> BuildURL(base, endpoint) == base
    ensures endpoint != "" ==> BuildURL(base, endpoint) == b + "/" + e
    ensures base == b + after && endpoint == before + e && forall c :: c in after + before ==> c == '/'
    ensures (b == "" || b[|b| - 1] != '/') && (e == "" || e[0] != '/')
  {
    b, e := TrimRightSlash(base), TrimLeftSlash(endpoint);
    after := TrimRightSlashExact(base);
    before := TrimLeftSlashExact(endpoint);
  }

  predicate IsField(g: Group, f: string) {
    f == g.baseURL || f == g.endpoint || f == g.body || exists k :: k in g.headers && g.headers[k] == f
  }

  /** Some field of the request holds the placeholder. */
  ghost predicate Mentions(g: Group, name: string) {
    exists f :: IsField(g, f) && Occurs(f, 0, name)
  }

  function NamesIn(f: string): set<string> { Elements(NamesOf(Tokens(f, 0))) }

  /** The names the fields hold. */
  function AllNames(fields: seq<string>): set<string> { set f, n | f in fields && n in NamesIn(f) :: n }

  lemma AllNamesNext(fields: seq<string>, f: string)
    ensures AllNames(fields + [f]) == AllNames(fields) + NamesIn(f)
  {
    assert f in fields + [f];
    forall g | g in fields ensures g in fields + [f] {}
  }

  function Unresolved(names: set<string>, resolve: Resolver): set<string> { set n | n in names && resolve(n).None? }

  lemma UnresolvedNext(names: set<string>, resolve: Resolver, name: string)
    ensures Unresolved(names + {name}, resolve) == Unresolved(names, resolve) + (if resolve(name).None? then {name} else {})
  {
  }

  /** `missing` lists the unresolved names among `seen`. */
  ghost predicate ListsMissing(missing: seq<string>, seen: set<string>, resolve: Resolver) {
    NoDuplicates(missing) && Elements(missing) == Unresolved(seen, resolve)
  }

  lemma {:induction false} MissingNext(missing: seq<string>, seen: set<string>, resolve: Resolver, name: string)
    requires ListsMissing(missing, seen, resolve) && name !in seen
    ensures ListsMissing(if resolve(name).None? then missing + [name] else missing, seen + {name}, resolve)
  {
    UnresolvedNext(seen, resolve, name);
    assert name !in Elements(missing);
    AppendFresh(missing, name);
  }

  lemma ElementsNext(names: seq<string>, i: nat)
    requires i < |names|
    ensures Elements(names[..i + 1]) == Elements(names[..i]) + {names[i]}
  {
    assert names[..i + 1] == names[..i] + [names[i]];
    AppendFresh(names[..i], names[i]);
  }

  /** The missing names of one field, after those already seen. */
  method MissingIn(f: string, resolve: Resolver, seen: set<string>, missing: seq<string>) returns (seen': set<string>, missing': seq<string>)
    requires ListsMissing(missing, seen, resolve)
    ensures seen' == seen + NamesIn(f) && ListsMissing(missing', seen', resolve)
  {
    var names := FindAll(f);
    seen', missing' := MissingAmong(names, resolve, seen, missing);
  }

  method MissingAmong(names: seq<string>, resolve: Resolver, seen: set<string>, missing: seq<string>)
    returns (seen': set<string>, missing': seq<string>)
    requires ListsMissing(missing, seen, resolve)
    ensures seen' == seen + Elements(names) && ListsMissing(missing', seen', resolve)
  {
    seen', missing' := seen, missing;
    for i := 0 to |names|
      invariant seen' == seen + Elements(names[..i])
      invariant ListsMissing(missing', seen', resolve)
    {
      ElementsNext(names, i);
      if names[i] !in seen' {
        MissingNext(missing', seen', resolve, names[i]);
        if resolve(names[i]).None? { missing' := missing' + [names[i]]; }
        seen' := seen' + {names[i]};
      }
    }
    assert names[..|names|] == names;
  }

  /** The fields in the order they are scanned. */
  method Fields(g: Group) returns (fields: seq<string>)
    ensures forall f :: f in fields <==> IsField(g, f)
  {
    fields := [g.baseURL, g.endpoint, g.body];
    var rest := g.headers.Keys;
    while rest != {}
      invariant rest <= g.headers.Keys
      invariant forall f :: f in fields <==>
        f == g.baseURL || f == g.endpoint || f == g.body || exists k :: k in g.headers && k !in rest && g.headers[k] == f
      decreases rest
    {
      var k :| k in rest;
      rest := rest - {k};
      fields := fields + [g.headers[k]];
    }
  }

  method MissingOf(fields: seq<string>, resolve: Resolver) returns (found: seq<string>)
    ensures ListsMissing(found, AllNames(fields), resolve)
  {
    var seen: set<string> := {};
    found := [];
    for i := 0 to |fields|
      invariant seen == AllNames(fields[..i])
      invariant ListsMissing(found, seen, resolve)
    {
      assert fields[..i + 1] == fields[..i] + [fields[i]];
      AllNamesNext(fields[..i], fields[i]);
      seen, found := MissingIn(fields[i], resolve, seen, found);
    }
    assert fields[..|fields|] == fields;
  }

  lemma {:induction false} MentionsAll(g: Group, fields: seq<string>)
    requires forall f :: f in fields <==> IsField(g, f)
    ensures forall n :: n in AllNames(fields) <==> Mentions(g, n)
  {
    forall n ensures n in AllNames(fields) <==> Mentions(g, n) {
      forall f ensures n in NamesIn(f) <==> Occurs(f, 0, n) { NamesExact(f, 0, n); }
      if n in AllNames(fields) {
        var f :| f in fields && n in NamesIn(f);
        assert IsField(g, f) && Occurs(f, 0, n);
      }
      if Mentions(g, n) {
        var f :| IsField(g, f) && Occurs(f, 0, n);
        assert f in fields && n in NamesIn(f);
      }
    }
  }

  class VarStore {
    var table: map<string, string>
    const env: map<string, string>
    var file: Option<map<string, string>>

    constructor (env: map<string, string>, file: Option<map<string, string>>)
      ensures table == map[] && this.env == env && this.file == file
    {
      this.env, this.file, table := env, file, map[];
    }

    /** Runtime arguments first, then the table, then a non-empty environment variable. */
    function Resolving(overrides: map<string, string>): Resolver
      reads this
    {
      var t, e := table, env;
      (name: string) =>
        if name in overrides then Some(overrides[name])
        else if name in t then Some(t[name])
        else if name in e && e[name] != "" then Some(e[name])
        else None
    }

    function Lookup(name: string, overrides: map<string, string>): Option<string>
      reads this
    {
      Resolving(overrides)(name)
    }

    /** An argument decides, then the table, then the environment unless it is empty there. */
    lemma ResolvesExactly(name: string, overrides: map<string, string>)
      ensures name in overrides ==> Lookup(name, overrides) == Some(overrides[name])
      ensures name !in overrides && name in table ==> Lookup(name, overrides) == Some(table[name])
      ensures name !in overrides && name !in table ==>
        Lookup(name, overrides) == if name in env && env[name] != "" then Some(env[name]) else None
    {
    }

    ghost function Now(): T.Vars
      reads this
    {
      T.Vars(table, file)
    }

    /** Start-up: every variable has the value on file. */
    method InitVars()
      modifies this`table
      ensures Now() == T.Apply(old(Now()), T.Restart)
      ensures forall k :: T.InTable(Now(), k) == T.OnFile(Now(), k) == T.OnFile(old(Now()), k)
    {
      table := if file.Some? then file.value else map[];
    }

    /** The variable resolves to the new value at once, every other name to what it did. */
    method SetVar(key: string, val: string, ok: bool) returns (r: bool)
      modifies this
      ensures Now() == T.Apply(old(Now()), T.Set(key, val, ok)) && r == ok
      ensures forall name, o :: name !in o ==> Lookup(name, o) == if name == key then Some(val) else old(Lookup(name, o))
    {
      table := table[key := val];
      if ok { file := Some(table); }
      r := ok;
    }

    /** The variable resolves to its environment variable at most, every other name to what it did. */
    method DelVar(key: string, ok: bool) returns (r: bool)
      modifies this
      ensures Now() == T.Apply(old(Now()), T.Del(key, ok)) && r == ok
      ensures forall o :: key !in o ==> Lookup(key, o) == if key in env && env[key] != "" then Some(env[key]) else None
      ensures forall name, o :: name != key ==> Lookup(name, o) == old(Lookup(name, o))
    {
      table := table - {key};
      if ok { file := Some(table); }
      r := ok;
    }

    method Names() returns (keys: seq<string>)
      ensures Ascending(StrLess, keys) && Elements(keys) == table.Keys
    {
      StrLessTotal();
      keys := SortedElements(table.Keys, StrLess);
    }

    /** The arguments still to be given: each unresolved name some field holds, once, sorted. */
    method MissingVars(g: Group, overrides: map<string, string>) returns (missing: seq<string>)
      ensures Ascending(StrLess, missing)
      ensures forall n :: n in missing <==> Mentions(g, n) && Lookup(n, overrides).None?
    {
      var resolve := Resolving(overrides);
      assert forall n :: resolve(n) == Lookup(n, overrides);
      var fields := Fields(g);
      var found := MissingOf(fields, resolve);
      StrLessTotal();
      missing := SortSet(found, StrLess);
      MentionsAll(g, fields);
      assert forall n :: n in missing <==> n in Elements(found);
    }

    function Expanded(f: string, overrides: map<string, string>): string
      reads this
    {
      Expand(Tokens(f, 0), Resolving(overrides))
    }

    /** The request as it will be sent. */
    method Prepare(g: Group, overrides: map<string, string>) returns (r: Request)
      ensures r.url == BuildURL(Expanded(g.baseURL, overrides), Expanded(g.endpoint, overrides))
      ensures r.body == if g.body != "" then Some(Expanded(g.body, overrides)) else None
      ensures r.headers.Keys == g.headers.Keys && forall k :: k in g.headers ==> r.headers[k] == Expanded(g.headers[k], overrides)
    {
      var body := None;
      if g.body != "" {
        var text := ReplaceAll(g.body, Resolving(overrides));
        body := Some(text);
      }
      var base := ReplaceAll(g.baseURL, Resolving(overrides));
      var endpoint := ReplaceAll(g.endpoint, Resolving(overrides));
      var headers: map<string, string> := map[];
      var rest := g.headers.Keys;
      while rest != {}
        invariant rest <= g.headers.Keys && headers.Keys == g.headers.Keys - rest
        invariant forall k :: k in headers ==> headers[k] == Expanded(g.headers[k], overrides)
        decreases rest
      {
        var k :| k in rest;
        rest := rest - {k};
        var v := ReplaceAll(g.headers[k], Resolving(overrides));
        headers := headers[k := v];
      }
      r := Request(BuildURL(base, endpoint), body, headers);
    }

    /** With nothing missing, every placeholder in every field that is sent is replaced by its value, and nothing else changes. */
    lemma NothingMissing(g: Group, overrides: map<string, string>, f: string, value: string -> string)
      requires forall n :: Mentions(g, n) ==> Lookup(n, overrides).Some?
      requires forall n :: Lookup(n, overrides).Some? ==> value(n) == Lookup(n, overrides).value
      requires IsField(g, f)
      ensures Expanded(f, overrides) == Fill(Tokens(f, 0), value)
    {
      forall n | n in NamesOf(Tokens(f, 0)) ensures Resolving(overrides)(n) == Some(value(n)) {
        NamesExact(f, 0, n);
        assert Mentions(g, n);
        assert Resolving(overrides)(n) == Lookup(n, overrides);
      }
      ExpandFills(Tokens(f, 0), Resolving(overrides), value);
    }
  }
}
