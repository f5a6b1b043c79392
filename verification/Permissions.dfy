/**
  Permission names. A permission such as "auth:aff" is two or more
  colon-separated segments, each a lower-case letter followed by lower-case
  letters, digits, '_' and '-'.
 */
module Permissions {
  import opened Wrappers
  import opened Text
  import opened Canonical

  predicate IsLetter(c: char) { 'a' <= c <= 'z' }

  predicate IsBody(c: char) { IsLetter(c) || '0' <= c <= '9' || c == '_' || c == '-' }

  /** The names matched by `^[a-z][a-z0-9_-]*(?::[a-z][a-z0-9_-]*)+$`. */
  predicate PermissionPattern(s: string) {
    && s != "" && IsLetter(s[0]) && ':' in s
    && (forall i :: 0 <= i < |s| ==> PatternAt(s, i))
  }

  /** A body character, or a colon that a new segment follows. */
  predicate PatternAt(s: string, i: nat)
    requires i < |s|
  {
    IsBody(s[i]) || (s[i] == ':' && i + 1 < |s| && IsLetter(s[i + 1]))
  }

  function UpToColon(s: string): (n: nat)
    ensures n <= |s| && (n < |s| ==> s[n] == ':') && forall i :: 0 <= i < n ==> s[i] != ':'
  {
    if s == "" || s[0] == ':' then 0 else 1 + UpToColon(s[1..])
  }

  /** A letter, and then letters, digits and the two signs. */
  predicate Segment(s: string) {
    && s != "" && 'a' <= s[0] <= 'z'
    && forall i :: 1 <= i < |s| ==> 'a' <= s[i] <= 'z' || '0' <= s[i] <= '9' || s[i] == '_' || s[i] == '-'
  }

  /** One segment or more, with colons between them. */
  predicate IsPath(s: string) {
    var n := UpToColon(s);
    Segment(s[..n]) && (n < |s| ==> IsPath(s[n + 1..]))
  }

  predicate PlainlyPath(s: string) { s != "" && IsLetter(s[0]) && forall i :: 0 <= i < |s| ==> PatternAt(s, i) }

  lemma {:induction false} PathAt(s: string)
    ensures IsPath(s) <==> PlainlyPath(s)
  {
    var n := UpToColon(s);
    if n < |s| {
      var rest := s[n + 1..];
      PathAt(rest);
      forall i | 0 <= i < |rest| ensures PatternAt(rest, i) <==> PatternAt(s, n + 1 + i) {}
      if PlainlyPath(s) {
        assert PatternAt(s, n);
        forall i | 0 <= i < n ensures IsBody(s[i]) { assert PatternAt(s, i); }
      }
      if IsPath(s) {
        forall i | 0 <= i < |s| ensures PatternAt(s, i) {
          if i > n { assert PatternAt(rest, i - n - 1); } else if i < n { assert s[..n][i] == s[i]; }
        }
      }
    } else {
      assert s[..n] == s;
      if PlainlyPath(s) { forall i | 0 <= i < |s| ensures IsBody(s[i]) { assert PatternAt(s, i); } }
    }
  }

  /** A name is well formed exactly when it splits at its colons into two segments or more. */
  lemma {:induction false} PatternIsSegments(s: string)
    ensures PermissionPattern(s) <==> IsPath(s) && UpToColon(s) < |s|
  {
    PathAt(s);
  }

  function ParsePermission(value: string): Option<string> {
    var name := ToLower(TrimSpace(value));
    if PermissionPattern(name) then Some(name) else None
  }

  lemma PatternIsPlain(name: string)
    requires PermissionPattern(name)
    ensures ToLower(TrimSpace(name)) == name
  {
    assert PatternAt(name, |name| - 1);
    TrimmedIsFixed(name);
    forall i | 0 <= i < |name| ensures LowerRune(name[i]) == name[i] { assert PatternAt(name, i); }
  }

  /** Parsing lands on a canonical name, and exactly the canonical names parse to themselves. */
  lemma ParseIsCanonical(value: string)
    ensures ParsePermission(value) == Some(value) <==> PermissionPattern(value)
    ensures ParsePermission(value).Some? ==> ParsePermission(ParsePermission(value).value) == ParsePermission(value)
  {
    if PermissionPattern(value) { PatternIsPlain(value); }
    if ParsePermission(value).Some? { PatternIsPlain(ParsePermission(value).value); }
  }

  predicate IsAuth(name: string) { |name| >= 5 && name[..5] == "auth:" }

  /** What a binding accepts: a permission in the `auth:` namespace. */
  function ParseERP(value: string): Option<string> {
    var parsed := ParsePermission(value);
    if parsed.Some? && IsAuth(parsed.value) then parsed else None
  }

  /** The provider's `magi:auth:*` codes, mapped onto local `auth:*` names. */
  function LocalPermissionFromERP(value: string): Option<string> {
    var code := ToLower(TrimSpace(value));
    if HasPrefix(code, "magi:auth:") then ParseERP(TrimPrefix(code, "magi:")) else None
  }

  /** Cutting the `magi:` prefix off a trimmed, lower-cased code leaves nothing more to trim or lower. */
  lemma SuffixIsPlain(value: string, rest: string)
    requires ToLower(TrimSpace(value)) == "magi:" + rest && rest != "" && !IsSpace(rest[0])
    ensures ToLower(TrimSpace(rest)) == rest
  {
    var code := "magi:" + rest;
    LoweredTrimIsFixed(value);
    forall i | 0 <= i < |rest| ensures LowerRune(rest[i]) == rest[i] {
      assert rest[i] == code[i + 5] == ToLower(code)[i + 5];
    }
    assert rest[|rest| - 1] == code[|code| - 1];
    LowerRuneIsFixed(TrimSpace(value)[|code| - 1]);
    TrimmedIsFixed(rest);
  }

  /** Exactly the well-formed `auth:` names behind a `magi:` prefix get through, changed only in case and outer space. */
  lemma LocalPermissionExact(value: string, name: string)
    ensures LocalPermissionFromERP(value) == Some(name)
       <==> ToLower(TrimSpace(value)) == "magi:" + name && IsAuth(name) && PermissionPattern(name)
  {
    var code := ToLower(TrimSpace(value));
    PrefixSplit(code);
    if HasPrefix(code, "magi:auth:") {
      SuffixIsPlain(value, code[5..]);
    }
    if code == "magi:" + name && IsAuth(name) {
      assert code[5..] == name;
    }
  }

  lemma PrefixSplit(code: string)
    ensures HasPrefix(code, "magi:auth:") <==> |code| >= 5 && code == "magi:" + code[5..] && IsAuth(code[5..])
    ensures HasPrefix(code, "magi:auth:") ==> TrimPrefix(code, "magi:") == code[5..] && code[5] == 'a'
  {
    if HasPrefix(code, "magi:auth:") {
      assert code[..10] == "magi:" + "auth:";
      assert code[..5] == code[..10][..5] && code[5..][..5] == code[..10][5..];
    }
    if |code| >= 10 { assert code[..10] == code[..5] + code[5..][..5]; }
  }

  const GRAMMAR := Grammar(ParsePermission, ParseERP)

  /** The permission grammar has what every proof about stored lists asks of it. */
  lemma GrammarIsValid()
    ensures ValidGrammar(GRAMMAR)
  {
    forall v ensures ParsePermission(v).Some? ==> ParsePermission(ParsePermission(v).value) == ParsePermission(v) {
      ParseIsCanonical(v);
    }
  }
}
