/**
  Canonicalising a list: parse every value, reject the list if one does not
  parse, drop repeats, sort. The parser is a parameter, so that the two lists the
  program normalises (durable grants and provider permissions) share one proof.
 */
module Canonical {
  import opened Wrappers
  import opened Sorting

  type Parser = string -> Option<string>

  ghost predicate Idempotent(parse: Parser) {
    forall v :: parse(v).Some? ==> parse(parse(v).value) == parse(v)
  }

  predicate AllParse(values: seq<string>, parse: Parser) {
    forall v :: v in values ==> parse(v).Some?
  }

  function Names(values: seq<string>, parse: Parser): set<string> {
    set v | v in values && parse(v).Some? :: parse(v).value
  }

  /** A list in stored form: canonical names in ascending order. */
  ghost predicate IsNormal(names: seq<string>, parse: Parser) {
    Ascending(StrLess, names) && forall p :: p in names ==> parse(p) == Some(p)
  }

  ghost function Listed(values: seq<string>, parse: Parser): (r: seq<string>)
    ensures forall p :: p in r <==> p in Names(values, parse)
    ensures Ascending(StrLess, r)
  {
    StrLessTotal();
    Enumerate(Names(values, parse), StrLess)
  }

  /** The stored form of a list, or `None` when the list is rejected. */
  ghost function Normalize(values: seq<string>, parse: Parser): Option<seq<string>> {
    if AllParse(values, parse) then Some(Listed(values, parse)) else None
  }

  lemma NormalIsListed(names: seq<string>, parse: Parser)
    requires IsNormal(names, parse)
    ensures Normalize(names, parse) == Some(names)
    ensures Elements(names) == Names(names, parse)
  {
    StrLessTotal();
    forall p ensures p in Names(names, parse) <==> p in names {
      if p in names { assert parse(p).value == p; }
    }
    AscendingIsEnumerate(names, Names(names, parse), StrLess);
  }

  lemma {:induction false} NamesCount(values: seq<string>, parse: Parser)
    ensures |Names(values, parse)| <= |values|
  {
    if values == [] {
      assert Names(values, parse) == {};
    } else {
      var rest, last := values[..|values| - 1], values[|values| - 1];
      NamesCount(rest, parse);
      NamesExtend(rest, last, parse);
      assert values == rest + [last];
    }
  }

  lemma NamesExtend(values: seq<string>, v: string, parse: Parser)
    ensures parse(v).Some? ==> Names(values + [v], parse) == Names(values, parse) + {parse(v).value}
    ensures parse(v).None? ==> Names(values + [v], parse) == Names(values, parse)
  {
    var longer := values + [v];
    assert v in longer;
    forall u | u in values ensures u in longer {}
  }

  /** A normalised list is in stored form, no longer than the input, and normalises to itself. */
  lemma NormalizeIdempotent(values: seq<string>, parse: Parser)
    requires Idempotent(parse) && AllParse(values, parse)
    ensures IsNormal(Listed(values, parse), parse)
    ensures Normalize(Listed(values, parse), parse) == Some(Listed(values, parse))
    ensures |Listed(values, parse)| <= |values|
  {
    var names := Listed(values, parse);
    forall p | p in names ensures parse(p) == Some(p) {
      var v :| v in values && parse(v).Some? && parse(v).value == p;
    }
    NormalIsListed(names, parse);
    NamesCount(values, parse);
    StrLessTotal();
  }

  /** The loop: parse, reject, skip repeats, then sort. */
  method NormalizeList(values: seq<string>, parse: Parser) returns (r: Option<seq<string>>)
    ensures r == Normalize(values, parse)
  {
    var seen: set<string> := {};
    var names: seq<string> := [];
    for i := 0 to |values|
      invariant AllParse(values[..i], parse)
      invariant NoDuplicates(names) && seen == Elements(names) == Names(values[..i], parse)
    {
      assert values[..i + 1] == values[..i] + [values[i]];
      NamesExtend(values[..i], values[i], parse);
      var parsed := parse(values[i]);
      if parsed.None? {
        assert values[i] in values;
        return None;
      }
      if parsed.value !in seen {
        seen := seen + {parsed.value};
        names := names + [parsed.value];
      }
    }
    assert values[..|values|] == values;
    StrLessTotal();
    var sorted := SortSet(names, StrLess);
    r := Some(sorted);
  }

  // ---- the two permission lists ----

  /** How permission names are read: any name, and names a provider may issue. */
  datatype Grammar = Grammar(parse: Parser, parseERP: Parser)

  ghost predicate ValidGrammar(g: Grammar) {
    && Idempotent(g.parse) && Idempotent(g.parseERP)
    && (forall v :: g.parseERP(v).Some? ==> g.parse(v) == g.parseERP(v))
  }

  const MAX_PERMISSIONS := 1000

  /** A binding's list: at most 1000 values, each one the provider may issue. */
  ghost function NormalizeERP(values: seq<string>, g: Grammar): Option<seq<string>> {
    if |values| > MAX_PERMISSIONS then None else Normalize(values, g.parseERP)
  }

  /** A durable grant's or revocation's list: at least one value. */
  ghost function NormalizeGrant(values: seq<string>, g: Grammar): Option<seq<string>> {
    if |values| == 0 then None else Normalize(values, g.parse)
  }

  ghost function NormalizeIfPresent(values: seq<string>, g: Grammar): Option<seq<string>> {
    if |values| == 0 then Some([]) else NormalizeGrant(values, g)
  }

  /** A permission list as a stored binding carries it. */
  ghost predicate IsStoredList(names: seq<string>, g: Grammar) {
    |names| <= MAX_PERMISSIONS && IsNormal(names, g.parseERP)
  }

  /** What normalisation returned is in stored form. */
  lemma NormalizeERPStored(values: seq<string>, g: Grammar)
    requires ValidGrammar(g)
    ensures NormalizeERP(values, g).Some? ==> IsStoredList(NormalizeERP(values, g).value, g)
  {
    if NormalizeERP(values, g).Some? { NormalizeIdempotent(values, g.parseERP); }
  }

  /** Every later normalisation accepts a list in stored form and leaves it alone. */
  lemma StoredListAccepted(names: seq<string>, g: Grammar)
    requires ValidGrammar(g) && IsStoredList(names, g)
    ensures NormalizeERP(names, g) == Some(names) && NormalizeIfPresent(names, g) == Some(names)
    ensures Names(names, g.parse) == Elements(names)
  {
    NormalIsListed(names, g.parseERP);
    NormalIsListed(names, g.parse);
  }

  method NormalizePermissions(values: seq<string>, g: Grammar) returns (r: Option<seq<string>>)
    ensures r == NormalizeERP(values, g)
  {
    if |values| > MAX_PERMISSIONS { return None; }
    r := NormalizeList(values, g.parseERP);
  }

  method NormalizedPermissions(values: seq<string>, g: Grammar) returns (r: Option<seq<string>>)
    ensures r == NormalizeGrant(values, g)
  {
    if |values| == 0 { return None; }
    r := NormalizeList(values, g.parse);
  }
}
