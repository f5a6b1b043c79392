/** The string operations the program relies on, as the standard library defines them. */
module Text {

  /** Unicode white space, as `strings.TrimSpace` recognises it. */
  predicate IsSpace(c: char) {
    || 0x09 as char <= c <= 0x0D as char || c == ' '
    || c == 0x85 as char || c == 0xA0 as char || c == 0x1680 as char
    || 0x2000 as char <= c <= 0x200A as char
    || c == 0x2028 as char || c == 0x2029 as char || c == 0x202F as char
    || c == 0x205F as char || c == 0x3000 as char
  }

  /**
    Lower-casing, exact for every rune whose lower case is ASCII. Besides A-Z
    these are the Kelvin sign and the dotted capital I; all other runes stay
    outside ASCII either way and are left alone.
   */
  function LowerRune(c: char): char {
    if 'A' <= c <= 'Z' then c - 'A' + 'a'
    else if c == 0x212A as char then 'k'
    else if c == 0x0130 as char then 'i'
    else c
  }

  function ToLower(s: string): string {
    seq(|s|, i requires 0 <= i < |s| => LowerRune(s[i]))
  }

  function TrimLeft(s: string): (r: string)
    ensures |r| <= |s| && (r == "" || !IsSpace(r[0]))
  {
    if s != "" && IsSpace(s[0]) then TrimLeft(s[1..]) else s
  }

  function TrimRight(s: string): (r: string)
    ensures |r| <= |s| && r == s[..|r|] && (r == "" || !IsSpace(r[|r| - 1]))
  {
    if s != "" && IsSpace(s[|s| - 1]) then TrimRight(s[..|s| - 1]) else s
  }

  function TrimSpace(s: string): (r: string)
    ensures r == "" || (!IsSpace(r[0]) && !IsSpace(r[|r| - 1]))
  {
    TrimRight(TrimLeft(s))
  }

  predicate AllSpace(s: string) { forall i :: 0 <= i < |s| ==> IsSpace(s[i]) }

  lemma {:induction false} TrimLeftExact(s: string) returns (space: string)
    ensures s == space + TrimLeft(s) && AllSpace(space)
  {
    space := "";
    if s != "" && IsSpace(s[0]) {
      var rest := TrimLeftExact(s[1..]);
      space := [s[0]] + rest;
      assert s == [s[0]] + s[1..];
    }
  }

  lemma {:induction false} TrimRightExact(s: string) returns (space: string)
    ensures s == TrimRight(s) + space && AllSpace(space)
  {
    space := "";
    if s != "" && IsSpace(s[|s| - 1]) {
      var rest := TrimRightExact(s[..|s| - 1]);
      space := rest + [s[|s| - 1]];
      assert s == s[..|s| - 1] + [s[|s| - 1]];
    }
  }

  /** Trimming takes away white space around the text, all of it and nothing else. */
  lemma {:induction false} TrimSpaceExact(s: string) returns (before: string, after: string)
    ensures s == before + TrimSpace(s) + after && AllSpace(before) && AllSpace(after)
    ensures TrimSpace(s) == "" || (!IsSpace(TrimSpace(s)[0]) && !IsSpace(TrimSpace(s)[|TrimSpace(s)| - 1]))
  {
    before := TrimLeftExact(s);
    after := TrimRightExact(TrimLeft(s));
  }

  predicate HasPrefix(s: string, prefix: string) {
    |prefix| <= |s| && s[..|prefix|] == prefix
  }

  function TrimPrefix(s: string, prefix: string): string {
    if HasPrefix(s, prefix) then s[|prefix|..] else s
  }

  /** Trimmed and cut to at most `limit` characters. */
  function BoundedText(s: string, limit: nat): (r: string)
    ensures |r| <= limit
  {
    var t := TrimSpace(s);
    if |t| > limit then t[..limit] else t
  }

  lemma TrimmedIsFixed(s: string)
    requires s == "" || (!IsSpace(s[0]) && !IsSpace(s[|s| - 1]))
    ensures TrimSpace(s) == s
  {
  }

  lemma LowerRuneIsFixed(c: char)
    ensures LowerRune(LowerRune(c)) == LowerRune(c)
    ensures IsSpace(c) <==> IsSpace(LowerRune(c))
  {
  }

  /** Lower-casing is idempotent and does not create or remove outer white space. */
  lemma LoweredTrimIsFixed(s: string)
    ensures ToLower(ToLower(TrimSpace(s))) == ToLower(TrimSpace(s))
    ensures TrimSpace(ToLower(TrimSpace(s))) == ToLower(TrimSpace(s))
  {
    var t := TrimSpace(s);
    var l := ToLower(t);
    forall i | 0 <= i < |l| ensures LowerRune(l[i]) == l[i] { LowerRuneIsFixed(t[i]); }
    if t != "" {
      LowerRuneIsFixed(t[0]);
      LowerRuneIsFixed(t[|t| - 1]);
    }
    TrimmedIsFixed(l);
  }

  // ---- decimal rendering, as %d prints an integer ----

  function Digit(n: nat): (c: char)
    requires n < 10
    ensures '0' <= c <= '9'
  {
    '0' + n as char
  }

  function DecimalNat(n: nat): (r: string)
    ensures r != "" && forall c :: c in r ==> '0' <= c <= '9'
  {
    if n < 10 then [Digit(n)] else DecimalNat(n / 10) + [Digit(n % 10)]
  }

  function Decimal(n: int): (r: string)
    ensures r != "" && forall c :: c in r ==> c == '-' || '0' <= c <= '9'
  {
    if n < 0 then "-" + DecimalNat(-n) else DecimalNat(n)
  }

  lemma {:induction false} DecimalNatInjective(a: nat, b: nat)
    requires DecimalNat(a) == DecimalNat(b)
    ensures a == b
  {
    var x, y := DecimalNat(a), DecimalNat(b);
    assert x[|x| - 1] == Digit(a % 10) && y[|y| - 1] == Digit(b % 10);
    assert a % 10 == b % 10;
    if 10 <= a && 10 <= b {
      assert DecimalNat(a / 10) == x[..|x| - 1] && DecimalNat(b / 10) == y[..|y| - 1];
      DecimalNatInjective(a / 10, b / 10);
    }
  }

  lemma DecimalInjective(a: int, b: int)
    requires Decimal(a) == Decimal(b)
    ensures a == b
  {
    if a < 0 && b < 0 {
      assert Decimal(a)[1..] == DecimalNat(-a) && Decimal(b)[1..] == DecimalNat(-b);
      DecimalNatInjective(-a, -b);
    } else if a >= 0 && b >= 0 {
      DecimalNatInjective(a, b);
    } else {
      var n := if a < 0 then b else a;
      assert Decimal(a)[0] == '-';
      assert DecimalNat(n)[0] in DecimalNat(n);
    }
  }
}
