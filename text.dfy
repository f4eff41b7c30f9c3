/** The string operations the dashboard's views rely on: `toLowerCase`
    (ASCII letters only), `includes`, `trim`, and the decimal rendering that
    `String(n)` and template literals perform on integers. */
module Text {

  // ---------------------------------------------------------------------
  // Lower-casing
  // ---------------------------------------------------------------------

  /** An ASCII upper-case letter becomes its lower-case form; every other
      character is left alone. */
  function LowerChar(c: char): (r: char)
    ensures 'A' <= c <= 'Z' ==> 'a' <= r <= 'z' && r as int == c as int + 32
    ensures !('A' <= c <= 'Z') ==> r == c
  {
    if 'A' <= c <= 'Z' then (c as int + 32) as char else c
  }

  function Lower(s: string): (r: string)
    ensures |r| == |s|
    ensures forall i :: 0 <= i < |s| ==> r[i] == LowerChar(s[i])
  {
    seq(|s|, i requires 0 <= i < |s| => LowerChar(s[i]))
  }

  /** Lower-casing twice is lower-casing once. */
  lemma LowerIdempotent(s: string)
    ensures Lower(Lower(s)) == Lower(s)
  {
    var once := Lower(s);
    var twice := Lower(once);
    forall i | 0 <= i < |s|
      ensures twice[i] == once[i]
    {
      assert once[i] == LowerChar(s[i]);
    }
  }

  // ---------------------------------------------------------------------
  // Substring search (`String.prototype.includes`)
  // ---------------------------------------------------------------------

  predicate IsPrefix(p: string, s: string) {
    |p| <= |s| && s[..|p|] == p
  }

  /** `s.includes(sub)`: `sub` occurs in `s` at some position. */
  predicate Includes(s: string, sub: string)
    decreases |s|
  {
    IsPrefix(sub, s) || (s != [] && Includes(s[1..], sub))
  }

  /** The reference meaning of `includes`: some window of `s` equals `sub`. */
  ghost predicate OccursAt(s: string, sub: string, i: int) {
    0 <= i && i + |sub| <= |s| && s[i..i + |sub|] == sub
  }

  lemma {:induction false} IncludesIff(s: string, sub: string)
    ensures Includes(s, sub) <==> exists i :: OccursAt(s, sub, i)
    decreases |s|
  {
    if IsPrefix(sub, s) {
      assert OccursAt(s, sub, 0);
    } else if s == [] {
      forall i | OccursAt(s, sub, i) ensures false {
      }
    } else {
      IncludesIff(s[1..], sub);
      if Includes(s[1..], sub) {
        var i :| OccursAt(s[1..], sub, i);
        assert s[1..][i..i + |sub|] == s[i + 1..i + 1 + |sub|];
        assert OccursAt(s, sub, i + 1);
      } else {
        assert !OccursAt(s, sub, 0);
        forall i | 0 < i && OccursAt(s, sub, i) ensures OccursAt(s[1..], sub, i - 1) {
          assert s[1..][i - 1..i - 1 + |sub|] == s[i..i + |sub|];
        }
      }
    }
  }

  /** Every string includes the empty string; this is why an empty search
      box keeps every entry. */
  lemma IncludesEmpty(s: string)
    ensures Includes(s, "")
  {
    assert IsPrefix("", s);
  }

  /** When one character of `sub` appears nowhere in `s`, `s` does not
      include `sub`. */
  lemma MissingCharExcludes(s: string, sub: string, j: nat)
    requires j < |sub|
    requires forall i :: 0 <= i < |s| ==> s[i] != sub[j]
    ensures !Includes(s, sub)
  {
    IncludesIff(s, sub);
    forall i | 0 <= i && i + |sub| <= |s| ensures !OccursAt(s, sub, i) {
      assert s[i..i + |sub|][j] == s[i + j];
    }
  }

  /** No character of `s` is one of `cs`. */
  ghost predicate AvoidsAll(s: string, cs: set<char>) {
    forall i :: 0 <= i < |s| ==> s[i] !in cs
  }

  lemma AvoidsAllAppend(a: string, b: string, cs: set<char>)
    requires AvoidsAll(a, cs) && AvoidsAll(b, cs)
    ensures AvoidsAll(a + b, cs)
  {
    forall i | 0 <= i < |a + b| ensures (a + b)[i] !in cs {
      if i >= |a| {
        assert (a + b)[i] == b[i - |a|];
      }
    }
  }

  /** A window of `s` that spells `sub` makes `s` include it. */
  lemma WindowIncludes(s: string, sub: string, i: nat)
    requires i + |sub| <= |s| && s[i..i + |sub|] == sub
    ensures Includes(s, sub)
  {
    assert OccursAt(s, sub, i);
    IncludesIff(s, sub);
  }

  // ---------------------------------------------------------------------
  // Trimming (`String.prototype.trim`)
  // ---------------------------------------------------------------------

  /** The characters `trim` removes: the white-space and line-terminator
      characters of the ECMAScript standard (section 12.2 and 12.3 of
      ECMA-262), the space separators of Unicode category Zs included. */
  predicate IsWhitespace(c: char) {
    c == ' ' || c == '\t' || c == '\n' || c == '\r' || c == '\U{000B}' || c == '\U{000C}'
    || c == '\U{00A0}' || c == '\U{1680}' || ('\U{2000}' <= c <= '\U{200A}')
    || c == '\U{2028}' || c == '\U{2029}' || c == '\U{202F}' || c == '\U{205F}'
    || c == '\U{3000}' || c == '\U{FEFF}'
  }

  function TrimStart(s: string): (r: string)
    ensures |r| <= |s| && r == s[|s| - |r|..]
    ensures r == [] || !IsWhitespace(r[0])
    ensures forall i :: 0 <= i < |s| - |r| ==> IsWhitespace(s[i])
  {
    if s != [] && IsWhitespace(s[0]) then TrimStart(s[1..]) else s
  }

  function TrimEnd(s: string): (r: string)
    ensures |r| <= |s| && r == s[..|r|]
    ensures r == [] || !IsWhitespace(r[|r| - 1])
    ensures forall i :: |r| <= i < |s| ==> IsWhitespace(s[i])
  {
    if s != [] && IsWhitespace(s[|s| - 1]) then TrimEnd(s[..|s| - 1]) else s
  }

  function Trim(s: string): (r: string)
    ensures |r| <= |s|
    ensures r != [] ==> !IsWhitespace(r[0]) && !IsWhitespace(r[|r| - 1])
  {
    TrimEnd(TrimStart(s))
  }

  /** `s.trim()` is empty exactly when every character of `s` is white space. */
  lemma BlankIff(s: string)
    ensures Trim(s) == "" <==> forall i :: 0 <= i < |s| ==> IsWhitespace(s[i])
  {
    var t := TrimStart(s);
    if Trim(s) == "" {
      forall i | 0 <= i < |s| ensures IsWhitespace(s[i]) {
        if i >= |s| - |t| {
          assert t[i - (|s| - |t|)] == s[i];
        }
      }
    } else {
      var u := Trim(s);
      assert !IsWhitespace(u[0]);
      assert u[0] == t[0] == s[|s| - |t|];
    }
  }

  // ---------------------------------------------------------------------
  // Decimal rendering (`String(n)`) and its inverse
  // ---------------------------------------------------------------------

  function DigitChar(d: nat): (c: char)
    requires d < 10
    ensures '0' <= c <= '9'
  {
    ('0' as int + d) as char
  }

  /** `String(n)` for a non-negative integer: its decimal digits, most
      significant first, without leading zeros. */
  function NatToString(n: nat): (r: string)
    ensures |r| >= 1
    ensures forall i :: 0 <= i < |r| ==> '0' <= r[i] <= '9'
    ensures n >= 10 ==> r[0] != '0'
  {
    if n < 10 then [DigitChar(n)] else NatToString(n / 10) + [DigitChar(n % 10)]
  }

  /** A template literal `${i}` for any integer. */
  function IntToString(i: int): string {
    if i < 0 then "-" + NatToString(-i) else NatToString(i)
  }

  /** Reads a string of decimal digits back as a number. */
  function ParseDigits(s: string): nat
    requires forall i :: 0 <= i < |s| ==> '0' <= s[i] <= '9'
  {
    if s == [] then 0
    else ParseDigits(s[..|s| - 1]) * 10 + (s[|s| - 1] as int - '0' as int)
  }

  lemma {:induction false} ParseDigitsOfNatToString(n: nat)
    ensures ParseDigits(NatToString(n)) == n
  {
    if n >= 10 {
      var s := NatToString(n);
      assert s[..|s| - 1] == NatToString(n / 10);
      ParseDigitsOfNatToString(n / 10);
    }
  }

  /** Distinct numbers render as distinct strings. */
  lemma NatToStringInjective(a: nat, b: nat)
    ensures NatToString(a) == NatToString(b) <==> a == b
  {
    if NatToString(a) == NatToString(b) {
      ParseDigitsOfNatToString(a);
      ParseDigitsOfNatToString(b);
    }
  }
}
