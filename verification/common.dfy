/** Shared vocabulary of the model: optional values, string predicates,
    decimal numerals, sums over sequences and the guarded percentage rule
    that the budget, report and dashboard code each apply. */
module Common {

  /** Python's `None` / value. */
  datatype Option<+T> = None | Some(value: T) {
    function GetOr(default: T): T {
      match this
      case Some(v) => v
      case None => default
    }
  }

  /** A computation that either produces a value or raises. */
  datatype Result<+T> = Ok(value: T) | Raised(error: string)

  // ---------------------------------------------------------------------
  // Strings
  // ---------------------------------------------------------------------

  /** Python `s.endswith(suffix)`. */
  predicate EndsWith(s: string, suffix: string) {
    |suffix| <= |s| && s[|s| - |suffix|..] == suffix
  }

  /** Python `s.startswith(prefix)`. */
  predicate StartsWith(s: string, prefix: string) {
    |prefix| <= |s| && s[..|prefix|] == prefix
  }

  /** `sub` occurs in `s` starting at position `i`. */
  predicate OccursAt(s: string, sub: string, i: int) {
    0 <= i && i + |sub| <= |s| && s[i..i + |sub|] == sub
  }

  /** Python `sub in s`. */
  predicate Contains(s: string, sub: string) {
    exists i | 0 <= i <= |s| :: OccursAt(s, sub, i)
  }

  /** A string cannot contain a pattern one of whose characters it lacks. */
  lemma MissingCharExcludes(s: string, sub: string, c: char)
    requires c in sub && c !in s
    ensures !Contains(s, sub)
  {
    var k :| 0 <= k < |sub| && sub[k] == c;
    forall i | 0 <= i <= |s| ensures !OccursAt(s, sub, i) {
      if i + |sub| <= |s| {
        assert s[i..i + |sub|][k] == s[i + k];
        assert s[i + k] in s;
      }
    }
  }

  /** `sub` occurs in any text that has `s` as a part. */
  lemma ContainsInContext(a: string, s: string, b: string, sub: string)
    requires Contains(s, sub)
    ensures Contains(a + s + b, sub)
  {
    var i :| 0 <= i <= |s| && OccursAt(s, sub, i);
    assert (a + s + b)[|a| + i..|a| + i + |sub|] == s[i..i + |sub|];
    assert OccursAt(a + s + b, sub, |a| + i);
  }

  /** Upper-casing of one character, ASCII letters only. */
  function UpperChar(c: char): char {
    if 'a' <= c <= 'z' then (c as int - 'a' as int + 'A' as int) as char else c
  }

  /** Python `s.upper()` restricted to ASCII case mapping. */
  function Upper(s: string): (r: string)
    ensures |r| == |s|
    ensures forall i :: 0 <= i < |s| ==> r[i] == UpperChar(s[i])
  {
    seq(|s|, i requires 0 <= i < |s| => UpperChar(s[i]))
  }

  /** The lower-case partner of an upper-case ASCII letter. */
  function LowerOf(c: char): char
    requires 'A' <= c <= 'Z'
  {
    (c as int - 'A' as int + 'a' as int) as char
  }

  /** `s` holds the letter `c` in neither case. */
  predicate LacksLetter(s: string, c: char)
    requires 'A' <= c <= 'Z'
  {
    c !in s && LowerOf(c) !in s
  }

  /** An upper-case letter appears in `Upper(s)` only where `s` holds it in
      either case. */
  lemma UpperMissingLetter(s: string, c: char)
    requires 'A' <= c <= 'Z' && LacksLetter(s, c)
    ensures c !in Upper(s)
  {
    var u := Upper(s);
    forall i | 0 <= i < |u| ensures u[i] != c {
      assert s[i] in s;
    }
  }

  /** Concatenation of a sequence of strings. */
  function Concat(parts: seq<string>): string {
    if parts == [] then "" else parts[0] + Concat(parts[1..])
  }

  /** A character none of the parts holds is absent from their concatenation. */
  lemma {:induction false} ConcatLacks(c: char, parts: seq<string>)
    requires forall k :: 0 <= k < |parts| ==> c !in parts[k]
    ensures c !in Concat(parts)
  {
    if parts != [] {
      ConcatLacks(c, parts[1..]);
    }
  }

  /** Python `sep.join(parts)`. */
  function Join(sep: string, parts: seq<string>): string {
    if |parts| == 0 then ""
    else if |parts| == 1 then parts[0]
    else parts[0] + sep + Join(sep, parts[1..])
  }

  /** Every part occurs in the joined text. */
  lemma {:induction false} JoinContainsPart(sep: string, parts: seq<string>, k: nat)
    requires k < |parts|
    ensures Contains(Join(sep, parts), parts[k])
  {
    if |parts| == 1 || k == 0 {
      var j := Join(sep, parts);
      assert j[..|parts[0]|] == parts[0];
      assert OccursAt(j, parts[0], 0);
    } else {
      JoinContainsPart(sep, parts[1..], k - 1);
      ContainsInContext(parts[0] + sep, Join(sep, parts[1..]), "", parts[k]);
      assert parts[0] + sep + Join(sep, parts[1..]) + "" == Join(sep, parts);
    }
  }

  /** The joined text opens with the first part and closes with the last. */
  lemma {:induction false} JoinEnds(sep: string, parts: seq<string>)
    requires |parts| >= 1
    ensures StartsWith(Join(sep, parts), parts[0])
    ensures EndsWith(Join(sep, parts), parts[|parts| - 1])
  {
    if |parts| > 1 {
      JoinEnds(sep, parts[1..]);
      var rest := Join(sep, parts[1..]);
      var j := parts[0] + sep + rest;
      assert j[..|parts[0]|] == parts[0];
      assert j[|j| - |parts[|parts| - 1]|..] == rest[|rest| - |parts[|parts| - 1]|..];
    }
  }

  /** Joined text wrapped in the separator on both sides opens with the
      separator and the first part, and closes with the last part and the
      separator. */
  lemma JoinFramed(sep: string, parts: seq<string>)
    requires |parts| >= 1
    ensures StartsWith(sep + Join(sep, parts) + sep, sep + parts[0])
    ensures EndsWith(sep + Join(sep, parts) + sep, parts[|parts| - 1] + sep)
  {
    JoinEnds(sep, parts);
    var j := Join(sep, parts);
    var s := sep + j + sep;
    assert s[..|sep + parts[0]|] == sep + j[..|parts[0]|];
    var last := parts[|parts| - 1];
    assert s[|s| - |last + sep|..] == j[|j| - |last|..] + sep;
  }

  /** A character absent from the separator and every part is absent from
      the joined text. */
  lemma {:induction false} JoinLacks(c: char, sep: string, parts: seq<string>)
    requires c !in sep
    requires forall k :: 0 <= k < |parts| ==> c !in parts[k]
    ensures c !in Join(sep, parts)
  {
    if |parts| > 1 {
      JoinLacks(c, sep, parts[1..]);
    }
  }

  /** Number of occurrences of a character. */
  function CountChar(c: char, s: string): nat {
    if s == [] then 0 else (if s[0] == c then 1 else 0) + CountChar(c, s[1..])
  }

  lemma {:induction false} CountCharAppend(c: char, a: string, b: string)
    ensures CountChar(c, a + b) == CountChar(c, a) + CountChar(c, b)
  {
    if a == [] {
      assert a + b == b;
    } else {
      assert (a + b)[1..] == a[1..] + b;
      CountCharAppend(c, a[1..], b);
    }
  }

  lemma {:induction false} CountCharAbsent(c: char, s: string)
    requires c !in s
    ensures CountChar(c, s) == 0
  {
    if s != [] {
      assert s[0] in s;
      assert forall x :: x in s[1..] ==> x in s;
      CountCharAbsent(c, s[1..]);
    }
  }

  // ---------------------------------------------------------------------
  // Decimal numerals (Python `str(n)` / `int(s)` for naturals)
  // ---------------------------------------------------------------------

  predicate IsDigit(c: char) { '0' <= c <= '9' }

  predicate AllDigits(s: string) { forall i :: 0 <= i < |s| ==> IsDigit(s[i]) }

  function DigitChar(d: nat): (c: char)
    requires d < 10
    ensures IsDigit(c)
  {
    ('0' as int + d) as char
  }

  function DigitValue(c: char): nat
    requires IsDigit(c)
  {
    c as int - '0' as int
  }

  /** Python `str(n)` for a natural number. */
  function NatToString(n: nat): (r: string)
    ensures |r| > 0 && AllDigits(r)
  {
    if n < 10 then [DigitChar(n)] else NatToString(n / 10) + [DigitChar(n % 10)]
  }

  /** Python `int(s)` for a non-empty string of decimal digits. */
  function DigitsValue(s: string): nat
    requires AllDigits(s)
  {
    if s == [] then 0 else 10 * DigitsValue(s[..|s| - 1]) + DigitValue(s[|s| - 1])
  }

  /** Reading back a rendered natural gives the natural. */
  lemma {:induction false} NatToStringRoundTrip(n: nat)
    ensures DigitsValue(NatToString(n)) == n
  {
    var s := NatToString(n);
    if n >= 10 {
      NatToStringRoundTrip(n / 10);
      assert s[..|s| - 1] == NatToString(n / 10);
    }
  }

  /** Distinct naturals render as distinct strings. */
  lemma NatToStringInjective(a: nat, b: nat)
    ensures NatToString(a) == NatToString(b) ==> a == b
  {
    NatToStringRoundTrip(a);
    NatToStringRoundTrip(b);
  }

  /** Equal prefixes cancel. */
  lemma PrefixCancel(p: string, a: string, b: string)
    requires p + a == p + b
    ensures a == b
  {
    assert a == (p + a)[|p|..];
    assert b == (p + b)[|p|..];
  }

  // ---------------------------------------------------------------------
  // Sums and the guarded percentage
  // ---------------------------------------------------------------------

  function Sum(xs: seq<real>): real {
    if xs == [] then 0.0 else xs[0] + Sum(xs[1..])
  }

  lemma {:induction false} SumNonNegative(xs: seq<real>)
    requires forall k :: 0 <= k < |xs| ==> xs[k] >= 0.0
    ensures Sum(xs) >= 0.0
  {
    if xs != [] {
      SumNonNegative(xs[1..]);
    }
  }

  lemma {:induction false} SumAppend(a: seq<real>, b: seq<real>)
    ensures Sum(a + b) == Sum(a) + Sum(b)
  {
    if a == [] {
      assert a + b == b;
    } else {
      assert (a + b)[1..] == a[1..] + b;
      SumAppend(a[1..], b);
    }
  }

  /** `part / whole * 100` when `whole > 0`, else `0`: the rule every
      percentage of the system uses to avoid dividing by zero. */
  function Percent(part: real, whole: real): (p: real)
    ensures whole > 0.0 ==> p * whole == part * 100.0
    ensures whole <= 0.0 ==> p == 0.0
    ensures whole > 0.0 && 0.0 <= part <= whole ==> 0.0 <= p <= 100.0
  {
    if whole > 0.0 then part / whole * 100.0 else 0.0
  }
}
