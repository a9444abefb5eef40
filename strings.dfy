/**
 * Character and string primitives of the C library and APR that the module relies on:
 * ASCII case folding and comparison, `isdigit`/`isspace`, `strstr`, `%d` formatting and
 * `apr_atoi64` followed by the truncating store into a 32-bit `int`.
 */
module Strings {
  import opened Wrappers

  /** `tolower` in the C locale. */
  function LowerChar(c: char): char {
    if 'A' <= c <= 'Z' then (c as int + 32) as char else c
  }

  function Lower(s: string): (r: string)
    ensures |r| == |s|
    ensures forall i :: 0 <= i < |s| ==> r[i] == LowerChar(s[i])
  {
    seq(|s|, i requires 0 <= i < |s| => LowerChar(s[i]))
  }

  /**
   * Equality as the module tests it with `apr_strnatcasecmp(a, b) == 0`, and as APR tables
   * compare keys: the two strings agree up to ASCII case.
   */
  predicate EqIgnoreCase(a: string, b: string) {
    |a| == |b| && forall i :: 0 <= i < |a| ==> LowerChar(a[i]) == LowerChar(b[i])
  }

  lemma EqIgnoreCaseTrans(a: string, b: string, c: string)
    requires EqIgnoreCase(a, b) && EqIgnoreCase(b, c)
    ensures EqIgnoreCase(a, c) && EqIgnoreCase(c, a)
  {
  }

  /** `isdigit` in the C locale. */
  predicate IsDigit(c: char) {
    '0' <= c <= '9'
  }

  /** `isspace` in the C locale: space, tab, newline, vertical tab, form feed, carriage return. */
  predicate IsSpace(c: char) {
    c == ' ' || 9 <= c as int <= 13
  }

  predicate AllDigits(s: string) {
    forall i :: 0 <= i < |s| ==> IsDigit(s[i])
  }

  /** `p` occurs in `s` starting at index `i`. */
  predicate OccursAt(s: string, p: string, i: nat) {
    i + |p| <= |s| && s[i..i + |p|] == p
  }

  /** `strstr`: the index of the first occurrence of `p` in `s`, if any. */
  function IndexOf(s: string, p: string): (r: Option<nat>)
    ensures r.Some? ==> OccursAt(s, p, r.value)
    ensures r.Some? ==> forall j :: 0 <= j < r.value ==> !OccursAt(s, p, j)
    ensures r.None? ==> forall j: nat :: !OccursAt(s, p, j)
    decreases |s|
  {
    if OccursAt(s, p, 0) then Some(0)
    else if s == [] then None
    else
      var rest := IndexOf(s[1..], p);
      assert forall j: nat :: 1 <= j && OccursAt(s, p, j) ==> OccursAt(s[1..], p, j - 1) by {
        forall j: nat | 1 <= j && OccursAt(s, p, j) ensures OccursAt(s[1..], p, j - 1) {
          assert s[1..][j - 1..j - 1 + |p|] == s[j..j + |p|];
        }
      }
      assert forall j: nat :: OccursAt(s[1..], p, j) ==> OccursAt(s, p, j + 1) by {
        forall j: nat | OccursAt(s[1..], p, j) ensures OccursAt(s, p, j + 1) {
          assert s[1..][j..j + |p|] == s[j + 1..j + 1 + |p|];
        }
      }
      match rest
      case None => None
      case Some(i) => Some(i + 1)
  }

  /** The prefix of `s` before the first `c`, and the rest of `s` from that `c` on (`strchr`). */
  function SplitAtChar(s: string, c: char): (r: (string, string))
    ensures r.0 + r.1 == s
    ensures c !in r.0
    ensures r.1 == [] || r.1[0] == c
  {
    if s == [] then ([], [])
    else if s[0] == c then ([], s)
    else
      var (a, b) := SplitAtChar(s[1..], c);
      ([s[0]] + a, b)
  }

  /** Splitting at `c` is unique: any decomposition with a `c`-free head is the one found. */
  lemma {:induction false} SplitAtCharUnique(x: string, y: string, c: char)
    requires c !in x
    requires y == [] || y[0] == c
    ensures SplitAtChar(x + y, c) == (x, y)
  {
    if x == [] {
      assert x + y == y;
    } else {
      assert (x + y)[0] == x[0];
      assert (x + y)[1..] == x[1..] + y;
      SplitAtCharUnique(x[1..], y, c);
      assert [x[0]] + x[1..] == x;
    }
  }

  // ---- decimal formatting (`%d`) ----

  function DigitChar(d: nat): char
    requires d < 10
  {
    ('0' as int + d) as char
  }

  function DigitValue(c: char): nat {
    if IsDigit(c) then c as int - '0' as int else 0
  }

  function NatToString(n: nat): (r: string)
    ensures |r| > 0 && AllDigits(r)
    decreases n
  {
    if n < 10 then [DigitChar(n)] else NatToString(n / 10) + [DigitChar(n % 10)]
  }

  /** `%d`: an optional minus sign followed by decimal digits. */
  function IntToString(i: int): (r: string)
    ensures '"' !in r && '<' !in r
  {
    if i < 0 then "-" + NatToString(-i) else NatToString(i)
  }

  // ---- `apr_atoi64`, that is `strtoll(s, NULL, 10)` ----

  const Int64Min: int := -0x8000_0000_0000_0000
  const Int64Max: int := 0x7FFF_FFFF_FFFF_FFFF

  function SkipSpace(s: string): string {
    if s != [] && IsSpace(s[0]) then SkipSpace(s[1..]) else s
  }

  /** What is left after the leading white space is a suffix of `s` that starts with something else. */
  lemma {:induction false} SkipSpaceSuffix(s: string)
    ensures |SkipSpace(s)| <= |s| && SkipSpace(s) == s[|s| - |SkipSpace(s)|..]
    ensures SkipSpace(s) == [] || !IsSpace(SkipSpace(s)[0])
  {
    if s != [] && IsSpace(s[0]) {
      SkipSpaceSuffix(s[1..]);
      assert s[1..][|s| - 1 - |SkipSpace(s)|..] == s[|s| - |SkipSpace(s)|..];
    }
  }

  /** The longest prefix of `s` made of decimal digits. */
  function DigitPrefix(s: string): string {
    if s != [] && IsDigit(s[0]) then [s[0]] + DigitPrefix(s[1..]) else []
  }

  /** The digit prefix is a prefix of `s`, made of digits, and not followed by one. */
  lemma {:induction false} DigitPrefixLongest(s: string)
    ensures |DigitPrefix(s)| <= |s| && DigitPrefix(s) == s[..|DigitPrefix(s)|]
    ensures AllDigits(DigitPrefix(s))
    ensures |DigitPrefix(s)| < |s| ==> !IsDigit(s[|DigitPrefix(s)|])
  {
    if s != [] && IsDigit(s[0]) {
      DigitPrefixLongest(s[1..]);
      var p := DigitPrefix(s[1..]);
      assert DigitPrefix(s) == [s[0]] + p;
      assert s[..1 + |p|] == [s[0]] + s[1..][..|p|];
    }
  }

  /** A run of digits followed by anything that does not start with a digit is the digit prefix. */
  lemma {:induction false} DigitPrefixOfRun(s: string, rest: string)
    requires AllDigits(s)
    requires rest == [] || !IsDigit(rest[0])
    ensures DigitPrefix(s + rest) == s
  {
    if s != [] {
      assert (s + rest)[1..] == s[1..] + rest;
      DigitPrefixOfRun(s[1..], rest);
    }
  }

  /** The value of a string of decimal digits, most significant first. */
  function NatValue(ds: string): nat {
    if ds == [] then 0 else NatValue(ds[..|ds| - 1]) * 10 + DigitValue(ds[|ds| - 1])
  }

  /**
   * `strtoll` in base 10: leading white space, an optional sign, then the longest run of
   * digits; a value beyond the 64-bit range saturates at the nearer bound.
   */
  function StrToI64(s: string): (v: int)
    ensures Int64Min <= v <= Int64Max
  {
    var t := SkipSpace(s);
    var negative := t != [] && t[0] == '-';
    var unsigned := if t != [] && (t[0] == '-' || t[0] == '+') then t[1..] else t;
    var m: int := NatValue(DigitPrefix(unsigned));
    if negative then (if m > -Int64Min then Int64Min else -m)
    else (if m > Int64Max then Int64Max else m)
  }

  /** Storing a 64-bit value in a 32-bit `int`: the value modulo 2^32, read as signed. */
  function ToInt32(v: int): (r: int)
    ensures -0x8000_0000 <= r < 0x8000_0000
    ensures (r - v) % 0x1_0000_0000 == 0
    ensures -0x8000_0000 <= v < 0x8000_0000 ==> r == v
  {
    (v + 0x8000_0000) % 0x1_0000_0000 - 0x8000_0000
  }

  lemma {:induction false} NatValueOfNatToString(n: nat)
    ensures DigitPrefix(NatToString(n)) == NatToString(n)
    ensures NatValue(NatToString(n)) == n
    decreases n
  {
    var s := NatToString(n);
    AllDigitsPrefix(s);
    if n >= 10 {
      NatValueOfNatToString(n / 10);
      assert s[..|s| - 1] == NatToString(n / 10);
    }
  }

  lemma {:induction false} AllDigitsPrefix(s: string)
    requires AllDigits(s)
    ensures DigitPrefix(s) == s
  {
    if s != [] {
      AllDigitsPrefix(s[1..]);
    }
  }

  /**
   * `apr_atoi64` reads back what `%d` writes: formatting a 64-bit value in decimal and
   * parsing it gives the value again.
   */
  lemma IntToStringRoundTrip(i: int)
    requires Int64Min <= i <= Int64Max
    ensures StrToI64(IntToString(i)) == i
  {
    var s := IntToString(i);
    var digits := if i < 0 then -i else i;
    NatValueOfNatToString(digits);
    assert !IsSpace(s[0]);
    assert SkipSpace(s) == s;
    if i < 0 {
      assert s[0] == '-';
      assert s[1..] == NatToString(-i);
    } else {
      assert s == NatToString(i);
      assert IsDigit(s[0]);
    }
  }
}
