/**
 * Character-level helpers the parsers, the cache paths and the front-end
 * filters are built on: decimal digits, Rust's `u64::from_str`, decimal
 * rendering, prefix and substring tests, ASCII lower-casing and the final
 * component of a path (`Path::file_name`).
 */
module Text {
  import opened Wrappers

  /** The largest value of a Rust `u64`. */
  const U64_MAX: nat := 0xFFFF_FFFF_FFFF_FFFF

  predicate IsDigit(c: char) { '0' <= c <= '9' }

  predicate AllDigits(s: string) { forall i :: 0 <= i < |s| ==> IsDigit(s[i]) }

  function DigitValue(c: char): nat
    requires IsDigit(c)
  {
    c as int - '0' as int
  }

  function DigitChar(d: nat): char
    requires d < 10
  {
    ('0' as int + d) as char
  }

  /** The number a string of decimal digits denotes, most significant digit first. */
  function DigitsValue(s: string): nat
    requires AllDigits(s)
    decreases |s|
  {
    if s == [] then 0 else DigitsValue(s[..|s| - 1]) * 10 + DigitValue(s[|s| - 1])
  }

  /**
   * Rust's `str::parse::<u64>`: an optional leading '+', then at least one
   * decimal digit, and the value must fit in 64 bits.  Leading zeros are
   * accepted; a '-' sign, a blank or any other character is an error.
   */
  function ParseU64(s: string): (r: Option<nat>)
    ensures r.Some? ==> r.value <= U64_MAX
    ensures AllDigits(s) && s != [] ==> (r.Some? <==> DigitsValue(s) <= U64_MAX)
    ensures AllDigits(s) && r.Some? ==> r.value == DigitsValue(s)
  {
    var d := if |s| > 0 && s[0] == '+' then s[1..] else s;
    if |d| > 0 && AllDigits(d) && DigitsValue(d) <= U64_MAX then Some(DigitsValue(d)) else None
  }

  /** Decimal rendering of a natural number, as Rust's and JavaScript's formatting print it. */
  function NatToDecimal(n: nat): string
    decreases n
  {
    if n < 10 then [DigitChar(n)] else NatToDecimal(n / 10) + [DigitChar(n % 10)]
  }

  /** Decimal rendering of a signed integer (a Rust `i32` round id). */
  function IntToDecimal(i: int): string
  {
    if i < 0 then "-" + NatToDecimal(-i) else NatToDecimal(i)
  }

  /** Rendering a number in decimal yields a non-empty digit string that denotes it. */
  lemma {:induction false} NatToDecimalDenotes(n: nat)
    ensures NatToDecimal(n) != [] && AllDigits(NatToDecimal(n))
    ensures DigitsValue(NatToDecimal(n)) == n
    decreases n
  {
    var s := NatToDecimal(n);
    if n >= 10 {
      NatToDecimalDenotes(n / 10);
      var t := NatToDecimal(n / 10);
      assert s == t + [DigitChar(n % 10)];
      assert s[..|s| - 1] == t;
    }
  }

  /** Distinct integers have distinct decimal renderings. */
  lemma IntToDecimalInjective(a: int, b: int)
    requires IntToDecimal(a) == IntToDecimal(b)
    ensures a == b
  {
    var na, nb: nat := if a < 0 then -a else a, if b < 0 then -b else b;
    NatToDecimalDenotes(na);
    NatToDecimalDenotes(nb);
    assert IntToDecimal(a)[0] == '-' <==> a < 0 by { assert IsDigit(NatToDecimal(na)[0]); }
    assert IntToDecimal(b)[0] == '-' <==> b < 0 by { assert IsDigit(NatToDecimal(nb)[0]); }
    if a < 0 {
      assert NatToDecimal(na) == IntToDecimal(a)[1..] == IntToDecimal(b)[1..] == NatToDecimal(nb);
    }
  }

  /** Parsing the decimal rendering of any u64 gives the number back. */
  lemma ParseU64OfDecimal(n: nat)
    requires n <= U64_MAX
    ensures ParseU64(NatToDecimal(n)) == Some(n)
  {
    NatToDecimalDenotes(n);
  }

  /** The maximal run of decimal digits at the start of s (a greedy `[0-9]*`). */
  function LeadingDigits(s: string): (d: string)
    ensures d <= s && AllDigits(d)
    ensures |d| < |s| ==> !IsDigit(s[|d|])
  {
    if s != [] && IsDigit(s[0]) then [s[0]] + LeadingDigits(s[1..]) else []
  }

  /** The maximal run of decimal digits at the end of s. */
  function TrailingDigits(s: string): (d: string)
    ensures |d| <= |s| && d == s[|s| - |d|..] && AllDigits(d)
    ensures |d| < |s| ==> !IsDigit(s[|s| - |d| - 1])
  {
    if s != [] && IsDigit(s[|s| - 1]) then TrailingDigits(s[..|s| - 1]) + [s[|s| - 1]] else []
  }

  /** sub occurs in s starting at index i. */
  predicate OccursAt(s: string, sub: string, i: nat)
  {
    i + |sub| <= |s| && s[i..i + |sub|] == sub
  }

  /** Substring test: Rust's `str::contains`, JavaScript's `String.prototype.includes`. */
  function Contains(s: string, sub: string): bool
    decreases |s|
  {
    sub <= s || (s != [] && Contains(s[1..], sub))
  }

  /** An occurrence in the tail of s is an occurrence in s one place later. */
  lemma OccursShift(s: string, sub: string, i: nat)
    requires s != []
    ensures OccursAt(s[1..], sub, i) <==> OccursAt(s, sub, i + 1)
  {
    if i + 1 + |sub| <= |s| {
      assert s[1..][i..i + |sub|] == s[i + 1..i + 1 + |sub|];
    }
  }

  /** Contains agrees with the existence of an occurrence, in both directions. */
  lemma {:induction false} ContainsIff(s: string, sub: string)
    ensures Contains(s, sub) <==> exists i: nat :: OccursAt(s, sub, i)
    decreases |s|
  {
    if sub <= s {
      assert OccursAt(s, sub, 0);
    } else if s == [] {
      assert forall i: nat :: !OccursAt(s, sub, i);
    } else {
      ContainsIff(s[1..], sub);
      if Contains(s[1..], sub) {
        var i: nat :| OccursAt(s[1..], sub, i);
        OccursShift(s, sub, i);
      } else {
        forall i: nat | OccursAt(s, sub, i) ensures false {
          if i > 0 {
            OccursShift(s, sub, i - 1);
          }
        }
      }
    }
  }

  /** ASCII lower-casing of one character; every other character is left alone. */
  function LowerChar(c: char): char
  {
    if 'A' <= c <= 'Z' then (c as int - 'A' as int + 'a' as int) as char else c
  }

  /** Lower-casing of a whole string, character by character. */
  function Lower(s: string): string
  {
    seq(|s|, i requires 0 <= i < |s| => LowerChar(s[i]))
  }

  /** Index of the last '/' in s, or -1 when there is none. */
  function LastSlash(s: string): (k: int)
    decreases |s|
    ensures -1 <= k < |s|
    ensures k >= 0 ==> s[k] == '/'
    ensures forall j :: k < j < |s| ==> s[j] != '/'
  {
    if s == [] then -1 else if s[|s| - 1] == '/' then |s| - 1 else LastSlash(s[..|s| - 1])
  }

  /** The directory part of a path: everything before its last '/', or "" when it has none. */
  function DirOf(p: string): string
  {
    var k := LastSlash(p);
    if k < 0 then "" else p[..k]
  }

  /** A path component that names a directory rather than a file: "", "." or "..". */
  predicate IsSpecialComponent(c: string)
  {
    || c == []
    || (|c| == 1 && c[0] == '.')
    || (|c| == 2 && c[0] == '.' && c[1] == '.')
  }

  /**
   * Rust's `Path::file_name` on a Unix path: the last normal component.
   * Empty and "." components are skipped (so "a/b/" and "a/b/." name "b");
   * a path ending in ".." or made only of separators and "." has none.
   */
  function FileName(p: string): Option<string>
    decreases |p|
  {
    var k := LastSlash(p);
    var last := p[k + 1..];
    if |last| == 2 && last[0] == '.' && last[1] == '.' then None
    else if !IsSpecialComponent(last) then Some(last)
    else if k < 0 then None
    else FileName(p[..k])
  }

  /** A file name is one ordinary component: not "", "." or "..", and free of '/'. */
  lemma {:induction false} FileNameIsComponent(p: string)
    ensures FileName(p).Some? ==> !IsSpecialComponent(FileName(p).value)
    ensures FileName(p).Some? ==> forall i :: 0 <= i < |FileName(p).value| ==> FileName(p).value[i] != '/'
    decreases |p|
  {
    var k := LastSlash(p);
    var last := p[k + 1..];
    if |last| == 2 && last[0] == '.' && last[1] == '.' {
    } else if !IsSpecialComponent(last) {
      assert FileName(p) == Some(last);
      forall i | 0 <= i < |last| ensures last[i] != '/' {
        assert last[i] == p[k + 1 + i];
      }
    } else if k >= 0 {
      assert FileName(p) == FileName(p[..k]);
      FileNameIsComponent(p[..k]);
    }
  }

  /** A path whose last segment is an ordinary name has that name as its file name. */
  lemma FileNameOfJoin(dir: string, name: string)
    requires !IsSpecialComponent(name)
    requires forall i :: 0 <= i < |name| ==> name[i] != '/'
    ensures FileName(dir + "/" + name) == Some(name)
    ensures FileName(name) == Some(name)
  {
    var p := dir + "/" + name;
    assert p[|dir|] == '/';
    assert forall j :: |dir| < j < |p| ==> p[j] == name[j - |dir| - 1];
    assert LastSlash(p) == |dir|;
    assert p[|dir| + 1..] == name;
  }
}
