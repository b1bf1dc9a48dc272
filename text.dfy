/** The string operations the server relies on, stated on `seq<char>`. */
module Text {

  /** True when every character of `s` is `c`. */
  predicate AllChar(s: string, c: char)
  {
    forall i :: 0 <= i < |s| ==> s[i] == c
  }

  /** `n` copies of the character `c`. */
  function Repeat(c: char, n: nat): (r: string)
    ensures |r| == n && AllChar(r, c)
  {
    seq(n, _ => c)
  }

  /** Python's `s.rstrip(c)`: every trailing occurrence of `c` is removed, not just one. */
  function RStrip(s: string, c: char): (r: string)
    ensures |r| <= |s| && r == s[..|r|]
    ensures AllChar(s[|r|..], c)
    ensures r == [] || r[|r| - 1] != c
    decreases |s|
  {
    if |s| > 0 && s[|s| - 1] == c then RStrip(s[..|s| - 1], c) else s
  }

  /** Python's `s.lstrip(c)`: every leading occurrence of `c` is removed, not just one. */
  function LStrip(s: string, c: char): (r: string)
    ensures |r| <= |s| && r == s[|s| - |r|..]
    ensures AllChar(s[..|s| - |r|], c)
    ensures r == [] || r[0] != c
    decreases |s|
  {
    if |s| > 0 && s[0] == c then LStrip(s[1..], c) else s
  }

  /** Stripping `x + t`, where `t` is made only of `c` and `x` does not end with `c`, gives back `x`. */
  lemma {:induction false} RStripExact(x: string, t: string, c: char)
    requires x == [] || x[|x| - 1] != c
    requires AllChar(t, c)
    ensures RStrip(x + t, c) == x
  {
    if t == [] {
      assert x + t == x;
    } else {
      assert (x + t)[..|x + t| - 1] == x + t[..|t| - 1];
      RStripExact(x, t[..|t| - 1], c);
    }
  }

  /** Stripping `t + y`, where `t` is made only of `c` and `y` does not start with `c`, gives back `y`. */
  lemma {:induction false} LStripExact(t: string, y: string, c: char)
    requires AllChar(t, c)
    requires y == [] || y[0] != c
    ensures LStrip(t + y, c) == y
  {
    if t == [] {
      assert t + y == y;
    } else {
      assert (t + y)[1..] == t[1..] + y;
      LStripExact(t[1..], y, c);
    }
  }

  /** Python's `str.upper()` on one character, for the ASCII letters. */
  function UpperChar(c: char): (u: char)
    ensures 'a' <= c <= 'z' ==> 'A' <= u <= 'Z' && u as int - c as int == 'A' as int - 'a' as int
    ensures !('a' <= c <= 'z') ==> u == c
  {
    if 'a' <= c <= 'z' then (c as int - 'a' as int + 'A' as int) as char else c
  }

  /** Python's `s.upper()`, character by character. */
  function Upper(s: string): (r: string)
    ensures |r| == |s|
    ensures forall i :: 0 <= i < |s| ==> r[i] == UpperChar(s[i])
  {
    seq(|s|, i requires 0 <= i < |s| => UpperChar(s[i]))
  }

  /** `Upper(s)` is `u` exactly when `s` spells `u` up to the case of each letter. */
  lemma UpperIsUppercase(s: string, u: string)
    requires forall i :: 0 <= i < |u| ==> 'A' <= u[i] <= 'Z'
    ensures Upper(s) == u <==>
      |s| == |u| && forall i :: 0 <= i < |s| ==> s[i] == u[i] || s[i] as int == u[i] as int - 'A' as int + 'a' as int
  {
    if |s| == |u| && forall i :: 0 <= i < |s| ==> s[i] == u[i] || s[i] as int == u[i] as int - 'A' as int + 'a' as int {
      forall i | 0 <= i < |s| ensures Upper(s)[i] == u[i] {
        assert UpperChar(s[i]) == u[i];
      }
    }
  }

  /** The character of the decimal digit `d`. */
  function DigitChar(d: nat): (c: char)
    requires d < 10
    ensures '0' <= c <= '9' && c as int - '0' as int == d
  {
    ('0' as int + d) as char
  }

  /** True when `s` is made only of decimal digits. */
  predicate IsDigits(s: string)
  {
    forall i :: 0 <= i < |s| ==> '0' <= s[i] <= '9'
  }

  /** Python's `str(n)` for a non-negative integer: at least one decimal digit, and no leading zero unless the string is `"0"`. */
  function NatToString(n: nat): (r: string)
    ensures |r| >= 1 && IsDigits(r)
    ensures r[0] == '0' ==> n == 0
    ensures |r| > 1 ==> r[0] != '0'
    decreases n
  {
    if n < 10 then [DigitChar(n)] else NatToString(n / 10) + [DigitChar(n % 10)]
  }

  /** Python's `str(i)` for any integer: a minus sign before the digits of a negative number. */
  function IntToString(i: int): (r: string)
    ensures |r| >= 1
    ensures i < 0 <==> r[0] == '-'
    ensures i >= 0 && |r| > 1 ==> r[0] != '0'
    ensures i < 0 ==> |r| >= 2 && r[1] != '0'
    ensures forall k :: 0 <= k < |r| ==> ('0' <= r[k] <= '9') || (k == 0 && r[k] == '-')
  {
    if i < 0 then "-" + NatToString(-i) else NatToString(i)
  }

  /** The value of a string of decimal digits (the inverse of `NatToString`). */
  function ParseNat(s: string): nat
    requires IsDigits(s)
  {
    if s == [] then 0 else 10 * ParseNat(s[..|s| - 1]) + (s[|s| - 1] as int - '0' as int)
  }

  /** The value of an optional minus sign followed by decimal digits (the inverse of `IntToString`). */
  function ParseInt(s: string): int
    requires |s| >= 1
    requires forall k :: 0 <= k < |s| ==> ('0' <= s[k] <= '9') || (k == 0 && s[k] == '-')
  {
    if s[0] == '-' then -(ParseNat(s[1..]) as int) else ParseNat(s)
  }

  lemma {:induction false} ParseNatToString(n: nat)
    ensures ParseNat(NatToString(n)) == n
    decreases n
  {
    if n >= 10 {
      var s := NatToString(n);
      assert s[..|s| - 1] == NatToString(n / 10);
      ParseNatToString(n / 10);
    }
  }

  /** Rendering an integer in decimal loses nothing: parsing gives the integer back. */
  lemma ParseIntToString(i: int)
    ensures ParseInt(IntToString(i)) == i
  {
    if i < 0 {
      assert IntToString(i)[1..] == NatToString(-i);
      ParseNatToString(-i);
    } else {
      ParseNatToString(i);
    }
  }

  /** Distinct integers render to distinct strings. */
  lemma IntToStringInjective(a: int, b: int)
    requires IntToString(a) == IntToString(b)
    ensures a == b
  {
    ParseIntToString(a);
    ParseIntToString(b);
  }

  lemma IntToStringExample()
    ensures IntToString(42) == "42" && IntToString(-7) == "-7" && IntToString(0) == "0"
  {
    assert NatToString(4) == "4";
    assert NatToString(42) == NatToString(4) + ['2'];
  }
}
