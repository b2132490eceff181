/** The string operations of Python that the client uses: `str` of an integer, `str.upper`, and `%`-interpolation. */
module Strings {

  predicate IsDigit(c: char) {
    '0' <= c <= '9'
  }

  function DigitChar(d: nat): (c: char)
    requires d < 10
    ensures IsDigit(c) && c as int - '0' as int == d
  {
    ('0' as int + d) as char
  }

  /** `str(n)` for a non-negative integer: its decimal digits, without leading zeros. */
  function NatToString(n: nat): (s: string)
    ensures |s| >= 1
    ensures forall i :: 0 <= i < |s| ==> IsDigit(s[i])
    ensures s[0] == '0' ==> n == 0
    decreases n
  {
    if n < 10 then [DigitChar(n)] else NatToString(n / 10) + [DigitChar(n % 10)]
  }

  /** `str(n)` for any integer: a minus sign before the digits of a negative one. */
  function IntToString(n: int): (s: string)
    ensures |s| >= 1
    ensures forall i :: 0 <= i < |s| ==> IsDigit(s[i]) || (i == 0 && s[i] == '-')
  {
    if n < 0 then "-" + NatToString(-n) else NatToString(n)
  }

  function DigitValue(c: char): nat
    requires IsDigit(c)
  {
    c as int - '0' as int
  }

  /** The value of a string of decimal digits, read left to right. */
  function ParseNat(s: string): nat
    requires forall i :: 0 <= i < |s| ==> IsDigit(s[i])
  {
    if s == [] then 0 else ParseNat(s[..|s| - 1]) * 10 + DigitValue(s[|s| - 1])
  }

  /** `int(s)` for the strings `IntToString` produces. */
  function ParseInt(s: string): int
    requires |s| >= 1
    requires forall i :: 0 <= i < |s| ==> IsDigit(s[i]) || (i == 0 && s[i] == '-')
  {
    if s[0] == '-' then 0 - ParseNat(s[1..]) else ParseNat(s)
  }

  lemma {:induction false} ParseNatToString(n: nat)
    ensures ParseNat(NatToString(n)) == n
  {
    if n >= 10 {
      ParseNatToString(n / 10);
      var s := NatToString(n);
      assert s[..|s| - 1] == NatToString(n / 10);
    }
  }

  /** Decimal text is faithful: reading back `str(n)` gives `n`, so different integers print differently. */
  lemma IntToStringRoundTrip(n: int)
    ensures ParseInt(IntToString(n)) == n
  {
    if n < 0 {
      ParseNatToString(-n);
      assert IntToString(n)[1..] == NatToString(-n);
    } else {
      ParseNatToString(n);
    }
  }

  /** `c.upper()` for ASCII letters; every other character is left as it is. */
  function UpperChar(c: char): char {
    if 'a' <= c <= 'z' then (c as int - 32) as char else c
  }

  /** `s.upper()`, character by character. */
  function Upper(s: string): (r: string)
    ensures |r| == |s|
    ensures forall i :: 0 <= i < |s| ==> r[i] == UpperChar(s[i])
  {
    if s == [] then [] else [UpperChar(s[0])] + Upper(s[1..])
  }

  predicate IsUpperLetter(c: char) {
    'A' <= c <= 'Z'
  }

  /** A character upper-cases to a capital letter exactly when it is that letter or its small form. */
  lemma UpperCharMatches(c: char, d: char)
    requires IsUpperLetter(d)
    ensures UpperChar(c) == d <==> c == d || c as int == d as int + 32
  {
  }

  /**
   * Case-insensitive matching: `t.upper()` equals an all-capitals word `u` exactly when
   * `t` spells `u` letter by letter in either case.
   */
  lemma UpperMatches(t: string, u: string)
    requires forall i :: 0 <= i < |u| ==> IsUpperLetter(u[i])
    ensures Upper(t) == u <==>
      |t| == |u| && forall i :: 0 <= i < |t| ==> t[i] == u[i] || t[i] as int == u[i] as int + 32
  {
    var r := Upper(t);
    if |t| == |u| {
      forall i | 0 <= i < |t|
        ensures r[i] == u[i] <==> t[i] == u[i] || t[i] as int == u[i] as int + 32
      {
        UpperCharMatches(t[i], u[i]);
      }
      assert r == u <==> forall i :: 0 <= i < |t| ==> r[i] == u[i];
    }
  }

  /** Upper-casing twice is upper-casing once. */
  lemma UpperIdempotent(s: string)
    ensures Upper(Upper(s)) == Upper(s)
  {
    assert forall i :: 0 <= i < |s| ==> Upper(Upper(s))[i] == Upper(s)[i];
  }

  /**
   * The text of a `%` template whose conversions are all filled: the literal pieces
   * `lits` and the converted arguments `args` alternate, starting and ending with a literal.
   * It is built from the left, one argument and the literal after it at a time.
   */
  function Interleave(lits: seq<string>, args: seq<string>): string
    requires |lits| == |args| + 1
    decreases |args|
  {
    if args == [] then lits[0]
    else Interleave(lits[..|args|], args[..|args| - 1]) + args[|args| - 1] + lits[|args|]
  }

  /** One conversion: literal, argument, literal. */
  lemma InterleaveOne(lits: seq<string>, args: seq<string>)
    requires |lits| == 2 && |args| == 1
    ensures Interleave(lits, args) == lits[0] + args[0] + lits[1]
  {
    assert Interleave(lits[..1], args[..0]) == lits[0];
  }

  /** Two conversions, written out. */
  lemma InterleaveTwo(lits: seq<string>, args: seq<string>)
    requires |lits| == 3 && |args| == 2
    ensures Interleave(lits, args) == lits[0] + args[0] + lits[1] + args[1] + lits[2]
  {
    var l, a := lits[..2], args[..1];
    InterleaveOne(l, a);
    assert l[0] == lits[0] && l[1] == lits[1] && a[0] == args[0];
  }

  /** Three conversions, written out. */
  lemma InterleaveThree(lits: seq<string>, args: seq<string>)
    requires |lits| == 4 && |args| == 3
    ensures Interleave(lits, args) == lits[0] + args[0] + lits[1] + args[1] + lits[2] + args[2] + lits[3]
  {
    var l, a := lits[..3], args[..2];
    InterleaveTwo(l, a);
    assert l[0] == lits[0] && l[1] == lits[1] && l[2] == lits[2] && a[0] == args[0] && a[1] == args[1];
  }

  /** Four conversions, written out. */
  lemma InterleaveFour(lits: seq<string>, args: seq<string>)
    requires |lits| == 5 && |args| == 4
    ensures Interleave(lits, args) ==
      lits[0] + args[0] + lits[1] + args[1] + lits[2] + args[2] + lits[3] + args[3] + lits[4]
  {
    var l, a := lits[..4], args[..3];
    InterleaveThree(l, a);
    assert l[0] == lits[0] && l[1] == lits[1] && l[2] == lits[2] && l[3] == lits[3];
    assert a[0] == args[0] && a[1] == args[1] && a[2] == args[2];
  }

  /** Formatting the first pieces of a template gives a prefix of formatting all of it. */
  lemma {:induction false} InterleaveExtends(lits: seq<string>, args: seq<string>, i: nat)
    requires |lits| == |args| + 1 && i <= |args|
    ensures Interleave(lits[..i + 1], args[..i]) <= Interleave(lits, args)
    decreases |args| - i
  {
    if i == |args| {
      assert lits[..i + 1] == lits && args[..i] == args;
    } else {
      InterleaveExtends(lits, args, i + 1);
      var l, a := lits[..i + 2], args[..i + 1];
      assert l[..i + 1] == lits[..i + 1] && a[..i] == args[..i];
      var p := Interleave(lits[..i + 1], args[..i]);
      assert Interleave(l, a) == p + args[i] + lits[i + 1];
      assert p <= Interleave(l, a);
    }
  }

  /**
   * Argument `i` appears unchanged in the formatted text, right after the formatted text of the
   * pieces before it, and is followed by the literal after it: the arguments keep their order.
   */
  lemma InterleavePlacesArgument(lits: seq<string>, args: seq<string>, i: nat)
    requires |lits| == |args| + 1 && i < |args|
    ensures var s, p := Interleave(lits, args), Interleave(lits[..i + 1], args[..i]);
      p + args[i] + lits[i + 1] <= s &&
      s[|p|..|p| + |args[i]|] == args[i]
  {
    InterleaveExtends(lits, args, i + 1);
    var l, a := lits[..i + 2], args[..i + 1];
    assert l[..i + 1] == lits[..i + 1] && a[..i] == args[..i];
    var p := Interleave(lits[..i + 1], args[..i]);
    assert Interleave(l, a) == p + args[i] + lits[i + 1];
  }
}
