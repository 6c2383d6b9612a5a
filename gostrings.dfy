/**
 * The parts of Go's `strings`, `unicode` and `strconv` packages that the database parser
 * relies on, over strings of Unicode code points.
 */
module GoStrings {
  import opened Wrappers

  /** `unicode.IsSpace`: the Latin-1 spaces and the other Unicode White_Space code points. */
  predicate IsSpace(c: char)
  {
    c == ' ' || c == '\t' || c == '\n' || c == '\U{000B}' || c == '\U{000C}' || c == '\r'
    || c == '\U{0085}' || c == '\U{00A0}' || c == '\U{1680}'
    || ('\U{2000}' <= c <= '\U{200A}')
    || c == '\U{2028}' || c == '\U{2029}' || c == '\U{202F}' || c == '\U{205F}' || c == '\U{3000}'
  }

  /** `strings.TrimLeftFunc`: drop the longest prefix whose code points all satisfy `cut`. */
  function TrimLeftFunc(s: string, cut: char -> bool): string
  {
    if s != [] && cut(s[0]) then TrimLeftFunc(s[1..], cut) else s
  }

  /** `strings.TrimRightFunc`: drop the longest suffix whose code points all satisfy `cut`. */
  function TrimRightFunc(s: string, cut: char -> bool): string
  {
    if s != [] && cut(s[|s| - 1]) then TrimRightFunc(s[..|s| - 1], cut) else s
  }

  /** `strings.TrimFunc`: trim on both ends. */
  function TrimFunc(s: string, cut: char -> bool): string
  {
    TrimRightFunc(TrimLeftFunc(s, cut), cut)
  }

  /** `strings.TrimSpace`. */
  function TrimSpace(s: string): string
  {
    TrimFunc(s, IsSpace)
  }

  /** `strings.Trim(s, cutset)`: trim every code point that occurs in `cutset`. */
  function Trim(s: string, cutset: string): string
  {
    TrimFunc(s, c => c in cutset)
  }

  /** TrimLeftFunc keeps a suffix, drops only code points that satisfy `cut`, and stops at one that does not. */
  lemma {:induction false} TrimLeftFuncCuts(s: string, cut: char -> bool, r: string)
    requires r == TrimLeftFunc(s, cut)
    ensures |r| <= |s| && r == s[|s| - |r|..]
    ensures r != [] ==> !cut(r[0])
    ensures forall i :: 0 <= i < |s| - |r| ==> cut(s[i])
  {
    if s != [] && cut(s[0]) {
      TrimLeftFuncCuts(s[1..], cut, r);
    }
  }

  /** TrimRightFunc keeps a prefix, drops only code points that satisfy `cut`, and stops at one that does not. */
  lemma {:induction false} TrimRightFuncCuts(s: string, cut: char -> bool, r: string)
    requires r == TrimRightFunc(s, cut)
    ensures |r| <= |s| && r == s[..|r|]
    ensures r != [] ==> !cut(r[|r| - 1])
    ensures forall i :: |r| <= i < |s| ==> cut(s[i])
  {
    if s != [] && cut(s[|s| - 1]) {
      TrimRightFuncCuts(s[..|s| - 1], cut, r);
    }
  }

  /** TrimFunc leaves no cut code point at either end, and empties exactly the strings made only of them. */
  lemma TrimFuncCuts(s: string, cut: char -> bool, r: string)
    requires r == TrimFunc(s, cut)
    ensures r != [] ==> !cut(r[0]) && !cut(r[|r| - 1])
    ensures r == [] <==> forall i :: 0 <= i < |s| ==> cut(s[i])
  {
    var l := TrimLeftFunc(s, cut);
    TrimLeftFuncCuts(s, cut, l);
    TrimRightFuncCuts(l, cut, r);
    if r != [] {
      assert r[0] == l[0];
    }
  }

  /** TrimSpace leaves no white space at either end, and empties exactly the all-space strings. */
  lemma TrimSpaceCuts(s: string)
    ensures TrimSpace(s) == [] <==> forall i :: 0 <= i < |s| ==> IsSpace(s[i])
    ensures TrimSpace(s) != [] ==> !IsSpace(TrimSpace(s)[0]) && !IsSpace(TrimSpace(s)[|TrimSpace(s)| - 1])
  {
    TrimFuncCuts(s, IsSpace, TrimSpace(s));
  }

  /** Trim leaves no code point of the cutset at either end. */
  lemma TrimCuts(s: string, cutset: string)
    ensures Trim(s, cutset) != [] ==> Trim(s, cutset)[0] !in cutset && Trim(s, cutset)[|Trim(s, cutset)| - 1] !in cutset
  {
    TrimFuncCuts(s, c => c in cutset, Trim(s, cutset));
  }

  predicate HasPrefix(s: string, prefix: string)
  {
    |prefix| <= |s| && s[..|prefix|] == prefix
  }

  predicate HasSuffix(s: string, suffix: string)
  {
    |suffix| <= |s| && s[|s| - |suffix|..] == suffix
  }

  /** Lower-case one code point (ASCII letters only). */
  function LowerChar(c: char): (r: char)
    ensures 'A' <= c <= 'Z' ==> 'a' <= r <= 'z' && r as int - c as int == 32
    ensures !('A' <= c <= 'Z') ==> r == c
  {
    if 'A' <= c <= 'Z' then (c as int + 32) as char else c
  }

  /** `strings.ToLower`, restricted to the ASCII letters. */
  function ToLower(s: string): string
  {
    seq(|s|, i requires 0 <= i < |s| => LowerChar(s[i]))
  }

  /** The string has no upper-case ASCII letter. */
  predicate NoUpper(s: string)
  {
    forall i :: 0 <= i < |s| ==> !('A' <= s[i] <= 'Z')
  }

  /** ToLower leaves no upper-case letter, so applying it twice changes nothing more, and it fixes every string that has none. */
  lemma ToLowerLowers(s: string)
    ensures NoUpper(ToLower(s))
    ensures ToLower(ToLower(s)) == ToLower(s)
    ensures NoUpper(s) <==> ToLower(s) == s
  {
    if ToLower(s) == s {
      forall i | 0 <= i < |s| ensures !('A' <= s[i] <= 'Z') {
        assert ToLower(s)[i] == LowerChar(s[i]);
      }
    }
  }

  predicate IsDigit(c: char)
  {
    '0' <= c <= '9'
  }

  predicate AllDigits(s: string)
  {
    forall i :: 0 <= i < |s| ==> IsDigit(s[i])
  }

  /** The value of a string of decimal digits, most significant first. */
  function DigitsValue(s: string): nat
    requires AllDigits(s)
  {
    if s == [] then 0 else 10 * DigitsValue(s[..|s| - 1]) + (s[|s| - 1] as int - '0' as int)
  }

  const MaxUint64: nat := 0xFFFF_FFFF_FFFF_FFFF
  const MinInt64: int := -0x8000_0000_0000_0000
  const MaxInt64: int := 0x7FFF_FFFF_FFFF_FFFF

  /** The value of a non-empty string of decimal digits, or None for any other string. */
  function DigitsOf(s: string): Option<nat>
  {
    if s == [] || !IsDigit(s[|s| - 1]) then None
    else
      var d := s[|s| - 1] as int - '0' as int;
      if |s| == 1 then Some(d)
      else match DigitsOf(s[..|s| - 1])
        case None => None
        case Some(v) => Some(10 * v + d)
  }

  /** DigitsOf reads exactly the non-empty digit strings, with their positional value. */
  lemma {:induction false} DigitsOfValue(s: string)
    ensures DigitsOf(s) == if s != [] && AllDigits(s) then Some(DigitsValue(s)) else None
  {
    if s != [] && IsDigit(s[|s| - 1]) && |s| > 1 {
      var a := s[..|s| - 1];
      DigitsOfValue(a);
      if AllDigits(a) {
        assert a[..|a|] == a;
        assert DigitsValue(a[..0]) == 0;
      } else {
        var i :| 0 <= i < |a| && !IsDigit(a[i]);
        assert s[i] == a[i];
      }
    } else if |s| == 1 && IsDigit(s[0]) {
      assert s[..0] == [];
    }
  }

  /**
   * `strconv.ParseUint(s, 10, 64)`: one or more decimal digits, no sign, no underscores,
   * and a value that fits in 64 bits; `None` stands for the syntax and range errors.
   */
  function ParseUint(s: string): Option<nat>
  {
    match DigitsOf(s)
    case None => None
    case Some(v) => if v <= MaxUint64 then Some(v) else None
  }

  /**
   * `strconv.ParseInt(s, 10, 64)`: an optional `+` or `-`, then one or more decimal digits,
   * with a value in the signed 64-bit range.
   */
  function ParseInt(s: string): Option<int>
  {
    var signed := s != [] && (s[0] == '+' || s[0] == '-');
    match DigitsOf(if signed then s[1..] else s)
    case None => None
    case Some(v) =>
      if signed && s[0] == '-' then
        if v <= -MinInt64 then Some(-(v as int)) else None
      else
        if v <= MaxInt64 then Some(v) else None
  }

  /** The parsers accept only values in range: ParseUint the 64-bit naturals, ParseInt the signed 64-bit integers. */
  lemma ParseRanges(s: string)
    ensures ParseUint(s).Some? ==> ParseUint(s).value <= MaxUint64
    ensures ParseInt(s).Some? ==> MinInt64 <= ParseInt(s).value <= MaxInt64
  {
  }

  /** The digit character for 0 <= d < 10. */
  function Digit(d: nat): (c: char)
    requires d < 10
    ensures IsDigit(c) && c as int - '0' as int == d
  {
    ('0' as int + d) as char
  }

  /** The shortest decimal spelling of a natural number (the `strconv.FormatUint` format). */
  function Decimal(n: nat): (s: string)
    ensures s != [] && AllDigits(s)
  {
    if n < 10 then [Digit(n)] else Decimal(n / 10) + [Digit(n % 10)]
  }

  /** The decimal spelling of an integer, with a leading `-` when it is negative. */
  function SignedDecimal(i: int): string
  {
    if i < 0 then "-" + Decimal(-i) else Decimal(i)
  }

  lemma {:induction false} DecimalValue(n: nat)
    ensures DigitsValue(Decimal(n)) == n
  {
    if n >= 10 {
      var s := Decimal(n / 10) + [Digit(n % 10)];
      assert s[..|s| - 1] == Decimal(n / 10);
      DecimalValue(n / 10);
    }
  }

  /** ParseUint reads back every 64-bit value that Decimal writes. */
  lemma ParseUintDecimal(n: nat)
    requires n <= MaxUint64
    ensures ParseUint(Decimal(n)) == Some(n)
  {
    DecimalValue(n);
    DigitsOfValue(Decimal(n));
  }

  /** ParseInt reads back every signed 64-bit value that SignedDecimal writes. */
  lemma ParseIntDecimal(i: int)
    requires MinInt64 <= i <= MaxInt64
    ensures ParseInt(SignedDecimal(i)) == Some(i)
  {
    var s := SignedDecimal(i);
    if i < 0 {
      DecimalValue(-i);
      assert s[1..] == Decimal(-i);
      DigitsOfValue(Decimal(-i));
    } else {
      DecimalValue(i);
      DigitsOfValue(Decimal(i));
    }
  }

  /** ParseUint refuses a sign, where ParseInt accepts one. */
  lemma ParseUintRejectsSign(s: string)
    ensures ParseUint("+" + s) == None && ParseUint("-" + s) == None
  {
    DigitsOfValue("+" + s);
    DigitsOfValue("-" + s);
    assert !IsDigit(("+" + s)[0]) && !IsDigit(("-" + s)[0]);
  }
}
