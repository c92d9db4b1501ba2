/** The PHP scalar values the modelled code stores, fetches and compares, with the three PHP
    operations on them that its branches depend on: `empty()`, the loose comparison `==`/`!=`
    and the `(int)` cast. The rules are those of PHP 7; a numeric string is modelled in its
    integer form only (leading whitespace, an optional sign, decimal digits). */
module Php {

  datatype Value = Null | Bool(b: bool) | Int(i: int) | Str(s: string)

  /** PHP's conversion to boolean. */
  function ToBool(v: Value): bool
  {
    match v
    case Null => false
    case Bool(b) => b
    case Int(i) => i != 0
    case Str(s) => s != "" && s != "0"
  }

  /** PHP's `empty()`: a value is empty when it converts to false, and the scalar values it
      accepts are exactly null, false, 0, "" and "0". */
  predicate Empty(v: Value): (r: bool)
    ensures r <==> v == Null || v == Bool(false) || v == Int(0) || v == Str("") || v == Str("0")
  {
    !ToBool(v)
  }

  predicate IsSpace(c: char)
  {
    c == ' ' || c == '\t' || c == '\n' || c == '\r' || c as int == 11 || c as int == 12
  }

  predicate IsDigit(c: char)
  {
    '0' <= c <= '9'
  }

  predicate AllDigits(s: string)
  {
    forall i :: 0 <= i < |s| ==> IsDigit(s[i])
  }

  /** `s` without its leading whitespace. */
  function SkipSpace(s: string): (r: string)
    ensures |r| <= |s| && r == s[|s| - |r|..]
    ensures forall i :: 0 <= i < |s| - |r| ==> IsSpace(s[i])
    ensures r == [] || !IsSpace(r[0])
  {
    if |s| > 0 && IsSpace(s[0]) then SkipSpace(s[1..]) else s
  }

  /** The longest prefix of `s` made of decimal digits. */
  function DigitPrefix(s: string): (r: string)
    ensures |r| <= |s| && r == s[..|r|]
    ensures AllDigits(r)
    ensures |r| == |s| || !IsDigit(s[|r|])
  {
    if |s| > 0 && IsDigit(s[0]) then [s[0]] + DigitPrefix(s[1..]) else []
  }

  /** The number a string of decimal digits denotes. */
  function DigitsValue(d: string): nat
    requires AllDigits(d)
  {
    if d == [] then 0 else DigitsValue(d[..|d| - 1]) * 10 + (d[|d| - 1] as int - '0' as int)
  }

  /** The part of `s` after its leading whitespace and one optional sign. */
  function Unsigned(s: string): string
  {
    var t := SkipSpace(s);
    if |t| > 0 && (t[0] == '-' || t[0] == '+') then t[1..] else t
  }

  predicate Negative(s: string)
  {
    var t := SkipSpace(s);
    |t| > 0 && t[0] == '-'
  }

  /** PHP's conversion of a string to an integer: the leading integer of the string, 0 when it
      has none. */
  function LeadingInt(s: string): int
  {
    var n: int := DigitsValue(DigitPrefix(Unsigned(s)));
    if Negative(s) then -n else n
  }

  /** A numeric string, in integer form. */
  predicate IsIntegerString(s: string)
  {
    var u := Unsigned(s);
    |u| > 0 && AllDigits(u)
  }

  /** PHP's loose comparison `a == b`. Null equals exactly the empty values other than "0";
      a string that is not numeric equals another string only when they are identical. */
  predicate LooseEquals(a: Value, b: Value): (r: bool)
    ensures b == Null ==> (r <==> Empty(a) && a != Str("0"))
    ensures a.Str? && b.Str? && !IsIntegerString(a.s) ==> (r <==> a == b)
  {
    match (a, b)
    case (Bool(x), _) => x == ToBool(b)
    case (_, Bool(y)) => ToBool(a) == y
    case (Null, Null) => true
    case (Null, Int(j)) => j == 0
    case (Int(i), Null) => i == 0
    case (Null, Str(t)) => t == ""
    case (Str(s), Null) => s == ""
    case (Int(i), Int(j)) => i == j
    case (Int(i), Str(t)) => i == LeadingInt(t)
    case (Str(s), Int(j)) => LeadingInt(s) == j
    case (Str(s), Str(t)) =>
      if IsIntegerString(s) && IsIntegerString(t) then LeadingInt(s) == LeadingInt(t) else s == t
  }

  /** Loose equality is reflexive and symmetric, and identical values are loosely equal. */
  lemma LooseEqualsReflexive(a: Value)
    ensures LooseEquals(a, a)
  {
  }

  lemma LooseEqualsSymmetric(a: Value, b: Value)
    ensures LooseEquals(a, b) == LooseEquals(b, a)
  {
  }

  /** A string that starts with a letter has no leading integer and is not numeric. */
  lemma LetterFirst(s: string)
    requires |s| > 0 && 'a' <= s[0] <= 'z'
    ensures LeadingInt(s) == 0 && !IsIntegerString(s)
  {
    assert !IsSpace(s[0]) && !IsDigit(s[0]);
    assert SkipSpace(s) == s;
    assert Unsigned(s) == s;
    assert DigitPrefix(s) == [];
    assert !Negative(s);
  }

  /** Loose equality is not transitive: null == 0 and 0 == "abc", but null != "abc". */
  lemma LooseEqualsNotTransitive()
    ensures LooseEquals(Null, Int(0)) && LooseEquals(Int(0), Str("abc")) && !LooseEquals(Null, Str("abc"))
  {
    LetterFirst("abc");
  }

  /** PHP's `(int)` cast: empty values cast to 0, a string of digits to the number it denotes. */
  function IntCast(v: Value): (r: int)
    ensures Empty(v) ==> r == 0
    ensures v.Str? && AllDigits(v.s) ==> r == DigitsValue(v.s)
  {
    match v
    case Null => 0
    case Bool(b) => if b then 1 else 0
    case Int(i) => i
    case Str(s) => DigitsCast(s); LeadingInt(s)
  }

  /** A string of digits, without space or sign, is its own leading integer. */
  lemma DigitsCast(s: string)
    ensures AllDigits(s) ==> LeadingInt(s) == DigitsValue(s)
  {
    if AllDigits(s) && |s| > 0 {
      assert IsDigit(s[0]) && !IsSpace(s[0]);
      assert SkipSpace(s) == s;
      assert Unsigned(s) == s && !Negative(s);
      var d := DigitPrefix(s);
      assert |d| == |s|;
      assert d == s;
    }
  }

  function UpperChar(c: char): char
  {
    if 'a' <= c <= 'z' then (c as int - 32) as char else c
  }

  /** PHP's `strtoupper`: ASCII letters upper-cased, every other character kept. */
  function Upper(s: string): (r: string)
    ensures |r| == |s|
    ensures forall i :: 0 <= i < |s| ==> r[i] == UpperChar(s[i])
  {
    if s == [] then [] else [UpperChar(s[0])] + Upper(s[1..])
  }
}
