/**
 * String operations that the assistant applies to text: the removal of double
 * quotes from generated titles, Python's `str.strip()` and the decimal
 * rendering of integers inside f-strings.
 */
module Text {

  /** Removes every `"` character (`s.replace('"', "")`). */
  function RemoveQuotes(s: string): (r: string)
    ensures '"' !in r
    ensures |r| <= |s|
    ensures forall c :: c != '"' ==> multiset(r)[c] == multiset(s)[c]
    decreases |s|
  {
    if s == [] then []
    else
      var rest := RemoveQuotes(s[1..]);
      assert s == [s[0]] + s[1..];
      if s[0] == '"' then rest else [s[0]] + rest
  }

  /** `sub` can be obtained from `s` by deleting characters: the others keep their order. */
  ghost predicate IsSubsequence(sub: string, s: string)
    decreases |s|
  {
    if sub == [] then true
    else if s == [] then false
    else if sub[0] == s[0] then IsSubsequence(sub[1..], s[1..])
    else IsSubsequence(sub, s[1..])
  }

  lemma {:induction false} RemoveQuotesIsSubsequence(s: string)
    ensures IsSubsequence(RemoveQuotes(s), s)
    decreases |s|
  {
    if s != [] {
      RemoveQuotesIsSubsequence(s[1..]);
      if s[0] != '"' {
        assert ([s[0]] + RemoveQuotes(s[1..]))[1..] == RemoveQuotes(s[1..]);
      }
    }
  }

  /** Removing quotes twice is the same as removing them once. */
  lemma {:induction false} RemoveQuotesIdempotent(s: string)
    ensures RemoveQuotes(RemoveQuotes(s)) == RemoveQuotes(s)
  {
    RemoveQuotesOfQuoteFree(RemoveQuotes(s));
  }

  lemma {:induction false} RemoveQuotesOfQuoteFree(s: string)
    requires '"' !in s
    ensures RemoveQuotes(s) == s
    decreases |s|
  {
    if s != [] {
      assert s[0] in s;
      assert forall c :: c in s[1..] ==> c in s;
      RemoveQuotesOfQuoteFree(s[1..]);
    }
  }

  /** Quote removal works piece by piece: it distributes over concatenation. */
  lemma {:induction false} RemoveQuotesAppend(a: string, b: string)
    ensures RemoveQuotes(a + b) == RemoveQuotes(a) + RemoveQuotes(b)
    decreases |a|
  {
    if a == [] {
      assert a + b == b;
    } else {
      assert (a + b)[1..] == a[1..] + b;
      RemoveQuotesAppend(a[1..], b);
    }
  }

  /** The characters Python's `str.isspace()` accepts, which `str.strip()` removes. */
  predicate IsSpace(c: char)
  {
    || ('\t' <= c <= '\r') || ('\U{1C}' <= c <= '\U{1F}') || c == ' '
    || c == '\U{85}' || c == '\U{A0}' || c == '\U{1680}' || ('\U{2000}' <= c <= '\U{200A}')
    || c == '\U{2028}' || c == '\U{2029}' || c == '\U{202F}' || c == '\U{205F}' || c == '\U{3000}'
  }

  /** Drops the leading whitespace. */
  function TrimLeft(s: string): string
    decreases |s|
  {
    if s != [] && IsSpace(s[0]) then TrimLeft(s[1..]) else s
  }

  /** Drops the trailing whitespace. */
  function TrimRight(s: string): string
    decreases |s|
  {
    if s != [] && IsSpace(s[|s| - 1]) then TrimRight(s[..|s| - 1]) else s
  }

  /** TrimLeft removes a prefix made only of whitespace and stops at the first other character. */
  lemma {:induction false} TrimLeftShape(s: string)
    ensures var r := TrimLeft(s);
      && |r| <= |s| && r == s[|s| - |r|..]
      && (r == [] || !IsSpace(r[0]))
      && forall i :: 0 <= i < |s| - |r| ==> IsSpace(s[i])
    decreases |s|
  {
    if s != [] && IsSpace(s[0]) {
      TrimLeftShape(s[1..]);
    }
  }

  /** TrimRight removes a suffix made only of whitespace and stops at the last other character. */
  lemma {:induction false} TrimRightShape(s: string)
    ensures var r := TrimRight(s);
      && |r| <= |s| && r == s[..|r|]
      && (r == [] || !IsSpace(r[|r| - 1]))
      && forall i :: |r| <= i < |s| ==> IsSpace(s[i])
    decreases |s|
  {
    if s != [] && IsSpace(s[|s| - 1]) {
      TrimRightShape(s[..|s| - 1]);
    }
  }

  /** Python's `str.strip()` with no argument. */
  function Strip(s: string): string
  {
    TrimRight(TrimLeft(s))
  }

  /**
   * The stripped string neither starts nor ends with whitespace, is no
   * longer than the original, and a string without whitespace is unchanged.
   */
  lemma StripShape(s: string)
    ensures var r := Strip(s);
      && (r == [] || (!IsSpace(r[0]) && !IsSpace(r[|r| - 1])))
      && |r| <= |s|
      && ((forall i :: 0 <= i < |s| ==> !IsSpace(s[i])) ==> r == s)
  {
    var t := TrimLeft(s);
    TrimLeftShape(s);
    TrimRightShape(t);
    var r := TrimRight(t);
    if r != [] {
      assert r[0] == t[0];
    }
    assert |t| < |s| ==> IsSpace(s[0]);
    assert |t| == |s| ==> t == s;
    assert |r| < |t| ==> IsSpace(t[|t| - 1]);
  }

  /** `sep.join(pieces)`. */
  function Join(pieces: seq<string>, sep: string): string
  {
    if pieces == [] then ""
    else if |pieces| == 1 then pieces[0]
    else pieces[0] + sep + Join(pieces[1..], sep)
  }

  /** The decimal digit character for `d`. */
  function DigitChar(d: nat): (c: char)
    requires d < 10
    ensures '0' <= c <= '9' && (c as int) - ('0' as int) == d
  {
    (('0' as int) + d) as char
  }

  /** Decimal rendering of a natural number, as `str(n)` or an f-string gives it. */
  function NatToString(n: nat): (r: string)
    ensures |r| >= 1
    ensures forall c :: c in r ==> '0' <= c <= '9'
    ensures r[0] == '0' ==> n == 0
    decreases n
  {
    if n < 10 then [DigitChar(n)] else NatToString(n / 10) + [DigitChar(n % 10)]
  }

  /** The number a string of decimal digits denotes, most significant digit first. */
  ghost function DecimalValue(digits: string): int
  {
    if digits == [] then 0
    else 10 * DecimalValue(digits[..|digits| - 1]) + ((digits[|digits| - 1] as int) - ('0' as int))
  }

  /** The rendering denotes the number it renders, so distinct numbers get distinct strings. */
  lemma {:induction false} NatToStringValue(n: nat)
    ensures DecimalValue(NatToString(n)) == n
    decreases n
  {
    var r := NatToString(n);
    if n < 10 {
      assert r[..0] == [];
    } else {
      NatToStringValue(n / 10);
      assert r[..|r| - 1] == NatToString(n / 10);
    }
  }

  /** Decimal rendering of an integer, with a leading `-` when it is negative. */
  function IntToString(n: int): (r: string)
  {
    if n < 0 then "-" + NatToString(-n) else NatToString(n)
  }

  /** A non-negative integer renders as its digits; a negative one as `-` and the digits of its magnitude. */
  lemma IntToStringValue(n: int)
    ensures n >= 0 ==> DecimalValue(IntToString(n)) == n
    ensures n < 0 ==> IntToString(n)[0] == '-' && DecimalValue(IntToString(n)[1..]) == -n
  {
    if n < 0 {
      NatToStringValue(-n);
      assert IntToString(n)[1..] == NatToString(-n);
    } else {
      NatToStringValue(n);
    }
  }
}
