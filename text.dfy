/** Character-level helpers shared by the formatters and validators: the JavaScript
    regular-expression classes `\d` and `\s`, `String.prototype.trim`, decimal
    digits and their value, ASCII `toLowerCase` and substring search. */
module Text {

  import Wrappers

  /** `\d` in a JavaScript regular expression: an ASCII decimal digit. */
  predicate IsDigit(c: char) {
    '0' <= c <= '9'
  }

  predicate AllDigits(s: string) {
    forall i :: 0 <= i < |s| ==> IsDigit(s[i])
  }

  /** `value.replace(/\D/g, '')`: the digits of `s`, in order. */
  function Digits(s: string): (r: string)
    ensures AllDigits(r) && |r| <= |s|
  {
    if s == [] then []
    else if IsDigit(s[0]) then [s[0]] + Digits(s[1..])
    else Digits(s[1..])
  }

  lemma {:induction false} DigitsAppend(a: string, b: string)
    ensures Digits(a + b) == Digits(a) + Digits(b)
  {
    if a == [] {
      assert a + b == b;
    } else {
      assert (a + b)[1..] == a[1..] + b;
      DigitsAppend(a[1..], b);
    }
  }

  lemma {:induction false} DigitsOfDigits(s: string)
    requires AllDigits(s)
    ensures Digits(s) == s
  {
    if s != [] {
      DigitsOfDigits(s[1..]);
    }
  }

  /** A character that is not a digit contributes nothing to `Digits`. */
  lemma DigitsOfSeparator(c: char)
    requires !IsDigit(c)
    ensures Digits([c]) == []
  {
    assert [c][1..] == [];
  }

  function DigitValue(c: char): (d: nat)
    requires IsDigit(c)
    ensures d < 10
  {
    c as int - '0' as int
  }

  function DigitChar(d: nat): (c: char)
    requires d < 10
    ensures IsDigit(c) && DigitValue(c) == d
  {
    ('0' as int + d) as char
  }

  function Pow10(n: nat): (p: nat)
    ensures p >= 1
  {
    if n == 0 then 1 else 10 * Pow10(n - 1)
  }

  /** The number a digit string denotes, most significant digit first
      (what `parseInt(s, 10)` returns for a non-empty all-digit `s`). */
  function Value(s: string): nat
    requires AllDigits(s)
  {
    if s == [] then 0 else Value(s[..|s| - 1]) * 10 + DigitValue(s[|s| - 1])
  }

  lemma {:induction false} ValueBound(s: string)
    requires AllDigits(s)
    ensures Value(s) < Pow10(|s|)
  {
    if s != [] {
      ValueBound(s[..|s| - 1]);
    }
  }

  lemma AllDigitsAppend(a: string, b: string)
    requires AllDigits(a) && AllDigits(b)
    ensures AllDigits(a + b)
  {
    forall i | 0 <= i < |a + b| ensures IsDigit((a + b)[i]) {
      if i < |a| { assert (a + b)[i] == a[i]; } else { assert (a + b)[i] == b[i - |a|]; }
    }
  }

  lemma ShiftDigit(x: int, p: int, y: int, d: int)
    ensures (x * p + y) * 10 + d == x * (p * 10) + (y * 10 + d)
  {
  }

  lemma {:induction false} ValueAppend(a: string, b: string)
    requires AllDigits(a) && AllDigits(b)
    ensures AllDigits(a + b)
    ensures Value(a + b) == Value(a) * Pow10(|b|) + Value(b)
  {
    AllDigitsAppend(a, b);
    if b == [] {
      assert a + b == a;
    } else {
      var b' := b[..|b| - 1];
      var ab := a + b;
      assert ab[..|ab| - 1] == a + b';
      assert ab[|ab| - 1] == b[|b| - 1];
      ValueAppend(a, b');
      ShiftDigit(Value(a), Pow10(|b'|), Value(b'), DigitValue(b[|b| - 1]));
    }
  }

  /** Leading zeros do not change the value. */
  lemma {:induction false} ValueLeadingZero(s: string)
    requires AllDigits(s)
    ensures AllDigits(['0'] + s) && Value(['0'] + s) == Value(s)
  {
    ValueAppend(['0'], s);
    assert ['0'][..0] == [];
  }

  /** `String(n)` for a natural number: its shortest decimal representation. */
  function Decimal(n: nat): (r: string)
    ensures |r| >= 1 && AllDigits(r)
    ensures |r| > 1 ==> r[0] != '0'
  {
    if n < 10 then [DigitChar(n)] else Decimal(n / 10) + [DigitChar(n % 10)]
  }

  lemma {:induction false} DecimalValue(n: nat)
    ensures Value(Decimal(n)) == n
  {
    if n >= 10 {
      DecimalValue(n / 10);
      var r := Decimal(n);
      assert r[..|r| - 1] == Decimal(n / 10);
    }
  }

  /** `String(n)` is injective: distinct numbers render differently. */
  lemma DecimalInjective(m: nat, n: nat)
    requires Decimal(m) == Decimal(n)
    ensures m == n
  {
    DecimalValue(m);
    DecimalValue(n);
  }

  /** Two-digit, zero-padded rendering of `n < 100` (the fraction of `toFixed(2)`). */
  function TwoDigits(n: nat): (r: string)
    requires n < 100
    ensures |r| == 2 && AllDigits(r)
  {
    [DigitChar(n / 10), DigitChar(n % 10)]
  }

  lemma TwoDigitsValue(n: nat)
    requires n < 100
    ensures Value(TwoDigits(n)) == n
  {
    var r := TwoDigits(n);
    assert r[..1] == [r[0]] && r[..1][..0] == [];
    assert Value(r[..1]) == DigitValue(r[0]) == n / 10;
    assert Value(r) == (n / 10) * 10 + n % 10;
  }

  /** `(cents / 100).toFixed(2).replace('.', ',')`, computed exactly on whole cents. */
  function CentsText(cents: nat): string {
    Decimal(cents / 100) + [','] + TwoDigits(cents % 100)
  }

  /** The shape `^\d+,\d{2}$`: digits, a comma, exactly two digits. */
  predicate PriceShape(s: string) {
    |s| >= 4 && s[|s| - 3] == ',' && AllDigits(s[..|s| - 3]) && AllDigits(s[|s| - 2..])
  }

  /** A separator contributes nothing to the digits. */
  lemma DigitsAround(x: string, c: char, y: string)
    requires !IsDigit(c)
    ensures Digits(x + [c] + y) == Digits(x) + Digits(y)
  {
    DigitsAppend(x + [c], y);
    DigitsAppend(x, [c]);
    DigitsOfSeparator(c);
  }

  /** The digits of a price-shaped string, i.e. with the comma taken out. */
  lemma PriceShapeDigits(s: string)
    requires PriceShape(s)
    ensures Digits(s) == s[..|s| - 3] + s[|s| - 2..]
  {
    var a, b := s[..|s| - 3], s[|s| - 2..];
    assert s == a + [','] + b;
    DigitsAround(a, ',', b);
    DigitsOfDigits(a);
    DigitsOfDigits(b);
  }

  /** `CentsText` has the price shape and its digits spell the cents value. */
  lemma CentsTextFacts(cents: nat)
    ensures PriceShape(CentsText(cents))
    ensures AllDigits(Digits(CentsText(cents)))
    ensures Value(Digits(CentsText(cents))) == cents
  {
    var t := CentsText(cents);
    var a, b := Decimal(cents / 100), TwoDigits(cents % 100);
    assert t[..|t| - 3] == a && t[|t| - 2..] == b;
    PriceShapeDigits(t);
    ValueAppend(a, b);
    DecimalValue(cents / 100);
    TwoDigitsValue(cents % 100);
  }

  /** `\s` / the characters `String.prototype.trim` removes (the common subset). */
  predicate IsWhitespace(c: char) {
    c == ' ' || c == '\t' || c == '\n' || c == '\r' || c == '\U{000B}' || c == '\U{000C}'
    || c == '\U{00A0}' || c == '\U{FEFF}'
  }

  function TrimStart(s: string): (r: string)
    ensures |r| <= |s| && r == s[|s| - |r|..]
    ensures r != [] ==> !IsWhitespace(r[0])
    ensures forall i :: 0 <= i < |s| - |r| ==> IsWhitespace(s[i])
  {
    if s != [] && IsWhitespace(s[0]) then TrimStart(s[1..]) else s
  }

  function TrimEnd(s: string): (r: string)
    ensures |r| <= |s| && r == s[..|r|]
    ensures r != [] ==> !IsWhitespace(r[|r| - 1])
    ensures forall i :: |r| <= i < |s| ==> IsWhitespace(s[i])
  {
    if s != [] && IsWhitespace(s[|s| - 1]) then TrimEnd(s[..|s| - 1]) else s
  }

  /** `s.trim()`. */
  function Trim(s: string): string {
    TrimEnd(TrimStart(s))
  }

  /** `!s.trim()`: the string is empty or all whitespace. */
  predicate IsBlank(s: string) {
    Trim(s) == []
  }

  lemma BlankIffAllWhitespace(s: string)
    ensures IsBlank(s) <==> forall i :: 0 <= i < |s| ==> IsWhitespace(s[i])
  {
    var t := TrimStart(s);
    if IsBlank(s) {
      assert |TrimEnd(t)| == 0;
    }
  }

  /** `toLowerCase` on ASCII letters; other characters are unchanged. */
  function LowerChar(c: char): char {
    if 'A' <= c <= 'Z' then (c as int + 32) as char else c
  }

  function ToLower(s: string): (r: string)
    ensures |r| == |s| && forall i :: 0 <= i < |s| ==> r[i] == LowerChar(s[i])
  {
    if s == [] then [] else [LowerChar(s[0])] + ToLower(s[1..])
  }

  predicate StartsWith(s: string, prefix: string) {
    |prefix| <= |s| && s[..|prefix|] == prefix
  }

  /** `needle` occurs in `haystack` starting at index `i`. */
  predicate OccursAt(haystack: string, needle: string, i: int) {
    0 <= i <= |haystack| - |needle| && haystack[i..i + |needle|] == needle
  }

  /** `haystack.includes(needle)`: `needle` occurs at some position. */
  predicate Contains(haystack: string, needle: string)
    decreases |haystack|
  {
    StartsWith(haystack, needle) || (haystack != [] && Contains(haystack[1..], needle))
  }

  lemma {:induction false} ContainsAt(haystack: string, needle: string)
    ensures Contains(haystack, needle) <==> exists i :: OccursAt(haystack, needle, i)
    decreases |haystack|
  {
    if haystack != [] {
      ContainsAt(haystack[1..], needle);
      if Contains(haystack[1..], needle) {
        var i :| OccursAt(haystack[1..], needle, i);
        assert haystack[i + 1..i + 1 + |needle|] == haystack[1..][i..i + |needle|];
        assert OccursAt(haystack, needle, i + 1);
      }
      if i :| OccursAt(haystack, needle, i) && i > 0 {
        assert haystack[1..][i - 1..i - 1 + |needle|] == haystack[i..i + |needle|];
        assert OccursAt(haystack[1..], needle, i - 1);
      }
    } else {
      if i :| OccursAt(haystack, needle, i) {
        assert i == 0 && StartsWith(haystack, needle);
      }
    }
    if OccursAt(haystack, needle, 0) {
      assert StartsWith(haystack, needle);
    }
  }

  /** The empty string is contained in every string. */
  lemma ContainsEmpty(haystack: string)
    ensures Contains(haystack, [])
  {
    assert StartsWith(haystack, []);
  }

  /** The longest run of digits at the start of `s`. */
  function LeadingDigits(s: string): (r: string)
    ensures AllDigits(r) && StartsWith(s, r)
    ensures |r| < |s| ==> !IsDigit(s[|r|])
  {
    if s != [] && IsDigit(s[0]) then [s[0]] + LeadingDigits(s[1..]) else []
  }

  /** The leading digits of a digit string followed by a non-digit (or by
      nothing) are that digit string. */
  lemma {:induction false} LeadingDigitsStop(digits: string, rest: string)
    requires AllDigits(digits) && (rest != [] ==> !IsDigit(rest[0]))
    ensures LeadingDigits(digits + rest) == digits
  {
    if digits == [] {
      assert digits + rest == rest;
    } else {
      assert (digits + rest)[1..] == digits[1..] + rest;
      LeadingDigitsStop(digits[1..], rest);
    }
  }

  lemma LeadingDigitsOfDigits(s: string)
    requires AllDigits(s)
    ensures LeadingDigits(s) == s
  {
    LeadingDigitsStop(s, []);
    assert s + [] == s;
  }

  /** `parseInt(s, 10)` for a string without leading whitespace: an optional sign
      and the leading digits; `None` stands for `NaN` (no digit after the sign). */
  function ParseInt(s: string): (r: Wrappers.Option<int>)
    ensures r.Some? <==> (|s| > 0 && (s[0] == '-' || s[0] == '+') && LeadingDigits(s[1..]) != [])
                         || LeadingDigits(s) != []
  {
    if |s| > 0 && (s[0] == '-' || s[0] == '+') then
      var d := LeadingDigits(s[1..]);
      if d == [] then Wrappers.None
      else if s[0] == '-' then Wrappers.Some(0 - Value(d) as int) else Wrappers.Some(Value(d) as int)
    else
      var d := LeadingDigits(s);
      if d == [] then Wrappers.None else Wrappers.Some(Value(d) as int)
  }

  /** `String(n)` parses back to `n`. */
  lemma ParseIntDecimal(n: nat)
    ensures ParseInt(Decimal(n)) == Wrappers.Some(n)
  {
    LeadingDigitsOfDigits(Decimal(n));
    DecimalValue(n);
  }

  /** `parseFloat(s)` for a plain decimal prefix `digits[.digits]` (also `.digits`);
      `None` stands for `NaN`. */
  function ParseFloat(s: string): Wrappers.Option<real> {
    var whole := LeadingDigits(s);
    var rest := s[|whole|..];
    var frac := if |rest| > 0 && rest[0] == '.' then LeadingDigits(rest[1..]) else [];
    if whole == [] && frac == [] then Wrappers.None
    else Wrappers.Some(PointValue(whole, frac))
  }

  /** The number written `whole.frac`. */
  function PointValue(whole: string, frac: string): real
    requires AllDigits(whole) && AllDigits(frac)
  {
    Value(whole) as real + Value(frac) as real / Pow10(|frac|) as real
  }

  /** `s.replace(from, to)` with a one-character pattern: only the first occurrence. */
  function ReplaceFirst(s: string, from: char, to: char): (r: string)
    ensures |r| == |s|
  {
    if s == [] then []
    else if s[0] == from then [to] + s[1..]
    else [s[0]] + ReplaceFirst(s[1..], from, to)
  }
}
