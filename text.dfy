/**
 * The JavaScript string primitives the components rely on, stated over
 * Dafny strings (sequences of Unicode scalar values): `trim`, `toLowerCase`,
 * `replace` with a one-character pattern, `includes`, `parseInt` and the
 * decimal rendering of a number in a template literal.
 */
module Text {
  import opened Wrappers

  // ---------------------------------------------------------------------
  // Whitespace and trim
  // ---------------------------------------------------------------------

  /** ECMAScript WhiteSpace and LineTerminator code points: what `trim` and `parseInt` skip. */
  predicate IsJsWhitespace(c: char)
  {
    || c == '\t' || c == '\n' || c == '\U{000B}' || c == '\U{000C}' || c == '\r'
    || c == ' ' || c == '\U{00A0}' || c == '\U{1680}'
    || ('\U{2000}' <= c <= '\U{200A}')
    || c == '\U{2028}' || c == '\U{2029}' || c == '\U{202F}' || c == '\U{205F}'
    || c == '\U{3000}' || c == '\U{FEFF}'
  }

  /** `s.trimStart()`: `s` without its leading whitespace. */
  function TrimStart(s: string): (r: string)
    ensures |r| <= |s| && r == s[|s| - |r|..]
    ensures r == [] || !IsJsWhitespace(r[0])
    ensures forall i :: 0 <= i < |s| - |r| ==> IsJsWhitespace(s[i])
  {
    if s != [] && IsJsWhitespace(s[0]) then TrimStart(s[1..]) else s
  }

  /** `s.trimEnd()`: `s` without its trailing whitespace. */
  function TrimEnd(s: string): (r: string)
    ensures |r| <= |s| && r == s[..|r|]
    ensures r == [] || !IsJsWhitespace(r[|r| - 1])
    ensures forall i :: |r| <= i < |s| ==> IsJsWhitespace(s[i])
  {
    if s != [] && IsJsWhitespace(s[|s| - 1]) then TrimEnd(s[..|s| - 1]) else s
  }

  /** `s.trim()`. */
  function Trim(s: string): (r: string)
    ensures |r| <= |s|
    ensures r == [] || (!IsJsWhitespace(r[0]) && !IsJsWhitespace(r[|r| - 1]))
  {
    TrimEnd(TrimStart(s))
  }

  /** `!s.trim()`: the string is falsy once trimmed. */
  predicate IsBlank(s: string)
  {
    Trim(s) == ""
  }

  /** A string trims to nothing exactly when every character of it is whitespace. */
  lemma BlankIffAllWhitespace(s: string)
    ensures IsBlank(s) <==> forall i :: 0 <= i < |s| ==> IsJsWhitespace(s[i])
  {
    var t := TrimStart(s);
    assert t != [] ==> t[0] == s[|s| - |t|];
  }

  // ---------------------------------------------------------------------
  // Lower-casing
  // ---------------------------------------------------------------------

  predicate IsAsciiUpper(c: char) { 'A' <= c <= 'Z' }

  /**
   * The lower-case form of one character. ASCII capitals map to ASCII small
   * letters; U+212A KELVIN SIGN maps to 'k' and U+0130 (capital I with dot)
   * to "i" followed by U+0307, as Unicode's default case mapping does. These
   * are the only characters whose lower-case form contains an ASCII letter;
   * every other character is kept as it is.
   */
  function LowerChar(c: char): string
  {
    if IsAsciiUpper(c) then [(c as int + 32) as char]
    else if c == '\U{212A}' then "k"
    else if c == '\U{0130}' then "i\U{0307}"
    else [c]
  }

  /** `s.toLowerCase()`, restricted as described at `LowerChar`. */
  function ToLower(s: string): (r: string)
    ensures |r| >= |s|
    ensures forall i :: 0 <= i < |r| ==> !IsAsciiUpper(r[i])
  {
    if s == [] then [] else LowerChar(s[0]) + ToLower(s[1..])
  }

  lemma {:induction false} ToLowerAppend(a: string, b: string)
    ensures ToLower(a + b) == ToLower(a) + ToLower(b)
  {
    if a == [] {
      assert a + b == b;
    } else {
      assert (a + b)[0] == a[0] && (a + b)[1..] == a[1..] + b;
      ToLowerAppend(a[1..], b);
    }
  }

  lemma LowerCharIsLower(c: char)
    ensures ToLower(LowerChar(c)) == LowerChar(c)
  {
    var l := LowerChar(c);
    if c == '\U{0130}' {
      assert l == ['i'] + ['\U{0307}'];
      ToLowerAppend(['i'], ['\U{0307}']);
    } else {
      assert l[1..] == [];
    }
  }

  /** Lower-casing twice is lower-casing once. */
  lemma {:induction false} ToLowerIdempotent(s: string)
    ensures ToLower(ToLower(s)) == ToLower(s)
  {
    if s != [] {
      ToLowerAppend(LowerChar(s[0]), ToLower(s[1..]));
      LowerCharIsLower(s[0]);
      ToLowerIdempotent(s[1..]);
    }
  }

  // ---------------------------------------------------------------------
  // Searching and replacing
  // ---------------------------------------------------------------------

  /** `s.includes(sub)`: `sub` occurs in `s` at some position. */
  predicate Contains(s: string, sub: string)
  {
    (|sub| <= |s| && s[..|sub|] == sub) || (s != [] && Contains(s[1..], sub))
  }

  /** An occurrence at position `i` makes `sub` a part of `s`. */
  lemma {:induction false} ContainsAt(s: string, sub: string, i: nat)
    requires i + |sub| <= |s| && s[i..i + |sub|] == sub
    ensures Contains(s, sub)
  {
    if i > 0 {
      assert s[1..][i - 1..i - 1 + |sub|] == s[i..i + |sub|];
      ContainsAt(s[1..], sub, i - 1);
    }
  }

  /** A part of `s` occurs at some position of it. */
  lemma {:induction false} ContainsWitness(s: string, sub: string) returns (i: nat)
    requires Contains(s, sub)
    ensures i + |sub| <= |s| && s[i..i + |sub|] == sub
  {
    if |sub| <= |s| && s[..|sub|] == sub {
      i := 0;
    } else {
      var j := ContainsWitness(s[1..], sub);
      assert s[1..][j..j + |sub|] == s[j + 1..j + 1 + |sub|];
      i := j + 1;
    }
  }

  /** Text added on either side never removes an occurrence. */
  lemma ContainsInConcat(a: string, b: string, sub: string)
    requires Contains(a, sub) || Contains(b, sub)
    ensures Contains(a + b, sub)
  {
    if Contains(a, sub) {
      var i := ContainsWitness(a, sub);
      assert (a + b)[i..i + |sub|] == a[i..i + |sub|];
      ContainsAt(a + b, sub, i);
    } else {
      var i := ContainsWitness(b, sub);
      assert (a + b)[|a| + i..|a| + i + |sub|] == b[i..i + |sub|];
      ContainsAt(a + b, sub, |a| + i);
    }
  }

  /** `s.indexOf(c)` for a character `s` holds: the position of its first occurrence. */
  function IndexOf(s: string, c: char): (k: nat)
    requires c in s
    ensures k < |s| && s[k] == c && c !in s[..k]
  {
    if s[0] == c then 0
    else
      var k := IndexOf(s[1..], c);
      assert s[..k + 1] == [s[0]] + s[1..][..k];
      k + 1
  }

  /** `s.replace(c, '')` for a one-character pattern: only the FIRST occurrence goes. */
  function RemoveFirst(s: string, c: char): (r: string)
    ensures c !in s ==> r == s
    ensures c in s ==> |r| == |s| - 1 && r[..IndexOf(s, c)] == s[..IndexOf(s, c)]
    ensures c in s ==> r[IndexOf(s, c)..] == s[IndexOf(s, c) + 1..]
  {
    if c in s then s[..IndexOf(s, c)] + s[IndexOf(s, c) + 1..] else s
  }

  /** Removing a character from a text without capitals leaves none. */
  lemma RemoveFirstKeepsNoCapital(s: string, c: char)
    requires forall i :: 0 <= i < |s| ==> !IsAsciiUpper(s[i])
    ensures forall i :: 0 <= i < |RemoveFirst(s, c)| ==> !IsAsciiUpper(RemoveFirst(s, c)[i])
  {
    var r := RemoveFirst(s, c);
    if c in s {
      var k := IndexOf(s, c);
      forall i | 0 <= i < |r| ensures !IsAsciiUpper(r[i]) {
        if i < k {
          assert r[i] == r[..k][i] == s[i];
        } else {
          assert r[i] == r[k..][i - k] == s[i + 1];
        }
      }
    }
  }

  /** No occurrence comes before the one `IndexOf` finds. */
  lemma {:induction false} IndexOfIsFirst(s: string, c: char, i: nat)
    requires i < |s| && s[i] == c
    ensures IndexOf(s, c) <= i
  {
    if s[0] != c {
      IndexOfIsFirst(s[1..], c, i - 1);
    }
  }

  /** A second occurrence of the character survives the replacement. */
  lemma RemoveFirstKeepsLater(s: string, c: char, i: nat, j: nat)
    requires i < j < |s| && s[i] == c && s[j] == c
    ensures c in RemoveFirst(s, c)
  {
    var k, r := IndexOf(s, c), RemoveFirst(s, c);
    IndexOfIsFirst(s, c, i);
    assert r[k..][j - 1 - k] == s[k + 1..][j - 1 - k];
    assert r[j - 1] == c;
  }

  /** For instance, only the first of two spaces goes. */
  lemma RemoveFirstOfTwoSpaces()
    ensures RemoveFirst("a b c", ' ') == "ab c"
  {
    var s := "a b c";
    assert s[1] == ' ' && s[0] != ' ';
    assert IndexOf(s, ' ') == 1 by {
      assert s[..1] == "a";
    }
  }

  // ---------------------------------------------------------------------
  // Numbers in text
  // ---------------------------------------------------------------------

  predicate IsDecimalDigit(c: char) { '0' <= c <= '9' }

  /** The characters `parseInt` accepts as digits in base 10 or base 16. */
  predicate IsRadixDigit(c: char, radix: nat)
  {
    IsDecimalDigit(c) || (radix == 16 && ('a' <= c <= 'f' || 'A' <= c <= 'F'))
  }

  function DigitValue(c: char): nat
  {
    if IsDecimalDigit(c) then c as int - '0' as int
    else if 'a' <= c <= 'f' then c as int - 'a' as int + 10
    else if 'A' <= c <= 'F' then c as int - 'A' as int + 10
    else 0
  }

  /** The length of the longest prefix of `s` made of digits of the radix. */
  function DigitRunLength(s: string, radix: nat): (n: nat)
    ensures n <= |s|
    ensures forall i :: 0 <= i < n ==> IsRadixDigit(s[i], radix)
    ensures n == |s| || !IsRadixDigit(s[n], radix)
  {
    if s != [] && IsRadixDigit(s[0], radix) then 1 + DigitRunLength(s[1..], radix) else 0
  }

  /** The value of a string of digits read most significant first. */
  function DigitsValue(ds: string, radix: nat): nat
  {
    if ds == [] then 0 else DigitsValue(ds[..|ds| - 1], radix) * radix + DigitValue(ds[|ds| - 1])
  }

  /**
   * `parseInt(s)` with no radix argument: skip leading whitespace, take an
   * optional sign, read base 16 after a "0x"/"0X" prefix and base 10
   * otherwise, and stop at the first character that is not a digit. `None`
   * stands for `NaN`, the result when no digit is read. Negative zero is 0.
   */
  function ParseInt(s: string): (r: Option<int>)
  {
    var t := TrimStart(s);
    var negative := t != [] && t[0] == '-';
    var unsigned := if t != [] && (t[0] == '-' || t[0] == '+') then t[1..] else t;
    match ParseMagnitude(unsigned)
    case None => None
    case Some(m) =>
      var value := if negative then -(m as int) else m as int;
      Some(value)
  }

  /** The part of `parseInt` after the sign: radix prefix and digits. */
  function ParseMagnitude(u: string): (r: Option<nat>)
  {
    var hex := |u| >= 2 && u[0] == '0' && (u[1] == 'x' || u[1] == 'X');
    var radix := if hex then 16 else 10;
    var digits := if hex then u[2..] else u;
    var n := DigitRunLength(digits, radix);
    if n == 0 then None else Some(DigitsValue(digits[..n], radix))
  }

  /** The decimal rendering of a natural number, as `${n}` writes it. */
  function DecimalString(n: nat): (r: string)
    ensures |r| >= 1
    ensures forall i :: 0 <= i < |r| ==> IsDecimalDigit(r[i])
    ensures |r| > 1 ==> r[0] != '0'
  {
    var last := [('0' as int + n % 10) as char];
    if n < 10 then last else DecimalString(n / 10) + last
  }

  /** `${i}` for any integer: a minus sign before the magnitude of a negative number. */
  function IntString(i: int): (r: string)
    ensures r != ""
  {
    if i < 0 then "-" + DecimalString(-i) else DecimalString(i)
  }

  lemma {:induction false} DecimalStringValue(n: nat)
    ensures DigitsValue(DecimalString(n), 10) == n
  {
    var r := DecimalString(n);
    if n >= 10 {
      DecimalStringValue(n / 10);
      assert r[..|r| - 1] == DecimalString(n / 10);
    }
  }

  lemma {:induction false} DigitRunOfDigitsThenStop(ds: string, rest: string, radix: nat)
    requires forall i :: 0 <= i < |ds| ==> IsRadixDigit(ds[i], radix)
    requires rest == [] || !IsRadixDigit(rest[0], radix)
    ensures DigitRunLength(ds + rest, radix) == |ds|
  {
    if ds != [] {
      assert (ds + rest)[1..] == ds[1..] + rest;
      DigitRunOfDigitsThenStop(ds[1..], rest, radix);
    }
  }

  /**
   * Reading back a rendered number: `parseInt` of the decimal rendering of
   * `n`, followed by any text that does not continue the number, is `n`.
   */
  lemma ParseIntDecimal(n: nat, rest: string)
    requires rest == [] || !IsDecimalDigit(rest[0])
    requires n == 0 && rest != [] ==> rest[0] != 'x' && rest[0] != 'X'
    ensures ParseInt(DecimalString(n) + rest) == Some(n)
  {
    var s := DecimalString(n) + rest;
    assert s[0] == DecimalString(n)[0];
    ParseMagnitudeDecimal(n, rest);
    ParseIntOfUnsigned(s);
  }

  /** Text that starts with a digit is read by `parseInt` without sign or whitespace handling. */
  lemma ParseIntOfUnsigned(s: string)
    requires s != [] && IsDecimalDigit(s[0])
    ensures ParseMagnitude(s).Some? ==> ParseInt(s) == Some(ParseMagnitude(s).value)
  {
    assert !IsJsWhitespace(s[0]);
  }

  lemma ParseMagnitudeDecimal(n: nat, rest: string)
    requires rest == [] || !IsDecimalDigit(rest[0])
    requires n == 0 && rest != [] ==> rest[0] != 'x' && rest[0] != 'X'
    ensures ParseMagnitude(DecimalString(n) + rest) == Some(n)
  {
    var ds := DecimalString(n);
    var u := ds + rest;
    assert |u| >= 2 && u[0] == '0' ==> |ds| == 1 && u[1] == rest[0];
    DigitRunOfDigitsThenStop(ds, rest, 10);
    assert u[..|ds|] == ds;
    DecimalStringValue(n);
  }
}
