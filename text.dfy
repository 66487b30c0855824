/**
 * String helpers with JavaScript semantics: `startsWith`, `includes`,
 * `join`, number-to-string conversion of integral values (as template
 * literals and `toString()` produce it) and the global `parseInt` with no
 * radix argument.
 */
module Text {
  import opened Wrappers

  /** `s.startsWith(prefix)` */
  predicate StartsWith(s: string, prefix: string) {
    |prefix| <= |s| && s[..|prefix|] == prefix
  }

  /** `s.includes(needle)`: some position of `s` starts with `needle`. */
  predicate Contains(s: string, needle: string)
    decreases |s|
  {
    StartsWith(s, needle) || (|s| > 0 && Contains(s[1..], needle))
  }

  /** `needle` occurs in `s` at index `i`. */
  predicate OccursAt(s: string, needle: string, i: nat) {
    i + |needle| <= |s| && s[i..i + |needle|] == needle
  }

  /** `Contains` agrees with the definition by an occurrence index. */
  lemma {:induction false} ContainsAt(s: string, needle: string)
    ensures Contains(s, needle) <==> exists i: nat :: OccursAt(s, needle, i)
    decreases |s|
  {
    if StartsWith(s, needle) {
      assert OccursAt(s, needle, 0);
    } else if |s| == 0 {
      assert forall i: nat :: !OccursAt(s, needle, i);
    } else {
      ContainsAt(s[1..], needle);
      if exists i: nat :: OccursAt(s, needle, i) {
        var i: nat :| OccursAt(s, needle, i);
        assert i != 0;
        assert s[1..][i - 1..i - 1 + |needle|] == s[i..i + |needle|];
        assert OccursAt(s[1..], needle, i - 1);
      }
      if Contains(s[1..], needle) {
        var j: nat :| OccursAt(s[1..], needle, j);
        assert s[1..][j..j + |needle|] == s[j + 1..j + 1 + |needle|];
        assert OccursAt(s, needle, j + 1);
      }
    }
  }

  /** A string contains every string that it starts with, and a longer
      string contains everything its suffix contains. */
  lemma {:induction false} ContainsConcat(a: string, b: string, needle: string)
    requires Contains(b, needle)
    ensures Contains(a + b, needle)
    decreases |a|
  {
    if |a| == 0 {
      assert a + b == b;
    } else {
      assert (a + b)[1..] == a[1..] + b;
      ContainsConcat(a[1..], b, needle);
    }
  }

  /** A string lacking one of the needle's characters does not contain
      the needle. */
  lemma MissingCharNotContained(s: string, needle: string, j: nat)
    requires j < |needle|
    requires forall i :: 0 <= i < |s| ==> s[i] != needle[j]
    ensures !Contains(s, needle)
  {
    forall i: nat
      ensures !OccursAt(s, needle, i)
    {
      if i + |needle| <= |s| {
        assert s[i..i + |needle|][j] == s[i + j];
      }
    }
    ContainsAt(s, needle);
  }

  /** `parts.join(sep)` */
  function Join(parts: seq<string>, sep: string): (r: string)
    ensures parts == [] ==> r == ""
    ensures |parts| == 1 ==> r == parts[0]
  {
    if |parts| == 0 then ""
    else if |parts| == 1 then parts[0]
    else parts[0] + sep + Join(parts[1..], sep)
  }

  function DigitChar(d: nat): (c: char)
    requires d < 10
    ensures '0' <= c <= '9'
  {
    ['0', '1', '2', '3', '4', '5', '6', '7', '8', '9'][d]
  }

  /** Decimal representation of a non-negative integer, no leading zeros. */
  function NatToDecimal(n: nat): (r: string)
    ensures |r| > 0
    ensures forall i :: 0 <= i < |r| ==> '0' <= r[i] <= '9'
    ensures |r| > 1 ==> r[0] != '0'
  {
    if n < 10 then [DigitChar(n)] else NatToDecimal(n / 10) + [DigitChar(n % 10)]
  }

  /** `${n}` or `n.toString()` for an integral number. */
  function IntToDecimal(n: int): (r: string)
    ensures |r| > 0
  {
    if n < 0 then ['-'] + NatToDecimal(-n) else NatToDecimal(n)
  }

  /** Part of the characters that `parseInt` skips before the number: the
      ECMAScript white-space and line-terminator characters of the Basic
      Latin and Latin-1 blocks plus LS, PS and the byte-order mark. The
      other Unicode space separators (U+1680, U+2000 to U+200A, U+202F,
      U+205F, U+3000) are not included. */
  predicate IsJsSpace(c: char) {
    c == ' ' || c == '\t' || c == '\n' || c == '\r' || c == '\U{B}' || c == '\U{C}'
    || c == '\U{A0}' || c == '\U{2028}' || c == '\U{2029}' || c == '\U{FEFF}'
  }

  function TrimStart(s: string): (r: string)
    ensures |r| <= |s| && r == s[|s| - |r|..]
    ensures |r| > 0 ==> !IsJsSpace(r[0])
  {
    if |s| > 0 && IsJsSpace(s[0]) then TrimStart(s[1..]) else s
  }

  lemma TrimStartNoSpace(s: string)
    requires |s| > 0 && (s[0] == '-' || '0' <= s[0] <= '9')
    ensures TrimStart(s) == s
  {
    assert !IsJsSpace(s[0]);
  }

  /** Value of a digit in bases up to 36: `0-9`, then `a-z` / `A-Z`;
      36 for anything else. */
  function DigitValue(c: char): (v: nat)
    ensures v <= 36
  {
    if '0' <= c <= '9' then c as int - '0' as int
    else if 'a' <= c <= 'z' then c as int - 'a' as int + 10
    else if 'A' <= c <= 'Z' then c as int - 'A' as int + 10
    else 36
  }

  predicate IsDigitIn(c: char, radix: nat) {
    DigitValue(c) < radix
  }

  /** Length of the longest prefix of `s` made of digits of `radix`. */
  function DigitPrefixLength(s: string, radix: nat): (n: nat)
    ensures n <= |s|
    ensures forall i :: 0 <= i < n ==> IsDigitIn(s[i], radix)
    ensures n < |s| ==> !IsDigitIn(s[n], radix)
  {
    if |s| > 0 && IsDigitIn(s[0], radix) then 1 + DigitPrefixLength(s[1..], radix) else 0
  }

  /** Value of a digit string, most significant digit first. */
  function DigitsValue(ds: string, radix: nat): nat {
    if |ds| == 0 then 0
    else DigitsValue(ds[..|ds| - 1], radix) * radix + DigitValue(ds[|ds| - 1])
  }

  /**
   * The global `parseInt(s)` with no radix on integral results: leading
   * white space is skipped, one `+` or `-` is read, a `0x`/`0X` prefix
   * selects base 16, the longest run of digits is read and the rest is
   * ignored. `None` is the `NaN` that an empty digit run gives.
   */
  function ParseInt(s: string): (r: Option<int>)
  {
    var t := TrimStart(s);
    if |t| > 0 && t[0] == '-' then
      Negated(ParseUnsigned(t[1..]))
    else if |t| > 0 && t[0] == '+' then ParseUnsigned(t[1..])
    else ParseUnsigned(t)
  }

  function Negated(v: Option<nat>): Option<int> {
    if v.Some? then Some(-(v.value as int)) else None
  }

  /** `parseInt` after the sign: hexadecimal prefix, then the digit run. */
  function ParseUnsigned(u: string): (r: Option<nat>)
  {
    var hex := |u| >= 2 && u[0] == '0' && (u[1] == 'x' || u[1] == 'X');
    var radix := if hex then 16 else 10;
    var body := if hex then u[2..] else u;
    var n := DigitPrefixLength(body, radix);
    if n == 0 then None else Some(DigitsValue(body[..n], radix))
  }

  lemma {:induction false} DecimalValue(n: nat)
    ensures DigitsValue(NatToDecimal(n), 10) == n
  {
    if n >= 10 {
      var d := NatToDecimal(n / 10) + [DigitChar(n % 10)];
      assert d[..|d| - 1] == NatToDecimal(n / 10);
      DecimalValue(n / 10);
    }
  }

  lemma DigitPrefixOfDigits(ds: string, rest: string, radix: nat)
    requires forall i :: 0 <= i < |ds| ==> IsDigitIn(ds[i], radix)
    requires |rest| == 0 || !IsDigitIn(rest[0], radix)
    ensures DigitPrefixLength(ds + rest, radix) == |ds|
    decreases |ds|
  {
    if |ds| > 0 {
      assert (ds + rest)[1..] == ds[1..] + rest;
      DigitPrefixOfDigits(ds[1..], rest, radix);
    } else {
      assert ds + rest == rest;
    }
  }

  lemma {:induction false} ParseUnsignedOfDecimal(m: nat, rest: string)
    requires |rest| == 0 || !IsDigitIn(rest[0], 10)
    requires m == 0 && |rest| > 0 ==> rest[0] != 'x' && rest[0] != 'X'
    ensures ParseUnsigned(NatToDecimal(m) + rest) == Some(m)
  {
    var ds := NatToDecimal(m);
    var u := ds + rest;
    assert !(|u| >= 2 && u[0] == '0' && (u[1] == 'x' || u[1] == 'X')) by {
      if |ds| > 1 { assert u[0] == ds[0]; }
      else if |u| >= 2 { assert u[1] == rest[0]; }
    }
    DigitPrefixOfDigits(ds, rest, 10);
    assert u[..|ds|] == ds;
    DecimalValue(m);
  }

  /**
   * `parseInt` reads back what number-to-string wrote, and stops at the
   * first character that is not a decimal digit: `parseInt("1234.5")`
   * is 1234. (After a lone "0", an `x` would start a hexadecimal number.)
   */
  lemma {:induction false} ParseIntOfDecimal(n: int, rest: string)
    requires |rest| == 0 || !IsDigitIn(rest[0], 10)
    requires n == 0 && |rest| > 0 ==> rest[0] != 'x' && rest[0] != 'X'
    ensures ParseInt(IntToDecimal(n) + rest) == Some(n)
  {
    if n < 0 {
      var m: nat := -n;
      ParseIntOfNegative(m, rest);
      assert -(m as int) == n;
    } else {
      var s := NatToDecimal(n) + rest;
      ParseUnsignedOfDecimal(n, rest);
      TrimStartNoSpace(s);
      ParseIntOfDigits(s, n);
    }
  }

  lemma ParseIntOfDigits(s: string, m: nat)
    requires |s| > 0 && '0' <= s[0] <= '9' && TrimStart(s) == s && ParseUnsigned(s) == Some(m)
    ensures ParseInt(s) == Some(m)
  {
  }

  lemma ParseIntOfNegative(m: nat, rest: string)
    requires m > 0
    requires |rest| == 0 || !IsDigitIn(rest[0], 10)
    ensures ParseInt(IntToDecimal(-(m as int)) + rest) == Some(-(m as int))
  {
    var ds := NatToDecimal(m);
    var s := IntToDecimal(-(m as int)) + rest;
    assert s == ['-'] + (ds + rest) by {
      assert IntToDecimal(-(m as int)) == ['-'] + ds;
      ConcatAssoc(['-'], ds, rest);
    }
    assert s[1..] == ds + rest;
    TrimStartNoSpace(s);
    ParseUnsignedOfDecimal(m, rest);
    ParseIntOfMinus(s, m);
  }

  lemma ParseIntOfMinus(s: string, m: nat)
    requires |s| > 0 && s[0] == '-' && TrimStart(s) == s && ParseUnsigned(s[1..]) == Some(m)
    ensures ParseInt(s) == Some(-(m as int))
  {
  }

  lemma HeadTail(s: string)
    requires |s| > 0
    ensures [s[0]] + s[1..] == s
  {
  }

  lemma ConcatAssoc(a: string, b: string, c: string)
    ensures (a + b) + c == a + (b + c)
  {
  }
}
