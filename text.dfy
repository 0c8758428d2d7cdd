/**
 * The fragments of Python's `str` and number parsing that the dialogues rely on:
 * `str.strip()`, `str.split(sep)`, `str.isdigit()`, `str.startswith`, `int(...)`,
 * `float(...)` and `str(int)`.  Only the ASCII range is modelled.
 */
module Text {
  import opened Wrappers

  /** The ASCII characters for which Python's `str.isspace()` holds. */
  predicate IsSpace(c: char) {
    c == ' ' || c == '\t' || c == '\n' || c == '\r' || c == '\U{000B}' || c == '\U{000C}'
    || c == '\U{001C}' || c == '\U{001D}' || c == '\U{001E}' || c == '\U{001F}'
  }

  /** Both ends of `s` (if any) are not whitespace. */
  predicate Stripped(s: string) {
    s == [] || (!IsSpace(s[0]) && !IsSpace(s[|s| - 1]))
  }

  function TrimLeft(s: string): (r: string)
    ensures |r| <= |s| && r == s[|s| - |r|..]
    ensures forall i :: 0 <= i < |s| - |r| ==> IsSpace(s[i])
    ensures r == [] || !IsSpace(r[0])
    decreases |s|
  {
    if |s| > 0 && IsSpace(s[0]) then TrimLeft(s[1..]) else s
  }

  function TrimRight(s: string): (r: string)
    ensures |r| <= |s| && r == s[..|r|]
    ensures forall i :: |r| <= i < |s| ==> IsSpace(s[i])
    ensures r == [] || !IsSpace(r[|r| - 1])
    decreases |s|
  {
    if |s| > 0 && IsSpace(s[|s| - 1]) then TrimRight(s[..|s| - 1]) else s
  }

  /** `s.strip()`: leading and trailing whitespace removed, nothing else. */
  function Strip(s: string): (r: string)
    ensures Stripped(r)
    ensures |r| <= |s|
    ensures Stripped(s) ==> r == s
  {
    var l := TrimLeft(s);
    var r := TrimRight(l);
    assert r != [] ==> r[0] == l[0];
    assert Stripped(s) ==> l == s;
    assert Stripped(l) ==> r == l;
    r
  }

  /** Every character of `t` is whitespace. */
  predicate SpaceOnly(t: string) {
    forall k :: 0 <= k < |t| ==> IsSpace(t[k])
  }

  /**
   * What `strip()` keeps is a contiguous piece of the text, and what it removes
   * on either side is whitespace only.
   */
  lemma StripRemovesOnlyWhitespace(s: string)
    ensures exists i, j :: 0 <= i <= j <= |s| && Strip(s) == s[i..j] && SpaceOnly(s[..i]) && SpaceOnly(s[j..])
  {
    var l := TrimLeft(s);
    var r := TrimRight(l);
    var i := |s| - |l|;
    var j := i + |r|;
    assert l == s[i..];
    assert r == l[..|r|];
    assert r == s[i..j] by {
      forall k | 0 <= k < |r| ensures r[k] == s[i..j][k] {
        assert r[k] == l[k] == s[i + k];
      }
    }
    assert SpaceOnly(s[..i]) by {
      forall k | 0 <= k < i ensures IsSpace(s[..i][k]) {
        assert s[..i][k] == s[k];
      }
    }
    assert SpaceOnly(s[j..]) by {
      forall k | 0 <= k < |s| - j ensures IsSpace(s[j..][k]) {
        assert s[j..][k] == l[|r| + k];
      }
    }
    assert Strip(s) == r;
    assert 0 <= i <= j <= |s| && Strip(s) == s[i..j] && SpaceOnly(s[..i]) && SpaceOnly(s[j..]);
  }

  lemma {:induction false} TrimLeftPadded(pad: string, s: string)
    requires forall i :: 0 <= i < |pad| ==> IsSpace(pad[i])
    ensures TrimLeft(pad + s) == TrimLeft(s)
    decreases |pad|
  {
    if pad != [] {
      var p := pad + s;
      assert p[0] == pad[0] && IsSpace(p[0]);
      assert p[1..] == pad[1..] + s;
      assert TrimLeft(p) == TrimLeft(p[1..]);
      TrimLeftPadded(pad[1..], s);
    } else {
      assert pad + s == s;
    }
  }

  /** Whitespace in front of a string does not survive `strip()`. */
  lemma StripLeadingSpace(pad: string, s: string)
    requires forall i :: 0 <= i < |pad| ==> IsSpace(pad[i])
    ensures Strip(pad + s) == Strip(s)
  {
    TrimLeftPadded(pad, s);
  }

  /** Stripping twice is stripping once. */
  lemma StripIdempotent(s: string)
    ensures Strip(Strip(s)) == Strip(s)
  {
  }

  predicate StartsWith(s: string, prefix: string) {
    |prefix| <= |s| && s[..|prefix|] == prefix
  }

  // ---------------------------------------------------------------------
  // str.split(sep) with a one-character separator, and its inverse join

  /** `s.split(sep)`: the maximal pieces of `s` between occurrences of `sep`. */
  function Split(s: string, sep: char): (r: seq<string>)
    ensures |r| >= 1
    ensures forall i :: 0 <= i < |r| ==> sep !in r[i]
    decreases |s|
  {
    if s == [] then [[]]
    else
      var rest := Split(s[1..], sep);
      if s[0] == sep then [[]] + rest
      else [[s[0]] + rest[0]] + rest[1..]
  }

  /** `sep.join(parts)`. */
  function Join(parts: seq<string>, sep: char): string
    requires |parts| >= 1
    decreases |parts|
  {
    if |parts| == 1 then parts[0] else parts[0] + [sep] + Join(parts[1..], sep)
  }

  /** Joining the pieces of a split gives back the original text. */
  lemma {:induction false} JoinSplit(s: string, sep: char)
    ensures Join(Split(s, sep), sep) == s
    decreases |s|
  {
    if s != [] {
      JoinSplit(s[1..], sep);
      var rest := Split(s[1..], sep);
      if s[0] != sep {
        if |rest| > 1 {
          assert Join(rest, sep) == rest[0] + [sep] + Join(rest[1..], sep);
          assert [[s[0]] + rest[0]] + rest[1..] == [[s[0]] + rest[0]] + rest[1..];
          assert ([[s[0]] + rest[0]] + rest[1..])[1..] == rest[1..];
        }
        assert s == [s[0]] + s[1..];
      } else {
        assert ([[]] + rest)[1..] == rest;
        assert s == [sep] + s[1..];
      }
    }
  }

  /** Text without the separator is a single piece. */
  lemma {:induction false} SplitNoSep(s: string, sep: char)
    requires sep !in s
    ensures Split(s, sep) == [s]
    decreases |s|
  {
    if s != [] {
      assert sep !in s[1..] by {
        forall c | c in s[1..] ensures c in s { }
      }
      SplitNoSep(s[1..], sep);
      assert [s[0]] + s[1..] == s;
    }
  }

  /** A separator after a separator-free prefix ends the first piece. */
  lemma {:induction false} SplitAppend(a: string, b: string, sep: char)
    requires sep !in a
    ensures Split(a + [sep] + b, sep) == [a] + Split(b, sep)
    decreases |a|
  {
    var s := a + [sep] + b;
    if a == [] {
      assert s[1..] == b;
    } else {
      assert s[1..] == a[1..] + [sep] + b;
      assert sep !in a[1..] by {
        forall c | c in a[1..] ensures c in a { }
      }
      SplitAppend(a[1..], b, sep);
      assert [a[0]] + a[1..] == a;
    }
  }

  /** Splitting separator-free pieces joined by the separator gives back the pieces. */
  lemma {:induction false} SplitJoin(parts: seq<string>, sep: char)
    requires |parts| >= 1
    requires forall i :: 0 <= i < |parts| ==> sep !in parts[i]
    ensures Split(Join(parts, sep), sep) == parts
    decreases |parts|
  {
    if |parts| == 1 {
      SplitNoSep(parts[0], sep);
    } else {
      SplitJoin(parts[1..], sep);
      SplitAppend(parts[0], Join(parts[1..], sep), sep);
      assert [parts[0]] + parts[1..] == parts;
    }
  }

  // ---------------------------------------------------------------------
  // Decimal digits, int(), str(int) and a subset of float()

  predicate IsDigit(c: char) {
    '0' <= c <= '9'
  }

  /** Every character is a digit (the empty text included). */
  predicate AllDigits(s: string) {
    forall i :: 0 <= i < |s| ==> IsDigit(s[i])
  }

  /** `s.isdigit()` over ASCII: non-empty and all digits. */
  predicate IsDigits(s: string) {
    |s| > 0 && AllDigits(s)
  }

  function DigitValue(c: char): (d: nat)
    requires IsDigit(c)
    ensures d < 10
  {
    (c as int) - ('0' as int)
  }

  function DigitChar(d: nat): (c: char)
    requires d < 10
    ensures IsDigit(c) && DigitValue(c) == d
  {
    (('0' as int) + d) as char
  }

  /** The number a string of decimal digits denotes (leading zeros allowed). */
  function DigitsValue(s: string): nat
    requires AllDigits(s)
    decreases |s|
  {
    if s == [] then 0 else DigitsValue(s[..|s| - 1]) * 10 + DigitValue(s[|s| - 1])
  }

  /** `str(n)` for a natural number: decimal digits without leading zeros. */
  function NatToString(n: nat): (r: string)
    ensures IsDigits(r)
    decreases n
  {
    if n < 10 then [DigitChar(n)] else NatToString(n / 10) + [DigitChar(n % 10)]
  }

  lemma {:induction false} NatToStringValue(n: nat)
    ensures DigitsValue(NatToString(n)) == n
    decreases n
  {
    if n >= 10 {
      NatToStringValue(n / 10);
      var s := NatToString(n);
      assert s[..|s| - 1] == NatToString(n / 10);
    }
  }

  /** `str(i)` for any integer. */
  function IntToString(i: int): (r: string)
    ensures Stripped(r) && '_' !in r
  {
    if i < 0 then "-" + NatToString(-i) else NatToString(i)
  }

  /** `int(s)` on text: surrounding whitespace, an optional sign, one or more ASCII digits. */
  function ParseInt(s: string): (r: Option<int>)
    ensures r.Some? <==> IsDigits(Strip(s))
                         || (|Strip(s)| > 1 && (Strip(s)[0] == '-' || Strip(s)[0] == '+') && IsDigits(Strip(s)[1..]))
    ensures IsDigits(Strip(s)) ==> r == Some(DigitsValue(Strip(s)))
    ensures r.Some? && r.value < 0 ==> Strip(s)[0] == '-'
  {
    var t := Strip(s);
    if |t| > 0 && (t[0] == '-' || t[0] == '+') then
      if IsDigits(t[1..]) then
        var v: int := DigitsValue(t[1..]);
        Some(if t[0] == '-' then -v else v)
      else None
    else if IsDigits(t) then Some(DigitsValue(t))
    else None
  }

  /** `int(str(i)) == i`. */
  lemma ParseIntString(i: int)
    ensures ParseInt(IntToString(i)) == Some(i)
  {
    var s := IntToString(i);
    if i < 0 {
      NatToStringValue(-i);
      assert s[1..] == NatToString(-i);
    } else {
      NatToStringValue(i);
    }
  }

  /** `int(s.strip())` is `int(s)`: the conversion strips the text itself. */
  lemma ParseIntStrip(s: string)
    ensures ParseInt(Strip(s)) == ParseInt(s)
  {
    StripIdempotent(s);
  }

  function Pow10(n: nat): (r: nat)
    ensures r >= 1
  {
    if n == 0 then 1 else 10 * Pow10(n - 1)
  }

  /** `digits`, `digits.`, `.digits` or `digits.digits`, as an exact rational. */
  function UnsignedDecimal(t: string): (r: Option<real>)
    ensures r.Some? ==> |t| > 0 && r.value >= 0.0
    ensures r.Some? ==> forall k :: 0 <= k < |t| ==> IsDigit(t[k]) || t[k] == '.'
    ensures IsDigits(t) ==> r == Some(DigitsValue(t) as real)
  {
    var parts := Split(t, '.');
    assert IsDigits(t) ==> parts == [t] by {
      if IsDigits(t) {
        assert '.' !in t by {
          forall k | 0 <= k < |t| ensures t[k] != '.' { assert IsDigit(t[k]); }
        }
        SplitNoSep(t, '.');
      }
    }
    if |parts| == 1 then
      if IsDigits(t) then Some(DigitsValue(t) as real) else None
    else if |parts| == 2 && (parts[0] != [] || parts[1] != [])
            && AllDigits(parts[0]) && AllDigits(parts[1]) then
      JoinSplit(t, '.');
      assert t == parts[0] + ['.'] + parts[1];
      Some(DigitsValue(parts[0]) as real + (DigitsValue(parts[1]) as real) / (Pow10(|parts[1]|) as real))
    else None
  }

  /** `float(s)` on the plain decimal notation: surrounding whitespace, an optional sign and a decimal. */
  function ParseFloat(s: string): (r: Option<real>)
    ensures r.Some? ==> |Strip(s)| > 0
    ensures r.Some? ==> forall k :: 0 < k < |Strip(s)| ==> IsDigit(Strip(s)[k]) || Strip(s)[k] == '.'
    ensures r.Some? && r.value < 0.0 ==> Strip(s)[0] == '-'
    ensures IsDigits(Strip(s)) ==> r == Some(DigitsValue(Strip(s)) as real)
  {
    var t := Strip(s);
    if |t| > 0 && (t[0] == '-' || t[0] == '+') then
      match UnsignedDecimal(t[1..])
      case Some(x) => Some(if t[0] == '-' then -x else x)
      case None => None
    else UnsignedDecimal(t)
  }

  /** `float(s.strip())` is `float(s)`. */
  lemma ParseFloatStrip(s: string)
    ensures ParseFloat(Strip(s)) == ParseFloat(s)
  {
    StripIdempotent(s);
  }

  /** Wherever `int(s)` succeeds, `float(s)` denotes the same number. */
  lemma ParseFloatExtendsParseInt(s: string)
    requires ParseInt(s).Some?
    ensures ParseFloat(s) == Some(ParseInt(s).value as real)
  {
    var t := Strip(s);
    if |t| > 0 && (t[0] == '-' || t[0] == '+') {
      SplitNoSep(t[1..], '.');
    } else {
      SplitNoSep(t, '.');
    }
  }
}
