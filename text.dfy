/**
 * The pieces of Python's string handling that the radio protocols rely on:
 * `str.split` on one character, `str.strip`, `int(...)` and `str(int)` on a
 * plain optional-sign-and-ASCII-digits grammar, `float(...)` on a plain
 * decimal grammar, and the `{n:016X}` hexadecimal rendering.
 */
module Text {
  import opened Wrappers

  // ---------------------------------------------------------------------
  // Splitting and joining on one separator character
  // ---------------------------------------------------------------------

  /** Python's `s.split(sep)`: never empty, and `"".split(sep) == [""]`. */
  function Split(s: string, sep: char): (parts: seq<string>)
    ensures |parts| >= 1
    decreases |s|
  {
    if |s| == 0 then [""]
    else
      var rest := Split(s[1..], sep);
      if s[0] == sep then [""] + rest
      else [[s[0]] + rest[0]] + rest[1..]
  }

  /** Python's `sep.join(parts)`. */
  function Join(parts: seq<string>, sep: char): string
  {
    if |parts| == 0 then ""
    else if |parts| == 1 then parts[0]
    else parts[0] + [sep] + Join(parts[1..], sep)
  }

  /** Every piece `Split` returns is free of the separator. */
  lemma {:induction false} SplitPiecesFree(s: string, sep: char)
    ensures forall i :: 0 <= i < |Split(s, sep)| ==> sep !in Split(s, sep)[i]
    decreases |s|
  {
    if |s| > 0 {
      SplitPiecesFree(s[1..], sep);
    }
  }

  /** Joining the pieces back with the separator gives the original text. */
  lemma {:induction false} JoinSplit(s: string, sep: char)
    ensures Join(Split(s, sep), sep) == s
    decreases |s|
  {
    if |s| > 0 {
      var rest := Split(s[1..], sep);
      JoinSplit(s[1..], sep);
      if s[0] == sep {
        assert Split(s, sep) == [""] + rest;
      } else {
        var parts := Split(s, sep);
        assert parts == [[s[0]] + rest[0]] + rest[1..];
        if |rest| == 1 {
          assert parts == [[s[0]] + rest[0]];
        } else {
          assert parts[1..] == rest[1..];
          assert Join(rest, sep) == rest[0] + [sep] + Join(rest[1..], sep);
        }
      }
    }
  }

  /** A text without the separator splits into itself alone. */
  lemma {:induction false} SplitNoSeparator(s: string, sep: char)
    requires sep !in s
    ensures Split(s, sep) == [s]
    decreases |s|
  {
    if |s| > 0 {
      SplitNoSeparator(s[1..], sep);
      assert [s[0]] + s[1..] == s;
    }
  }

  /** Splitting `head + sep + tail` gives `head` followed by the pieces of `tail`. */
  lemma {:induction false} SplitCons(head: string, tail: string, sep: char)
    requires sep !in head
    ensures Split(head + [sep] + tail, sep) == [head] + Split(tail, sep)
    decreases |head|
  {
    if |head| == 0 {
      assert head + [sep] + tail == [sep] + tail;
      assert ([sep] + tail)[1..] == tail;
    } else {
      var s := head + [sep] + tail;
      assert s[0] == head[0];
      assert s[1..] == head[1..] + [sep] + tail;
      SplitCons(head[1..], tail, sep);
      assert [head[0]] + head[1..] == head;
    }
  }

  /** Split undoes Join when no piece holds the separator. */
  lemma {:induction false} SplitJoin(parts: seq<string>, sep: char)
    requires |parts| >= 1
    requires forall i :: 0 <= i < |parts| ==> sep !in parts[i]
    ensures Split(Join(parts, sep), sep) == parts
    decreases |parts|
  {
    if |parts| == 1 {
      SplitNoSeparator(parts[0], sep);
    } else {
      SplitJoin(parts[1..], sep);
      SplitCons(parts[0], Join(parts[1..], sep), sep);
      assert [parts[0]] + parts[1..] == parts;
    }
  }

  // ---------------------------------------------------------------------
  // Whitespace and `str.strip()`
  // ---------------------------------------------------------------------

  /** The characters Python's `str.isspace()` accepts. */
  predicate IsSpace(c: char)
  {
    var k := c as int;
    (9 <= k <= 13) || (28 <= k <= 32) || k == 0x85 || k == 0xA0 || k == 0x1680 ||
    (0x2000 <= k <= 0x200A) || k == 0x2028 || k == 0x2029 || k == 0x202F ||
    k == 0x205F || k == 0x3000
  }

  predicate NoSpace(s: string)
  {
    forall i :: 0 <= i < |s| ==> !IsSpace(s[i])
  }

  function TrimStart(s: string): (r: string)
    ensures |r| <= |s| && r == s[|s| - |r|..]
    ensures r == [] || !IsSpace(r[0])
    ensures forall i :: 0 <= i < |s| - |r| ==> IsSpace(s[i])
    decreases |s|
  {
    if |s| > 0 && IsSpace(s[0]) then TrimStart(s[1..]) else s
  }

  function TrimEnd(s: string): (r: string)
    ensures |r| <= |s| && r == s[..|r|]
    ensures r == [] || !IsSpace(r[|r| - 1])
    ensures forall i :: |r| <= i < |s| ==> IsSpace(s[i])
    decreases |s|
  {
    if |s| > 0 && IsSpace(s[|s| - 1]) then TrimEnd(s[..|s| - 1]) else s
  }

  /** Python's `s.strip()`: the result neither starts nor ends with whitespace. */
  function Strip(s: string): (r: string)
    ensures r == [] || (!IsSpace(r[0]) && !IsSpace(r[|r| - 1]))
  {
    TrimEnd(TrimStart(s))
  }

  /** Text that holds no whitespace is left alone by `strip()`. */
  lemma StripNoSpace(s: string)
    requires NoSpace(s)
    ensures Strip(s) == s
  {
    var t := TrimStart(s);
    assert t == s;
    var u := TrimEnd(t);
    assert u == t;
  }

  /** Every character is whitespace. */
  predicate AllSpace(s: string)
  {
    forall i :: 0 <= i < |s| ==> IsSpace(s[i])
  }

  /** `lstrip()` removes exactly the leading whitespace it is given. */
  lemma TrimStartPadded(pre: string, rest: string)
    requires AllSpace(pre)
    requires rest == [] || !IsSpace(rest[0])
    ensures TrimStart(pre + rest) == rest
  {
    var s := pre + rest;
    var t := TrimStart(s);
    if rest == [] {
      assert s == pre;
    } else {
      assert s[|pre|] == rest[0];
      assert t[0] == s[|s| - |t|];
      assert |s| - |t| == |pre|;
      assert s[|pre|..] == rest;
    }
  }

  /** `rstrip()` removes exactly the trailing whitespace it is given. */
  lemma TrimEndPadded(rest: string, post: string)
    requires AllSpace(post)
    requires rest == [] || !IsSpace(rest[|rest| - 1])
    ensures TrimEnd(rest + post) == rest
  {
    var s := rest + post;
    var u := TrimEnd(s);
    if rest == [] {
      assert s == post;
    } else {
      assert s[|rest| - 1] == rest[|rest| - 1];
      assert |u| == |rest|;
      assert s[..|rest|] == rest;
    }
  }

  /** `strip()` removes exactly the leading and trailing whitespace it is given. */
  lemma StripPadded(pre: string, core: string, post: string)
    requires AllSpace(pre) && AllSpace(post)
    requires core == [] || (!IsSpace(core[0]) && !IsSpace(core[|core| - 1]))
    ensures Strip(pre + core + post) == core
  {
    if core == [] {
      assert pre + core + post == pre + post;
      assert AllSpace(pre + post) by {
        var s := pre + post;
        forall i | 0 <= i < |s| ensures IsSpace(s[i]) {
          if i < |pre| { assert s[i] == pre[i]; } else { assert s[i] == post[i - |pre|]; }
        }
      }
      TrimStartPadded(pre + post, []);
      assert pre + post + [] == pre + post;
    } else {
      assert pre + core + post == pre + (core + post);
      TrimStartPadded(pre, core + post);
      TrimEndPadded(core, post);
    }
  }

  /** `strip()` twice is `strip()` once. */
  lemma StripIdempotent(s: string)
    ensures Strip(Strip(s)) == Strip(s)
  {
    var r := Strip(s);
    StripPadded("", r, "");
    assert "" + r + "" == r;
  }

  // ---------------------------------------------------------------------
  // Decimal digits, `int(...)` and `str(int)`
  // ---------------------------------------------------------------------

  predicate IsDigit(c: char)
  {
    '0' <= c <= '9'
  }

  predicate AllDigits(s: string)
  {
    forall i :: 0 <= i < |s| ==> IsDigit(s[i])
  }

  function DigitValue(c: char): (d: nat)
    requires IsDigit(c)
    ensures d < 10
  {
    (c as int) - ('0' as int)
  }

  function DigitChar(d: nat): (c: char)
    requires d < 10
    ensures IsDigit(c) && DigitValue(c) == d
  {
    (('0' as int) + d) as char
  }

  /** The number a non-empty string of decimal digits denotes (leading zeros allowed). */
  function DigitsValue(s: string): nat
    requires AllDigits(s)
    decreases |s|
  {
    if |s| == 0 then 0 else DigitsValue(s[..|s| - 1]) * 10 + DigitValue(s[|s| - 1])
  }

  /**
   * Python's `int(s)` restricted to an optional `+`/`-` sign followed by one
   * or more ASCII digits; `None` stands for the `ValueError` Python raises.
   */
  function ParseInt(s: string): (r: Option<int>)
  {
    if |s| == 0 then None
    else if s[0] == '-' || s[0] == '+' then
      if |s| >= 2 && AllDigits(s[1..]) then
        Some(if s[0] == '-' then -(DigitsValue(s[1..]) as int) else DigitsValue(s[1..]))
      else None
    else if AllDigits(s) then Some(DigitsValue(s))
    else None
  }

  /** Python's `int(s)`: the literal may be surrounded by whitespace. */
  function PyInt(s: string): Option<int>
  {
    ParseInt(Strip(s))
  }

  /** `int` reads back what `str` writes. */
  lemma PyIntRoundTrip(n: int)
    ensures PyInt(IntToString(n)) == Some(n)
  {
    IntToStringPlain(n);
    StripNoSpace(IntToString(n));
    IntRoundTrip(n);
  }

  /** Decimal digits of a natural number, without leading zeros. */
  function NatToString(n: nat): (s: string)
    ensures |s| >= 1 && AllDigits(s)
    ensures s[0] == '0' ==> n == 0
    decreases n
  {
    if n < 10 then [DigitChar(n)] else NatToString(n / 10) + [DigitChar(n % 10)]
  }

  /** Python's `str(n)` for an integer. */
  function IntToString(n: int): (s: string)
    ensures |s| >= 1
  {
    if n < 0 then "-" + NatToString(-n) else NatToString(n)
  }

  lemma {:induction false} NatToStringValue(n: nat)
    ensures DigitsValue(NatToString(n)) == n
    decreases n
  {
    if n >= 10 {
      NatToStringValue(n / 10);
      var s := NatToString(n);
      assert s[..|s| - 1] == NatToString(n / 10);
    }
  }

  /** Rendering an integer with `str` and reading it back with `int` gives it back. */
  lemma IntRoundTrip(n: int)
    ensures ParseInt(IntToString(n)) == Some(n)
  {
    var s := IntToString(n);
    if n < 0 {
      var d := NatToString(-n);
      NatToStringValue(-n);
      assert s[1..] == d;
      assert s[0] == '-' && |s| >= 2 && AllDigits(s[1..]);
      assert ParseInt(s) == Some(-(DigitsValue(d) as int));
    } else {
      NatToStringValue(n);
      assert IsDigit(s[0]);
      assert ParseInt(s) == Some(DigitsValue(s));
    }
  }

  /** `str(n)` is free of whitespace, commas and bars: it survives `strip` and field splits. */
  lemma IntToStringPlain(n: int)
    ensures NoSpace(IntToString(n))
    ensures ',' !in IntToString(n) && '|' !in IntToString(n)
  {
    var s := IntToString(n);
    var d := NatToString(if n < 0 then -n else n);
    assert forall i :: 0 <= i < |d| ==> IsDigit(d[i]);
    if n < 0 {
      assert forall i :: 1 <= i < |s| ==> s[i] == d[i - 1];
    }
  }

  // ---------------------------------------------------------------------
  // `float(...)` on plain decimals
  // ---------------------------------------------------------------------

  function Pow10(k: nat): (p: nat)
    ensures p >= 1
  {
    if k == 0 then 1 else 10 * Pow10(k - 1)
  }

  /** The value of unsigned `digits[.digits]` text, or None. */
  function UnsignedDecimal(s: string): Option<real>
  {
    if '.' !in s then
      if |s| >= 1 && AllDigits(s) then Some(DigitsValue(s) as real) else None
    else
      var parts := Split(s, '.');
      if |parts| == 2 && |parts[0]| + |parts[1]| >= 1 && AllDigits(parts[0]) && AllDigits(parts[1]) then
        Some(DigitsValue(parts[0]) as real + (DigitsValue(parts[1]) as real) / (Pow10(|parts[1]|) as real))
      else None
  }

  /**
   * Python's `float(s)` restricted to an optional sign and digits with at most
   * one decimal point (at least one digit); `None` stands for `ValueError`.
   */
  function ParseFloat(s: string): (r: Option<real>)
    ensures r.Some? ==> |s| >= 1
  {
    if |s| == 0 then None
    else if s[0] == '-' || s[0] == '+' then
      match UnsignedDecimal(s[1..])
      case Some(v) => Some(if s[0] == '-' then -v else v)
      case None => None
    else UnsignedDecimal(s)
  }

  // ---------------------------------------------------------------------
  // Hexadecimal rendering `f"{n:016X}"`
  // ---------------------------------------------------------------------

  const HexAlphabet: string := "0123456789ABCDEF"

  predicate IsUpperHex(c: char)
  {
    IsDigit(c) || 'A' <= c <= 'F'
  }

  /** Every character is an upper-case hexadecimal digit. */
  predicate UpperHex(s: string)
  {
    forall i :: 0 <= i < |s| ==> IsUpperHex(s[i])
  }

  function HexValueOf(c: char): (d: nat)
    requires IsUpperHex(c)
    ensures d < 16 && HexAlphabet[d] == c
  {
    if IsDigit(c) then (c as int) - ('0' as int) else 10 + (c as int) - ('A' as int)
  }

  function Pow(b: nat, e: nat): (p: nat)
  {
    if e == 0 then 1 else b * Pow(b, e - 1)
  }

  /** Upper-case hexadecimal digits of `n`, without leading zeros ("0" for zero). */
  function HexDigits(n: nat): (s: string)
    ensures |s| >= 1 && UpperHex(s)
    decreases n
  {
    if n < 16 then [HexAlphabet[n]] else HexDigits(n / 16) + [HexAlphabet[n % 16]]
  }

  /** The number a string of upper-case hexadecimal digits denotes. */
  function HexValue(s: string): nat
    requires UpperHex(s)
    decreases |s|
  {
    if |s| == 0 then 0 else HexValue(s[..|s| - 1]) * 16 + HexValueOf(s[|s| - 1])
  }

  /** Python's `f"{n:0{width}X}"`: hexadecimal digits left-padded with '0' up to `width`. */
  function FormatHex(n: nat, width: nat): (s: string)
    ensures |s| >= width && |s| >= 1 && UpperHex(s)
  {
    var digits := HexDigits(n);
    if |digits| >= width then digits else Zeros(width - |digits|) + digits
  }

  /** `k` copies of the character '0'. */
  function Zeros(k: nat): (z: string)
    ensures |z| == k
    ensures forall i :: 0 <= i < k ==> z[i] == '0'
  {
    if k == 0 then "" else Zeros(k - 1) + "0"
  }

  lemma {:induction false} HexDigitsValue(n: nat)
    ensures HexValue(HexDigits(n)) == n
    decreases n
  {
    var s := HexDigits(n);
    if n < 16 {
      AlphabetValue(n);
      assert s[..0] == [];
    } else {
      var q, r := n / 16, n % 16;
      HexDigitsValue(q);
      assert s[..|s| - 1] == HexDigits(q);
      AlphabetValue(r);
      assert HexValue(s) == HexValue(HexDigits(q)) * 16 + r;
    }
  }

  /** Each hexadecimal digit reads back as its position in the alphabet. */
  lemma AlphabetValue(d: nat)
    requires d < 16
    ensures HexValueOf(HexAlphabet[d]) == d
  {
    var c := HexAlphabet[d];
    assert HexAlphabet[HexValueOf(c)] == c;
    assert forall i, j :: 0 <= i < j < 16 ==> HexAlphabet[i] != HexAlphabet[j];
  }

  lemma {:induction false} HexValueLeadingZeros(k: nat, s: string)
    requires UpperHex(s)
    ensures UpperHex(Zeros(k) + s)
    ensures HexValue(Zeros(k) + s) == HexValue(s)
    decreases |s|
  {
    var z := Zeros(k);
    assert HexAlphabet[0] == '0';
    if |s| == 0 {
      assert z + s == z;
      ZerosValue(k);
    } else {
      var t := s[..|s| - 1];
      var c := s[|s| - 1];
      HexValueLeadingZeros(k, t);
      DropLast(z, s);
      assert HexValue(z + s) == HexValue(z + t) * 16 + HexValueOf(c);
      assert HexValue(s) == HexValue(t) * 16 + HexValueOf(c);
    }
  }

  /** Dropping the last character of `z + s`, for a non-empty `s`, drops it from `s`. */
  lemma DropLast(z: string, s: string)
    requires |s| > 0
    ensures (z + s)[..|z + s| - 1] == z + s[..|s| - 1]
    ensures (z + s)[|z + s| - 1] == s[|s| - 1]
  {
    assert (z + s)[..|z + s| - 1] == z + s[..|s| - 1];
  }

  lemma {:induction false} ZerosValue(k: nat)
    ensures UpperHex(Zeros(k))
    ensures HexValue(Zeros(k)) == 0
  {
    assert HexAlphabet[0] == '0';
    if k > 0 {
      ZerosValue(k - 1);
      assert Zeros(k)[..k - 1] == Zeros(k - 1);
    }
  }

  /** The padded rendering reads back as the number rendered. */
  lemma FormatHexRoundTrip(n: nat, width: nat)
    ensures HexValue(FormatHex(n, width)) == n
  {
    HexDigitsValue(n);
    var digits := HexDigits(n);
    if |digits| < width {
      HexValueLeadingZeros(width - |digits|, digits);
    }
  }

  /** A number below 16^k has at most k hexadecimal digits. */
  lemma {:induction false} HexDigitsLength(n: nat, k: nat)
    requires k >= 1 && n < Pow(16, k)
    ensures |HexDigits(n)| <= k
    decreases k
  {
    if n >= 16 {
      assert n / 16 < Pow(16, k - 1);
      assert k - 1 >= 1;
      HexDigitsLength(n / 16, k - 1);
    }
  }

  /** For a number below 16^width the rendering is exactly `width` characters wide. */
  lemma FormatHexWidth(n: nat, width: nat)
    requires width >= 1 && n < Pow(16, width)
    ensures |FormatHex(n, width)| == width
  {
    HexDigitsLength(n, width);
  }
}
