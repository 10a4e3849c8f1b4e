/**
 * The part of Python's `json.dumps(..., ensure_ascii=False)` that the radio
 * envelope uses: string escaping, and the rendering of the three kinds of
 * value that appear in an envelope (null, integers and strings).
 */
module Json {
  import opened Wrappers
  import opened Text

  /** A JSON value as the envelope can hold it. */
  datatype Value = Null | Int(i: int) | Str(s: string)

  const Backspace: char := 8 as char
  const FormFeed: char := 12 as char

  const LowerHex: string := "0123456789abcdef"

  /** `json` escapes the control characters without a short form as `\u00XX`, with lower-case hex. */
  function ControlEscape(c: char): (e: string)
    requires (c as int) < 0x20
    ensures |e| == 6
  {
    "\\u00" + [LowerHex[(c as int) / 16], LowerHex[(c as int) % 16]]
  }

  /** How one character of a string appears between the quotes. */
  function EscapeChar(c: char): (e: string)
    ensures |e| >= 1
    ensures c != '"' && c != '\\' && (c as int) >= 0x20 <==> e == [c]
  {
    if c == '"' then "\\\""
    else if c == '\\' then "\\\\"
    else if c == '\n' then "\\n"
    else if c == '\r' then "\\r"
    else if c == '\t' then "\\t"
    else if c == Backspace then "\\b"
    else if c == FormFeed then "\\f"
    else if (c as int) < 0x20 then ControlEscape(c)
    else [c]
  }

  /** The body of a JSON string literal for `s`, without its quotes. */
  function Escape(s: string): string
  {
    if |s| == 0 then "" else EscapeChar(s[0]) + Escape(s[1..])
  }

  /** The value of one lower-case hexadecimal digit, if it is one. */
  function LowerHexValue(c: char): (r: Option<nat>)
    ensures r.Some? ==> r.value < 16 && LowerHex[r.value] == c
  {
    if '0' <= c <= '9' then Some((c as int) - ('0' as int))
    else if 'a' <= c <= 'f' then Some((c as int) - ('a' as int) + 10)
    else None
  }

  /**
   * A JSON decoder for the body of a string literal: the inverse of
   * `Escape`. It accepts the escapes `json` writes (and `\/`); `None`
   * stands for a malformed body.
   */
  function Unescape(s: string): (r: Option<string>)
    decreases |s|
  {
    if |s| == 0 then Some("")
    else if s[0] == '"' || (s[0] as int) < 0x20 then None
    else if s[0] != '\\' then Prepend(s[0], Unescape(s[1..]))
    else if |s| < 2 then None
    else if s[1] == 'u' then
      if |s| < 6 || s[2] != '0' || s[3] != '0' then None
      else match (LowerHexValue(s[4]), LowerHexValue(s[5]))
        case (Some(h), Some(l)) => Prepend((h * 16 + l) as char, Unescape(s[6..]))
        case _ => None
    else
      var c := ShortEscape(s[1]);
      if c.None? then None else Prepend(c.value, Unescape(s[2..]))
  }

  /** The character a two-character escape `\x` stands for. */
  function ShortEscape(x: char): Option<char>
  {
    if x == '"' then Some('"')
    else if x == '\\' then Some('\\')
    else if x == '/' then Some('/')
    else if x == 'n' then Some('\n')
    else if x == 'r' then Some('\r')
    else if x == 't' then Some('\t')
    else if x == 'b' then Some(Backspace)
    else if x == 'f' then Some(FormFeed)
    else None
  }

  function Prepend(c: char, r: Option<string>): Option<string>
  {
    if r.None? then None else Some([c] + r.value)
  }

  /** Decoding one escaped character and then the rest gives that character first. */
  lemma UnescapeEscapeChar(c: char, rest: string)
    ensures Unescape(EscapeChar(c) + rest) == Prepend(c, Unescape(rest))
  {
    if (c as int) < 0x20 && c != '\n' && c != '\r' && c != '\t' && c != Backspace && c != FormFeed {
      UnescapeControl(c, rest);
    } else {
      var e := EscapeChar(c) + rest;
      if c == '"' || c == '\\' || c == '\n' || c == '\r' || c == '\t' || c == Backspace || c == FormFeed {
        assert e[2..] == rest;
      } else {
        assert e[1..] == rest;
      }
    }
  }

  /** The `\u00XX` form of a control character decodes back to it. */
  lemma UnescapeControl(c: char, rest: string)
    requires (c as int) < 0x20
    ensures Unescape(ControlEscape(c) + rest) == Prepend(c, Unescape(rest))
  {
    var e := ControlEscape(c) + rest;
    var n := c as int;
    assert e[4] == LowerHex[n / 16] && e[5] == LowerHex[n % 16];
    assert LowerHexValue(e[4]) == Some(n / 16);
    assert LowerHexValue(e[5]) == Some(n % 16);
    assert ((n / 16) * 16 + n % 16) as char == c;
    assert e[6..] == rest;
  }

  /** Escaping round-trips: a JSON decoder reads back exactly the original text. */
  lemma {:induction false} UnescapeEscape(s: string)
    ensures Unescape(Escape(s)) == Some(s)
    decreases |s|
  {
    if |s| > 0 {
      UnescapeEscape(s[1..]);
      UnescapeEscapeChar(s[0], Escape(s[1..]));
      assert [s[0]] + s[1..] == s;
    }
  }

  /** The text `json.dumps` writes for a value. */
  function Render(v: Value): string
  {
    match v
    case Null => "null"
    case Int(i) => IntToString(i)
    case Str(s) => "\"" + Escape(s) + "\""
  }

  // ---------------------------------------------------------------------
  // Removing every occurrence of a character (`str.replace(c, "")`)
  // ---------------------------------------------------------------------

  /** `s.replace(c, "")` for a one-character `c`. */
  function Remove(s: string, c: char): (r: string)
    ensures c !in r
    ensures |r| <= |s|
    ensures forall d :: d !in s ==> d !in r
  {
    if |s| == 0 then ""
    else if s[0] == c then Remove(s[1..], c)
    else [s[0]] + Remove(s[1..], c)
  }

  lemma {:induction false} RemoveAppend(a: string, b: string, c: char)
    ensures Remove(a + b, c) == Remove(a, c) + Remove(b, c)
    decreases |a|
  {
    if |a| == 0 {
      assert a + b == b;
    } else {
      assert (a + b)[1..] == a[1..] + b;
      RemoveAppend(a[1..], b, c);
    }
  }

  lemma {:induction false} RemoveAbsent(s: string, c: char)
    requires c !in s
    ensures Remove(s, c) == s
    decreases |s|
  {
    if |s| > 0 {
      assert s[1..] == s[1..];
      assert c !in s[1..] by { assert forall i :: 0 <= i < |s| - 1 ==> s[1..][i] == s[i + 1]; }
      RemoveAbsent(s[1..], c);
      assert [s[0]] + s[1..] == s;
    }
  }

  /** Escaping never writes a raw newline: `json` always escapes it. */
  lemma {:induction false} EscapeHasNoNewline(s: string)
    ensures '\n' !in Escape(s)
    decreases |s|
  {
    if |s| > 0 {
      EscapeHasNoNewline(s[1..]);
      var e := EscapeChar(s[0]);
      assert '\n' !in e;
      assert Escape(s) == e + Escape(s[1..]);
    }
  }

  /** Escaping leaves spaces alone, so removing them before or after escaping is the same. */
  lemma {:induction false} EscapeRemoveSpaces(s: string)
    ensures Remove(Escape(s), ' ') == Escape(Remove(s, ' '))
    decreases |s|
  {
    if |s| > 0 {
      EscapeRemoveSpaces(s[1..]);
      var e := EscapeChar(s[0]);
      assert Escape(s) == e + Escape(s[1..]);
      RemoveAppend(e, Escape(s[1..]), ' ');
      EscapeCharSpace(s[0]);
      if s[0] == ' ' {
        assert Remove(s, ' ') == Remove(s[1..], ' ');
        assert Remove(e, ' ') == "";
      } else {
        RemoveAbsent(e, ' ');
        assert Remove(s, ' ') == [s[0]] + Remove(s[1..], ' ');
        assert Escape([s[0]] + Remove(s[1..], ' ')) == e + Escape(Remove(s[1..], ' '));
      }
    }
  }

  /** A space escapes to itself, and no other character's escape holds a space. */
  lemma EscapeCharSpace(c: char)
    ensures c == ' ' ==> EscapeChar(c) == " "
    ensures c != ' ' ==> ' ' !in EscapeChar(c)
  {
  }

  // ---------------------------------------------------------------------
  // Dictionaries of three entries, and squeezing out blanks
  // ---------------------------------------------------------------------

  /** `s.replace("\n", "").replace(" ", "")`. */
  function Squeeze(s: string): (r: string)
    ensures ' ' !in r && '\n' !in r
  {
    Remove(Remove(s, '\n'), ' ')
  }

  /** Text without spaces or newlines is left as it is. */
  lemma SqueezeBlankFree(s: string)
    requires ' ' !in s && '\n' !in s
    ensures Squeeze(s) == s
  {
    RemoveAbsent(s, '\n');
    RemoveAbsent(s, ' ');
  }

  function Concat(ps: seq<string>): string
  {
    if |ps| == 0 then "" else ps[0] + Concat(ps[1..])
  }

  function SqueezeEach(ps: seq<string>): (r: seq<string>)
    ensures |r| == |ps| && forall i :: 0 <= i < |ps| ==> r[i] == Squeeze(ps[i])
  {
    if |ps| == 0 then [] else [Squeeze(ps[0])] + SqueezeEach(ps[1..])
  }

  lemma {:induction false} SqueezeConcat(ps: seq<string>)
    ensures Squeeze(Concat(ps)) == Concat(SqueezeEach(ps))
    decreases |ps|
  {
    if |ps| > 0 {
      SqueezeConcat(ps[1..]);
      RemoveAppend(ps[0], Concat(ps[1..]), '\n');
      RemoveAppend(Remove(ps[0], '\n'), Remove(Concat(ps[1..]), '\n'), ' ');
    }
  }

  /**
   * `json.dumps` of a dictionary with three string keys whose values are
   * already rendered, with the default separators ": " and ", ".
   */
  function Object3(k1: string, v1: string, k2: string, v2: string, k3: string, v3: string): string
  {
    Concat(["{", Render(Str(k1)), ": ", v1, ", ", Render(Str(k2)), ": ", v2, ", ", Render(Str(k3)), ": ", v3, "}"])
  }

  /** The same dictionary with the compact separators ":" and ",". */
  function CompactObject3(k1: string, v1: string, k2: string, v2: string, k3: string, v3: string): string
  {
    Concat(["{", Render(Str(k1)), ":", v1, ",", Render(Str(k2)), ":", v2, ",", Render(Str(k3)), ":", v3, "}"])
  }

  /**
   * Squeezing the blanks out of a three-entry dictionary whose keys have no
   * blanks gives the compact dictionary of the squeezed values.
   */
  lemma SqueezeObject3(k1: string, v1: string, k2: string, v2: string, k3: string, v3: string)
    requires ' ' !in Render(Str(k1)) && '\n' !in Render(Str(k1))
    requires ' ' !in Render(Str(k2)) && '\n' !in Render(Str(k2))
    requires ' ' !in Render(Str(k3)) && '\n' !in Render(Str(k3))
    ensures Squeeze(Object3(k1, v1, k2, v2, k3, v3))
         == CompactObject3(k1, Squeeze(v1), k2, Squeeze(v2), k3, Squeeze(v3))
  {
    var ps := ["{", Render(Str(k1)), ": ", v1, ", ", Render(Str(k2)), ": ", v2, ", ", Render(Str(k3)), ": ", v3, "}"];
    var cs := ["{", Render(Str(k1)), ":", Squeeze(v1), ",", Render(Str(k2)), ":", Squeeze(v2), ",", Render(Str(k3)), ":", Squeeze(v3), "}"];
    SqueezeBlankFree("{");
    SqueezeBlankFree("}");
    SqueezeBlankFree(Render(Str(k1)));
    SqueezeBlankFree(Render(Str(k2)));
    SqueezeBlankFree(Render(Str(k3)));
    SqueezeSeparators();
    SqueezeAll(ps, cs);
  }

  lemma SqueezeAll(ps: seq<string>, cs: seq<string>)
    requires |ps| == |cs| && forall i :: 0 <= i < |ps| ==> Squeeze(ps[i]) == cs[i]
    ensures Squeeze(Concat(ps)) == Concat(cs)
  {
    SqueezeConcat(ps);
    assert SqueezeEach(ps) == cs;
  }

  /** The default separators `": "` and `", "` squeeze to their punctuation marks. */
  lemma SqueezeSeparators()
    ensures Squeeze(": ") == ":" && Squeeze(", ") == ","
  {
    SqueezeSeparator(':');
    SqueezeSeparator(',');
    assert ": " == [':', ' '] && ", " == [',', ' '];
  }

  lemma SqueezeSeparator(c: char)
    requires c != ' ' && c != '\n'
    ensures Squeeze([c, ' ']) == [c]
  {
    assert Remove([c, ' '], '\n') == [c, ' '] by {
      assert [c, ' '][1..] == [' '];
    }
    assert [c, ' '][1..] == [' '];
    assert Remove([' '], ' ') == "";
  }

  /** A rendered string squeezes to the rendering of the string without its spaces. */
  lemma SqueezeRenderedString(s: string)
    ensures Squeeze(Render(Str(s))) == Render(Str(Remove(s, ' ')))
  {
    var e := Escape(s);
    EscapeHasNoNewline(s);
    RemoveAppend("\"" + e, "\"", '\n');
    RemoveAppend("\"", e, '\n');
    RemoveAbsent(e, '\n');
    RemoveAbsent("\"", '\n');
    RemoveAppend("\"" + e, "\"", ' ');
    RemoveAppend("\"", e, ' ');
    RemoveAbsent("\"", ' ');
    EscapeRemoveSpaces(s);
  }
}
