/**
 * Text helpers of the renderers: the "{}" template substitution of
 * print_string_with_args, std::to_string on integers, and the three
 * operator-to-template print maps.
 */
module Format {

  /** s has a "{}" pair starting at i. */
  predicate PlaceholderAt(s: string, i: int) {
    0 <= i && i + 1 < |s| && s[i] == '{' && s[i + 1] == '}'
  }

  /** No "{}" pair anywhere in s. */
  predicate NoPlaceholder(s: string) {
    forall i :: 0 <= i < |s| ==> !PlaceholderAt(s, i)
  }

  /**
   * The text print_string_with_args produces for the rest s of a template,
   * once firstFound records whether a "{}" was already replaced: the first
   * pair becomes arg1, every later pair arg2, all else is copied.
   */
  function Substitute(s: string, firstFound: bool, arg1: string, arg2: string): string
    decreases |s|
  {
    if |s| == 0 then ""
    else if PlaceholderAt(s, 0) then (if firstFound then arg2 else arg1) + Substitute(s[2..], true, arg1, arg2)
    else [s[0]] + Substitute(s[1..], firstFound, arg1, arg2)
  }

  /**
   * print_string_with_args: one scan over the template with a first_found
   * flag. A '{' in the last position has no '}' after it and is copied.
   */
  method PrintStringWithArgs(template: string, arg1: string, arg2: string) returns (r: string)
    ensures r == Substitute(template, false, arg1, arg2)
  {
    var stream := "";
    var firstFound := false;
    var i := 0;
    while i < |template|
      invariant 0 <= i <= |template|
      invariant stream + Substitute(template[i..], firstFound, arg1, arg2) == Substitute(template, false, arg1, arg2)
    {
      ghost var rest := template[i..];
      if template[i] == '{' && i + 1 < |template| && template[i + 1] == '}' {
        assert PlaceholderAt(rest, 0) && rest[2..] == template[i + 2..];
        var piece := if !firstFound then arg1 else arg2;
        assert Substitute(rest, firstFound, arg1, arg2) == piece + Substitute(template[i + 2..], true, arg1, arg2);
        assert (stream + piece) + Substitute(template[i + 2..], true, arg1, arg2)
            == stream + Substitute(rest, firstFound, arg1, arg2);
        stream := stream + piece;
        i := i + 2;
        firstFound := true;
      } else {
        assert !PlaceholderAt(rest, 0) && rest[1..] == template[i + 1..];
        assert Substitute(rest, firstFound, arg1, arg2) == [template[i]] + Substitute(template[i + 1..], firstFound, arg1, arg2);
        assert (stream + [template[i]]) + Substitute(template[i + 1..], firstFound, arg1, arg2)
            == stream + Substitute(rest, firstFound, arg1, arg2);
        stream := stream + [template[i]];
        i := i + 1;
      }
    }
    r := stream;
  }

  /** Text without a "{}" pair is copied verbatim. */
  lemma {:induction false} SubstituteVerbatim(s: string, firstFound: bool, arg1: string, arg2: string)
    requires NoPlaceholder(s)
    ensures Substitute(s, firstFound, arg1, arg2) == s
    decreases |s|
  {
    if |s| > 0 {
      assert !PlaceholderAt(s, 0);
      assert NoPlaceholder(s[1..]) by {
        forall i | 0 <= i < |s[1..]|
          ensures !PlaceholderAt(s[1..], i)
        {
          assert !PlaceholderAt(s, i + 1);
        }
      }
      SubstituteVerbatim(s[1..], firstFound, arg1, arg2);
    }
  }

  /** Substitution distributes over a prefix without placeholders that ends before one starts. */
  lemma {:induction false} SubstituteAfterPrefix(u: string, rest: string, firstFound: bool, arg1: string, arg2: string)
    requires NoPlaceholder(u) && !(|u| > 0 && u[|u| - 1] == '{' && |rest| > 0 && rest[0] == '}')
    ensures Substitute(u + rest, firstFound, arg1, arg2) == u + Substitute(rest, firstFound, arg1, arg2)
    decreases |u|
  {
    if |u| > 0 {
      var s := u + rest;
      assert !PlaceholderAt(u, 0);
      assert !PlaceholderAt(s, 0) by {
        if |u| == 1 {
          assert s[0] == u[0];
        } else {
          assert s[0] == u[0] && s[1] == u[1];
        }
      }
      assert NoPlaceholder(u[1..]) by {
        forall i | 0 <= i < |u[1..]|
          ensures !PlaceholderAt(u[1..], i)
        {
          assert !PlaceholderAt(u, i + 1);
        }
      }
      assert s[1..] == u[1..] + rest;
      SubstituteAfterPrefix(u[1..], rest, firstFound, arg1, arg2);
      assert u == [u[0]] + u[1..];
      assert s[0] == u[0];
      assert Substitute(s, firstFound, arg1, arg2) == [s[0]] + Substitute(s[1..], firstFound, arg1, arg2);
      assert [u[0]] + (u[1..] + Substitute(rest, firstFound, arg1, arg2)) == u + Substitute(rest, firstFound, arg1, arg2);
    } else {
      assert u + rest == rest;
    }
  }

  /** The next "{}" after a placeholder-free prefix takes arg1 or, once one was found, arg2. */
  lemma SubstituteOneFrom(u: string, w: string, firstFound: bool, arg1: string, arg2: string)
    requires NoPlaceholder(u) && NoPlaceholder(w)
    ensures Substitute(u + ("{}" + w), firstFound, arg1, arg2) == u + ((if firstFound then arg2 else arg1) + w)
  {
    var rest := "{}" + w;
    SubstituteAfterPrefix(u, rest, firstFound, arg1, arg2);
    assert PlaceholderAt(rest, 0) && rest[2..] == w;
    SubstituteVerbatim(w, true, arg1, arg2);
  }

  /**
   * A one-placeholder template u{}w becomes u + arg1 + w, and a
   * two-placeholder template u{}v{}w becomes u + arg1 + v + arg2 + w.
   */
  lemma SubstituteOne(u: string, w: string, arg1: string, arg2: string)
    requires NoPlaceholder(u) && NoPlaceholder(w)
    ensures Substitute(u + "{}" + w, false, arg1, arg2) == u + arg1 + w
  {
    assert u + "{}" + w == u + ("{}" + w);
    SubstituteOneFrom(u, w, false, arg1, arg2);
    assert u + (arg1 + w) == u + arg1 + w;
  }

  lemma SubstituteTwo(u: string, v: string, w: string, arg1: string, arg2: string)
    requires NoPlaceholder(u) && NoPlaceholder(v) && NoPlaceholder(w)
    ensures Substitute(u + ("{}" + (v + ("{}" + w))), false, arg1, arg2) == u + (arg1 + (v + (arg2 + w)))
  {
    var rest := "{}" + (v + ("{}" + w));
    SubstituteAfterPrefix(u, rest, false, arg1, arg2);
    assert PlaceholderAt(rest, 0) && rest[2..] == v + ("{}" + w);
    SubstituteOneFrom(v, w, true, arg1, arg2);
  }

  /** Once a placeholder has been replaced, arg1 no longer matters. */
  lemma {:induction false} SubstituteIgnoresFirstArg(s: string, arg1: string, arg1': string, arg2: string)
    ensures Substitute(s, true, arg1, arg2) == Substitute(s, true, arg1', arg2)
    decreases |s|
  {
    if |s| > 0 {
      if PlaceholderAt(s, 0) {
        SubstituteIgnoresFirstArg(s[2..], arg1, arg1', arg2);
      } else {
        SubstituteIgnoresFirstArg(s[1..], arg1, arg1', arg2);
      }
    }
  }

  // ---- std::to_string on integers

  function DigitChar(d: nat): (c: char)
    requires d < 10
  {
    ('0' as int + d) as char
  }

  /** Decimal digits of n, most significant first, no leading zeros. */
  function NatToString(n: nat): (s: string)
    ensures |s| > 0 && forall i :: 0 <= i < |s| ==> '0' <= s[i] <= '9'
    decreases n
  {
    if n < 10 then [DigitChar(n)] else NatToString(n / 10) + [DigitChar(n % 10)]
  }

  /** std::to_string(int): a minus sign before the digits of a negative value. */
  function IntToString(i: int): (s: string)
    ensures |s| > 0 && (i < 0 <==> s[0] == '-')
  {
    if i < 0 then "-" + NatToString(-i) else NatToString(i)
  }

  /** Reads decimal digits back (the inverse, used to state that to_string loses nothing). */
  function ParseNat(s: string): nat
    decreases |s|
  {
    if |s| == 0 then 0
    else
      var d := s[|s| - 1] as int - '0' as int;
      ParseNat(s[..|s| - 1]) * 10 + (if 0 <= d < 10 then d else 0)
  }

  function ParseInt(s: string): int {
    if |s| > 0 && s[0] == '-' then 0 - ParseNat(s[1..]) as int else ParseNat(s)
  }

  lemma {:induction false} NatToStringRoundTrip(n: nat)
    ensures ParseNat(NatToString(n)) == n
    decreases n
  {
    if n >= 10 {
      NatToStringRoundTrip(n / 10);
      var s := NatToString(n);
      assert s[..|s| - 1] == NatToString(n / 10);
      assert s[|s| - 1] as int - '0' as int == n % 10;
    }
  }

  /** to_string on integers can be read back: distinct integers print differently. */
  lemma IntToStringRoundTrip(i: int)
    ensures ParseInt(IntToString(i)) == i
  {
    if i < 0 {
      NatToStringRoundTrip(-i);
      assert IntToString(i)[1..] == NatToString(-i);
    } else {
      NatToStringRoundTrip(i);
    }
  }

  /** A string with no newline character. */
  predicate SingleLine(s: string) {
    forall i :: 0 <= i < |s| ==> s[i] != '\n'
  }

  // ---- print maps: operator code to template

  /** The three PrintMap constants of the renderer. */
  datatype PrintMap = StackPrintMap | LatexPrintMap | ConsolePrintMap

  /** format_map.at(node) for a non-terminal code; the maps have no entry for 0 and 1. */
  function Template(m: PrintMap, op: int): string
    requires 2 <= op <= 12
  {
    match m
    case StackPrintMap =>
      if op == 2 then "({}) + ({})"
      else if op == 3 then "({}) - ({})"
      else if op == 4 then "({}) * ({})"
      else if op == 5 then "({}) / ({}) "
      else if op == 6 then "sin ({})"
      else if op == 7 then "cos ({})"
      else if op == 8 then "exp ({})"
      else if op == 9 then "log ({})"
      else if op == 10 then "({}) ^ ({})"
      else if op == 11 then "abs ({})"
      else "sqrt ({})"
    case LatexPrintMap =>
      if op == 2 then "{} + {}"
      else if op == 3 then "{} - ({})"
      else if op == 4 then "({})({})"
      else if op == 5 then "\\frac{ {} }{ {} }"
      else if op == 6 then "sin{ {} }"
      else if op == 7 then "cos{ {} }"
      else if op == 8 then "exp{ {} }"
      else if op == 9 then "log{ {} }"
      else if op == 10 then "({})^{ ({}) }"
      else if op == 11 then "|{}|"
      else "\\sqrt{ {} }"
    case ConsolePrintMap =>
      if op == 2 then "{} + {}"
      else if op == 3 then "{} - ({})"
      else if op == 4 then "({})({})"
      else if op == 5 then "({})/({})"
      else if op == 6 then "sin({})"
      else if op == 7 then "cos({})"
      else if op == 8 then "exp({})"
      else if op == 9 then "log({})"
      else if op == 10 then "({})^({})"
      else if op == 11 then "|{}|"
      else "sqrt({})"
  }
}
