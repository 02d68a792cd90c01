/** JavaScript numbers as the core writes and reads them in text: a finite
    decimal rendered in plain notation (`${amount}`), `parseFloat` reading the
    longest numeric prefix of a string, and `Math.round`. */
module JsNumber {
  import opened Wrappers
  import JsText

  predicate IsDigit(c: char) { '0' <= c <= '9' }

  predicate AllDigits(s: string) {
    forall i :: 0 <= i < |s| ==> IsDigit(s[i])
  }

  function DigitValue(c: char): int
    requires IsDigit(c)
  {
    c as int - '0' as int
  }

  /** A number written in plain decimal notation: sign, integer digits, fraction digits. */
  datatype Decimal = Decimal(negative: bool, intDigits: string, fracDigits: string)

  /** How `${n}` renders a finite number below 1e21: at least one integer digit. */
  predicate WellFormed(d: Decimal) {
    |d.intDigits| >= 1 && AllDigits(d.intDigits) && AllDigits(d.fracDigits)
  }

  function IntValue(ds: string): (v: int)
    requires AllDigits(ds)
    ensures v >= 0
  {
    if ds == [] then 0 else IntValue(ds[..|ds| - 1]) * 10 + DigitValue(ds[|ds| - 1])
  }

  function FracValue(ds: string): (v: real)
    requires AllDigits(ds)
    ensures 0.0 <= v <= 1.0
  {
    if ds == [] then 0.0 else (DigitValue(ds[0]) as real + FracValue(ds[1..])) / 10.0
  }

  /** The number a decimal denotes. */
  function Value(d: Decimal): real
    requires AllDigits(d.intDigits) && AllDigits(d.fracDigits)
  {
    var m := IntValue(d.intDigits) as real + FracValue(d.fracDigits);
    if d.negative then -m else m
  }

  /** `${n}` for a number in plain notation. */
  function Render(d: Decimal): string {
    (if d.negative then "-" else "")
    + d.intDigits
    + (if d.fracDigits == [] then "" else "." + d.fracDigits)
  }

  /** The longest run of digits at the front of `s`. */
  function DigitPrefix(s: string): (r: string)
    ensures |r| <= |s| && r == s[..|r|] && AllDigits(r)
    ensures |r| < |s| ==> !IsDigit(s[|r|])
  {
    if s != [] && IsDigit(s[0]) then
      var r := DigitPrefix(s[1..]);
      assert [s[0]] + r == s[..|r| + 1];
      [s[0]] + r
    else []
  }

  /** `parseFloat(s)`: skips leading whitespace, reads an optional sign, digits and
      an optional fraction, and ignores whatever follows; `None` is `NaN`. */
  function ParseFloat(s: string): (r: Option<Decimal>)
    ensures r.Some? ==> AllDigits(r.value.intDigits) && AllDigits(r.value.fracDigits)
    ensures r.Some? ==> |r.value.intDigits| + |r.value.fracDigits| >= 1
  {
    ParseSigned(JsText.TrimStart(s))
  }

  function ParseSigned(t: string): (r: Option<Decimal>)
    ensures r.Some? ==> AllDigits(r.value.intDigits) && AllDigits(r.value.fracDigits)
    ensures r.Some? ==> |r.value.intDigits| + |r.value.fracDigits| >= 1
  {
    if t != [] && t[0] == '-' then ParseUnsigned(true, t[1..])
    else if t != [] && t[0] == '+' then ParseUnsigned(false, t[1..])
    else ParseUnsigned(false, t)
  }

  function ParseUnsigned(negative: bool, u: string): (r: Option<Decimal>)
    ensures r.Some? ==> r.value.negative == negative
    ensures r.Some? ==> AllDigits(r.value.intDigits) && AllDigits(r.value.fracDigits)
    ensures r.Some? ==> |r.value.intDigits| + |r.value.fracDigits| >= 1
  {
    var ip := DigitPrefix(u);
    var rest := u[|ip|..];
    var fp := if rest != [] && rest[0] == '.' then DigitPrefix(rest[1..]) else [];
    if ip == [] && fp == [] then None else Some(Decimal(negative, ip, fp))
  }

  lemma DigitPrefixOfDigitsThenStop(a: string, b: string)
    requires AllDigits(a)
    requires b != [] ==> !IsDigit(b[0])
    ensures DigitPrefix(a + b) == a
  {
    var r := DigitPrefix(a + b);
    assert r == (a + b)[..|r|];
    assert (a + b)[..|a|] == a;
  }

  /** The text after the sign: integer digits, then `.` and the fraction digits if any. */
  function Unsigned(d: Decimal): string {
    d.intDigits + (if d.fracDigits == [] then "" else "." + d.fracDigits)
  }

  lemma RenderIsSignThenUnsigned(d: Decimal)
    ensures Render(d) == (if d.negative then "-" else "") + Unsigned(d)
  {
  }

  /** Text that cannot continue a number: nothing, or a character that is not a digit,
      a decimal point or an exponent mark. */
  predicate Stops(tail: string) {
    tail == [] || (!IsDigit(tail[0]) && tail[0] !in ".eE")
  }

  lemma ParseUnsignedOfUnsigned(d: Decimal, tail: string)
    requires WellFormed(d) && Stops(tail)
    ensures ParseUnsigned(d.negative, Unsigned(d) + tail) == Some(d)
  {
    var fraction := if d.fracDigits == [] then "" else "." + d.fracDigits;
    IntegerPartThenRest(d, tail);
    var rest := fraction + tail;
    if d.fracDigits != [] {
      FractionThenTail(d.fracDigits, tail);
    } else {
      assert rest == tail;
    }
  }

  lemma IntegerPartThenRest(d: Decimal, tail: string)
    requires WellFormed(d) && Stops(tail)
    ensures var fraction := if d.fracDigits == [] then "" else "." + d.fracDigits;
      && DigitPrefix(Unsigned(d) + tail) == d.intDigits
      && (Unsigned(d) + tail)[|d.intDigits|..] == fraction + tail
  {
    var fraction := if d.fracDigits == [] then "" else "." + d.fracDigits;
    var u := Unsigned(d) + tail;
    assert u == d.intDigits + (fraction + tail);
    DigitPrefixOfDigitsThenStop(d.intDigits, fraction + tail);
  }

  lemma FractionThenTail(fracDigits: string, tail: string)
    requires AllDigits(fracDigits) && fracDigits != [] && Stops(tail)
    ensures ("." + fracDigits + tail)[0] == '.'
    ensures DigitPrefix(("." + fracDigits + tail)[1..]) == fracDigits
  {
    assert ("." + fracDigits + tail)[1..] == fracDigits + tail;
    DigitPrefixOfDigitsThenStop(fracDigits, tail);
  }

  /** `parseFloat` reads back exactly the decimal that `${n}` wrote. */
  lemma {:induction false} ParseRender(d: Decimal)
    requires WellFormed(d)
    ensures ParseFloat(Render(d)) == Some(d)
  {
    ParseFloatSkipsAndStops([], d, []);
    assert [] + Render(d) + [] == Render(d);
  }

  /** `parseFloat` skips leading whitespace and ignores whatever follows the number. */
  lemma ParseFloatSkipsAndStops(ws: string, d: Decimal, tail: string)
    requires JsText.AllSpace(ws) && WellFormed(d) && Stops(tail)
    ensures ParseFloat(ws + Render(d) + tail) == Some(d)
  {
    RenderStartsWithoutSpace(d);
    var t := Render(d) + tail;
    assert ws + Render(d) + tail == ws + t;
    assert t[0] == Render(d)[0];
    SpaceThenTextTrims(ws, t);
    ParseSignedOfRender(d, tail);
  }

  /** A rendered number starts with '-' or a digit, never with whitespace. */
  lemma RenderStartsWithoutSpace(d: Decimal)
    requires WellFormed(d)
    ensures Render(d) != [] && !JsText.IsSpace(Render(d)[0])
  {
    RenderIsSignThenUnsigned(d);
    assert Unsigned(d)[0] == d.intDigits[0];
  }

  lemma {:induction false} SpaceThenTextTrims(ws: string, t: string)
    requires JsText.AllSpace(ws) && t != [] && !JsText.IsSpace(t[0])
    ensures JsText.TrimStart(ws + t) == t
    decreases |ws|
  {
    if ws == [] {
      assert ws + t == t;
    } else {
      assert (ws + t)[0] == ws[0];
      assert (ws + t)[1..] == ws[1..] + t;
      SpaceThenTextTrims(ws[1..], t);
    }
  }

  lemma ParseSignedOfRender(d: Decimal, tail: string)
    requires WellFormed(d) && Stops(tail)
    ensures ParseSigned(Render(d) + tail) == Some(d)
  {
    var s := Render(d) + tail;
    var u := Unsigned(d) + tail;
    RenderIsSignThenUnsigned(d);
    if d.negative {
      assert s == "-" + u;
      assert s[0] == '-' && s[1..] == u;
    } else {
      assert u[0] == d.intDigits[0];
      assert s == u && s[0] != '-' && s[0] != '+';
    }
    ParseUnsignedOfUnsigned(d, tail);
  }

  /** A rendered number never contains the separators of a URI query. */
  lemma RenderHasNoQuerySeparator(d: Decimal)
    requires WellFormed(d)
    ensures '?' !in Render(d) && '&' !in Render(d) && '=' !in Render(d)
    ensures '+' !in Render(d) && '%' !in Render(d)
  {
    var s := Render(d);
    forall i | 0 <= i < |s|
      ensures s[i] != '?' && s[i] != '&' && s[i] != '=' && s[i] != '+' && s[i] != '%'
    {
      var sign := if d.negative then "-" else "";
      var tail := if d.fracDigits == [] then "" else "." + d.fracDigits;
      assert s == sign + d.intDigits + tail;
      if i < |sign| {
      } else if i < |sign| + |d.intDigits| {
        assert s[i] == d.intDigits[i - |sign|];
      } else {
        assert s[i] == tail[i - |sign| - |d.intDigits|];
      }
    }
  }

  /** `Math.round(x)`: the nearest integer, halves rounded up. */
  function Round(x: real): (r: int)
    ensures x - 0.5 < r as real <= x + 0.5
  {
    (x + 0.5).Floor
  }

  /** `Math.round(x * 100) / 100`: `x` to the nearest cent. */
  function RoundCents(x: real): (r: real)
    ensures x - 0.005 < r <= x + 0.005
    ensures (r * 100.0).Floor as real == r * 100.0
  {
    Round(x * 100.0) as real / 100.0
  }

  /** `parseFloat(s)` as a number: `None` is `NaN`. */
  function ParseNumber(s: string): (r: Option<real>)
    ensures r.None? <==> ParseFloat(s).None?
    ensures r.Some? ==> r.value == Value(ParseFloat(s).value)
  {
    match ParseFloat(s)
    case None => None
    case Some(d) => Some(Value(d))
  }

  /** `parseFloat(String(x))` gives `x` back for every rendered decimal. */
  /** `parseFloat` skips leading whitespace: it gives the same number, or `NaN`, without it. */
  lemma ParseNumberIgnoresLeadingSpace(ws: string, s: string)
    requires JsText.AllSpace(ws)
    ensures ParseNumber(ws + s) == ParseNumber(s)
  {
    JsText.TrimStartSkipsSpace(ws, s);
  }

  lemma ParseNumberOfRender(d: Decimal)
    requires WellFormed(d)
    ensures ParseNumber(Render(d)) == Some(Value(d))
  {
    ParseRender(d);
  }

  /** `Math.min(a, b)` on finite numbers. */
  function MathMin(a: real, b: real): (r: real)
    ensures r <= a && r <= b && (r == a || r == b)
  {
    if a <= b then a else b
  }

  /** `Math.max(a, b)` on finite numbers. */
  function MathMax(a: real, b: real): (r: real)
    ensures r >= a && r >= b && (r == a || r == b)
  {
    if a <= b then b else a
  }
}
