/**
 * Path templates as the generated bindings use them: `format!(path, ...)`
 * where `path` holds only plain `{}` placeholders, each filled, left to
 * right, with the `Display` rendering of a `u32` (its decimal digits).
 *
 * `Match` is the inverse reading: it recovers the integers from a
 * formatted path, so that "the integers go into the placeholders in
 * order" can be stated as a round trip.
 */
module Template {
  import opened Wrappers

  // ---------------------------------------------------------------------
  // Decimal digits
  // ---------------------------------------------------------------------

  predicate IsDigit(c: char) {
    '0' <= c <= '9'
  }

  predicate AllDigits(s: string) {
    forall i :: 0 <= i < |s| ==> IsDigit(s[i])
  }

  function DigitChar(d: nat): (c: char)
    requires d < 10
    ensures IsDigit(c)
  {
    ('0' as int + d) as char
  }

  function DigitValue(c: char): nat
    requires IsDigit(c)
  {
    c as int - '0' as int
  }

  /** The decimal rendering of `n`: non-empty, all digits, no leading zero. */
  function Decimal(n: nat): (s: string)
    ensures |s| > 0 && AllDigits(s)
    ensures |s| > 1 ==> s[0] != '0'
    decreases n
  {
    if n < 10 then [DigitChar(n)] else Decimal(n / 10) + [DigitChar(n % 10)]
  }

  /** The number a string of digits denotes (leading zeros allowed). */
  function ValueOf(s: string): nat
    requires AllDigits(s)
    decreases |s|
  {
    if |s| == 0 then 0 else 10 * ValueOf(s[..|s| - 1]) + DigitValue(s[|s| - 1])
  }

  lemma {:induction false} ValueOfDecimal(n: nat)
    ensures ValueOf(Decimal(n)) == n
    decreases n
  {
    if n >= 10 {
      var d := Decimal(n / 10);
      assert Decimal(n) == d + [DigitChar(n % 10)];
      assert (d + [DigitChar(n % 10)])[..|d|] == d;
      ValueOfDecimal(n / 10);
    }
  }

  /** The length of the longest prefix of `s` made of digits. */
  function DigitRun(s: string): (k: nat)
    ensures k <= |s| && AllDigits(s[..k])
    ensures k < |s| ==> !IsDigit(s[k])
    decreases |s|
  {
    if |s| == 0 || !IsDigit(s[0]) then 0 else 1 + DigitRun(s[1..])
  }

  /** A run of digits followed by the end or by a non-digit is read whole. */
  lemma DigitRunOf(d: string, f: string)
    requires AllDigits(d)
    requires f == [] || !IsDigit(f[0])
    ensures DigitRun(d + f) == |d|
  {
    assert forall i :: 0 <= i < |d| ==> (d + f)[i] == d[i];
    if f != [] {
      assert (d + f)[|d|] == f[0];
    }
  }

  // ---------------------------------------------------------------------
  // Templates
  // ---------------------------------------------------------------------

  predicate StartsWithHole(t: string) {
    |t| >= 2 && t[0] == '{' && t[1] == '}'
  }

  /** The number of `{}` placeholders in `t`. */
  function Holes(t: string): nat
    decreases |t|
  {
    if |t| == 0 then 0
    else if StartsWithHole(t) then 1 + Holes(t[2..])
    else Holes(t[1..])
  }

  /** `t` uses braces only as `{}` placeholders (no escapes, no named arguments). */
  predicate Plain(t: string)
    decreases |t|
  {
    if |t| == 0 then true
    else if StartsWithHole(t) then Plain(t[2..])
    else t[0] != '{' && t[0] != '}' && Plain(t[1..])
  }

  /**
   * Every placeholder is followed by the end of the template or by a
   * literal character that is not a digit, so a filled-in number cannot
   * run into the text after it.
   */
  predicate Separated(t: string)
    decreases |t|
  {
    if |t| == 0 then true
    else if StartsWithHole(t) then (|t| == 2 || (!IsDigit(t[2]) && t[2] != '{')) && Separated(t[2..])
    else Separated(t[1..])
  }

  /** A piece of template text with no braces at all. */
  predicate Literal(s: string) {
    forall i :: 0 <= i < |s| ==> s[i] != '{' && s[i] != '}'
  }

  /**
   * `format!(t, xs[0], xs[1], ...)`: each `{}` in turn takes the next
   * integer's decimal form. A plain template leaves no brace behind, and
   * every placeholder's two characters become at least one digit.
   */
  function Format(t: string, xs: seq<nat>): (r: string)
    requires Holes(t) == |xs|
    ensures Plain(t) ==> Literal(r)
    ensures |r| >= |t| - Holes(t)
    decreases |t|
  {
    if |t| == 0 then ""
    else if StartsWithHole(t) then Decimal(xs[0]) + Format(t[2..], xs[1..])
    else [t[0]] + Format(t[1..], xs)
  }

  /**
   * Reads `s` against template `t`: literal characters must agree, and
   * each placeholder takes the longest run of digits.
   */
  function Match(t: string, s: string): (r: Option<seq<nat>>)
    ensures r.Some? ==> |r.value| == Holes(t)
    decreases |t|
  {
    if |t| == 0 then (if |s| == 0 then Some([]) else None)
    else if StartsWithHole(t) then
      var k := DigitRun(s);
      if k == 0 then None
      else
        match Match(t[2..], s[k..])
        case None => None
        case Some(rest) => Some([ValueOf(s[..k])] + rest)
    else if |s| > 0 && s[0] == t[0] then Match(t[1..], s[1..])
    else None
  }

  /** A template with no placeholder formats to itself. */
  lemma {:induction false} FormatNoHoles(t: string)
    requires Holes(t) == 0
    ensures Format(t, []) == t
    decreases |t|
  {
    if |t| > 0 {
      FormatNoHoles(t[1..]);
    }
  }

  /** Round trip: the integers can be read back from the formatted path, in order. */
  lemma {:induction false} MatchFormat(t: string, xs: seq<nat>)
    requires Plain(t) && Separated(t) && Holes(t) == |xs|
    ensures Match(t, Format(t, xs)) == Some(xs)
    decreases |t|
  {
    if |t| == 0 {
    } else if StartsWithHole(t) {
      var d, f := Decimal(xs[0]), Format(t[2..], xs[1..]);
      assert Format(t, xs) == d + f;
      if |t| == 2 {
        assert f == [];
      } else {
        assert f == [t[2]] + Format(t[3..], xs[1..]);
      }
      DigitRunOf(d, f);
      assert (d + f)[..|d|] == d;
      assert (d + f)[|d|..] == f;
      ValueOfDecimal(xs[0]);
      MatchFormat(t[2..], xs[1..]);
      assert [xs[0]] + xs[1..] == xs;
    } else {
      MatchFormat(t[1..], xs);
    }
  }

  /** Different integers give different paths. */
  lemma FormatInjective(t: string, xs: seq<nat>, ys: seq<nat>)
    requires Plain(t) && Separated(t) && Holes(t) == |xs| == |ys|
    requires Format(t, xs) == Format(t, ys)
    ensures xs == ys
  {
    MatchFormat(t, xs);
    MatchFormat(t, ys);
  }

  // ---------------------------------------------------------------------
  // Building concrete templates from literal pieces
  // ---------------------------------------------------------------------

  /** Literal text in front of a template changes nothing but the output's prefix. */
  lemma {:induction false} LiteralPrefix(a: string, b: string)
    requires Literal(a)
    ensures Holes(a + b) == Holes(b)
    ensures Plain(a + b) == Plain(b)
    ensures Separated(a + b) == Separated(b)
    decreases |a|
  {
    if |a| > 0 {
      var t := a + b;
      assert t[0] == a[0] && !StartsWithHole(t);
      assert t[1..] == a[1..] + b;
      LiteralPrefix(a[1..], b);
    } else {
      assert a + b == b;
    }
  }

  lemma {:induction false} LiteralPrefixFormat(a: string, b: string, xs: seq<nat>)
    requires Literal(a) && Holes(b) == |xs|
    ensures Holes(a + b) == |xs|
    ensures Format(a + b, xs) == a + Format(b, xs)
    decreases |a|
  {
    LiteralPrefix(a, b);
    if |a| > 0 {
      assert (a + b)[0] == a[0];
      assert (a + b)[1..] == a[1..] + b;
      LiteralPrefixFormat(a[1..], b, xs);
      assert [a[0]] + (a[1..] + Format(b, xs)) == a + Format(b, xs);
    } else {
      assert a + b == b;
    }
  }

  lemma HolePrefix(b: string, x: nat, xs: seq<nat>)
    requires Holes(b) == |xs|
    ensures Holes("{}" + b) == 1 + |xs|
    ensures Plain("{}" + b) == Plain(b)
    ensures Separated("{}" + b) == ((b == [] || (!IsDigit(b[0]) && b[0] != '{')) && Separated(b))
    ensures Format("{}" + b, [x] + xs) == Decimal(x) + Format(b, xs)
  {
    assert ("{}" + b)[2..] == b;
    assert ([x] + xs)[1..] == xs;
  }

  /** A template with no placeholder: plain, separated, and formatted verbatim. */
  lemma Shape0(a: string)
    requires Literal(a)
    ensures Plain(a) && Separated(a) && Holes(a) == 0
    ensures Format(a, []) == a
  {
    LiteralPrefix(a, "");
    assert a + "" == a;
    FormatNoHoles(a);
  }

  /** Literal text and a placeholder in front of a well-formed template `t`. */
  lemma Prepend(a: string, t: string, x: nat, ys: seq<nat>)
    requires Literal(a) && Plain(t) && Separated(t) && Holes(t) == |ys|
    requires t == [] || (!IsDigit(t[0]) && t[0] != '{')
    ensures Plain(a + ("{}" + t)) && Separated(a + ("{}" + t)) && Holes(a + ("{}" + t)) == 1 + |ys|
    ensures Format(a + ("{}" + t), [x] + ys) == a + (Decimal(x) + Format(t, ys))
  {
    HolePrefix(t, x, ys);
    LiteralPrefix(a, "{}" + t);
    LiteralPrefixFormat(a, "{}" + t, [x] + ys);
  }

  /** A template `a{}b` with literal `a` and `b`, where `b` does not start with a digit. */
  lemma Shape1(a: string, b: string, x: nat)
    requires Literal(a) && Literal(b)
    requires b == [] || !IsDigit(b[0])
    ensures Plain(a + ("{}" + b)) && Separated(a + ("{}" + b)) && Holes(a + ("{}" + b)) == 1
    ensures Format(a + ("{}" + b), [x]) == a + (Decimal(x) + b)
  {
    Shape0(b);
    Prepend(a, b, x, []);
    assert [x] + [] == [x];
  }

  /** A template `a{}b{}c` with literal pieces, `b` non-empty and not starting with a digit. */
  lemma Shape2(a: string, b: string, c: string, x: nat, y: nat)
    requires Literal(a) && Literal(b) && Literal(c)
    requires b != [] && !IsDigit(b[0])
    requires c == [] || !IsDigit(c[0])
    ensures Plain(a + ("{}" + (b + ("{}" + c))))
    ensures Separated(a + ("{}" + (b + ("{}" + c))))
    ensures Holes(a + ("{}" + (b + ("{}" + c)))) == 2
    ensures Format(a + ("{}" + (b + ("{}" + c))), [x, y]) == a + (Decimal(x) + (b + (Decimal(y) + c)))
  {
    var tail := b + ("{}" + c);
    Shape1(b, c, y);
    assert tail[0] == b[0];
    Prepend(a, tail, x, [y]);
    assert [x] + [y] == [x, y];
  }
}
