/**
 The leaves of the canonical printer: how JSON.stringify writes a string and a finite
 number (ECMA-262 sections 25.5.2.3 and 6.1.6.1.20, a subset of the grammar in sections
 6 and 7 of RFC 8259), and why either text can be read back in one way only.

 Text is a sequence of UTF-16 code units.
 */
module JsonText {

  type Unit = u: int | 0 <= u < 0x10000

  type Str = seq<Unit>

  const QUOTE: Unit := 34
  const PLUS: Unit := 43
  const MINUS: Unit := 45
  const DOT: Unit := 46
  const NOUGHT: Unit := 48
  const BACKSLASH: Unit := 92
  const LETTER_E: Unit := 101
  const LETTER_U: Unit := 117

  // ---------------------------------------------------------------------------------
  // Strings
  // ---------------------------------------------------------------------------------

  predicate IsHigh(u: Unit) { 0xD800 <= u < 0xDC00 }

  predicate IsLow(u: Unit) { 0xDC00 <= u < 0xE000 }

  function HexDigit(d: int): Unit
    requires 0 <= d < 16
  {
    if d < 10 then 48 + d else 87 + d
  }

  function Hex4(u: Unit): Str {
    [HexDigit(u / 4096), HexDigit(u / 256 % 16), HexDigit(u / 16 % 16), HexDigit(u % 16)]
  }

  /** The letter of a two-character escape, or 0 when there is none. */
  function ShortEscape(u: Unit): Unit {
    if u == 8 then 98 else if u == 9 then 116 else if u == 10 then 110 else if u == 12 then 102
    else if u == 13 then 114 else if u == QUOTE || u == BACKSLASH then u else 0
  }

  /** One code unit that is not half of a surrogate pair. */
  function Escape(u: Unit): Str {
    if ShortEscape(u) != 0 then [BACKSLASH, ShortEscape(u)]
    else if u < 32 || IsHigh(u) || IsLow(u) then [BACKSLASH, LETTER_U] + Hex4(u)
    else [u]
  }

  predicate StartsWithPair(s: Str) {
    |s| >= 2 && IsHigh(s[0]) && IsLow(s[1])
  }

  /** How many code units are written together: a surrogate pair or one unit. */
  function Width(s: Str): nat
    requires s != []
    ensures 0 < Width(s) <= |s|
  {
    if StartsWithPair(s) then 2 else 1
  }

  function Chunk(s: Str): Str
    requires s != []
  {
    if StartsWithPair(s) then s[..2] else Escape(s[0])
  }

  function Body(s: Str): Str {
    if s == [] then [] else Chunk(s) + Body(s[Width(s)..])
  }

  function Quote(s: Str): Str {
    [QUOTE] + Body(s) + [QUOTE]
  }

  lemma HexDigitInjective(a: int, b: int)
    requires 0 <= a < 16 && 0 <= b < 16
    ensures HexDigit(a) == HexDigit(b) ==> a == b
  {
  }

  lemma HexValue(u: Unit)
    ensures u == u / 4096 * 4096 + u / 256 % 16 * 256 + u / 16 % 16 * 16 + u % 16
  {
    assert u == u / 16 * 16 + u % 16;
    assert u / 16 == u / 256 * 16 + u / 16 % 16;
    assert u / 256 == u / 4096 * 16 + u / 256 % 16;
  }

  lemma Hex4Injective(a: Unit, b: Unit)
    requires Hex4(a) == Hex4(b)
    ensures a == b
  {
    assert Hex4(a)[0] == Hex4(b)[0] && Hex4(a)[1] == Hex4(b)[1] && Hex4(a)[2] == Hex4(b)[2] && Hex4(a)[3] == Hex4(b)[3];
    HexDigitInjective(a / 4096, b / 4096);
    HexDigitInjective(a / 256 % 16, b / 256 % 16);
    HexDigitInjective(a / 16 % 16, b / 16 % 16);
    HexDigitInjective(a % 16, b % 16);
    HexValue(a);
    HexValue(b);
  }

  /** Escapes are a prefix code. */
  lemma EscapeDecodes(a: Unit, b: Unit, s: Str, t: Str)
    requires Escape(a) + s == Escape(b) + t
    ensures a == b && s == t
  {
    var x, y := Escape(a) + s, Escape(b) + t;
    assert x[0] == y[0];
    assert |Escape(a)| >= 2 ==> x[1] == Escape(a)[1];
    assert |Escape(b)| >= 2 ==> y[1] == Escape(b)[1];
    if |Escape(a)| == 6 {
      assert |Escape(b)| == 6;
      assert Hex4(a) == x[2..6] == y[2..6] == Hex4(b);
      Hex4Injective(a, b);
    }
    assert a == b;
    assert s == x[|Escape(a)|..] && t == y[|Escape(b)|..];
  }

  /** No chunk starts with a quote; a pair is told from an escape by its first unit. */
  lemma ChunkStart(s: Str)
    requires s != []
    ensures Chunk(s) != [] && Chunk(s)[0] != QUOTE
    ensures IsHigh(Chunk(s)[0]) <==> StartsWithPair(s)
  {
  }

  lemma ChunkDecodes(a: Str, b: Str, s: Str, t: Str)
    requires a != [] && b != [] && Chunk(a) + s == Chunk(b) + t
    ensures a[..Width(a)] == b[..Width(b)] && s == t
  {
    ChunkStart(a);
    ChunkStart(b);
    assert (Chunk(a) + s)[0] == (Chunk(b) + t)[0];
    if StartsWithPair(a) {
      assert (Chunk(a) + s)[..2] == a[..2] && (Chunk(b) + t)[..2] == b[..2];
      assert s == (Chunk(a) + s)[2..] && t == (Chunk(b) + t)[2..];
    } else {
      EscapeDecodes(a[0], b[0], s, t);
    }
  }

  /** The rest of a quoted string and what follows it. */
  function Closing(s: Str, rest: Str): Str {
    Body(s) + [QUOTE] + rest
  }

  lemma ClosingEmpty(rest: Str)
    ensures Closing([], rest) == [QUOTE] + rest
  {
    assert Body([]) + [QUOTE] == [QUOTE];
  }

  lemma Regroup(a: Str, b: Str, c: Str, d: Str)
    ensures a + b + c + d == a + (b + c + d)
  {
  }

  lemma ClosingUnfold(s: Str, rest: Str)
    requires s != []
    ensures Closing(s, rest) == Chunk(s) + Closing(s[Width(s)..], rest)
    ensures Closing(s, rest)[0] != QUOTE
  {
    ChunkStart(s);
    Regroup(Chunk(s), Body(s[Width(s)..]), [QUOTE], rest);
    assert Body(s) == Chunk(s) + Body(s[Width(s)..]);
  }

  lemma {:induction false} BodyDecodes(a: Str, b: Str, s: Str, t: Str)
    requires Closing(a, s) == Closing(b, t)
    ensures a == b && s == t
  {
    ClosingEmpty(s);
    ClosingEmpty(t);
    if a != [] {
      ClosingUnfold(a, s);
    }
    if b != [] {
      ClosingUnfold(b, t);
    }
    if a == [] {
      assert b == [];
      assert s == Closing(a, s)[1..] && t == Closing(b, t)[1..];
    } else {
      var a', b' := a[Width(a)..], b[Width(b)..];
      ChunkDecodes(a, b, Closing(a', s), Closing(b', t));
      BodyDecodes(a', b', s, t);
      assert a == a[..Width(a)] + a' && b == b[..Width(b)] + b';
    }
  }

  /** A quoted string delimits itself: whatever follows, it reads back one way. */
  lemma QuoteDecodes(a: Str, b: Str, s: Str, t: Str)
    requires Quote(a) + s == Quote(b) + t
    ensures a == b && s == t
  {
    var x, y := Quote(a) + s, Quote(b) + t;
    assert x[1..] == Closing(a, s) && y[1..] == Closing(b, t);
    BodyDecodes(a, b, s, t);
  }

  // ---------------------------------------------------------------------------------
  // Numbers
  // ---------------------------------------------------------------------------------

  predicate IsDigit(u: Unit) { 48 <= u <= 57 }

  predicate AllDigits(s: Str) { forall i | 0 <= i < |s| :: IsDigit(s[i]) }

  /** Significant digits: none redundant at either end. */
  predicate Significant(s: Str) {
    |s| > 0 && AllDigits(s) && s[0] != NOUGHT && s[|s| - 1] != NOUGHT
  }

  type Digits = s: Str | Significant(s) witness [49]

  /** A finite double by its shortest digits: the value is 0.digits * 10^point.  Zero stands
      for both zeros, which print alike. */
  datatype Num = Zero | Finite(negative: bool, digits: Digits, point: int)

  function Zeros(n: nat): Str { seq(n, _ => NOUGHT) }

  function Decimal(n: nat): Str {
    if n < 10 then [48 + n] else Decimal(n / 10) + [48 + n % 10]
  }

  function Mantissa(d: Digits): Str {
    if |d| == 1 then d else d[..1] + [DOT] + d[1..]
  }

  function Exponent(e: int): Str {
    [LETTER_E] + (if e < 0 then [MINUS] + Decimal(-e) else [PLUS] + Decimal(e))
  }

  function Fraction(d: Digits, m: nat): Str { [NOUGHT, DOT] + Zeros(m) + d }

  function Layout(d: Digits, point: int): Str {
    if |d| <= point <= 21 then d + Zeros(point - |d|)
    else if 0 < point <= 21 then d[..point] + [DOT] + d[point..]
    else if -6 < point <= 0 then Fraction(d, -point)
    else Mantissa(d) + Exponent(point - 1)
  }

  function NumText(n: Num): Str {
    match n
    case Zero => [NOUGHT]
    case Finite(negative, digits, point) => (if negative then [MINUS] else []) + Layout(digits, point)
  }

  predicate IsNumUnit(u: Unit) {
    IsDigit(u) || u == PLUS || u == MINUS || u == DOT || u == LETTER_E
  }

  predicate AllNumUnits(s: Str) { forall i | 0 <= i < |s| :: IsNumUnit(s[i]) }

  lemma {:induction false} DecimalDigits(n: nat)
    ensures |Decimal(n)| > 0 && AllDigits(Decimal(n))
  {
    if n >= 10 {
      DecimalDigits(n / 10);
    }
  }

  lemma {:induction false} DecimalInjective(a: nat, b: nat)
    requires Decimal(a) == Decimal(b)
    ensures a == b
  {
    if a >= 10 {
      DecimalDigits(a / 10);
    }
    if b >= 10 {
      DecimalDigits(b / 10);
    }
    if a >= 10 && b >= 10 {
      var x, y := Decimal(a), Decimal(b);
      assert x[..|x| - 1] == Decimal(a / 10) && y[..|y| - 1] == Decimal(b / 10);
      assert x[|x| - 1] == 48 + a % 10 && y[|y| - 1] == 48 + b % 10;
      DecimalInjective(a / 10, b / 10);
    }
  }

  lemma DigitsAreNumUnits(s: Str)
    requires AllDigits(s)
    ensures AllNumUnits(s)
  {
  }

  lemma NumUnitsConcat(a: Str, b: Str)
    requires AllNumUnits(a) && AllNumUnits(b)
    ensures AllNumUnits(a + b)
  {
  }

  lemma ExponentUnits(e: int)
    ensures AllNumUnits(Exponent(e))
  {
    var m := if e < 0 then -e else e;
    DecimalDigits(m);
    DigitsAreNumUnits(Decimal(m));
    NumUnitsConcat([if e < 0 then MINUS else PLUS], Decimal(m));
    NumUnitsConcat([LETTER_E], [if e < 0 then MINUS else PLUS] + Decimal(m));
  }

  lemma MantissaUnits(d: Digits)
    ensures Mantissa(d)[0] == d[0] && AllNumUnits(Mantissa(d))
  {
  }

  lemma LayoutUnits(d: Digits, point: int)
    ensures Layout(d, point) != [] && IsDigit(Layout(d, point)[0]) && AllNumUnits(Layout(d, point))
    ensures Layout(d, point)[0] == NOUGHT <==> -6 < point <= 0
  {
    if Exponential(d, point) {
      MantissaUnits(d);
      ExponentUnits(point - 1);
      NumUnitsConcat(Mantissa(d), Exponent(point - 1));
    }
  }

  /** Where the mark e stands in a text, if it is there at all. */
  predicate MarkedAt(s: Str, mark: Unit, i: nat) {
    i < |s| && s[i] == mark && forall j | 0 <= j < i :: s[j] != mark
  }

  predicate Exponential(d: Digits, point: int) { !(-6 < point <= 21) }

  lemma ExponentialIff(d: Digits, point: int)
    ensures Exponential(d, point) ==> MarkedAt(Layout(d, point), LETTER_E, |Mantissa(d)|)
    ensures !Exponential(d, point) ==> LETTER_E !in Layout(d, point)
  {
  }

  predicate Pointed(d: Digits, point: int) { 0 < point <= 21 && point < |d| }

  lemma PointedIff(d: Digits, point: int)
    requires !Exponential(d, point) && 0 < point
    ensures Pointed(d, point) ==> MarkedAt(Layout(d, point), DOT, point)
    ensures !Pointed(d, point) ==> DOT !in Layout(d, point) && |Layout(d, point)| == point
  {
  }

  lemma WholeDiffers(d: Digits, e: Digits, m: nat, n: nat)
    ensures |d| < |e| ==> d + Zeros(m) != e + Zeros(n)
  {
    if |d| < |e| && |d| + m == |e| + n {
      assert (d + Zeros(m))[|e| - 1] == NOUGHT && (e + Zeros(n))[|e| - 1] == e[|e| - 1];
    } else if |d| < |e| {
      assert |d + Zeros(m)| != |e + Zeros(n)|;
    }
  }

  lemma WholeInjective(d: Digits, e: Digits, m: nat, n: nat)
    requires d + Zeros(m) == e + Zeros(n)
    ensures d == e
  {
    WholeDiffers(d, e, m, n);
    WholeDiffers(e, d, n, m);
    assert d == (d + Zeros(m))[..|d|] && e == (e + Zeros(n))[..|e|];
  }

  lemma FractionDiffers(d: Digits, e: Digits, m: nat, n: nat)
    ensures m < n ==> Fraction(d, m) != Fraction(e, n)
  {
    if m < n {
      assert Fraction(d, m)[2 + m] == d[0] && Fraction(e, n)[2 + m] == NOUGHT;
    }
  }

  lemma FractionInjective(d: Digits, e: Digits, m: nat, n: nat)
    requires Fraction(d, m) == Fraction(e, n)
    ensures d == e && m == n
  {
    FractionDiffers(d, e, m, n);
    FractionDiffers(e, d, n, m);
    assert d == Fraction(d, m)[2 + m..] && e == Fraction(e, n)[2 + n..];
  }

  lemma MantissaInjective(d: Digits, e: Digits)
    requires Mantissa(d) == Mantissa(e)
    ensures d == e
  {
    assert |d| == |e| && Mantissa(d)[0] == d[0] && Mantissa(e)[0] == e[0];
    if |d| > 1 {
      assert Mantissa(d)[2..] == d[1..] && Mantissa(e)[2..] == e[1..];
    }
    assert d == [d[0]] + d[1..] && e == [e[0]] + e[1..];
  }

  lemma ExponentInjective(p: int, q: int)
    requires Exponent(p) == Exponent(q)
    ensures p == q
  {
    assert Exponent(p)[1] == Exponent(q)[1];
    assert Exponent(p)[2..] == Decimal(if p < 0 then -p else p);
    assert Exponent(q)[2..] == Decimal(if q < 0 then -q else q);
    DecimalInjective(if p < 0 then -p else p, if q < 0 then -q else q);
  }

  lemma ScientificInjective(d: Digits, e: Digits, p: int, q: int)
    requires Mantissa(d) + Exponent(p) == Mantissa(e) + Exponent(q)
    requires |Mantissa(d)| == |Mantissa(e)|
    ensures d == e && p == q
  {
    var x, y := Mantissa(d) + Exponent(p), Mantissa(e) + Exponent(q);
    var k := |Mantissa(d)|;
    assert x[..k] == Mantissa(d) && y[..k] == Mantissa(e);
    assert x[k..] == Exponent(p) && y[k..] == Exponent(q);
    MantissaInjective(d, e);
    ExponentInjective(p, q);
  }

  lemma MarkUnique(s: Str, mark: Unit, i: nat, j: nat)
    requires MarkedAt(s, mark, i) && MarkedAt(s, mark, j)
    ensures i == j
  {
  }

  lemma PlainInjective(d: Digits, e: Digits, p: int, q: int)
    requires 0 < p <= 21 && 0 < q <= 21 && Layout(d, p) == Layout(e, q)
    ensures d == e && p == q
  {
    var x := Layout(d, p);
    PointedIff(d, p);
    PointedIff(e, q);
    if Pointed(d, p) {
      MarkUnique(x, DOT, p, q);
      assert d == x[..p] + x[p + 1..] && e == x[..q] + x[q + 1..];
    } else {
      assert !Pointed(e, q);
      WholeInjective(d, e, p - |d|, q - |e|);
    }
  }

  lemma LayoutInjective(d: Digits, e: Digits, p: int, q: int)
    requires Layout(d, p) == Layout(e, q)
    ensures d == e && p == q
  {
    var x := Layout(d, p);
    ExponentialIff(d, p);
    ExponentialIff(e, q);
    LayoutUnits(d, p);
    LayoutUnits(e, q);
    if Exponential(d, p) {
      assert x[|Mantissa(d)|] == LETTER_E;
      assert Exponential(e, q);
      MarkUnique(x, LETTER_E, |Mantissa(d)|, |Mantissa(e)|);
      ScientificInjective(d, e, p - 1, q - 1);
    } else {
      assert !Exponential(e, q);
      if x[0] == NOUGHT {
        FractionInjective(d, e, -p, -q);
      } else {
        PlainInjective(d, e, p, q);
      }
    }
  }

  lemma NumUnits(n: Num)
    ensures NumText(n) != [] && (IsDigit(NumText(n)[0]) || NumText(n)[0] == MINUS) && AllNumUnits(NumText(n))
  {
    if n.Finite? {
      LayoutUnits(n.digits, n.point);
    }
  }

  lemma ZeroAlone(n: Num)
    ensures n.Finite? ==> NumText(n) != [NOUGHT]
  {
    if n.Finite? {
      LayoutUnits(n.digits, n.point);
      assert -6 < n.point <= 0 ==> |Layout(n.digits, n.point)| >= 2;
      assert NumText(n)[0] == if n.negative then MINUS else Layout(n.digits, n.point)[0];
    }
  }

  /** Different numbers have different texts. */
  lemma NumTextInjective(a: Num, b: Num)
    requires NumText(a) == NumText(b)
    ensures a == b
  {
    if a.Zero? {
      ZeroAlone(b);
    } else if b.Zero? {
      ZeroAlone(a);
    } else {
      LayoutUnits(a.digits, a.point);
      LayoutUnits(b.digits, b.point);
      assert a.negative <==> NumText(a)[0] == MINUS;
      assert b.negative <==> NumText(b)[0] == MINUS;
      var skip := if a.negative then 1 else 0;
      assert Layout(a.digits, a.point) == NumText(a)[skip..];
      assert Layout(b.digits, b.point) == NumText(b)[skip..];
      LayoutInjective(a.digits, b.digits, a.point, b.point);
    }
  }

  lemma NumEnds(a: Num, b: Num, s: Str, t: Str)
    requires s == [] || !IsNumUnit(s[0])
    ensures |NumText(a)| < |NumText(b)| ==> NumText(a) + s != NumText(b) + t
  {
    NumUnits(b);
    var m := |NumText(a)|;
    if m < |NumText(b)| && s != [] {
      assert (NumText(a) + s)[m] == s[0] && (NumText(b) + t)[m] == NumText(b)[m];
    }
  }

  /** A number followed by something no number contains reads back one way. */
  lemma NumDecodes(a: Num, b: Num, s: Str, t: Str)
    requires NumText(a) + s == NumText(b) + t
    requires s == [] || !IsNumUnit(s[0])
    requires t == [] || !IsNumUnit(t[0])
    ensures a == b && s == t
  {
    NumEnds(a, b, s, t);
    NumEnds(b, a, t, s);
    var m := |NumText(a)|;
    assert NumText(a) == (NumText(a) + s)[..m] && NumText(b) == (NumText(b) + t)[..m];
    assert s == (NumText(a) + s)[m..] && t == (NumText(b) + t)[m..];
    NumTextInjective(a, b);
  }

  /** An exponent is written exactly for numbers below 0.000001 or from 10^21 on. */
  lemma ExponentWrittenIff(negative: bool, d: Digits, point: int)
    ensures LETTER_E in NumText(Finite(negative, d, point)) <==> point <= -6 || point > 21
  {
    ExponentialIff(d, point);
    LayoutUnits(d, point);
  }

  /** Seven units are escaped with a letter, the other control characters and lone surrogates in
      lower-case hexadecimal, and nothing else is escaped. */
  lemma EscapedIff(u: Unit)
    ensures Escape(u) == [u] <==> u >= 32 && u != 34 && u != 92 && !(0xD800 <= u < 0xE000)
    ensures |Escape(u)| == 2 <==> u in {8, 9, 10, 12, 13, 34, 92}
    ensures |Escape(u)| == 6 ==> forall i | 2 <= i < 6 :: 48 <= Escape(u)[i] <= 57 || 97 <= Escape(u)[i] <= 102
  {
  }
}
