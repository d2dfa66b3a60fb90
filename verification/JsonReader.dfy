/**
 A reader of JSON texts, after the grammar of RFC 8259, sections 2 to 7, and without anything
 of the printer's: what the canonical printer writes is JSON, and says what the value means.

 Numbers are read as exact decimals; of two members with one name the later one stays, as in
 JSON.parse.
 */
module JsonReader {
  import opened Wrappers
  import opened JsonText
  import opened StableStringify

  datatype Parsed<+T> = Fail | Done(value: T, rest: Str)

  predicate Starts(s: Str, c: char) {
    s != [] && s[0] == c as int
  }

  predicate StartsWith(s: Str, word: string) {
    |word| <= |s| && forall i | 0 <= i < |word| :: s[i] == word[i] as int
  }

  /** Insignificant white space. */
  function Skip(s: Str): (r: Str)
    ensures |r| <= |s|
  {
    if Starts(s, ' ') || Starts(s, '\t') || Starts(s, '\n') || Starts(s, '\r') then Skip(s[1..]) else s
  }

  // ---------------------------------------------------------------------------------
  // Strings
  // ---------------------------------------------------------------------------------

  type Hex = d: int | 0 <= d < 16

  function HexValue(u: Unit): Option<Hex> {
    if '0' as int <= u <= '9' as int then Some(u - '0' as int)
    else if 'a' as int <= u <= 'f' as int then Some(10 + u - 'a' as int)
    else if 'A' as int <= u <= 'F' as int then Some(10 + u - 'A' as int)
    else None
  }

  function FourHex(s: Str): (r: Option<Unit>) {
    if |s| >= 4 && HexValue(s[0]).Some? && HexValue(s[1]).Some? && HexValue(s[2]).Some? && HexValue(s[3]).Some?
    then Some(4096 * HexValue(s[0]).value + 256 * HexValue(s[1]).value + 16 * HexValue(s[2]).value + HexValue(s[3]).value)
    else None
  }

  /** The unit behind a two-character escape. */
  function Unescaped(u: Unit): Option<Unit> {
    if u == '"' as int || u == '\\' as int || u == '/' as int then Some(u)
    else if u == 'b' as int then Some(8)
    else if u == 'f' as int then Some(12)
    else if u == 'n' as int then Some(10)
    else if u == 'r' as int then Some(13)
    else if u == 't' as int then Some(9)
    else None
  }

  function Prepend(u: Unit, r: Parsed<Str>): Parsed<Str> {
    match r
    case Fail => Fail
    case Done(s, rest) => Done([u] + s, rest)
  }

  /** From after the opening quote to the closing one. */
  function ReadUnits(s: Str): (r: Parsed<Str>)
    ensures r.Done? ==> |r.rest| < |s|
  {
    if s == [] || s[0] < 32 then Fail
    else if s[0] == '"' as int then Done([], s[1..])
    else if s[0] != '\\' as int then Prepend(s[0], ReadUnits(s[1..]))
    else if |s| < 2 then Fail
    else if s[1] == 'u' as int then
      if FourHex(s[2..]).Some? then Prepend(FourHex(s[2..]).value, ReadUnits(s[6..])) else Fail
    else if Unescaped(s[1]).Some? then Prepend(Unescaped(s[1]).value, ReadUnits(s[2..]))
    else Fail
  }

  lemma HexDigitReads(d: int)
    requires 0 <= d < 16
    ensures HexValue(HexDigit(d)) == Some(d)
  {
  }

  lemma Hex4Reads(u: Unit, rest: Str)
    ensures FourHex(Hex4(u) + rest) == Some(u)
  {
    HexDigitReads(u / 4096);
    HexDigitReads(u / 256 % 16);
    HexDigitReads(u / 16 % 16);
    HexDigitReads(u % 16);
    JsonText.HexValue(u);
  }

  lemma EscapeReads(u: Unit, rest: Str)
    ensures ReadUnits(Escape(u) + rest) == Prepend(u, ReadUnits(rest))
  {
    var text := Escape(u) + rest;
    if ShortEscape(u) != 0 {
      assert text[0] == BACKSLASH && text[1] == ShortEscape(u) && text[2..] == rest;
    } else if |Escape(u)| == 6 {
      assert text[2..] == Hex4(u) + rest && text[6..] == rest;
      Hex4Reads(u, rest);
    } else {
      assert text[1..] == rest;
    }
  }

  lemma PairReads(a: Unit, b: Unit, rest: Str)
    requires IsHigh(a) && IsLow(b)
    ensures ReadUnits([a, b] + rest) == Prepend(a, Prepend(b, ReadUnits(rest)))
  {
    assert ([a, b] + rest)[1..] == [b] + rest && ([b] + rest)[1..] == rest;
  }

  lemma PairThenRest(s: Str, rest: Str)
    requires s != [] && StartsWithPair(s) && ReadUnits(Closing(s[2..], rest)) == Done(s[2..], rest)
    ensures ReadUnits(Closing(s, rest)) == Done(s, rest)
  {
    ClosingUnfold(s, rest);
    assert s[..2] == [s[0], s[1]] && s == [s[0]] + ([s[1]] + s[2..]);
    PairReads(s[0], s[1], Closing(s[2..], rest));
  }

  lemma UnitThenRest(s: Str, rest: Str)
    requires s != [] && !StartsWithPair(s) && ReadUnits(Closing(s[1..], rest)) == Done(s[1..], rest)
    ensures ReadUnits(Closing(s, rest)) == Done(s, rest)
  {
    ClosingUnfold(s, rest);
    assert s == [s[0]] + s[1..];
    EscapeReads(s[0], Closing(s[1..], rest));
  }

  /** What is quoted reads back, surrogates, paired or not, and control characters included. */
  lemma {:induction false} QuotedReads(s: Str, rest: Str)
    ensures ReadUnits(Closing(s, rest)) == Done(s, rest)
    decreases |s|
  {
    if s == [] {
      ClosingEmpty(rest);
      assert ([QUOTE] + rest)[1..] == rest;
    } else if StartsWithPair(s) {
      QuotedReads(s[2..], rest);
      PairThenRest(s, rest);
    } else {
      QuotedReads(s[1..], rest);
      UnitThenRest(s, rest);
    }
  }

  lemma QuoteReads(s: Str, rest: Str)
    ensures Starts(Quote(s) + rest, '"') && ReadUnits((Quote(s) + rest)[1..]) == Done(s, rest)
  {
    assert (Quote(s) + rest)[1..] == Closing(s, rest);
    QuotedReads(s, rest);
  }

  // ---------------------------------------------------------------------------------
  // Numbers
  // ---------------------------------------------------------------------------------

  predicate Digit(u: Unit) {
    '0' as int <= u <= '9' as int
  }

  /** How many digits the text starts with. */
  function Span(s: Str): (n: nat)
    ensures n <= |s| && forall i | 0 <= i < n :: Digit(s[i])
  {
    if s != [] && Digit(s[0]) then 1 + Span(s[1..]) else 0
  }

  function NumberOf(digits: Str): int {
    if digits == [] then 0
    else 10 * NumberOf(digits[..|digits| - 1]) + (digits[|digits| - 1] - '0' as int)
  }

  function ReadFraction(s: Str): (r: Parsed<Str>)
    ensures r.Done? ==> |r.rest| <= |s| && AllDigits(r.value)
  {
    if !Starts(s, '.') then Done([], s)
    else
      var n := Span(s[1..]);
      if n == 0 then Fail else Done(s[1..1 + n], s[1 + n..])
  }

  function ReadExponent(s: Str): (r: Parsed<int>)
    ensures r.Done? ==> |r.rest| <= |s|
  {
    if !Starts(s, 'e') && !Starts(s, 'E') then Done(0, s)
    else
      var signed := Starts(s[1..], '+') || Starts(s[1..], '-');
      var from := if signed then 2 else 1;
      var n := Span(s[from..]);
      if n == 0 then Fail
      else
        var value := NumberOf(s[from..from + n]);
        Done(if Starts(s[1..], '-') then -value else value, s[from + n..])
  }

  datatype Decimals = Decimals(digits: Str, point: int)

  /** The digits before and after the point, which stands for 0.digits * 10^point. */
  function ReadUnsigned(s: Str): (r: Parsed<Decimals>)
    ensures r.Done? ==> |r.rest| < |s| && AllDigits(r.value.digits)
  {
    var n := Span(s);
    if n == 0 || (n > 1 && Starts(s, '0')) then Fail
    else
      match ReadFraction(s[n..])
      case Fail => Fail
      case Done(fraction, more) =>
        match ReadExponent(more)
        case Fail => Fail
        case Done(e, rest) => Done(Decimals(s[..n] + fraction, n + e), rest)
  }

  function TrimEnd(digits: Str): (r: Str)
    requires digits != [] && AllDigits(digits) && !Starts(digits, '0')
    ensures Significant(r)
  {
    if digits[|digits| - 1] == '0' as int then TrimEnd(digits[..|digits| - 1]) else digits
  }

  /** The same number without zeros that do not count. */
  function Normal(negative: bool, digits: Str, point: int): Num
    requires AllDigits(digits)
  {
    if digits == [] then Zero
    else if Starts(digits, '0') then Normal(negative, digits[1..], point - 1)
    else Finite(negative, TrimEnd(digits), point)
  }

  function ReadNumber(s: Str): (r: Parsed<Num>)
    ensures r.Done? ==> |r.rest| < |s|
  {
    var negative := Starts(s, '-');
    match ReadUnsigned(if negative then s[1..] else s)
    case Fail => Fail
    case Done(decimals, rest) => Done(Normal(negative, decimals.digits, decimals.point), rest)
  }

  lemma {:induction false} SpanReads(digits: Str, rest: Str)
    requires AllDigits(digits) && (rest == [] || !Digit(rest[0]))
    ensures Span(digits + rest) == |digits|
  {
    if digits == [] {
      assert digits + rest == rest;
    } else {
      assert (digits + rest)[1..] == digits[1..] + rest;
      SpanReads(digits[1..], rest);
    }
  }

  lemma {:induction false} DecimalReads(n: nat)
    ensures NumberOf(Decimal(n)) == n
  {
    if n >= 10 {
      DecimalReads(n / 10);
      assert Decimal(n)[..|Decimal(n)| - 1] == Decimal(n / 10);
    } else {
      assert Decimal(n)[..0] == [];
    }
  }

  /** Nothing that a number could go on with. */
  predicate Ends(s: Str) {
    s == [] || (!Digit(s[0]) && s[0] != '.' as int && s[0] != 'e' as int && s[0] != 'E' as int)
  }

  lemma ExponentText(e: int, rest: Str)
    ensures var m, s := if e < 0 then -e else e, Exponent(e) + rest;
      && |s| > 2 && s[0] == LETTER_E && s[1] == (if e < 0 then MINUS else PLUS)
      && s[2..] == Decimal(m) + rest && s[1..][0] == s[1]
  {
    DecimalDigits(if e < 0 then -e else e);
  }

  lemma Taken(a: Str, b: Str)
    ensures (a + b)[..|a|] == a && (a + b)[|a|..] == b
  {
  }

  lemma ExponentReads(e: int, rest: Str)
    requires Ends(rest)
    ensures ReadExponent(Exponent(e) + rest) == Done(e, rest)
  {
    var m := if e < 0 then -e else e;
    var s := Exponent(e) + rest;
    DecimalDigits(m);
    ExponentText(e, rest);
    SpanReads(Decimal(m), rest);
    Taken(Decimal(m), rest);
    assert s[2..2 + |Decimal(m)|] == s[2..][..|Decimal(m)|] && s[2 + |Decimal(m)|..] == s[2..][|Decimal(m)|..];
    DecimalReads(m);
  }

  lemma FractionReads(digits: Str, rest: Str)
    requires digits != [] && AllDigits(digits) && (rest == [] || !Digit(rest[0]))
    ensures ReadFraction([DOT] + digits + rest) == Done(digits, rest)
  {
    var s := [DOT] + digits + rest;
    assert s[1..] == digits + rest;
    SpanReads(digits, rest);
    assert s[1..1 + |digits|] == digits && s[1 + |digits|..] == rest;
  }

  /** A whole part, then whatever reads as a fraction and an exponent. */
  lemma UnsignedReads(whole: Str, more: Str, fraction: Str, later: Str, e: int, rest: Str)
    requires whole != [] && AllDigits(whole) && (|whole| > 1 ==> whole[0] != NOUGHT)
    requires more == [] || !Digit(more[0])
    requires ReadFraction(more) == Done(fraction, later) && ReadExponent(later) == Done(e, rest)
    ensures ReadUnsigned(whole + more) == Done(Decimals(whole + fraction, |whole| + e), rest)
  {
    SpanReads(whole, more);
    assert (whole + more)[..|whole|] == whole && (whole + more)[|whole|..] == more;
  }

  lemma {:induction false} TrimReads(d: Digits, m: nat)
    ensures TrimEnd(d + Zeros(m)) == d
  {
    if m == 0 {
      assert d + Zeros(0) == d;
    } else {
      var all := d + Zeros(m);
      assert all[|all| - 1] == NOUGHT && all[..|all| - 1] == d + Zeros(m - 1);
      TrimReads(d, m - 1);
    }
  }

  lemma {:induction false} NormalReads(negative: bool, m: nat, d: Digits, k: nat, point: int)
    ensures AllDigits(Zeros(m) + (d + Zeros(k)))
    ensures Normal(negative, Zeros(m) + (d + Zeros(k)), point) == Finite(negative, d, point - m)
  {
    var all := Zeros(m) + (d + Zeros(k));
    if m == 0 {
      assert all == d + Zeros(k);
      TrimReads(d, k);
    } else {
      assert all[0] == NOUGHT && all[1..] == Zeros(m - 1) + (d + Zeros(k));
      NormalReads(negative, m - 1, d, k, point - 1);
    }
  }

  /** What each layout reads as: the digits between some zeros. */
  ghost predicate ReadsAs(s: Str, d: Digits, point: int, rest: Str, m: nat, k: nat) {
    ReadUnsigned(s) == Done(Decimals(Zeros(m) + (d + Zeros(k)), point + m), rest)
  }

  lemma Bare(d: Digits)
    ensures d == Zeros(0) + (d + Zeros(0))
  {
  }

  lemma WholeReads(d: Digits, k: nat, rest: Str)
    requires Ends(rest)
    ensures ReadsAs(d + Zeros(k) + rest, d, |d| + k, rest, 0, k)
  {
    var whole := d + Zeros(k);
    UnsignedReads(whole, rest, [], rest, 0, rest);
    assert whole + [] == Zeros(0) + (d + Zeros(k));
  }

  /** Digits with a point between them, and perhaps an exponent after. */
  lemma TwoPartsRead(a: Str, b: Str, later: Str, e: int, rest: Str)
    requires a != [] && b != [] && AllDigits(a) && AllDigits(b) && (|a| > 1 ==> a[0] != NOUGHT)
    requires later == [] || !Digit(later[0])
    requires ReadExponent(later) == Done(e, rest)
    ensures ReadUnsigned(a + [DOT] + b + later) == Done(Decimals(a + b, |a| + e), rest)
  {
    FractionReads(b, later);
    UnsignedReads(a, [DOT] + b + later, b, later, e, rest);
    JsonText.Regroup(a, [DOT], b, later);
  }

  lemma SplitDigits(d: Digits, point: nat)
    requires 0 < point < |d|
    ensures AllDigits(d[..point]) && AllDigits(d[point..]) && d[..point] + d[point..] == d
    ensures d[..point] != [] && d[point..] != [] && d[..point][0] != NOUGHT
  {
  }

  lemma PointedReads(d: Digits, a: Str, b: Str, rest: Str)
    requires a + b == d && a != [] && b != [] && AllDigits(a) && AllDigits(b) && a[0] != NOUGHT && Ends(rest)
    ensures ReadsAs(a + [DOT] + b + rest, d, |a|, rest, 0, 0)
  {
    TwoPartsRead(a, b, rest, 0, rest);
    Bare(d);
  }

  lemma FractionText(z: Str, d: Str, rest: Str)
    ensures [NOUGHT, DOT] + z + d + rest == [NOUGHT] + ([DOT] + (z + d) + rest)
  {
  }

  lemma FractionDigits(d: Digits, m: nat)
    ensures AllDigits(Zeros(m) + d) && Zeros(m) + d != []
    ensures [NOUGHT] + (Zeros(m) + d) == Zeros(1 + m) + (d + Zeros(0))
  {
  }

  lemma SmallReads(d: Digits, point: int, m: nat, rest: Str)
    requires Ends(rest) && point + m == 0
    ensures ReadsAs(Fraction(d, m) + rest, d, point, rest, 1 + m, 0)
  {
    FractionDigits(d, m);
    var fraction := Zeros(m) + d;
    FractionReads(fraction, rest);
    UnsignedReads([NOUGHT], [DOT] + fraction + rest, fraction, rest, 0, rest);
    FractionText(Zeros(m), d, rest);
  }

  lemma ExponentLater(e: int, rest: Str)
    requires Ends(rest)
    ensures var later := Exponent(e) + rest;
      later != [] && !Digit(later[0]) && !Starts(later, '.') && ReadExponent(later) == Done(e, rest)
  {
    ExponentReads(e, rest);
    ExponentText(e, rest);
  }

  lemma OneDigitReads(d: Digits, e: int, rest: Str)
    requires Ends(rest) && |d| == 1
    ensures ReadsAs(d + (Exponent(e) + rest), d, e + 1, rest, 0, 0)
  {
    var later := Exponent(e) + rest;
    ExponentLater(e, rest);
    UnsignedReads(d, later, [], later, e, rest);
    assert d + [] == d;
    Bare(d);
  }

  lemma MoreDigitsRead(d: Digits, e: int, rest: Str)
    requires Ends(rest) && |d| > 1
    ensures ReadsAs(d[..1] + [DOT] + d[1..] + (Exponent(e) + rest), d, e + 1, rest, 0, 0)
  {
    ExponentLater(e, rest);
    SplitDigits(d, 1);
    TwoPartsRead(d[..1], d[1..], Exponent(e) + rest, e, rest);
    Bare(d);
  }

  lemma ScientificReads(d: Digits, e: int, rest: Str)
    requires Ends(rest)
    ensures ReadsAs(Mantissa(d) + Exponent(e) + rest, d, e + 1, rest, 0, 0)
  {
    StableStringify.Regroup(Mantissa(d), Exponent(e), rest);
    if |d| == 1 {
      OneDigitReads(d, e, rest);
    } else {
      MoreDigitsRead(d, e, rest);
    }
  }

  /** It reads as this number, signs aside. */
  ghost predicate ReadsTo(negative: bool, s: Str, d: Digits, point: int, rest: Str) {
    var r := ReadUnsigned(s);
    r.Done? && r.rest == rest && Normal(negative, r.value.digits, r.value.point) == Finite(negative, d, point)
  }

  lemma ReadsAsIsTo(negative: bool, s: Str, d: Digits, point: int, rest: Str, m: nat, k: nat)
    requires ReadsAs(s, d, point, rest, m, k)
    ensures ReadsTo(negative, s, d, point, rest)
  {
    NormalReads(negative, m, d, k, point + m);
  }

  lemma WholeLayoutReads(negative: bool, d: Digits, point: int, rest: Str)
    requires Ends(rest) && |d| <= point <= 21
    ensures ReadsTo(negative, Layout(d, point) + rest, d, point, rest)
  {
    WholeReads(d, point - |d|, rest);
    ReadsAsIsTo(negative, d + Zeros(point - |d|) + rest, d, point, rest, 0, point - |d|);
  }

  lemma PointedLayoutReads(negative: bool, d: Digits, point: int, rest: Str)
    requires Ends(rest) && 0 < point <= 21 && point < |d|
    ensures ReadsTo(negative, Layout(d, point) + rest, d, point, rest)
  {
    SplitDigits(d, point);
    PointedReads(d, d[..point], d[point..], rest);
    ReadsAsIsTo(negative, d[..point] + [DOT] + d[point..] + rest, d, point, rest, 0, 0);
  }

  lemma SmallLayoutReads(negative: bool, d: Digits, point: int, rest: Str)
    requires Ends(rest) && -6 < point <= 0
    ensures ReadsTo(negative, Layout(d, point) + rest, d, point, rest)
  {
    SmallReads(d, point, -point, rest);
    ReadsAsIsTo(negative, Fraction(d, -point) + rest, d, point, rest, 1 - point, 0);
  }

  lemma ScientificLayoutReads(negative: bool, d: Digits, point: int, rest: Str)
    requires Ends(rest) && Exponential(d, point)
    ensures ReadsTo(negative, Layout(d, point) + rest, d, point, rest)
  {
    ScientificReads(d, point - 1, rest);
    ReadsAsIsTo(negative, Mantissa(d) + Exponent(point - 1) + rest, d, point, rest, 0, 0);
  }

  lemma LayoutReads(negative: bool, d: Digits, point: int, rest: Str)
    requires Ends(rest)
    ensures ReadsTo(negative, Layout(d, point) + rest, d, point, rest)
  {
    if Exponential(d, point) {
      ScientificLayoutReads(negative, d, point, rest);
    } else if point <= 0 {
      SmallLayoutReads(negative, d, point, rest);
    } else if point < |d| {
      PointedLayoutReads(negative, d, point, rest);
    } else {
      WholeLayoutReads(negative, d, point, rest);
    }
  }

  lemma ZeroReads(rest: Str)
    requires Ends(rest)
    ensures ReadNumber([NOUGHT] + rest) == Done(Zero, rest)
  {
    UnsignedReads([NOUGHT], rest, [], rest, 0, rest);
    assert [NOUGHT] + [] == [NOUGHT];
    assert Normal(false, [NOUGHT], 1) == Normal(false, [NOUGHT][1..], 0) == Zero;
  }

  lemma FiniteReads(negative: bool, d: Digits, point: int, rest: Str)
    requires ReadsTo(negative, Layout(d, point) + rest, d, point, rest)
    ensures ReadNumber(NumText(Finite(negative, d, point)) + rest) == Done(Finite(negative, d, point), rest)
  {
    var digits := Layout(d, point) + rest;
    LayoutUnits(d, point);
    if negative {
      StableStringify.Regroup([MINUS], Layout(d, point), rest);
      assert ([MINUS] + digits)[1..] == digits;
    } else {
      assert [] + Layout(d, point) == Layout(d, point);
    }
  }

  /** Every number reads back, whichever of the four layouts it was written in. */
  lemma NumReads(n: Num, rest: Str)
    requires Ends(rest)
    ensures ReadNumber(NumText(n) + rest) == Done(n, rest)
  {
    match n {
      case Zero => ZeroReads(rest);
      case Finite(negative, digits, point) =>
        LayoutReads(negative, digits, point, rest);
        FiniteReads(negative, digits, point, rest);
    }
  }

  // ---------------------------------------------------------------------------------
  // Values
  // ---------------------------------------------------------------------------------

  function ReadWord(s: Str, word: string, p: Payload): (r: Parsed<Payload>)
    ensures r.Done? && word != "" ==> |r.rest| < |s|
  {
    if StartsWith(s, word) then Done(p, s[|word|..]) else Fail
  }

  function ReadValue(text: Str): (r: Parsed<Payload>)
    ensures r.Done? ==> |r.rest| < |text|
    decreases |text|, 0
  {
    var s := Skip(text);
    if s == [] then Fail
    else if Starts(s, 'n') then ReadWord(s, "null", PNull)
    else if Starts(s, 't') then ReadWord(s, "true", PBoolean(true))
    else if Starts(s, 'f') then ReadWord(s, "false", PBoolean(false))
    else if Starts(s, '"') then
      match ReadUnits(s[1..])
      case Fail => Fail
      case Done(units, rest) => Done(PText(units), rest)
    else if Starts(s, '[') then
      match ReadList(s[1..])
      case Fail => Fail
      case Done(items, rest) => Done(PList(items), rest)
    else if Starts(s, '{') then
      match ReadRecord(s[1..])
      case Fail => Fail
      case Done(fields, rest) => Done(PRecord(fields), rest)
    else
      match ReadNumber(s)
      case Fail => Fail
      case Done(n, rest) => Done(PNumber(n), rest)
  }

  function ReadList(text: Str): (r: Parsed<seq<Payload>>)
    ensures r.Done? ==> |r.rest| < |text|
    decreases |text|, 2
  {
    if Starts(Skip(text), ']') then Done([], Skip(text)[1..]) else ReadElements(text)
  }

  /** One value or more, with commas between them, and the closing bracket. */
  function ReadElements(text: Str): (r: Parsed<seq<Payload>>)
    ensures r.Done? ==> |r.rest| < |text|
    decreases |text|, 1
  {
    match ReadValue(text)
    case Fail => Fail
    case Done(p, after) =>
      var s := Skip(after);
      if Starts(s, ']') then Done([p], s[1..])
      else if Starts(s, ',') then
        match ReadElements(s[1..])
        case Fail => Fail
        case Done(items, rest) => Done([p] + items, rest)
      else Fail
  }

  function ReadRecord(text: Str): (r: Parsed<map<Str, Payload>>)
    ensures r.Done? ==> |r.rest| < |text|
    decreases |text|, 2
  {
    if Starts(Skip(text), '}') then Done(map[], Skip(text)[1..]) else ReadMembers(text)
  }

  /** One member or more, with commas between them, and the closing bracket. */
  function ReadMembers(text: Str): (r: Parsed<map<Str, Payload>>)
    ensures r.Done? ==> |r.rest| < |text|
    decreases |text|, 1
  {
    var s := Skip(text);
    if !Starts(s, '"') then Fail
    else
      match ReadUnits(s[1..])
      case Fail => Fail
      case Done(key, named) =>
        var colon := Skip(named);
        if !Starts(colon, ':') then Fail
        else
          match ReadValue(colon[1..])
          case Fail => Fail
          case Done(p, after) => ReadMoreMembers(key, p, Skip(after))
  }

  function ReadMoreMembers(key: Str, p: Payload, s: Str): (r: Parsed<map<Str, Payload>>)
    ensures r.Done? ==> |r.rest| < |s|
    decreases |s|, 3
  {
    if Starts(s, '}') then Done(map[key := p], s[1..])
    else if Starts(s, ',') then
      match ReadMembers(s[1..])
      case Fail => Fail
      case Done(fields, rest) => Done(if key in fields then fields else fields[key := p], rest)
    else Fail
  }

  /** A whole text. */
  function Parse(text: Str): Option<Payload> {
    match ReadValue(text)
    case Fail => None
    case Done(p, rest) => if Skip(rest) == [] then Some(p) else None
  }

  // ---------------------------------------------------------------------------------
  // What is printed reads back
  // ---------------------------------------------------------------------------------

  predicate Solid(s: Str) {
    s != [] && s[0] != ' ' as int && s[0] != '\t' as int && s[0] != '\n' as int && s[0] != '\r' as int
  }

  lemma SolidStays(s: Str)
    requires Solid(s)
    ensures Skip(s) == s
  {
  }

  lemma NullReads(rest: Str)
    ensures ReadValue(NULL + rest) == Done(PNull, rest)
  {
    var text := NULL + rest;
    SolidStays(text);
    assert StartsWith(text, "null") && text[4..] == rest;
  }

  lemma BooleanReads(b: bool, rest: Str)
    ensures ReadValue((if b then TRUE else FALSE) + rest) == Done(PBoolean(b), rest)
  {
    var text := (if b then TRUE else FALSE) + rest;
    SolidStays(text);
    if b {
      assert StartsWith(text, "true") && text[4..] == rest;
    } else {
      assert StartsWith(text, "false") && text[5..] == rest;
    }
  }

  lemma NumberValue(s: Str, n: Num, rest: Str)
    requires s != [] && (Digit(s[0]) || Starts(s, '-')) && ReadNumber(s) == Done(n, rest)
    ensures ReadValue(s) == Done(PNumber(n), rest)
  {
    SolidStays(s);
    assert !Starts(s, 'n') && !Starts(s, 't') && !Starts(s, 'f');
    assert !Starts(s, '"') && !Starts(s, '[') && !Starts(s, '{');
  }

  lemma StopEnds(rest: Str)
    requires Stop(rest)
    ensures Ends(rest)
  {
  }

  lemma NumberReads(n: Num, rest: Str)
    requires Stop(rest)
    ensures ReadValue(NumText(n) + rest) == Done(PNumber(n), rest)
  {
    StopEnds(rest);
    NumReads(n, rest);
    NumUnits(n);
    assert (NumText(n) + rest)[0] == NumText(n)[0];
    NumberValue(NumText(n) + rest, n, rest);
  }

  lemma TextReads(s: Str, rest: Str)
    ensures ReadValue(Quote(s) + rest) == Done(PText(s), rest)
  {
    SolidStays(Quote(s) + rest);
    QuoteReads(s, rest);
  }

  lemma FirstIsSolid(v: Value, rest: Str)
    ensures Solid(Print(v) + rest) && !Starts(Print(v) + rest, ']')
  {
    FirstUnit(v);
    if v.Number? {
      NumUnits(v.n);
    }
  }

  lemma EmptyListValue(s: Str, rest: Str)
    requires Starts(s, '[') && s[1..] == [CLOSE_LIST] + rest
    ensures ReadValue(s) == Done(PList([]), rest)
  {
    SolidStays(s);
    SolidStays(s[1..]);
    assert s[1..][1..] == rest;
  }

  lemma ListValue(s: Str, items: seq<Payload>, rest: Str)
    requires Starts(s, '[') && Solid(s[1..]) && !Starts(s[1..], ']') && ReadElements(s[1..]) == Done(items, rest)
    ensures ReadValue(s) == Done(PList(items), rest)
  {
    SolidStays(s);
    SolidStays(s[1..]);
  }

  lemma LastElement(text: Str, p: Payload, more: Str)
    requires ReadValue(text) == Done(p, more) && Starts(more, ']')
    ensures ReadElements(text) == Done([p], more[1..])
  {
    SolidStays(more);
  }

  lemma ElementThen(text: Str, p: Payload, more: Str, items: seq<Payload>, rest: Str)
    requires ReadValue(text) == Done(p, more) && Starts(more, ',') && ReadElements(more[1..]) == Done(items, rest)
    ensures ReadElements(text) == Done([p] + items, rest)
  {
    SolidStays(more);
  }

  lemma EmptyRecordValue(s: Str, rest: Str)
    requires Starts(s, '{') && s[1..] == [CLOSE_RECORD] + rest
    ensures ReadValue(s) == Done(PRecord(map[]), rest)
  {
    SolidStays(s);
    SolidStays(s[1..]);
    assert s[1..][1..] == rest;
  }

  lemma RecordValue(s: Str, fields: map<Str, Payload>, rest: Str)
    requires Starts(s, '{') && Starts(s[1..], '"') && ReadMembers(s[1..]) == Done(fields, rest)
    ensures ReadValue(s) == Done(PRecord(fields), rest)
  {
    SolidStays(s);
    SolidStays(s[1..]);
  }

  lemma MemberThen(text: Str, key: Str, named: Str, p: Payload, more: Str)
    requires Starts(text, '"') && ReadUnits(text[1..]) == Done(key, named)
    requires Starts(named, ':') && ReadValue(named[1..]) == Done(p, more) && Solid(more)
    ensures ReadMembers(text) == ReadMoreMembers(key, p, more)
  {
    SolidStays(text);
    SolidStays(named);
    SolidStays(more);
  }

  lemma {:induction false} ValueReads(v: Value, rest: Str)
    requires WellFormed(v) && Stop(rest)
    ensures ReadValue(Print(v) + rest) == Done(Meaning(v), rest)
    decreases v
  {
    match v {
      case Undefined => NullReads(rest);
      case Null => NullReads(rest);
      case NonFinite => NullReads(rest);
      case Boolean(b) => BooleanReads(b, rest);
      case Number(n) => NumberReads(n, rest);
      case Text(s) => TextReads(s, rest);
      case List(items) => ListReads(v, items, rest);
      case _ => RecordReads(v, rest);
    }
  }

  lemma {:induction false} ListReads(v: Value, items: seq<Value>, rest: Str)
    requires v == List(items) && WellFormed(v)
    ensures ReadValue(Print(v) + rest) == Done(Meaning(v), rest)
    decreases v, |items| + 1
  {
    var text, parts := Print(v) + rest, PrintItems(v, items);
    BracketsUnfold(OPEN_LIST, parts, CLOSE_LIST, rest);
    if items == [] {
      EmptyListValue(text, rest);
    } else {
      FirstIsSolid(items[0], Rest(parts[1..], CLOSE_LIST, rest));
      ElementsRead(v, items, rest);
      ListValue(text, Meanings(v, items), rest);
    }
  }

  lemma {:induction false} ElementsRead(context: Value, items: seq<Value>, rest: Str)
    requires items != [] && Below(context, items) && forall x | x in items :: WellFormed(x)
    ensures var parts := PrintItems(context, items);
      ReadElements(parts[0] + Rest(parts[1..], CLOSE_LIST, rest)) == Done(Meanings(context, items), rest)
    decreases context, |items|
  {
    var parts := PrintItems(context, items);
    var more := Rest(parts[1..], CLOSE_LIST, rest);
    RestUnfolds(parts[1..], CLOSE_LIST, rest);
    ValueReads(items[0], more);
    assert parts[1..] == PrintItems(context, items[1..]);
    if items[1..] == [] {
      assert parts[1..] == [] && Starts(more, ']') && more[1..] == rest;
      LastElement(parts[0] + more, Meaning(items[0]), more);
      assert Meanings(context, items[1..]) == [];
      assert Meanings(context, items) == [Meaning(items[0])] + [] == [Meaning(items[0])];
    } else {
      ElementsRead(context, items[1..], rest);
      ElementThen(parts[0] + more, Meaning(items[0]), more, Meanings(context, items[1..]), rest);
    }
  }

  lemma {:induction false} RecordReads(v: Value, rest: Str)
    requires (v.Record? || v.Date?) && WellFormed(v)
    ensures ReadValue(Print(v) + rest) == Done(Meaning(v), rest)
    decreases v, |Fields(v)| + 1
  {
    RecordText(v);
    var fields := Fields(v);
    var text, parts := Print(v) + rest, PrintFields(v, fields);
    BracketsUnfold(OPEN_RECORD, parts, CLOSE_RECORD, rest);
    if fields == [] {
      EmptyRecordValue(text, rest);
    } else {
      MembersRead(v, fields, rest);
      RecordValue(text, FieldMap(v, fields), rest);
    }
  }

  lemma MemberText(key: Str, p: Str, more: Str)
    ensures Quote(key) + [COLON] + p + more == Quote(key) + ([COLON] + (p + more))
    ensures ([COLON] + (p + more))[1..] == p + more
  {
  }

  lemma MoreMembers(context: Value, fields: seq<Field>, more: Str, rest: Str)
    requires fields != [] && DistinctKeys(fields) && forall f | f in fields :: f.value < context
    requires Starts(more, ',') && ReadMembers(more[1..]) == Done(FieldMap(context, fields[1..]), rest)
    ensures ReadMoreMembers(fields[0].key, Meaning(fields[0].value), more) == Done(FieldMap(context, fields), rest)
  {
    assert forall i | 0 <= i < |fields| - 1 :: fields[1..][i] == fields[i + 1];
    FieldMapAt(context, fields[1..], fields[0].key);
  }

  lemma LastMember(context: Value, f: Field, more: Str, rest: Str)
    requires f.value < context && more == [CLOSE_RECORD] + rest
    ensures ReadMoreMembers(f.key, Meaning(f.value), more) == Done(FieldMap(context, [f]), rest)
  {
    assert FieldMap(context, [f]) == FieldMap(context, [])[f.key := Meaning(f.value)];
    assert more[1..] == rest;
  }

  /** One member, up to what follows its value. */
  lemma MemberReads(f: Field, more: Str)
    requires ReadValue(Print(f.value) + more) == Done(Meaning(f.value), more) && Solid(more)
    ensures ReadMembers(Quote(f.key) + [COLON] + Print(f.value) + more)
         == ReadMoreMembers(f.key, Meaning(f.value), more)
  {
    var named := [COLON] + (Print(f.value) + more);
    MemberText(f.key, Print(f.value), more);
    QuoteReads(f.key, named);
    MemberThen(Quote(f.key) + named, f.key, named, Meaning(f.value), more);
  }

  lemma {:induction false} MembersRead(context: Value, fields: seq<Field>, rest: Str)
    requires fields != [] && DistinctKeys(fields) && forall f | f in fields :: f.value < context && WellFormed(f.value)
    ensures var parts := PrintFields(context, fields);
      ReadMembers(parts[0] + Rest(parts[1..], CLOSE_RECORD, rest)) == Done(FieldMap(context, fields), rest)
    decreases context, |fields|
  {
    var parts := PrintFields(context, fields);
    var more := Rest(parts[1..], CLOSE_RECORD, rest);
    RestUnfolds(parts[1..], CLOSE_RECORD, rest);
    ValueReads(fields[0].value, more);
    MemberReads(fields[0], more);
    assert parts[1..] == PrintFields(context, fields[1..]);
    if fields[1..] == [] {
      assert fields == [fields[0]] && more == [CLOSE_RECORD] + rest;
      LastMember(context, fields[0], more, rest);
    } else {
      MembersRead(context, fields[1..], rest);
      MoreMembers(context, fields, more, rest);
    }
  }

  /** The canonical text of any value is a JSON text, and what it says is what the value means:
      arrays in order, objects as maps, numbers to the last digit, strings to the last unit. */
  lemma PrintParses(v: Value)
    requires WellFormed(v)
    ensures Parse(Print(v)) == Some(Meaning(v))
  {
    ValueReads(v, []);
    assert Print(v) + [] == Print(v);
  }

  /** So parsing and printing again gives the same text: the canonical text of a payload. */
  lemma ReprintStable(v: Value, again: Value)
    requires WellFormed(v) && WellFormed(again) && Parse(Print(v)) == Some(Meaning(again))
    ensures Print(again) == Print(v)
  {
    PrintParses(v);
    SameTextIffSamePayload(v, again);
  }
}
