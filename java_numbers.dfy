/**
 * Double.parseDouble and Float.parseFloat as text readers: String.trim, the
 * floating-point literal grammar of Double.valueOf (signed NaN and Infinity,
 * decimal literals, hexadecimal literals with a binary exponent, an optional
 * f, F, d or D suffix), what an accepted text denotes before it is rounded to
 * the nearest double or float, and the (int) cast of that double.
 */
module JavaNumbers {
  import opened Outcomes
  import opened JavaText

  /**
   * What a text reads as, before rounding: NaN, a signed infinity, or a finite
   * literal kept as its digits with the point left out (hexadecimal digits for
   * a binary literal) and the exponent that scales them, as FloatingDecimal
   * keeps them before it converts. A finite reading denotes
   * ±digits × base^exponent, the base being 2 for a hexadecimal literal and 10
   * for a decimal one.
   */
  datatype Floating =
    | NaN
    | Infinite(negative: bool)
    | Finite(negative: bool, digits: string, binary: bool, exponent: int)

  // ---------------------------------------------------------------- trim

  /** The characters String.trim removes: U+0000 to U+0020. */
  predicate IsBlank(ch: char) {
    ch <= ' '
  }

  predicate AllBlank(s: string) {
    forall j :: 0 <= j < |s| ==> IsBlank(s[j])
  }

  /** String.trim: the text without its leading and trailing blanks. */
  function Trim(s: string): (r: string)
    ensures |r| <= |s|
    ensures r == [] || (!IsBlank(r[0]) && !IsBlank(r[|r| - 1]))
    ensures |s| > 0 && !IsBlank(s[0]) && !IsBlank(s[|s| - 1]) ==> r == s
    ensures r == [] <==> AllBlank(s)
    decreases |s|
  {
    if |s| > 0 && IsBlank(s[0]) then Trim(s[1..])
    else if |s| > 0 && IsBlank(s[|s| - 1]) then Trim(s[..|s| - 1])
    else s
  }

  /** Blanks around a text make no difference to its trimmed form. */
  lemma {:induction false} TrimIgnoresPadding(pre: string, s: string, post: string)
    requires AllBlank(pre) && AllBlank(post)
    ensures Trim(pre + s + post) == Trim(s)
    decreases |pre| + |s| + |post|
  {
    var x := pre + s + post;
    if |pre| > 0 {
      assert x[0] == pre[0];
      assert x[1..] == pre[1..] + s + post;
      TrimIgnoresPadding(pre[1..], s, post);
    } else if |s| > 0 && IsBlank(s[0]) {
      assert x == s + post;
      assert x[1..] == [] + s[1..] + post;
      TrimIgnoresPadding([], s[1..], post);
    } else if |post| > 0 {
      assert x == s + post;
      if |s| == 0 {
        assert x == post && x[1..] == [] + [] + post[1..];
        TrimIgnoresPadding([], [], post[1..]);
      } else {
        assert x[|x| - 1] == post[|post| - 1];
        assert x[..|x| - 1] == [] + s + post[..|post| - 1];
        TrimIgnoresPadding([], s, post[..|post| - 1]);
      }
    } else {
      assert x == s;
    }
  }

  // ---------------------------------------------------------------- the literal grammar

  /** The suffix a literal may end with. */
  predicate IsSuffix(ch: char) {
    ch == 'f' || ch == 'F' || ch == 'd' || ch == 'D'
  }

  predicate IsHexDigit(ch: char) {
    IsDigit(ch) || 'a' <= ch <= 'f' || 'A' <= ch <= 'F'
  }

  predicate AllHexDigits(s: string) {
    forall j :: 0 <= j < |s| ==> IsHexDigit(s[j])
  }

  /** The length of the run of hexadecimal digits in `s` starting at `from`. */
  function HexRun(s: string, from: nat): (n: nat)
    requires from <= |s|
    ensures from + n <= |s|
    ensures forall j :: from <= j < from + n ==> IsHexDigit(s[j])
    ensures from + n < |s| ==> !IsHexDigit(s[from + n])
    decreases |s| - from
  {
    if from < |s| && IsHexDigit(s[from]) then 1 + HexRun(s, from + 1) else 0
  }

  /** The value of a digit character: decimal, or hexadecimal in either case; 0 for anything else. */
  function DigitValue(ch: char): (d: nat)
    ensures d < 16
  {
    if IsDigit(ch) then ch as int - '0' as int
    else if 'a' <= ch <= 'f' then ch as int - 'a' as int + 10
    else if 'A' <= ch <= 'F' then ch as int - 'A' as int + 10
    else 0
  }

  /** The value of a run of digits in the given base. */
  function Value(s: string, base: nat): nat {
    if |s| == 0 then 0 else Value(s[..|s| - 1], base) * base + DigitValue(s[|s| - 1])
  }

  /** Read in base 10, decimal digits have the value Integer.parseInt gives them. */
  lemma {:induction false} DecimalValue(s: string)
    requires AllDigits(s)
    ensures Value(s, 10) == DigitsValue(s)
    decreases |s|
  {
    if |s| > 0 {
      DecimalValue(s[..|s| - 1]);
    }
  }

  /**
   * The exponent whose marker (e, E, p or P) is at `at`: an optional sign and at
   * least one decimal digit, giving its signed value and where it ends.
   */
  function ExponentAt(s: string, at: nat): (r: Option<(int, nat)>)
    requires at < |s|
    ensures r.Some? ==> at + 2 <= r.value.1 <= |s|
  {
    var d := if at + 1 < |s| && IsSign(s[at + 1]) then at + 2 else at + 1;
    var n := DigitRun(s, d);
    if n == 0 then None
    else
      var v: int := Value(s[d..d + n], 10);
      Some((if d == at + 2 && s[at + 1] == '-' then -v else v, d + n))
  }

  /** A literal ends at `end`: the end of the text, or just before a final suffix. */
  predicate EndsAt(s: string, end: nat) {
    end == |s| || (end + 1 == |s| && IsSuffix(s[end]))
  }

  /**
   * What follows the digits of a literal, from `c`: the value of the exponent
   * its marker introduces (0 when there is no marker and `binary` is false),
   * or None when the rest is not an exponent and an optional suffix.
   */
  function ExponentTail(s: string, c: nat, binary: bool): (r: Option<int>)
    requires c <= |s|
    ensures !binary && EndsAt(s, c) ==> r == Some(0)
  {
    var marked := c < |s| && (if binary then s[c] == 'p' || s[c] == 'P' else s[c] == 'e' || s[c] == 'E');
    if marked then
      match ExponentAt(s, c)
      case None => None
      case Some((e, end)) => if EndsAt(s, end) then Some(e) else None
    else if !binary && EndsAt(s, c) then Some(0)
    else None
  }

  /** A finite reading of `digits`, once the exponent that ends the literal is known. */
  function Scaled(negative: bool, digits: string, binary: bool, shift: int, tail: Option<int>): Option<Floating> {
    match tail
    case None => None
    case Some(e) => Some(Finite(negative, digits, binary, e - shift))
  }

  /**
   * A literal with a point at `n1` and `n2` digits after it: the digits on both
   * sides as one mantissa, its exponent lowered by one place (four bits for a
   * hexadecimal digit) per digit after the point.
   */
  function Pointed(negative: bool, s: string, n1: nat, n2: nat, binary: bool): Option<Floating>
    requires n1 + 1 + n2 <= |s|
  {
    Scaled(negative, s[..n1] + s[n1 + 1..n1 + 1 + n2], binary, if binary then 4 * n2 else n2, ExponentTail(s, n1 + 1 + n2, binary))
  }

  /**
   * A decimal literal (after the sign): digits with an optional point and at
   * least one digit in all, an optional exponent, an optional suffix. The
   * exponent is lowered by one for each digit after the point.
   */
  function ParseDecimal(negative: bool, b: string): Option<Floating> {
    var n1 := DigitRun(b, 0);
    if n1 < |b| && b[n1] == '.' then
      var n2 := DigitRun(b, n1 + 1);
      if n1 + n2 == 0 then None else Pointed(negative, b, n1, n2, false)
    else if n1 == 0 then None
    else Scaled(negative, b[..n1], false, 0, ExponentTail(b, n1, false))
  }

  /**
   * A hexadecimal literal (after the sign and "0x"): hexadecimal digits with an
   * optional point and at least one digit in all, a mandatory binary exponent,
   * an optional suffix. The exponent is lowered by four for each digit after
   * the point.
   */
  function ParseHex(negative: bool, h: string): Option<Floating> {
    var n1 := HexRun(h, 0);
    if n1 < |h| && h[n1] == '.' then
      var n2 := HexRun(h, n1 + 1);
      if n1 + n2 == 0 then None else Pointed(negative, h, n1, n2, true)
    else if n1 == 0 then None
    else Scaled(negative, h[..n1], true, 0, ExponentTail(h, n1, true))
  }

  lemma {:induction false} DigitRunIs(s: string, from: nat, n: nat)
    requires from + n <= |s|
    requires forall j :: from <= j < from + n ==> IsDigit(s[j])
    requires from + n == |s| || !IsDigit(s[from + n])
    ensures DigitRun(s, from) == n
    decreases n
  {
    if n > 0 {
      DigitRunIs(s, from + 1, n - 1);
    }
  }

  lemma {:induction false} HexRunIs(s: string, from: nat, n: nat)
    requires from + n <= |s|
    requires forall j :: from <= j < from + n ==> IsHexDigit(s[j])
    requires from + n == |s| || !IsHexDigit(s[from + n])
    ensures HexRun(s, from) == n
    decreases n
  {
    if n > 0 {
      HexRunIs(s, from + 1, n - 1);
    }
  }

  /**
   * A decimal literal with a point reads as the digits on both sides taken as
   * one mantissa, scaled down by the number of fraction digits.
   */
  lemma DecimalFractionReads(negative: bool, whole: string, fraction: string)
    requires AllDigits(whole) && AllDigits(fraction) && |whole| + |fraction| > 0
    ensures ParseDecimal(negative, whole + "." + fraction) == Some(Finite(negative, whole + fraction, false, -(|fraction| as int)))
  {
    var b := whole + "." + fraction;
    var n1 := |whole|;
    var n2 := |fraction|;
    assert b[n1] == '.' && b[..n1] == whole && b[n1 + 1..n1 + 1 + n2] == fraction;
    assert DigitRun(b, 0) == n1 && DigitRun(b, n1 + 1) == n2 by {
      DigitRunIs(b, 0, n1);
      DigitRunIs(b, n1 + 1, n2);
    }
    DecimalWithPoint(negative, b, n1, n2);
    assert b[..n1] + b[n1 + 1..] == whole + fraction;
  }

  /** How ParseDecimal reads a literal with a point and nothing after its fraction digits. */
  lemma DecimalWithPoint(negative: bool, b: string, n1: nat, n2: nat)
    requires DigitRun(b, 0) == n1 < |b| && b[n1] == '.' && DigitRun(b, n1 + 1) == n2 && n1 + n2 > 0
    requires n1 + 1 + n2 == |b|
    ensures ParseDecimal(negative, b) == Some(Finite(negative, b[..n1] + b[n1 + 1..], false, -(n2 as int)))
  {
    assert ParseDecimal(negative, b) == Pointed(negative, b, n1, n2, false);
    assert ExponentTail(b, |b|, false) == Some(0);
    assert b[n1 + 1..n1 + 1 + n2] == b[n1 + 1..];
  }

  /** The hexadecimal run at `from` is `piece` when `piece` is written there and a non-digit follows. */
  lemma HexRunOver(h: string, from: nat, piece: string)
    requires from + |piece| <= |h| && h[from..from + |piece|] == piece && AllHexDigits(piece)
    requires from + |piece| == |h| || !IsHexDigit(h[from + |piece|])
    ensures HexRun(h, from) == |piece|
  {
    forall j | from <= j < from + |piece| ensures IsHexDigit(h[j]) {
      assert h[j] == h[from..from + |piece|][j - from];
    }
    HexRunIs(h, from, |piece|);
  }

  /** How ParseHex reads a literal with a point whose binary exponent runs to the end. */
  lemma HexWithPoint(negative: bool, h: string, n1: nat, n2: nat, e: int)
    requires HexRun(h, 0) == n1 < |h| && h[n1] == '.' && HexRun(h, n1 + 1) == n2 && n1 + n2 > 0
    requires n1 + 1 + n2 < |h| && h[n1 + 1 + n2] == 'p' && ExponentAt(h, n1 + 1 + n2) == Some((e, |h|))
    ensures ParseHex(negative, h) == Some(Finite(negative, h[..n1] + h[n1 + 1..n1 + 1 + n2], true, e - 4 * n2))
  {
    assert ParseHex(negative, h) == Pointed(negative, h, n1, n2, true);
    BinaryExponentTail(h, n1 + 1 + n2, e);
    PointedReads(negative, h, n1, n2, true, e);
  }

  /** Once its exponent is known, a literal with a point reads as its digits scaled by that exponent. */
  lemma PointedReads(negative: bool, s: string, n1: nat, n2: nat, binary: bool, e: int)
    requires n1 + 1 + n2 <= |s| && ExponentTail(s, n1 + 1 + n2, binary) == Some(e)
    ensures Pointed(negative, s, n1, n2, binary) == Some(Finite(negative, s[..n1] + s[n1 + 1..n1 + 1 + n2], binary, e - (if binary then 4 * n2 else n2)))
  {
  }

  /** A binary exponent that runs to the end of the text ends the literal. */
  lemma BinaryExponentTail(h: string, c: nat, e: int)
    requires c < |h| && h[c] == 'p' && ExponentAt(h, c) == Some((e, |h|))
    ensures ExponentTail(h, c, true) == Some(e)
  {
  }

  /** An unsigned exponent running to the end of the text reads as its digits. */
  lemma ExponentReads(s: string, at: nat)
    requires at + 1 < |s| && AllDigits(s[at + 1..])
    ensures ExponentAt(s, at) == Some((Value(s[at + 1..], 10), |s|))
  {
    assert IsDigit(s[at + 1..][0]);
    DigitRunIs(s, at + 1, |s| - at - 1);
    assert s[at + 1..at + 1 + (|s| - at - 1)] == s[at + 1..];
  }

  /** The reading of an already trimmed text. */
  function ParseTrimmed(t: string): Option<Floating> {
    var a := if |t| > 0 && IsSign(t[0]) then 1 else 0;
    var negative := a == 1 && t[0] == '-';
    var body := t[a..];
    if body == "NaN" then Some(NaN)
    else if body == "Infinity" then Some(Infinite(negative))
    else if |body| >= 2 && body[0] == '0' && (body[1] == 'x' || body[1] == 'X') then ParseHex(negative, body[2..])
    else ParseDecimal(negative, body)
  }

  /**
   * Double.parseDouble and Float.parseFloat: what the trimmed text denotes, or
   * None where they throw NumberFormatException (a blank text among them).
   */
  function ParseFloating(s: string): Option<Floating> {
    ParseTrimmed(Trim(s))
  }

  /** Blanks around a number text make no difference to how it reads. */
  lemma ParseFloatingIgnoresPadding(pre: string, s: string, post: string)
    requires AllBlank(pre) && AllBlank(post)
    ensures ParseFloating(pre + s + post) == ParseFloating(s)
  {
    TrimIgnoresPadding(pre, s, post);
  }

  // ---------------------------------------------------------------- the (int) cast

  function Pow(base: nat, e: nat): (r: nat)
    ensures base > 0 ==> r > 0
  {
    if e == 0 then 1 else base * Pow(base, e - 1)
  }

  /** The nearest int to `n` within the int range. */
  function Clamp(n: int): (r: int)
    ensures IsInt32(r)
    ensures IsInt32(n) ==> r == n
    ensures n < IntMin ==> r == IntMin
    ensures n > IntMax ==> r == IntMax
  {
    if n < IntMin then IntMin else if n > IntMax then IntMax else n
  }

  /** The whole part of a finite reading's magnitude. */
  function WholeMagnitude(f: Floating): int
    requires f.Finite?
  {
    var mantissa: int := Value(f.digits, if f.binary then 16 else 10);
    var base: nat := if f.binary then 2 else 10;
    var scale: int := Pow(base, if f.exponent >= 0 then f.exponent else -f.exponent);
    if f.exponent >= 0 then mantissa * scale else mantissa / scale
  }

  /** Digits written after others scale those up by a power of ten. */
  lemma {:induction false} DigitsValueAppend(a: string, b: string)
    requires AllDigits(a) && AllDigits(b)
    ensures AllDigits(a + b)
    ensures DigitsValue(a + b) == DigitsValue(a) * Pow(10, |b|) + DigitsValue(b)
    decreases |b|
  {
    if |b| == 0 {
      assert a + b == a;
    } else {
      var rest := b[..|b| - 1];
      assert (a + b)[..|a + b| - 1] == a + rest;
      DigitsValueAppend(a, rest);
      var d := b[|b| - 1] as int - '0' as int;
      var x, p, y := DigitsValue(a), Pow(10, |rest|), DigitsValue(rest);
      assert DigitsValue(a + b) == (x * p + y) * 10 + d;
      assert Pow(10, |b|) == p * 10 && DigitsValue(b) == y * 10 + d;
      ScaleByTen(x, p, y, d);
    }
  }

  lemma ScaleByTen(x: int, p: int, y: int, d: int)
    ensures (x * p + y) * 10 + d == x * (p * 10) + (y * 10 + d)
  {
  }

  /** A run of n digits is below 10^n. */
  lemma {:induction false} DigitsValueBelow(b: string)
    requires AllDigits(b)
    ensures DigitsValue(b) < Pow(10, |b|)
    decreases |b|
  {
    if |b| > 0 {
      DigitsValueBelow(b[..|b| - 1]);
    }
  }

  /** Dropping the fraction digits of a decimal mantissa leaves its whole digits. */
  lemma FractionDropped(whole: string, fraction: string)
    requires AllDigits(whole) && AllDigits(fraction)
    ensures AllDigits(whole + fraction)
    ensures DigitsValue(whole + fraction) / Pow(10, |fraction|) == DigitsValue(whole)
  {
    DigitsValueAppend(whole, fraction);
    DigitsValueBelow(fraction);
    DivideOut(DigitsValue(whole), Pow(10, |fraction|), DigitsValue(fraction));
  }

  /** The (int) cast of a positive decimal fraction keeps its whole digits, held to the int range. */
  lemma FractionNarrows(whole: string, fraction: string)
    requires AllDigits(whole) && AllDigits(fraction)
    ensures AllDigits(whole + fraction)
    ensures NarrowToInt(Finite(false, whole + fraction, false, -(|fraction| as int))) == Clamp(DigitsValue(whole))
  {
    FractionDropped(whole, fraction);
    DecimalValue(whole + fraction);
    if |fraction| == 0 {
      assert whole + fraction == whole;
    }
  }

  lemma DivideOut(x: int, p: int, y: int)
    requires p > 0 && 0 <= y < p
    ensures (x * p + y) / p == x
  {
    var q := (x * p + y) / p;
    var r := (x * p + y) % p;
    assert q * p + r == x * p + y && 0 <= r < p;
    assert (q - x) * p == y - r;
    if q != x {
      NonzeroMultiple(q - x, p);
      assert false;
    }
  }

  lemma NonzeroMultiple(k: int, p: int)
    requires k != 0 && p > 0
    ensures k * p >= p || k * p <= -p
  {
    if k > 0 {
      PositiveMultiple(k, p);
    } else {
      PositiveMultiple(-k, p);
      assert k * p == -((-k) * p);
    }
  }

  lemma {:induction false} PositiveMultiple(k: int, p: int)
    requires k >= 1 && p > 0
    ensures k * p >= p
    decreases k
  {
    if k > 1 {
      PositiveMultiple(k - 1, p);
      assert k * p == (k - 1) * p + p;
    }
  }

  /**
   * The (int) cast of the double a text reads as: NaN gives 0, an infinity the
   * int bound of its sign, and a finite value its whole part (truncated toward
   * zero) held to the int range.
   */
  function NarrowToInt(f: Floating): (r: int)
    ensures IsInt32(r)
    ensures f.NaN? ==> r == 0
    ensures f.Infinite? ==> r == (if f.negative then IntMin else IntMax)
  {
    match f
    case NaN => 0
    case Infinite(negative) => if negative then IntMin else IntMax
    case Finite(negative, _, _, _) =>
      var whole: int := WholeMagnitude(f);
      Clamp(if negative then -whole else whole)
  }

  /**
   * Every text Integer.parseInt accepts reads, through Double.parseDouble, as
   * a decimal literal with exponent 0 whose (int) cast is the same int.
   */
  lemma IntTextReadsAsFloating(s: string)
    requires ParseInt(s).Ok?
    ensures ParseFloating(s).Some? && ParseFloating(s).value.Finite? && !ParseFloating(s).value.binary
    ensures NarrowToInt(ParseFloating(s).value) == ParseInt(s).value
  {
    var a := if IsSign(s[0]) then 1 else 0;
    var negative := s[0] == '-';
    var body := s[a..];
    assert AllDigits(body) && |body| > 0;
    assert ParseFloating(s) == ParseDecimal(negative, body) by {
      assert !IsBlank(s[0]) && !IsBlank(s[|s| - 1]) by {
        assert IsDigit(body[|body| - 1]);
      }
      assert Trim(s) == s;
      assert body != "NaN" && body != "Infinity" by {
        assert IsDigit(body[0]);
      }
      assert !(|body| >= 2 && (body[1] == 'x' || body[1] == 'X')) by {
        if |body| >= 2 {
          assert IsDigit(body[1]);
        }
      }
    }
    DigitsRead(negative, body);
    DigitsNarrow(negative, body);
  }

  /** The (int) cast of digits read with exponent 0 is their value, signed and held to the int range. */
  lemma DigitsNarrow(negative: bool, b: string)
    requires AllDigits(b)
    ensures NarrowToInt(Finite(negative, b, false, 0)) == Clamp(if negative then -(DigitsValue(b) as int) else DigitsValue(b))
  {
    DecimalValue(b);
    assert Pow(10, 0) == 1;
  }

  /** Digits alone read as themselves with exponent 0. */
  lemma DigitsRead(negative: bool, b: string)
    requires AllDigits(b) && |b| > 0
    ensures ParseDecimal(negative, b) == Some(Finite(negative, b, false, 0))
  {
    DigitRunAll(b, 0);
    assert b[..|b|] == b;
    assert ExponentTail(b, |b|, false) == Some(0);
  }
}
