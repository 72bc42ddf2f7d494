/**
 * The few java.lang.String and Integer operations the instrumentation relies on,
 * with Java's exact edge cases: String.contains, String.split with a one-character
 * separator, Integer.toString and Integer.parseInt, and int narrowing.
 */
module JavaText {
  import opened Outcomes

  const IntMin: int := -0x8000_0000
  const IntMax: int := 0x7fff_ffff

  predicate IsInt32(n: int) {
    IntMin <= n <= IntMax
  }

  /** A Java int (or java.lang.Integer) value. */
  type Int32 = n: int | IsInt32(n)

  /** Number.intValue() of an integral value: its low 32 bits, two's complement. */
  function Wrap32(n: int): (r: int)
    ensures IsInt32(r)
    ensures (r - n) % 0x1_0000_0000 == 0
    ensures IsInt32(n) ==> r == n
  {
    var m := n % 0x1_0000_0000;
    if m <= IntMax then m else m - 0x1_0000_0000
  }

  // ---------------------------------------------------------------- contains

  /** `sub` is the slice of `s` that starts at `j`. */
  predicate OccursAt(s: string, sub: string, j: nat) {
    j + |sub| <= |s| && s[j..j + |sub|] == sub
  }

  /** String.contains: `sub` occurs in `s` at some offset. */
  predicate Contains(s: string, sub: string) {
    exists j :: 0 <= j <= |s| && OccursAt(s, sub, j)
  }

  /** A text that lacks one of the characters of `sub` does not contain `sub`. */
  lemma MissingCharacterNotContained(s: string, sub: string, c: char)
    requires c in sub && c !in s
    ensures !Contains(s, sub)
  {
  }

  /**
   * If the character of `s` at `p` is not in `sub`, an occurrence of `sub` lies
   * wholly before `p` or wholly after it.
   */
  lemma OccurrenceAvoids(s: string, sub: string, p: nat)
    requires p < |s| && s[p] !in sub
    ensures Contains(s, sub) ==> Contains(s[..p], sub) || Contains(s[p + 1..], sub)
  {
    if Contains(s, sub) {
      var j :| 0 <= j <= |s| && OccursAt(s, sub, j);
      if j + |sub| <= p {
        assert s[..p][j..j + |sub|] == s[j..j + |sub|];
        assert OccursAt(s[..p], sub, j);
      } else if j > p {
        assert s[p + 1..][j - p - 1..j - p - 1 + |sub|] == s[j..j + |sub|];
        assert OccursAt(s[p + 1..], sub, j - p - 1);
      }
    }
  }

  // ---------------------------------------------------------------- split

  /** The position of the first `c` in `s` at or after `from`, or |s| when there is none. */
  function IndexFrom(s: string, c: char, from: nat): (r: nat)
    requires from <= |s|
    ensures from <= r <= |s|
    ensures r < |s| ==> s[r] == c
    ensures forall j :: from <= j < r ==> s[j] != c
    decreases |s| - from
  {
    if from == |s| || s[from] == c then from else IndexFrom(s, c, from + 1)
  }

  /** The pieces of `s` between occurrences of `c`, empty pieces included. */
  function Pieces(s: string, c: char): (r: seq<string>)
    ensures |r| >= 1
    ensures (forall j :: 0 <= j < |s| ==> s[j] != c) ==> r == [s]
    decreases |s|
  {
    var k := IndexFrom(s, c, 0);
    if k == |s| then [s] else [s[..k]] + Pieces(s[k + 1..], c)
  }

  /** Drop trailing empty strings, as String.split with limit 0 does. */
  function DropTrailingEmpty(pieces: seq<string>): (r: seq<string>)
    ensures r <= pieces
    ensures |r| > 0 ==> r[|r| - 1] != ""
    ensures forall j :: |r| <= j < |pieces| ==> pieces[j] == ""
  {
    if |pieces| == 0 || pieces[|pieces| - 1] != "" then pieces
    else DropTrailingEmpty(pieces[..|pieces| - 1])
  }

  /**
   * String.split with a one-character, non-special separator: when `c` does not
   * occur the result is `[s]` (even for the empty string); otherwise the pieces
   * between separators with trailing empty pieces removed.
   */
  function Split(s: string, c: char): (r: seq<string>)
  {
    if forall j :: 0 <= j < |s| ==> s[j] != c then [s]
    else DropTrailingEmpty(Pieces(s, c))
  }

  /** Every piece is empty exactly when `s` is made only of separators. */
  lemma {:induction false} PiecesAllEmpty(s: string, c: char)
    ensures (forall p :: p in Pieces(s, c) ==> p == "") <==> (forall j :: 0 <= j < |s| ==> s[j] == c)
    decreases |s|
  {
    var k := IndexFrom(s, c, 0);
    if k == |s| {
      assert Pieces(s, c) == [s];
      if |s| > 0 {
        assert s[0] != c;
        assert s in Pieces(s, c);
      }
    } else {
      PiecesAllEmpty(s[k + 1..], c);
      var rest := s[k + 1..];
      assert Pieces(s, c) == [s[..k]] + Pieces(rest, c);
      if forall j :: 0 <= j < |s| ==> s[j] == c {
        assert k == 0;
        forall p | p in Pieces(rest, c) ensures p == "" {
          assert forall j :: 0 <= j < |rest| ==> rest[j] == s[k + 1 + j];
        }
      }
      if forall p :: p in Pieces(s, c) ==> p == "" {
        assert s[..k] in Pieces(s, c);
        assert k == 0;
        assert forall p :: p in Pieces(rest, c) ==> p in Pieces(s, c);
        forall j | 0 <= j < |s| ensures s[j] == c {
          if j > 0 {
            assert rest[j - 1] == s[j];
          }
        }
      }
    }
  }

  lemma {:induction false} DropTrailingEmptyEmpty(pieces: seq<string>)
    ensures DropTrailingEmpty(pieces) == [] <==> forall p :: p in pieces ==> p == ""
  {
    if |pieces| > 0 && pieces[|pieces| - 1] == "" {
      var prefix := pieces[..|pieces| - 1];
      DropTrailingEmptyEmpty(prefix);
      assert DropTrailingEmpty(pieces) == DropTrailingEmpty(prefix);
      assert pieces == prefix + [pieces[|pieces| - 1]];
      if DropTrailingEmpty(pieces) == [] {
        forall p | p in pieces ensures p == "" {
          assert p in prefix || p == pieces[|pieces| - 1];
        }
      }
      if forall p :: p in pieces ==> p == "" {
        forall p | p in prefix ensures p == "" {
          assert p in pieces;
        }
      }
    } else if |pieces| > 0 {
      assert pieces[|pieces| - 1] in pieces;
    }
  }

  /**
   * `s.split(c)[0]`: the text before the first `c` (all of `s` when there is none);
   * Java throws ArrayIndexOutOfBoundsException when `s` is non-empty and made only
   * of separators, because then every piece is a trailing empty one.
   */
  function FirstPiece(s: string, c: char): (r: Try<string>)
    ensures r.Throws? <==> |s| > 0 && forall j :: 0 <= j < |s| ==> s[j] == c
    ensures r.Ok? ==> r.value == s[..IndexFrom(s, c, 0)]
    ensures r.Throws? ==> r.fault == IndexOutOfBounds
  {
    var parts := Split(s, c);
    PiecesAllEmpty(s, c);
    DropTrailingEmptyEmpty(Pieces(s, c));
    if |parts| == 0 then Throws(IndexOutOfBounds) else Ok(parts[0])
  }

  /** `p` is the suffix of `s` after its last `c` (all of `s` when there is none). */
  predicate SuffixAfterLast(s: string, c: char, p: string) {
    && |p| <= |s| && s[|s| - |p|..] == p
    && (forall j :: 0 <= j < |p| ==> p[j] != c)
    && (|p| < |s| ==> s[|s| - |p| - 1] == c)
  }

  /** The last piece of `s` is the suffix after its last `c`. */
  lemma {:induction false} LastPieceIsSuffix(s: string, c: char)
    ensures SuffixAfterLast(s, c, Pieces(s, c)[|Pieces(s, c)| - 1])
    decreases |s|
  {
    var k := IndexFrom(s, c, 0);
    if k < |s| {
      var rest := s[k + 1..];
      LastPieceIsSuffix(rest, c);
      var p := Pieces(rest, c)[|Pieces(rest, c)| - 1];
      assert Pieces(s, c)[|Pieces(s, c)| - 1] == p by {
        assert Pieces(s, c) == [s[..k]] + Pieces(rest, c);
      }
      SuffixAfterLastExtends(s, c, k, p);
    } else {
      assert Pieces(s, c) == [s];
      assert s[0..] == s;
    }
  }

  /** A suffix after the last `c` of the text after some `c` is one of the whole text. */
  lemma SuffixAfterLastExtends(s: string, c: char, k: nat, p: string)
    requires k < |s| && s[k] == c
    requires SuffixAfterLast(s[k + 1..], c, p)
    ensures SuffixAfterLast(s, c, p)
  {
    var rest := s[k + 1..];
    assert s[|s| - |p|..] == rest[|rest| - |p|..];
    if |p| < |rest| {
      assert s[|s| - |p| - 1] == rest[|rest| - |p| - 1];
    }
  }

  /**
   * `s.split(c)[length - 1]` for a text that does not end in `c` (a Java class
   * name split on "."): the text after the last `c`.
   */
  function LastPiece(s: string, c: char): (r: string)
    requires |s| > 0 && s[|s| - 1] != c
    ensures |r| <= |s| && s[|s| - |r|..] == r
    ensures forall j :: 0 <= j < |r| ==> r[j] != c
    ensures |r| < |s| ==> s[|s| - |r| - 1] == c
  {
    LastPieceIsSuffix(s, c);
    var parts := Split(s, c);
    var pieces := Pieces(s, c);
    if forall j :: 0 <= j < |s| ==> s[j] != c then
      s
    else
      assert pieces[|pieces| - 1] != "";
      assert parts == pieces;
      parts[|parts| - 1]
  }

  /** Collectors.joining / String.join: the parts with `sep` between neighbours. */
  function Join(parts: seq<string>, sep: string): (r: string)
    ensures |parts| == 1 ==> r == parts[0]
  {
    if |parts| == 0 then ""
    else if |parts| == 1 then parts[0]
    else parts[0] + sep + Join(parts[1..], sep)
  }

  /** Cutting a join at its separators gives back the parts. */
  lemma {:induction false} PiecesOfJoin(parts: seq<string>, c: char)
    requires |parts| > 0
    requires forall p :: p in parts ==> c !in p
    ensures Pieces(Join(parts, [c]), c) == parts
    decreases |parts|
  {
    var s := Join(parts, [c]);
    var first := parts[0];
    assert forall j :: 0 <= j < |first| ==> s[j] == first[j] != c by {
      forall j | 0 <= j < |first| ensures s[j] == first[j] != c {
        assert first[j] in first;
      }
    }
    if |parts| == 1 {
      assert s == first;
    } else {
      var rest := parts[1..];
      assert s == first + [c] + Join(rest, [c]);
      assert s[|first|] == c;
      var k := IndexFrom(s, c, 0);
      assert k == |first|;
      assert s[..k] == first;
      assert s[k + 1..] == Join(rest, [c]);
      PiecesOfJoin(rest, c);
      assert parts == [first] + rest;
    }
  }

  /**
   * Splitting a join on its one-character separator gives back the parts, when
   * no part holds the separator and the last part is not empty (or is the only one).
   */
  lemma SplitJoin(parts: seq<string>, c: char)
    requires |parts| > 0
    requires forall p :: p in parts ==> c !in p
    requires |parts| == 1 || parts[|parts| - 1] != ""
    ensures Split(Join(parts, [c]), c) == parts
  {
    var s := Join(parts, [c]);
    PiecesOfJoin(parts, c);
    if |parts| == 1 {
      assert s == parts[0];
      forall j | 0 <= j < |s| ensures s[j] != c {
        assert s[j] in parts[0];
      }
    } else {
      assert s[|parts[0]|] == c by {
        assert s == parts[0] + [c] + Join(parts[1..], [c]);
      }
    }
  }

  // ---------------------------------------------------------------- integers

  predicate IsDigit(ch: char) {
    '0' <= ch <= '9'
  }

  predicate AllDigits(s: string) {
    forall j :: 0 <= j < |s| ==> IsDigit(s[j])
  }

  function DigitChar(d: nat): (ch: char)
    requires d < 10
    ensures IsDigit(ch) && ch as int - '0' as int == d
  {
    (d + '0' as int) as char
  }

  /** The decimal digits of `n`, most significant first, without leading zeros. */
  function NatToString(n: nat): (r: string)
    ensures |r| > 0 && AllDigits(r)
    decreases n
  {
    if n < 10 then [DigitChar(n)] else NatToString(n / 10) + [DigitChar(n % 10)]
  }

  /** Integer.toString / String.valueOf(int). */
  function IntToString(n: int): (r: string)
    ensures |r| > 0
    ensures n < 0 <==> r[0] == '-'
    ensures n >= 0 ==> AllDigits(r)
  {
    if n < 0 then "-" + NatToString(-n) else NatToString(n)
  }

  /** The value of a run of decimal digits. */
  function DigitsValue(s: string): nat
    requires AllDigits(s)
  {
    if |s| == 0 then 0 else DigitsValue(s[..|s| - 1]) * 10 + (s[|s| - 1] as int - '0' as int)
  }

  /**
   * Integer.parseInt on ASCII text: an optional sign, at least one digit, and a
   * value in the int range; anything else throws NumberFormatException.
   */
  function ParseInt(s: string): (r: Try<int>)
    ensures r.Ok? ==> IsInt32(r.value)
    ensures r.Throws? ==> r.fault == NumberFormat
    ensures |s| == 0 ==> r.Throws?
  {
    var negative := |s| > 0 && s[0] == '-';
    var digits := if |s| > 0 && (s[0] == '-' || s[0] == '+') then s[1..] else s;
    if |digits| == 0 || !AllDigits(digits) then Throws(NumberFormat)
    else
      var magnitude: int := DigitsValue(digits);
      var v := if negative then -magnitude else magnitude;
      if IsInt32(v) then Ok(v) else Throws(NumberFormat)
  }

  lemma {:induction false} DigitsOfNat(n: nat)
    ensures DigitsValue(NatToString(n)) == n
    decreases n
  {
    if n >= 10 {
      DigitsOfNat(n / 10);
      var s := NatToString(n);
      assert s[..|s| - 1] == NatToString(n / 10);
    }
  }

  /** Reading back the text of an int gives the int: parseInt(String.valueOf(n)) == n. */
  lemma IntTextRoundTrip(n: int)
    requires IsInt32(n)
    ensures ParseInt(IntToString(n)) == Ok(n)
  {
    var s := IntToString(n);
    if n < 0 {
      var t := NatToString(-n);
      DigitsOfNat(-n);
      assert s[0] == '-' && s[1..] == t;
      assert DigitsValue(s[1..]) == -n;
    } else {
      var t := NatToString(n);
      DigitsOfNat(n);
      assert s == t && s[0] != '-' && s[0] != '+' by {
        assert IsDigit(t[0]);
      }
    }
  }

  // ---------------------------------------------------------------- decimals

  predicate IsSign(ch: char) {
    ch == '+' || ch == '-'
  }

  /** The length of the run of digits in `s` starting at `from`. */
  function DigitRun(s: string, from: nat): (n: nat)
    requires from <= |s|
    ensures from + n <= |s|
    ensures forall j :: from <= j < from + n ==> IsDigit(s[j])
    ensures from + n < |s| ==> !IsDigit(s[from + n])
    decreases |s| - from
  {
    if from < |s| && IsDigit(s[from]) then 1 + DigitRun(s, from + 1) else 0
  }

  lemma {:induction false} DigitRunAll(s: string, from: nat)
    requires from <= |s|
    requires forall j :: from <= j < |s| ==> IsDigit(s[j])
    ensures DigitRun(s, from) == |s| - from
    decreases |s| - from
  {
    if from < |s| {
      DigitRunAll(s, from + 1);
    }
  }
}
