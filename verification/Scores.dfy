/**
 The way of a score: formatted to two decimals, stored, read back as text, averaged and rounded.
 Scores are real numbers; binary rounding is not part of this model.
 */
module Scores {
  import opened Prelude
  import Decimal

  /** The largest score a turn can get. */
  const MAX_SCORE := 5.0

  // ---------------------------------------------------------------- formatting

  /** The nearest integer, a tie going to the even one. */
  function RoundHalfEven(x: real): int {
    var below := x.Floor;
    var part := x - below as real;
    if part < 0.5 || (part == 0.5 && below % 2 == 0) then below else below + 1
  }

  /** The nearest integer, a tie going away from zero. */
  function RoundHalfAway(x: real): int {
    if x >= 0.0 then (x + 0.5).Floor else -(-x + 0.5).Floor
  }

  function Truncate(x: real): int {
    if x >= 0.0 then x.Floor else -(-x).Floor
  }

  /** A number of hundredths with exactly two decimals. */
  function Fixed2(h: nat): string {
    Decimal.Print(h / 100) + "." + [Decimal.DigitChar(h % 100 / 10), Decimal.DigitChar(h % 10)]
  }

  function TrimRight(s: string, c: char): string {
    if s != [] && s[|s| - 1] == c then TrimRight(s[..|s| - 1], c) else s
  }

  /** The "%.2f" verb. */
  function Sprintf2(value: real): string {
    if value < 0.0 then "-" + Fixed2(RoundHalfEvenNat(-value * 100.0)) else Fixed2(RoundHalfEvenNat(value * 100.0))
  }

  function RoundHalfEvenNat(x: real): nat
    requires x >= 0.0
  {
    RoundHalfEven(x)
  }

  function Trim(formatted: string): string {
    if '.' in formatted then TrimRight(TrimRight(formatted, '0'), '.') else formatted
  }

  function FormatFloatToTwoDecimals(value: real): string {
    Trim(Sprintf2(value))
  }

  function RoundFloatToTwoDecimals(value: real): real {
    Truncate(value * 100.0 + 0.5) as real / 100.0
  }

  // ---------------------------------------------------------------- parsing

  function DotIndex(s: string): (i: nat)
    ensures i <= |s|
  {
    if s == [] || s[0] == '.' then 0 else 1 + DotIndex(s[1..])
  }

  function Pow10(n: nat): (p: nat)
    ensures p >= 1
  {
    if n == 0 then 1 else 10 * Pow10(n - 1)
  }

  function Fraction(n: nat, d: nat): real
    requires d >= 1
  {
    n as real / d as real
  }

  predicate Digits(s: string) {
    s != [] && Decimal.AllDigits(s)
  }

  /** Reads digits, or digits, a dot and digits. */
  function ParseUnsigned(s: string): Option<real> {
    var d := DotIndex(s);
    if !Digits(s[..d]) then None
    else if d == |s| then Some(Decimal.Parse(s) as real)
    else if !Digits(s[d + 1..]) then None
    else Some(Decimal.Parse(s[..d]) as real + Fraction(Decimal.Parse(s[d + 1..]), Pow10(|s| - d - 1)))
  }

  function ParseFloat(s: string): Option<real> {
    if s != [] && s[0] == '-' then
      match ParseUnsigned(s[1..])
      case Some(x) => Some(-x)
      case None => None
    else ParseUnsigned(s)
  }

  // ---------------------------------------------------------------- trimming loses nothing

  lemma {:induction false} DotAfterDigits(digits: string, rest: string)
    requires Decimal.AllDigits(digits)
    requires rest == [] || rest[0] == '.'
    ensures DotIndex(digits + rest) == |digits|
  {
    if digits == [] {
      assert digits + rest == rest;
    } else {
      assert (digits + rest)[1..] == digits[1..] + rest;
      DotAfterDigits(digits[1..], rest);
    }
  }

  lemma ParseSplit(head: string, frac: string)
    requires Digits(head) && Digits(frac)
    ensures ParseUnsigned(head + "." + frac)
            == Some(Decimal.Parse(head) as real + Fraction(Decimal.Parse(frac), Pow10(|frac|)))
  {
    var s := head + "." + frac;
    DotAfterDigits(head, "." + frac);
    assert s == head + ("." + frac);
    SplitAt(s, |head|, head, frac);
  }

  lemma SplitAt(s: string, d: nat, head: string, frac: string)
    requires d < |s| && DotIndex(s) == d && s[..d] == head && s[d + 1..] == frac
    requires Digits(head) && Digits(frac)
    ensures ParseUnsigned(s) == Some(Decimal.Parse(head) as real + Fraction(Decimal.Parse(frac), Pow10(|frac|)))
  {
  }

  lemma ParseWhole(head: string)
    requires Digits(head)
    ensures ParseUnsigned(head) == Some(Decimal.Parse(head) as real)
  {
    DotAfterDigits(head, "");
    hide DotIndex, Decimal.Parse, Digits;
    assert head + "" == head && head[..|head|] == head;
  }

  lemma OneDigit(a: nat)
    requires a < 10
    ensures var s := [Decimal.DigitChar(a)]; Digits(s) && Decimal.Parse(s) == a
  {
  }

  lemma TwoDigits(a: nat, b: nat)
    requires a < 10 && b < 10
    ensures var s := [Decimal.DigitChar(a), Decimal.DigitChar(b)]; Digits(s) && Decimal.Parse(s) == 10 * a + b
  {
    OneDigit(a);
    assert [Decimal.DigitChar(a), Decimal.DigitChar(b)][..1] == [Decimal.DigitChar(a)];
  }

  /** The decimal places of a number of hundredths. */
  lemma Places(h: nat, whole: nat, a: nat, b: nat)
    requires whole == h / 100 && a == h % 100 / 10 && b == h % 10
    ensures a < 10 && b < 10 && h == 100 * whole + 10 * a + b
    ensures Digits(Decimal.Print(whole)) && Decimal.Parse(Decimal.Print(whole)) == whole
  {
    Decimal.ParsePrint(whole);
  }

  lemma OverHundred(h: nat, whole: nat, rest: nat)
    requires h == 100 * whole + rest
    ensures whole as real + Fraction(rest, 100) == h as real / 100.0
    ensures rest == 0 ==> whole as real == h as real / 100.0
  {
  }

  lemma OverTen(h: nat, whole: nat, a: nat)
    requires h == 100 * whole + 10 * a
    ensures whole as real + Fraction(a, 10) == h as real / 100.0
  {
  }

  lemma Powers()
    ensures Pow10(1) == 10 && Pow10(2) == 100
  {
  }

  /** Text with two decimals reads back as the hundredths it was printed from. */
  lemma ParseFixed2(h: nat)
    ensures ParseUnsigned(Fixed2(h)) == Some(h as real / 100.0)
  {
    var whole, a, b := h / 100, h % 100 / 10, h % 10;
    Places(h, whole, a, b);
    TwoDigits(a, b);
    Powers();
    OverHundred(h, whole, 10 * a + b);
    hide Decimal.Print, Decimal.Parse, Pow10, ParseUnsigned, Digits, Decimal.DigitChar, Fraction;
    ParseSplit(Decimal.Print(whole), [Decimal.DigitChar(a), Decimal.DigitChar(b)]);
  }

  /** Cutting trailing zeros, and the dot when nothing follows it, does not change the number. */
  lemma TrimLossless(h: nat)
    ensures ParseUnsigned(Trim(Fixed2(h))) == Some(h as real / 100.0)
  {
    var whole, a, b := h / 100, h % 100 / 10, h % 10;
    Places(h, whole, a, b);
    var head := Decimal.Print(whole);
    TrimCases(head, a, b);
    assert Fixed2(h) == head + "." + [Decimal.DigitChar(a), Decimal.DigitChar(b)];
    hide *;
    if b != 0 {
      ParseFixed2(h);
    } else if a != 0 {
      ParseOneDecimal(h, head, whole, a);
    } else {
      ParseWhole(head);
      OverHundred(h, whole, 0);
    }
  }

  lemma ParseOneDecimal(h: nat, head: string, whole: nat, a: nat)
    requires a < 10 && h == 100 * whole + 10 * a && Digits(head) && Decimal.Parse(head) == whole
    ensures ParseUnsigned(head + "." + [Decimal.DigitChar(a)]) == Some(h as real / 100.0)
  {
    OneDigit(a);
    Powers();
    OverTen(h, whole, a);
    hide *;
    ParseSplit(head, [Decimal.DigitChar(a)]);
  }

  lemma TrimCases(head: string, a: nat, b: nat)
    requires Digits(head) && a < 10 && b < 10
    ensures Trim(head + "." + [Decimal.DigitChar(a), Decimal.DigitChar(b)])
            == if b != 0 then head + "." + [Decimal.DigitChar(a), Decimal.DigitChar(b)]
               else if a != 0 then head + "." + [Decimal.DigitChar(a)]
               else head
  {
    var s := head + "." + [Decimal.DigitChar(a), Decimal.DigitChar(b)];
    var t, u := head + "." + [Decimal.DigitChar(a)], head + ".";
    assert s[|head|] == '.';
    assert s[..|s| - 1] == t && t[..|t| - 1] == u && u[..|u| - 1] == head;
    assert head[|head| - 1] != '.';
    assert TrimRight(u, '0') == u && TrimRight(head, '.') == head && TrimRight(u, '.') == head;
    assert TrimRight(t, '0') == if a != 0 then t else u;
    assert TrimRight(s, '0') == if b != 0 then s else TrimRight(t, '0');
  }

  // ---------------------------------------------------------------- storing, averaging, rounding

  /** The text a score column with two decimals and a range check gives back; none when the row is refused. */
  function Stored(value: real): Option<string> {
    var parsed := ParseFloat(FormatFloatToTwoDecimals(value));
    if parsed.Some? && 0.0 <= parsed.value <= MAX_SCORE
    then Some(Fixed2(RoundHalfAway(parsed.value * 100.0)))
    else None
  }

  function PlusText(sum: Option<real>, text: string): Option<real> {
    var score := ParseFloat(text);
    if sum.Some? && score.Some? then Some(sum.value + score.value) else None
  }

  function SumTexts(texts: seq<string>): Option<real> {
    if texts == [] then Some(0.0) else PlusText(SumTexts(texts[..|texts| - 1]), texts[|texts| - 1])
  }

  /** The overall score of a session; 0 when it has no scored turns. */
  function Overall(texts: seq<string>): Option<real> {
    var sum := SumTexts(texts);
    if texts == [] then Some(0.0)
    else if sum.None? then None
    else Some(RoundHalfAway(sum.value / |texts| as real * 100.0) as real / 100.0)
  }

  /** The averaging loop; it stops at the first text that is not a number. */
  method OverallScore(texts: seq<string>) returns (r: Result<real, string>)
    ensures r == match Overall(texts) case Some(score) => Ok(score) case None => Err("invalid number")
  {
    hide ParseFloat, RoundHalfAway;
    var total := 0.0;
    if |texts| > 0 {
      for i := 0 to |texts|
        invariant SumTexts(texts[..i]) == Some(total)
      {
        assert texts[..i + 1][..i] == texts[..i];
        var score := ParseFloat(texts[i]);
        if score.None? {
          NoSum(texts, i + 1);
          return Err("invalid number");
        }
        total := total + score.value;
      }
      assert texts[..|texts|] == texts;
      total := RoundHalfAway(total / |texts| as real * 100.0) as real / 100.0;
    }
    return Ok(total);
  }

  lemma {:induction false} NoSum(texts: seq<string>, i: nat)
    requires i <= |texts| && SumTexts(texts[..i]).None?
    ensures SumTexts(texts).None?
    decreases |texts|
  {
    if i == |texts| {
      assert texts[..i] == texts;
    } else {
      var front := texts[..|texts| - 1];
      assert front[..i] == texts[..i];
      NoSum(front, i);
    }
  }

  /** There is no overall score exactly when some text is not a number. */
  lemma {:induction false} OverallFails(texts: seq<string>)
    ensures Overall(texts).None? <==> exists i :: 0 <= i < |texts| && ParseFloat(texts[i]).None?
    ensures Overall(texts).None? <==> SumTexts(texts).None?
  {
    if texts != [] {
      var front := texts[..|texts| - 1];
      OverallFails(front);
      hide ParseFloat, RoundHalfAway;
      if SumTexts(front).None? {
        var i :| 0 <= i < |front| && ParseFloat(front[i]).None?;
        assert ParseFloat(texts[i]).None?;
      } else {
        forall i | 0 <= i < |front| ensures ParseFloat(texts[i]).Some? {
          assert ParseFloat(front[i]).Some?;
        }
      }
    }
  }

  function Sum(xs: seq<real>): real {
    if xs == [] then 0.0 else Sum(xs[..|xs| - 1]) + xs[|xs| - 1]
  }

  ghost predicate Near(a: real, b: real, distance: real) {
    -distance <= a - b <= distance
  }

  lemma RoundingError(x: real)
    requires x >= 0.0
    ensures Near(RoundHalfEven(x) as real, x, 0.5) && Near(RoundHalfAway(x) as real, x, 0.5)
    ensures RoundHalfEven(x) >= 0 && RoundHalfAway(x) >= 0
  {
  }

  /** Both roundings give the nearest integer; a tie goes to the even one, or away from zero. */
  lemma RoundsToNearest(x: real)
    ensures Near(RoundHalfEven(x) as real, x, 0.5) && Near(RoundHalfAway(x) as real, x, 0.5)
    ensures RoundHalfEven(x) as real - x == 0.5 || x - RoundHalfEven(x) as real == 0.5 ==> RoundHalfEven(x) % 2 == 0
    ensures RoundHalfAway(x) as real - x == 0.5 ==> x > 0.0
    ensures x - RoundHalfAway(x) as real == 0.5 ==> x < 0.0
  {
  }

  lemma RoundingKeepsBound(x: real, bound: nat)
    requires 0.0 <= x <= bound as real
    ensures 0 <= RoundHalfEven(x) <= bound && 0 <= RoundHalfAway(x) <= bound
  {
  }

  lemma Fixed2IsPlain(h: nat)
    ensures Fixed2(h) != [] && Fixed2(h)[0] != '-' && '.' in Fixed2(h)
    ensures Trim(Fixed2(h)) != [] && Trim(Fixed2(h))[0] != '-'
  {
    var whole, a, b := h / 100, h % 100 / 10, h % 10;
    Places(h, whole, a, b);
    var head := Decimal.Print(whole);
    TrimCases(head, a, b);
    assert Decimal.IsDigit(head[0]);
    hide Decimal.Print, Trim;
    assert Fixed2(h)[|head|] == '.';
  }

  /** Formatting and parsing a score in range gives its nearest hundredth, and storing it keeps that. */
  lemma StoredHundredths(x: real, h: nat)
    requires 0.0 <= x <= MAX_SCORE && h == RoundHalfEven(x * 100.0)
    ensures ParseFloat(FormatFloatToTwoDecimals(x)) == Some(h as real / 100.0)
    ensures Stored(x) == Some(Fixed2(h)) && ParseFloat(Fixed2(h)) == Some(h as real / 100.0)
    ensures h <= 500 && Near(h as real / 100.0, x, 0.005)
  {
    RoundingError(x * 100.0);
    RoundingKeepsBound(x * 100.0, 500);
    Fixed2IsPlain(h);
    TrimLossless(h);
    ParseFixed2(h);
    hide Fixed2, Trim, ParseUnsigned, RoundHalfEven;
    assert RoundHalfAway(h as real) == h;
    assert h as real / 100.0 * 100.0 == h as real;
  }

  /** Texts stored for raw scores in range. */
  ghost predicate StoredFor(raw: seq<real>, texts: seq<string>) {
    |raw| == |texts| && forall i :: 0 <= i < |raw| ==> 0.0 <= raw[i] <= MAX_SCORE && Stored(raw[i]) == Some(texts[i])
  }

  lemma {:induction false} SumStored(raw: seq<real>, texts: seq<string>, n: nat)
    requires StoredFor(raw, texts) && n == |raw|
    ensures SumTexts(texts).Some?
    ensures Near(SumTexts(texts).value, Sum(raw), 0.005 * n as real)
    ensures 0.0 <= SumTexts(texts).value <= MAX_SCORE * n as real
    decreases n
  {
    if n > 0 {
      var front, rest, x := texts[..n - 1], raw[..n - 1], raw[n - 1];
      assert Stored(x) == Some(texts[n - 1]);
      assert SumTexts(texts) == PlusText(SumTexts(front), texts[n - 1]);
      assert Sum(raw) == Sum(rest) + x;
      assert StoredFor(rest, front);
      hide SumTexts, Sum, Stored, StoredFor, ParseFloat, Near;
      SumStored(rest, front, n - 1);
      StoredNear(x, texts[n - 1]);
      NearPlus(SumTexts(front).value, Sum(rest), ParseFloat(texts[n - 1]).value, x, n - 1);
    }
  }

  lemma StoredNear(x: real, text: string)
    requires 0.0 <= x <= MAX_SCORE && Stored(x) == Some(text)
    ensures ParseFloat(text).Some?
    ensures Near(ParseFloat(text).value, x, 0.005) && 0.0 <= ParseFloat(text).value <= MAX_SCORE
  {
    hide Stored, ParseFloat, RoundHalfEven;
    RoundingKeepsBound(x * 100.0, 500);
    StoredHundredths(x, RoundHalfEven(x * 100.0));
  }

  lemma NearPlus(a: real, b: real, x: real, y: real, n: nat)
    requires Near(a, b, 0.005 * n as real) && 0.0 <= a <= MAX_SCORE * n as real
    requires Near(x, y, 0.005) && 0.0 <= x <= MAX_SCORE
    ensures Near(a + x, b + y, 0.005 * (n + 1) as real) && 0.0 <= a + x <= MAX_SCORE * (n + 1) as real
  {
  }

  lemma Quotient(a: real, b: real, n: real, distance: real)
    requires n > 0.0 && Near(a, b, distance * n)
    ensures Near(a / n, b / n, distance)
  {
  }

  lemma MeanInRange(sum: real, n: real)
    requires n > 0.0 && 0.0 <= sum <= MAX_SCORE * n
    ensures 0.0 <= sum / n <= MAX_SCORE
  {
  }

  lemma RoundedMean(mean: real)
    requires 0.0 <= mean <= MAX_SCORE
    ensures 0.0 <= RoundHalfAway(mean * 100.0) as real / 100.0 <= MAX_SCORE
    ensures Near(RoundHalfAway(mean * 100.0) as real / 100.0, mean, 0.005)
  {
  }

  /**
   The whole pipeline: for raw turn scores between 0 and 5 the overall score written for the session is between 0 and 5,
   so the range check on the read path accepts it, and it lies within 0.01 of the true mean.
   */
  lemma PipelineBound(raw: seq<real>, texts: seq<string>)
    requires raw != [] && StoredFor(raw, texts)
    ensures Overall(texts).Some?
    ensures 0.0 <= Overall(texts).value <= MAX_SCORE
    ensures Near(Overall(texts).value, Sum(raw) / |raw| as real, 0.01)
  {
    SumStored(raw, texts, |raw|);
    OverallNear(texts, SumTexts(texts).value, Sum(raw), |raw|);
  }

  predicate Hundredths(x: real) {
    (x * 100.0).Floor as real == x * 100.0
  }

  /** The overall score is a whole number of hundredths, the one nearest to the mean of the texts. */
  lemma OverallIsHundredths(texts: seq<string>)
    requires texts != [] && Overall(texts).Some?
    ensures SumTexts(texts).Some? && Hundredths(Overall(texts).value)
    ensures Near(Overall(texts).value, SumTexts(texts).value / |texts| as real, 0.005)
  {
    var mean := SumTexts(texts).value / |texts| as real;
    RoundsToNearest(mean * 100.0);
    assert Overall(texts).value == RoundHalfAway(mean * 100.0) as real / 100.0;
    hide *;
    HundredthsOf(RoundHalfAway(mean * 100.0), mean);
  }

  lemma HundredthsOf(h: int, mean: real)
    requires Near(h as real, mean * 100.0, 0.5)
    ensures Hundredths(h as real / 100.0) && Near(h as real / 100.0, mean, 0.005)
  {
    assert h as real / 100.0 * 100.0 == h as real;
  }

  lemma OverallNear(texts: seq<string>, sum: real, trueSum: real, n: nat)
    requires n == |texts| > 0 && SumTexts(texts) == Some(sum)
    requires 0.0 <= sum <= MAX_SCORE * n as real && Near(sum, trueSum, 0.005 * n as real)
    ensures Overall(texts).Some? && 0.0 <= Overall(texts).value <= MAX_SCORE
    ensures Near(Overall(texts).value, trueSum / n as real, 0.01)
  {
    hide SumTexts, RoundHalfAway;
    Quotient(sum, trueSum, n as real, 0.005);
    MeanInRange(sum, n as real);
    RoundedMean(sum / n as real);
  }

  /** The criterion averages are rounded differently; for them too the error is at most half a hundredth. */
  lemma RoundFloatError(x: real)
    requires 0.0 <= x <= MAX_SCORE
    ensures 0.0 <= RoundFloatToTwoDecimals(x) <= MAX_SCORE && Near(RoundFloatToTwoDecimals(x), x, 0.005)
    ensures RoundFloatToTwoDecimals(x) == RoundHalfAway(x * 100.0) as real / 100.0
  {
  }
}
