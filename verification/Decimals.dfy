/** Numbers as the protocol writes and reads them: int(), float() and fixed-point printing. */
module Decimals {
  import opened Options
  import opened Text

  function DigitValue(c: char): (d: nat)
    requires IsDigit(c)
    ensures d < 10
  {
    c as int - '0' as int
  }

  function DigitChar(d: nat): (c: char)
    requires d < 10
    ensures IsDigit(c) && DigitValue(c) == d
  {
    ('0' as int + d) as char
  }

  predicate AllDigits(s: string) {
    forall i :: 0 <= i < |s| ==> IsDigit(s[i])
  }

  /** Length of the run of digits a string begins with. */
  function DigitRun(s: string): (n: nat)
    ensures n <= |s| && AllDigits(s[..n])
    ensures n < |s| ==> !IsDigit(s[n])
  {
    if s == [] || !IsDigit(s[0]) then 0
    else
      assert s[..1 + DigitRun(s[1..])] == [s[0]] + s[1..][..DigitRun(s[1..])];
      1 + DigitRun(s[1..])
  }

  /** Length of the run of zeros a string begins with. */
  function ZeroRun(s: string): (n: nat)
    ensures n <= |s|
    ensures forall i :: 0 <= i < n ==> s[i] == '0'
    ensures n < |s| ==> s[n] != '0'
  {
    if s == [] || s[0] != '0' then 0 else 1 + ZeroRun(s[1..])
  }

  function DecimalValue(s: string): nat
    requires AllDigits(s)
  {
    if s == [] then 0 else 10 * DecimalValue(s[..|s| - 1]) + DigitValue(s[|s| - 1])
  }

  function Digits(n: nat): (s: string)
    ensures s != [] && AllDigits(s)
  {
    if n < 10 then [DigitChar(n)] else Digits(n / 10) + [DigitChar(n % 10)]
  }

  function IntText(n: int): string {
    if n < 0 then "-" + Digits(-n) else Digits(n)
  }

  /** Digits with single underscores between them, as int() takes them. */
  predicate IntBody(s: string) {
    && s != [] && IsDigit(s[0]) && IsDigit(s[|s| - 1])
    && forall i :: 0 <= i < |s| ==> IntCharAt(s, i)
  }

  predicate IntCharAt(s: string, i: int)
    requires 0 <= i < |s|
  {
    IsDigit(s[i]) || (s[i] == '_' && i + 1 < |s| && IsDigit(s[i + 1]))
  }

  function DropUnderscores(s: string): (d: string)
    ensures AllDigits(d)
  {
    if s == [] then [] else (if IsDigit(s[0]) then [s[0]] else []) + DropUnderscores(s[1..])
  }

  /** int(s): None where it raises ValueError. */
  function ParseInt(s: string): Option<int> {
    var t := Strip(s);
    var negative := t != [] && t[0] == '-';
    var body := if negative || (t != [] && t[0] == '+') then t[1..] else t;
    if !IntBody(body) then None
    else
      var n: int := DecimalValue(DropUnderscores(body));
      Some(if negative then -n else n)
  }

  function Pow10(n: nat): (p: nat)
    ensures p > 0
  {
    if n == 0 then 1 else 10 * Pow10(n - 1)
  }

  /** Position of the first c, or the length. */
  function IndexOf(s: string, c: char): (n: nat)
    ensures n <= |s|
    ensures forall i :: 0 <= i < n ==> s[i] != c
    ensures n < |s| ==> s[n] == c
  {
    if s == [] || s[0] == c then 0 else 1 + IndexOf(s[1..], c)
  }

  /** s.split(c) */
  function SplitOn(s: string, c: char): (parts: seq<string>)
    ensures parts != []
    decreases |s|
  {
    var n := IndexOf(s, c);
    if n == |s| then [s] else [s[..n]] + SplitOn(s[n + 1..], c)
  }

  /** Digits, an optional point and more digits. */
  function ParseMagnitude(s: string): Option<real> {
    var n := DigitRun(s);
    var fraction := if n < |s| && s[n] == '.' then s[n + 1..] else s[n..];
    if n == 0 || !AllDigits(fraction) then None else Some(PointValue(s[..n], fraction))
  }

  function PointValue(whole: string, fraction: string): real
    requires AllDigits(whole) && AllDigits(fraction)
  {
    DecimalValue(whole + fraction) as real / Pow10(|fraction|) as real
  }

  /** float() of a coordinate: an optional minus sign and a magnitude. */
  function ParseDecimal(s: string): Option<real> {
    if s == [] || s[0] != '-' then ParseMagnitude(s)
    else
      var m := ParseMagnitude(s[1..]);
      if m.Some? then Some(-m.value) else None
  }

  /** The nearest whole number, ties to even. */
  function RoundHalfEven(x: real): (n: int)
    ensures x >= 0.0 ==> n >= 0
  {
    var f := x.Floor;
    var d := x - f as real;
    if d < 0.5 || (d == 0.5 && f % 2 == 0) then f else f + 1
  }

  /** The nearest whole thousandth. */
  function Rounded(x: real): real {
    if x < 0.0 then -(RoundHalfEven(-x * 1000.0) as real / 1000.0)
    else RoundHalfEven(x * 1000.0) as real / 1000.0
  }

  predicate WholeThousandths(x: real) {
    (x * 1000.0).Floor as real == x * 1000.0
  }

  /** Three digits, zero padded. */
  function ThreeDigits(n: nat): (s: string)
    requires n < 1000
    ensures |s| == 3 && AllDigits(s)
  {
    [DigitChar(n / 100), DigitChar(n / 10 % 10), DigitChar(n % 10)]
  }

  function FixedMagnitude(n: nat): string {
    Digits(n / 1000) + "." + ThreeDigits(n % 1000)
  }

  /** A number printed with three decimals. */
  function Fixed3(x: real): string {
    if x < 0.0 then "-" + FixedMagnitude(RoundHalfEven(-x * 1000.0))
    else FixedMagnitude(RoundHalfEven(x * 1000.0))
  }

  // ----- Facts -----------------------------------------------------------------------------

  lemma {:induction false} DigitsValue(n: nat)
    ensures DecimalValue(Digits(n)) == n
  {
    if n < 10 {
    } else {
      DigitsValue(n / 10);
      var s := Digits(n);
      assert s[..|s| - 1] == Digits(n / 10);
    }
  }

  lemma {:induction false} DropNothing(s: string)
    requires AllDigits(s)
    ensures DropUnderscores(s) == s
  {
    if s == [] {
    } else {
      DropNothing(s[1..]);
    }
  }

  lemma DigitsParse(d: string)
    requires d != [] && AllDigits(d)
    ensures ParseInt(d) == Some(DecimalValue(d))
  {
    StripTrimmed(d);
    DropNothing(d);
  }

  /** White space around a sign and digits is let pass. */
  lemma IntReads(gap: string, sign: string, digits: string, pad: string)
    requires Blank(gap) && Blank(pad) && sign in ["", "+", "-"] && digits != [] && AllDigits(digits)
    ensures var n: int := DecimalValue(digits);
            ParseInt(gap + (sign + digits + pad)) == Some(if sign == "-" then -n else n)
  {
    hide Lstrip, Rstrip, DecimalValue, DropUnderscores;
    var t := sign + digits;
    assert t[0] == if sign == "" then digits[0] else sign[0];
    assert t[|t| - 1] == digits[|digits| - 1];
    LstripGap(gap, t + pad);
    RstripIs(t + pad, |t|);
    assert (t + pad)[..|t|] == t && (t + pad)[|t|..] == pad;
    assert sign + digits + pad == t + pad;
    assert t == if sign == "" then digits else [sign[0]] + digits;
    DropNothing(digits);
  }

  lemma BodyDigits(body: string, i: nat)
    requires IntBody(body) && i < |body|
    ensures IsDigit(body[i]) || body[i] == '_'
  {
    assert IntCharAt(body, i);
  }

  /** A number ends in a digit, and has no character but digits, underscores and a sign in front. */
  lemma IntsAreDigits(s: string, i: nat)
    requires ParseInt(s).Some?
    ensures var t := Strip(s);
            && t != [] && IsDigit(t[|t| - 1])
            && (i < |t| ==> IsDigit(t[i]) || t[i] == '_' || (i == 0 && (t[i] == '+' || t[i] == '-')))
  {
    hide Strip, DecimalValue, DropUnderscores;
    var t := Strip(s);
    if t != [] && (t[0] == '-' || t[0] == '+') {
      assert t[|t| - 1] == t[1..][|t| - 2];
      if 0 < i < |t| { BodyDigits(t[1..], i - 1); }
    } else if i < |t| {
      BodyDigits(t, i);
    }
  }

  lemma IntTextParses(n: int)
    ensures ParseInt(IntText(n)) == Some(n)
  {
    hide Digits, DecimalValue, DropUnderscores, Strip;
    var s := IntText(n);
    var body := Digits(if n < 0 then -n else n);
    assert s == if n < 0 then "-" + body else body;
    assert Trimmed(s) by { assert n < 0 ==> s[|s| - 1] == body[|body| - 1]; }
    StripTrimmed(s);
    assert n < 0 ==> s[1..] == body;
    DropNothing(body);
    DigitsValue(if n < 0 then -n else n);
  }

  lemma {:induction false} DecimalAppend(s: string, t: string)
    requires AllDigits(s) && AllDigits(t)
    ensures DecimalValue(s + t) == DecimalValue(s) * Pow10(|t|) + DecimalValue(t)
    decreases |t|
  {
    if t == [] {
      assert s + t == s;
    } else {
      var u := t[..|t| - 1];
      DecimalAppend(s, u);
      assert (s + t)[..|s + t| - 1] == s + u;
      ScaleByTen(DecimalValue(s), Pow10(|u|), DecimalValue(u));
    }
  }

  lemma ScaleByTen(a: nat, p: nat, b: nat)
    ensures 10 * (a * p + b) == a * (10 * p) + 10 * b
  {
  }

  lemma OneDigit(a: nat)
    requires a < 10
    ensures DecimalValue([DigitChar(a)]) == a
  {
    assert [DigitChar(a)][..0] == [];
  }

  lemma TwoDigits(a: nat, b: nat)
    requires a < 10 && b < 10
    ensures DecimalValue([DigitChar(a), DigitChar(b)]) == 10 * a + b
  {
    OneDigit(a);
    assert [DigitChar(a), DigitChar(b)][..1] == [DigitChar(a)];
  }

  lemma ThreeDigitsValue(n: nat)
    requires n < 1000
    ensures DecimalValue(ThreeDigits(n)) == n
  {
    var s := ThreeDigits(n);
    var a, b, c := n / 100, n / 10 % 10, n % 10;
    OneDigit(a);
    TwoDigits(a, b);
    assert s[..2] == [DigitChar(a), DigitChar(b)];
  }

  lemma PointParses(whole: string, fraction: string)
    requires whole != [] && AllDigits(whole) && AllDigits(fraction)
    ensures ParseMagnitude(whole + "." + fraction) == Some(PointValue(whole, fraction))
  {
    hide PointValue;
    var s := whole + "." + fraction;
    RunEnds(whole, "." + fraction);
    assert s == whole + ("." + fraction);
    assert s[..|whole|] == whole && s[|whole| + 1..] == fraction;
  }

  lemma FixedMagnitudeParses(n: nat)
    ensures ParseMagnitude(FixedMagnitude(n)) == Some(n as real / 1000.0)
    ensures FixedMagnitude(n) != [] && IsDigit(FixedMagnitude(n)[0])
  {
    hide ParseMagnitude, DecimalValue, Digits, ThreeDigits;
    var a, b := n / 1000, n % 1000;
    var whole, fraction := Digits(a), ThreeDigits(b);
    PointParses(whole, fraction);
    DecimalAppend(whole, fraction);
    DigitsValue(a);
    ThreeDigitsValue(b);
    assert Pow10(3) == 10 * Pow10(2) == 100 * Pow10(1) == 1000;
  }

  lemma {:induction false} RunEnds(digits: string, rest: string)
    requires AllDigits(digits) && (rest == [] || !IsDigit(rest[0]))
    ensures DigitRun(digits + rest) == |digits|
  {
    if digits == [] {
      assert digits + rest == rest;
    } else {
      RunEnds(digits[1..], rest);
      assert (digits + rest)[1..] == digits[1..] + rest;
    }
  }

  /** Printing with three decimals and reading back rounds to the nearest thousandth. */
  lemma Fixed3Parses(x: real)
    ensures ParseDecimal(Fixed3(x)) == Some(Rounded(x))
  {
    hide ParseMagnitude, FixedMagnitude, RoundHalfEven;
    var n := if x < 0.0 then RoundHalfEven(-x * 1000.0) else RoundHalfEven(x * 1000.0);
    FixedMagnitudeParses(n);
    assert ("-" + FixedMagnitude(n))[1..] == FixedMagnitude(n);
  }

  ghost predicate IsDecimal(s: string, sign: string, whole: string, point: string, fraction: string) {
    && s == sign + (whole + (point + fraction))
    && (sign == "" || sign == "-") && (point == "." || (point == "" && fraction == ""))
    && whole != [] && AllDigits(whole) && AllDigits(fraction)
  }

  ghost predicate DecimalIs(s: string, x: real) {
    exists sign, whole, point, fraction ::
      && IsDecimal(s, sign, whole, point, fraction)
      && x == (if sign == "-" then -PointValue(whole, fraction) else PointValue(whole, fraction))
  }

  lemma MagnitudeReads(whole: string, point: string, fraction: string)
    requires whole != [] && AllDigits(whole) && AllDigits(fraction)
    requires point == "." || (point == "" && fraction == "")
    ensures ParseMagnitude(whole + (point + fraction)) == Some(PointValue(whole, fraction))
  {
    hide PointValue;
    if point == "." {
      PointParses(whole, fraction);
      assert whole + "." + fraction == whole + (point + fraction);
    } else {
      RunEnds(whole, "");
      assert whole + "" == whole + (point + fraction) == whole;
    }
  }

  /** A decimal is a minus sign perhaps, digits, and a point with or without more digits perhaps. */
  lemma DecimalsByText(s: string, x: real)
    ensures ParseDecimal(s) == Some(x) <==> DecimalIs(s, x)
  {
    hide PointValue, ParseMagnitude;
    if ParseDecimal(s) == Some(x) { DecimalShows(s, x); }
    if DecimalIs(s, x) {
      var sign, whole, point, fraction :|
        && IsDecimal(s, sign, whole, point, fraction)
        && x == (if sign == "-" then -PointValue(whole, fraction) else PointValue(whole, fraction));
      MagnitudeReads(whole, point, fraction);
      var t := whole + (point + fraction);
      assert t[0] == whole[0];
      assert s == if sign == "-" then ['-'] + t else t;
    }
  }

  lemma DecimalShows(s: string, x: real)
    requires ParseDecimal(s) == Some(x)
    ensures DecimalIs(s, x)
  {
    hide PointValue, ParseMagnitude, IsDecimal;
    var sign := if s != [] && s[0] == '-' then "-" else "";
    var t := if sign == "-" then s[1..] else s;
    var whole, point, fraction := MagnitudeShows(t);
    assert s == sign + t;
    DecimalJoins(s, sign, whole, point, fraction);
  }

  lemma DecimalJoins(s: string, sign: string, whole: string, point: string, fraction: string)
    requires s == sign + (whole + (point + fraction)) && (sign == "" || sign == "-")
    requires (point == "." || (point == "" && fraction == "")) && whole != [] && AllDigits(whole) && AllDigits(fraction)
    ensures IsDecimal(s, sign, whole, point, fraction)
  {
  }

  lemma MagnitudeShows(t: string) returns (whole: string, point: string, fraction: string)
    requires ParseMagnitude(t).Some?
    ensures t == whole + (point + fraction) && whole != [] && AllDigits(whole) && AllDigits(fraction)
    ensures point == "." || (point == "" && fraction == "")
    ensures ParseMagnitude(t) == Some(PointValue(whole, fraction))
  {
    hide PointValue, DigitRun;
    var n := DigitRun(t);
    whole := t[..n];
    if n < |t| && t[n] == '.' {
      point, fraction := ".", t[n + 1..];
      assert t[n..] == point + fraction;
    } else {
      point, fraction := "", t[n..];
    }
    assert t == whole + t[n..];
  }

  lemma WholeRounds(y: real)
    ensures RoundHalfEven(y) as real == y <==> y.Floor as real == y
  {
  }

  lemma Thousandths(k: int, x: real)
    ensures k as real / 1000.0 == x <==> k as real == x * 1000.0
  {
  }

  lemma FloorOfNegated(y: real)
    ensures y.Floor as real == y <==> (-y).Floor as real == -y
  {
    if y.Floor as real == y { assert (-y.Floor) as real == -y; }
    if (-y).Floor as real == -y { assert (-(-y).Floor) as real == y; }
  }

  /** Whole thousandths, and only they, come back as they were. */
  lemma RoundedStays(x: real)
    ensures Rounded(x) == x <==> WholeThousandths(x)
  {
    hide RoundHalfEven;
    var y := x * 1000.0;
    if x < 0.0 {
      assert -x * 1000.0 == -y;
      WholeRounds(-y);
      FloorOfNegated(y);
      Thousandths(RoundHalfEven(-y), -x);
    } else {
      WholeRounds(y);
      Thousandths(RoundHalfEven(y), x);
    }
  }

  lemma SplitOnFirst(a: string, c: char, b: string)
    requires c !in a
    ensures SplitOn(a + [c] + b, c) == [a] + SplitOn(b, c)
  {
    var s := a + [c] + b;
    assert s[|a|] == c;
    assert IndexOf(s, c) == |a|;
    assert s[..|a|] == a && s[|a| + 1..] == b;
  }

  lemma SplitOnNone(a: string, c: char)
    requires c !in a
    ensures SplitOn(a, c) == [a]
  {
  }

  /** Number texts hold nothing but digits, a minus sign and a point. */
  predicate NumberChars(s: string) {
    forall c :: c in s ==> IsDigit(c) || c == '-' || c == '.'
  }

  lemma NumbersLook(x: real, n: int)
    ensures NumberChars(Fixed3(x)) && NumberChars(IntText(n))
    ensures IsDigit(IntText(n)[|IntText(n)| - 1])
  {
  }
}
