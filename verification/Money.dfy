/** The two decimal codecs for micro-USD amounts: the resource form's and the pricing review's. */
module Money {
  import opened Sequences
  import opened Text

  datatype Rejection = Malformed | OutOfRange

  const MILLION := 1_000_000

  // ---- Printing ----

  function Zeros(n: nat): (s: string)
    ensures |s| == n && AllDigits(s)
    ensures forall i :: 0 <= i < n ==> s[i] == '0'
  {
    seq(n, i => '0')
  }

  function PadStart(s: string, n: nat): string {
    if |s| < n then Zeros(n - |s|) + s else s
  }

  function PadEnd(s: string, n: nat): string {
    if |s| < n then s + Zeros(n - |s|) else s
  }

  /** `s.replace(/0+$/, "")`. */
  function StripZeros(s: string): string {
    if s != [] && s[|s| - 1] == '0' then StripZeros(s[..|s| - 1]) else s
  }

  function FractionText(remainder: int): string {
    StripZeros(PadStart(Number(remainder), 6))
  }

  function Decimal(whole: string, fraction: string): string {
    whole + if fraction == "" then "" else "." + fraction
  }

  function Plain(absolute: nat): string {
    Decimal(Number(absolute / MILLION), FractionText(absolute % MILLION))
  }

  /** `microUsdToUsd` of an integer. */
  function PrintUsd(micros: int): string {
    if micros < 0 then "-" + Plain(-micros) else Plain(micros)
  }

  /** BigInt division, which truncates. */
  function Quotient(a: int, b: int): int
    requires b > 0
  {
    if a < 0 then -(-a / b) else a / b
  }

  function Remainder(a: int, b: int): int
    requires b > 0
  {
    a - Quotient(a, b) * b
  }

  /** `usd` of an integer, with its dollar sign. */
  function Usd(micros: int): string {
    "$" + Decimal(Number(Quotient(micros, MILLION)), FractionText(Remainder(micros, MILLION)))
  }

  /** `priceInput`. */
  function PriceInput(micros: Option<int>): string {
    match micros
    case None => ""
    case Some(m) => Usd(m)[1..]
  }

  // ---- Parsing ----

  function Point(s: string): (i: nat)
    ensures i <= |s|
    ensures i < |s| ==> s[i] == '.'
    ensures forall j :: 0 <= j < i ==> s[j] != '.'
  {
    if s == [] || s[0] == '.' then 0 else 1 + Point(s[1..])
  }

  function Whole(s: string): string {
    s[..Point(s)]
  }

  function Fraction(s: string): string {
    if Point(s) < |s| then s[Point(s) + 1..] else ""
  }

  /** `/^\d+(?:\.\d{least,6})?$/`. */
  predicate IsAmount(s: string, least: nat) {
    && Whole(s) != "" && AllDigits(Whole(s))
    && AllDigits(Fraction(s))
    && (Point(s) < |s| ==> least <= |Fraction(s)| <= 6)
  }

  function Micros(s: string): nat
    requires IsAmount(s, 0)
  {
    Value(Whole(s)) * MILLION + Value(PadEnd(Fraction(s), 6))
  }

  function Bounded(micros: nat): Result<nat, Rejection> {
    if micros > MAX_SAFE_INTEGER then Failure(OutOfRange) else Success(micros)
  }

  /** `usdToMicroUsd`. */
  function ParseUsd(value: string): Result<nat, Rejection> {
    var normalized := Trim(value);
    if !IsAmount(normalized, 0) then Failure(Malformed) else Bounded(Micros(normalized))
  }

  /** `inputMicrousd`. */
  function ParseInput(value: string): Result<nat, Rejection> {
    if !IsAmount(value, 1) then Failure(Malformed) else Bounded(Micros(value))
  }

  // ---- Digits ----

  function Pow10(n: nat): nat {
    if n == 0 then 1 else 10 * Pow10(n - 1)
  }

  lemma {:induction false} ValueAppend(s: string, t: string)
    requires AllDigits(s) && AllDigits(t)
    ensures AllDigits(s + t) && Value(s + t) == Value(s) * Pow10(|t|) + Value(t)
  {
    if t == [] {
      assert s + t == s;
    } else {
      var front := t[..|t| - 1];
      ValueAppend(s, front);
      assert (s + t)[..|s + t| - 1] == s + front;
      Shift(Value(s), Pow10(|front|), Value(front));
    }
  }

  /** With `ValueAppend`, the decimal reading of every run of digits. */
  lemma ValueDigit(c: char)
    requires '0' <= c <= '9'
    ensures AllDigits([c]) && Value([c]) == c as int - '0' as int && Digits(Value([c])) == [c]
  {
    assert [c][..0] == [] && Value([]) == 0;
  }

  lemma Shift(a: nat, p: nat, b: nat)
    ensures (a * p + b) * 10 == a * (10 * p) + b * 10
  {
  }

  lemma {:induction false} ValueZeros(n: nat)
    ensures Value(Zeros(n)) == 0
  {
    if n > 0 {
      assert Zeros(n)[..n - 1] == Zeros(n - 1);
      ValueZeros(n - 1);
    }
  }

  lemma {:induction false} DigitsShort(n: nat, k: nat)
    requires k > 0 && n < Pow10(k)
    ensures |Digits(n)| <= k
  {
    if n >= 10 {
      assert k > 1;
      assert n / 10 < Pow10(k - 1);
      DigitsShort(n / 10, k - 1);
    }
  }

  lemma {:induction false} StripPad(s: string, n: nat)
    requires |s| == n && AllDigits(s)
    ensures PadEnd(StripZeros(s), n) == s
    ensures AllDigits(StripZeros(s)) && |StripZeros(s)| <= n
    ensures StripZeros(s) != "" ==> StripZeros(s)[|StripZeros(s)| - 1] != '0'
  {
    if s != [] && s[|s| - 1] == '0' {
      var front := s[..|s| - 1];
      StripPad(front, n - 1);
      assert PadEnd(StripZeros(s), n) == PadEnd(StripZeros(front), n - 1) + ['0'];
      assert s == front + ['0'];
    }
  }

  /** The six-digit remainder survives stripping and padding. */
  lemma FractionRoundTrip(r: nat)
    requires r < MILLION
    ensures var f := FractionText(r); AllDigits(f) && |f| <= 6 && Value(PadEnd(f, 6)) == r
    ensures var f := FractionText(r); f != "" ==> f[|f| - 1] != '0'
  {
    PaddedValue(r);
    StripPad(PadStart(Digits(r), 6), 6);
  }

  lemma PaddedValue(r: nat)
    requires r < MILLION
    ensures var padded := PadStart(Digits(r), 6); AllDigits(padded) && |padded| == 6 && Value(padded) == r
  {
    assert Pow10(6) == MILLION by {
      assert Pow10(3) == 1000;
      assert Pow10(6) == 1000 * Pow10(3);
    }
    DigitsShort(r, 6);
    if |Digits(r)| < 6 {
      ValueZeros(6 - |Digits(r)|);
      ValueAppend(Zeros(6 - |Digits(r)|), Digits(r));
    }
  }

  lemma DecimalParts(whole: string, fraction: string)
    requires whole != "" && AllDigits(whole) && AllDigits(fraction)
    ensures Whole(Decimal(whole, fraction)) == whole && Fraction(Decimal(whole, fraction)) == fraction
    ensures Point(Decimal(whole, fraction)) < |Decimal(whole, fraction)| <==> fraction != ""
  {
    var s := Decimal(whole, fraction);
    assert forall i :: 0 <= i < |whole| ==> s[i] == whole[i];
    if fraction != "" {
      assert s[|whole|] == '.';
      assert Point(s) == |whole|;
      assert s[|whole| + 1..] == fraction;
    } else {
      assert s == whole;
    }
  }

  lemma DecimalTrimmed(whole: string, fraction: string)
    requires whole != "" && AllDigits(whole) && AllDigits(fraction)
    ensures var s := Decimal(whole, fraction); Trimmed(s) && IsDigit(s[|s| - 1])
  {
    var s := Decimal(whole, fraction);
    assert s[0] == whole[0];
    assert s[|s| - 1] == if fraction == "" then whole[|whole| - 1] else fraction[|fraction| - 1];
  }

  /** What is printed for an amount that is not negative parses back to it, in either grammar. */
  lemma PrintedAmount(m: nat)
    ensures var s := Plain(m);
      IsAmount(s, 1) && IsAmount(s, 0) && Micros(s) == m
  {
    var w, f := Number(m / MILLION), FractionText(m % MILLION);
    NumberParts(m / MILLION);
    FractionRoundTrip(m % MILLION);
    DecimalParts(w, f);
    MicrosOf(Plain(m), w, f, m);
  }

  lemma PlainText(m: nat)
    ensures var s := Plain(m); s != "" && Trimmed(s) && IsDigit(s[|s| - 1])
  {
    NumberParts(m / MILLION);
    FractionRoundTrip(m % MILLION);
    DecimalTrimmed(Number(m / MILLION), FractionText(m % MILLION));
  }

  lemma NumberParts(n: nat)
    ensures Number(n) != "" && AllDigits(Number(n)) && Value(Number(n)) == n
  {
  }

  lemma MicrosOf(s: string, w: string, f: string, m: nat)
    requires Whole(s) == w && Fraction(s) == f && w != "" && AllDigits(w) && AllDigits(f) && |f| <= 6
    requires Point(s) < |s| <==> f != ""
    requires Value(w) == m / MILLION && Value(PadEnd(f, 6)) == m % MILLION
    ensures IsAmount(s, 1) && IsAmount(s, 0) && Micros(s) == m
  {
  }

  // ---- The round trips ----

  /** The form codec gives back exactly the amounts it can represent, and rejects the others for the right reason. */
  lemma UsdRoundTrip(m: int)
    ensures ParseUsd(PrintUsd(m)) ==
            if m < 0 then Failure(Malformed) else if m > MAX_SAFE_INTEGER then Failure(OutOfRange) else Success(m)
  {
    if m >= 0 {
      PrintedAmount(m);
      PlainText(m);
      TrimIsTrimmed(Plain(m));
    } else {
      NegativeRejected(-m);
    }
  }

  lemma NegativeRejected(absolute: nat)
    ensures Trim("-" + Plain(absolute)) == "-" + Plain(absolute) && !IsAmount("-" + Plain(absolute), 0)
  {
    PlainText(absolute);
    SignedText("-" + Plain(absolute), Plain(absolute));
  }

  lemma SignedText(s: string, t: string)
    requires s == "-" + t && t != "" && IsDigit(t[|t| - 1])
    ensures Trim(s) == s && !IsAmount(s, 0)
  {
    assert s[0] == '-' && s[|s| - 1] == t[|t| - 1];
    TrimIsTrimmed(s);
    assert Whole(s) != "" ==> Whole(s)[0] == '-';
  }

  lemma UsdOfPositive(m: nat)
    ensures Usd(m) == "$" + Plain(m) && PriceInput(Some(m)) == Plain(m)
  {
    assert Quotient(m, MILLION) == m / MILLION && Remainder(m, MILLION) == m % MILLION;
  }

  /** So does the review codec, on amounts that are not negative. */
  lemma InputRoundTrip(m: nat)
    ensures ParseInput(PriceInput(Some(m))) == if m > MAX_SAFE_INTEGER then Failure(OutOfRange) else Success(m)
  {
    UsdOfPositive(m);
    PrintedAmount(m);
  }

  /** Below zero the review prints what the form prints only for whole dollars: its remainder keeps the sign. */
  lemma UsdSign(m: int)
    ensures PriceInput(Some(m)) == PrintUsd(m) <==> m >= 0 || m % MILLION == 0
  {
    if m >= 0 {
      UsdOfPositive(m);
    } else {
      NegativeParts(m, -m / MILLION, -m % MILLION);
    }
  }

  lemma NegativeTexts(m: int, q: int, r: int)
    requires m < 0 && q == -m / MILLION && r == -m % MILLION
    ensures q >= 0 && 0 <= r < MILLION && (m % MILLION == 0 <==> r == 0)
    ensures PriceInput(Some(m)) == Decimal(Number(-q), FractionText(-r))
    ensures PrintUsd(m) == "-" + Decimal(Number(q), FractionText(r))
  {
    assert Quotient(m, MILLION) == -q && Remainder(m, MILLION) == -r;
  }

  lemma NegativeParts(m: int, q: int, r: int)
    requires m < 0 && q == -m / MILLION && r == -m % MILLION
    ensures PriceInput(Some(m)) == PrintUsd(m) <==> m % MILLION == 0
  {
    NegativeTexts(m, q, r);
    if r == 0 {
      ZeroFraction();
    } else {
      LostSign(q, r);
    }
  }

  lemma ZeroFraction()
    ensures FractionText(0) == ""
  {
    assert PadStart(Number(0), 6) == "000000";
    assert "000000"[..5] == "00000" && "00000"[..4] == "0000" && "0000"[..3] == "000" && "000"[..2] == "00" && "00"[..1] == "0";
    assert StripZeros("0") == "" && StripZeros("00") == "" && StripZeros("000") == "" && StripZeros("0000") == "";
  }

  /** A negative remainder leaves its minus sign inside the fraction. */
  lemma {:induction false} StripKeeps(s: string, i: nat)
    requires i < |s| && s[i] == '-'
    ensures i < |StripZeros(s)| && StripZeros(s)[i] == '-'
  {
    if s[|s| - 1] == '0' {
      StripKeeps(s[..|s| - 1], i);
    }
  }

  lemma SignInside(w: string, r: int) returns (k: nat)
    requires 0 < r < MILLION
    ensures |w| < k < |Decimal(w, FractionText(-r))| && Decimal(w, FractionText(-r))[k] == '-'
  {
    var text := PadStart(Number(-r), 6);
    var at := if |Number(-r)| < 6 then 6 - |Number(-r)| else 0;
    assert text[at] == '-';
    StripKeeps(text, at);
    k := |w| + 1 + at;
  }

  lemma NoSignInside(w: string, f: string)
    requires AllDigits(w) && AllDigits(f)
    ensures forall i :: 0 <= i < |Decimal(w, f)| ==> Decimal(w, f)[i] != '-'
  {
  }

  lemma LostSign(q: int, r: int)
    requires q >= 0 && 0 < r < MILLION
    ensures Decimal(Number(-q), FractionText(-r)) != "-" + Decimal(Number(q), FractionText(r))
  {
    var left, right := Decimal(Number(-q), FractionText(-r)), Decimal(Number(q), FractionText(r));
    var k := SignInside(Number(-q), r);
    FractionRoundTrip(r);
    NumberParts(q);
    NoSignInside(Number(q), FractionText(r));
    SignDiffers(left, right, k);
  }

  lemma SignDiffers(left: string, right: string, k: nat)
    requires 0 < k < |left| && left[k] == '-' && forall i :: 0 <= i < |right| ==> right[i] != '-'
    ensures left != "-" + right
  {
    var signed := "-" + right;
    assert forall i :: 1 <= i < |signed| ==> signed[i] == right[i - 1];
  }

  // ---- The two parsers ----

  /** The review accepts exactly what the form accepts untrimmed and without a trailing point; where it accepts, they agree. */
  lemma ParsersAgree(s: string)
    ensures ParseInput(s).Success? <==> ParseUsd(s).Success? && Trimmed(s) && s[|s| - 1] != '.'
    ensures ParseInput(s).Success? ==> ParseUsd(s) == ParseInput(s)
  {
    TrimIsTrimmed(s);
    if IsAmount(s, 1) {
      AmountTrimmed(s);
    } else if Trimmed(s) && IsAmount(s, 0) {
      assert Point(s) == |s| - 1;
    }
    if s == [] {
      assert Whole(s) == "";
    }
  }

  lemma AmountTrimmed(s: string)
    requires IsAmount(s, 1)
    ensures s != "" && Trimmed(s) && s[|s| - 1] != '.'
  {
    assert s[0] == Whole(s)[0];
    if Point(s) < |s| {
      assert s[|s| - 1] == Fraction(s)[|Fraction(s)| - 1];
    } else {
      assert s == Whole(s);
    }
  }

  /** The parsed amount is the decimal itself: point removed, it is scaled by the missing fraction digits only. */
  lemma ParsedIsExact(s: string)
    requires IsAmount(s, 0)
    ensures AllDigits(Whole(s) + Fraction(s))
    ensures Micros(s) * Pow10(|Fraction(s)|) == Value(Whole(s) + Fraction(s)) * MILLION
  {
    var w, f := Whole(s), Fraction(s);
    var k := 6 - |f|;
    ValueAppend(w, f);
    ValueAppend(f, Zeros(k));
    ValueZeros(k);
    assert PadEnd(f, 6) == f + Zeros(k);
    PowersMeet(|f|);
    assert Pow10(k) * Pow10(|f|) == MILLION;
    Scaled(Value(w), Value(f), Pow10(|f|), Pow10(k));
  }

  lemma Scaled(w: nat, f: nat, p: nat, q: nat)
    requires q * p == MILLION
    ensures (w * MILLION + f * q) * p == (w * p + f) * MILLION
  {
    calc {
      (w * MILLION + f * q) * p;
      w * MILLION * p + f * q * p;
      w * MILLION * p + f * (q * p);
      (w * p + f) * MILLION;
    }
  }

  lemma PowersMeet(n: nat)
    requires n <= 6
    ensures Pow10(6 - n) * Pow10(n) == MILLION
  {
    assert Pow10(0) == 1 && Pow10(1) == 10;
    assert Pow10(2) == 100;
    assert Pow10(3) == 1000;
    assert Pow10(4) == 10 * Pow10(3);
    assert Pow10(5) == 10 * Pow10(4);
    assert Pow10(6) == 10 * Pow10(5);
  }

  /** Reprinting a parsed amount keeps its value, and printing again changes nothing. */
  lemma ReprintStable(s: string)
    requires ParseUsd(s).Success?
    ensures var m := ParseUsd(s).value;
      && ParseUsd(PrintUsd(m)) == Success(m)
      && ParseInput(PrintUsd(m)) == Success(m)
      && PrintUsd(ParseUsd(PrintUsd(m)).value) == PrintUsd(m)
  {
    var m := ParseUsd(s).value;
    UsdRoundTrip(m);
    UsdOfPositive(m);
    InputRoundTrip(m);
  }

  // ---- Both codecs by their characters ----

  /** `s` is the digits `w`, alone or before a point and at least `least` and at most six digits `f`. */
  predicate Spells(s: string, w: string, f: string, least: nat) {
    && w != "" && AllDigits(w) && AllDigits(f) && |f| <= 6
    && ((f == "" && s == w) || (least <= |f| && s == w + "." + f))
  }

  /** The amount the digits say: dollars, and the fraction in millionths. */
  function Said(w: string, f: string): nat
    requires AllDigits(w) && AllDigits(f) && |f| <= 6
  {
    Value(w) * 1_000_000 + Value(f) * Pow10(6 - |f|)
  }

  lemma SpelledAmount(s: string, w: string, f: string, least: nat)
    requires Spells(s, w, f, least)
    ensures IsAmount(s, least) && IsAmount(s, 0) && Micros(s) == Said(w, f)
  {
    SpelledParts(s, w, f, least);
    ValueAppend(f, Zeros(6 - |f|));
    ValueZeros(6 - |f|);
    assert PadEnd(f, 6) == f + Zeros(6 - |f|);
  }

  lemma SpelledParts(s: string, w: string, f: string, least: nat)
    requires Spells(s, w, f, least)
    ensures Whole(s) == w && Fraction(s) == f && (Point(s) < |s| ==> least <= |f|)
  {
    assert forall i :: 0 <= i < |w| ==> s[i] == w[i];
    if s == w + "." + f {
      assert s[|w|] == '.';
      assert Point(s) == |w|;
      assert s[|w| + 1..] == f;
    } else {
      assert Point(s) == |s|;
    }
  }

  lemma AmountSpelled(s: string, least: nat)
    requires IsAmount(s, least)
    ensures Spells(s, Whole(s), Fraction(s), least)
  {
    if Point(s) < |s| {
      assert s == Whole(s) + "." + Fraction(s);
    }
  }

  /** The form takes digits with or without a point and up to six more, between white space, and nothing else; it reads
      leading and trailing zeros like any other digit, and only an amount above 2^53 - 1 is out of range. */
  lemma UsdAccepts(value: string)
    ensures forall w, f :: Spells(Trim(value), w, f, 0) ==>
      ParseUsd(value) == if Said(w, f) > 0x1F_FFFF_FFFF_FFFF then Failure(OutOfRange) else Success(Said(w, f))
    ensures ParseUsd(value) != Failure(Malformed) ==> exists w, f :: Spells(Trim(value), w, f, 0)
  {
    var s := Trim(value);
    forall w, f | Spells(s, w, f, 0) ensures IsAmount(s, 0) && Micros(s) == Said(w, f) {
      SpelledAmount(s, w, f, 0);
    }
    if IsAmount(s, 0) {
      AmountSpelled(s, 0);
    }
  }

  /** The review takes the same without white space around it and with a digit after every point. */
  lemma InputAccepts(value: string)
    ensures forall w, f :: Spells(value, w, f, 1) ==>
      ParseInput(value) == if Said(w, f) > 0x1F_FFFF_FFFF_FFFF then Failure(OutOfRange) else Success(Said(w, f))
    ensures ParseInput(value) != Failure(Malformed) ==> exists w, f :: Spells(value, w, f, 1)
  {
    forall w, f | Spells(value, w, f, 1) ensures IsAmount(value, 1) && Micros(value) == Said(w, f) {
      SpelledAmount(value, w, f, 1);
    }
    if IsAmount(value, 1) {
      AmountSpelled(value, 1);
    }
  }

  /** No leading zero before the point, none trailing behind it, and no point without a digit behind it. */
  predicate Shortest(w: string, f: string) {
    w != "" && (|w| == 1 || w[0] != '0') && (f == "" || f[|f| - 1] != '0')
  }

  lemma PlainForm(m: nat) returns (w: string, f: string)
    ensures Spells(Plain(m), w, f, 1) && Shortest(w, f)
  {
    w, f := Number(m / MILLION), FractionText(m % MILLION);
    NumberParts(m / MILLION);
    FractionRoundTrip(m % MILLION);
    if f != "" {
      Pointed(w, f);
    }
  }

  /** Both printers write an amount from zero up in its one shortest spelling, the form with a sign below zero. */
  lemma PrintedForm(m: int) returns (w: string, f: string)
    requires m >= 0
    ensures Spells(PrintUsd(m), w, f, 1) && Shortest(w, f) && Said(w, f) == m
    ensures PriceInput(Some(m)) == PrintUsd(m)
    ensures m > 0 ==> PrintUsd(-m) == "-" + PrintUsd(m)
  {
    w, f := PlainForm(m);
    SpelledAmount(Plain(m), w, f, 1);
    PrintedAmount(m);
    UsdOfPositive(m);
  }

  lemma {:induction false} StripTells(s: string) returns (k: nat)
    ensures s == StripZeros(s) + Zeros(k) && (StripZeros(s) == "" || StripZeros(s)[|StripZeros(s)| - 1] != '0')
  {
    k := 0;
    if s != [] && s[|s| - 1] == '0' {
      var front := s[..|s| - 1];
      var n := StripTells(front);
      k := n + 1;
      assert s == front + ['0'] && Zeros(k) == Zeros(n) + ['0'];
    }
  }

  /** `-r` padded to six places, the sign counted. */
  function SignedPlaces(r: nat): string {
    Zeros(if |Digits(r)| < 5 then 5 - |Digits(r)| else 0) + "-" + Digits(r)
  }

  lemma NegativePadded(r: int)
    requires 0 < r
    ensures PadStart(Number(-r), 6) == SignedPlaces(r)
  {
    assert Number(-r) == "-" + Digits(r);
    if |Digits(r)| < 5 {
      Associate(Zeros(5 - |Digits(r)|), "-", Digits(r));
    } else {
      assert Zeros(0) + "-" + Digits(r) == "-" + Digits(r);
    }
  }

  lemma NegativeFraction(r: int) returns (k: nat)
    requires 0 < r < MILLION
    ensures FractionText(-r) + Zeros(k) == SignedPlaces(r)
    ensures var f := FractionText(-r); f != "" && f[|f| - 1] != '0'
  {
    NegativePadded(r);
    k := StripTells(PadStart(Number(-r), 6));
    var at := SignInside("", r);
  }

  lemma Pointed(w: string, f: string)
    requires f != ""
    ensures Decimal(w, f) == w + "." + f
  {
    Associate(w, ".", f);
  }

  lemma NegativeWhole(q: int)
    requires q >= 0
    ensures Number(-q) == if q == 0 then "0" else "-" + Digits(q)
  {
    if q == 0 {
      assert Digits(0) == "0";
    }
  }

  /** Below zero the review writes the sign of the remainder too, after padding it to six places with the sign counted. */
  lemma NegativeForm(m: int, q: int, r: int) returns (k: nat)
    requires m < 0 && q == -m / MILLION && r == -m % MILLION && r != 0
    ensures var w, f := (if q == 0 then "0" else "-" + Digits(q)), FractionText(-r);
      && PriceInput(Some(m)) == w + "." + f
      && f + Zeros(k) == SignedPlaces(r) && f != "" && f[|f| - 1] != '0'
  {
    NegativeTexts(m, q, r);
    NegativeWhole(q);
    k := NegativeFraction(r);
    Pointed(Number(-q), FractionText(-r));
  }
}
