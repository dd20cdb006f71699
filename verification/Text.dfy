/** Decimal text and JavaScript whitespace trimming. */
module Text {

  /** `Number.MAX_SAFE_INTEGER`. */
  const MAX_SAFE_INTEGER := 0x1F_FFFF_FFFF_FFFF

  predicate IsDigit(c: char) {
    '0' <= c <= '9'
  }

  predicate AllDigits(s: string) {
    forall i :: 0 <= i < |s| ==> IsDigit(s[i])
  }

  function DigitChar(d: int): (c: char)
    requires 0 <= d < 10
    ensures IsDigit(c) && DigitValue(c) == d
    ensures d != 0 ==> c != '0'
  {
    '0' + d as char
  }

  function DigitValue(c: char): int
    requires IsDigit(c)
  {
    c as int - '0' as int
  }

  /** `BigInt(s)` for a run of decimal digits; the empty run is zero. */
  function Value(s: string): nat
    requires AllDigits(s)
  {
    if s == [] then 0 else Value(s[..|s| - 1]) * 10 + DigitValue(s[|s| - 1])
  }

  /** `n.toString()`. */
  function Digits(n: nat): (s: string)
    ensures s != [] && AllDigits(s) && Value(s) == n
    ensures n != 0 ==> s[0] != '0'
    ensures |s| == 1 || s[0] != '0'
  {
    if n < 10 then
      var s := [DigitChar(n)];
      assert s[..0] == [] && Value(s) == Value([]) * 10 + n;
      s
    else
      var front := Digits(n / 10);
      var s := front + [DigitChar(n % 10)];
      assert s[..|s| - 1] == front;
      s
  }

  function Number(n: int): string {
    if n < 0 then "-" + Digits(-n) else Digits(n)
  }

  /** A decimal number can be cut off the front of a text whose remainder does not start with a digit. */
  lemma NumberPrefix(m: int, n: int, a: string, b: string)
    requires Number(m) + a == Number(n) + b
    requires a != [] && !IsDigit(a[0]) && b != [] && !IsDigit(b[0])
    ensures m == n && a == b
  {
    assert (Number(m) + a)[0] == Number(m)[0] && (Number(n) + b)[0] == Number(n)[0];
    if m < 0 {
      DigitsPrefix(Digits(-m), Digits(-n), a, b);
    } else {
      DigitsPrefix(Digits(m), Digits(n), a, b);
    }
  }

  lemma DigitsPrefix(x: string, y: string, a: string, b: string)
    requires AllDigits(x) && AllDigits(y)
    requires x + a == y + b || "-" + x + a == "-" + y + b
    requires a != [] && !IsDigit(a[0]) && b != [] && !IsDigit(b[0])
    ensures x == y && a == b
  {
    assert ("-" + x + a)[1..] == x + a && ("-" + y + b)[1..] == y + b;
    var u := x + a;
    assert u == y + b;
    assert u[|x|] == a[0] && u[|y|] == b[0];
    assert forall i :: 0 <= i < |x| ==> u[i] == x[i];
    assert forall i :: 0 <= i < |y| ==> u[i] == y[i];
    assert |x| == |y|;
    assert u[..|x|] == x && u[..|y|] == y && u[|x|..] == a && u[|y|..] == b;
  }

  /** White space and line terminators of ECMAScript's `String.prototype.trim`. */
  predicate IsSpace(c: char) {
    || '\U{0009}' <= c <= '\U{000D}'
    || c == ' ' || c == '\U{00A0}' || c == '\U{1680}'
    || '\U{2000}' <= c <= '\U{200A}'
    || c == '\U{2028}' || c == '\U{2029}' || c == '\U{202F}'
    || c == '\U{205F}' || c == '\U{3000}' || c == '\U{FEFF}'
  }

  function TrimStart(s: string): string {
    if s != [] && IsSpace(s[0]) then TrimStart(s[1..]) else s
  }

  function TrimEnd(s: string): string {
    if s != [] && IsSpace(s[|s| - 1]) then TrimEnd(s[..|s| - 1]) else s
  }

  function Trim(s: string): string {
    TrimEnd(TrimStart(s))
  }

  predicate Trimmed(s: string) {
    s == [] || (!IsSpace(s[0]) && !IsSpace(s[|s| - 1]))
  }

  lemma {:induction false} TrimEndTrimmed(s: string)
    requires s == [] || !IsSpace(s[0])
    ensures Trimmed(TrimEnd(s))
    ensures Trimmed(s) ==> TrimEnd(s) == s
  {
    if s != [] && IsSpace(s[|s| - 1]) {
      TrimEndTrimmed(s[..|s| - 1]);
    }
  }

  lemma {:induction false} TrimEndTells(s: string)
    ensures |TrimEnd(s)| <= |s| && TrimEnd(s) == s[..|TrimEnd(s)|] && forall i :: |TrimEnd(s)| <= i < |s| ==> IsSpace(s[i])
  {
    if s != [] && IsSpace(s[|s| - 1]) {
      TrimEndTells(s[..|s| - 1]);
    }
  }

  lemma {:induction false} TrimStartTells(s: string) returns (n: nat)
    ensures n <= |s| && TrimStart(s) == s[n..] && forall i :: 0 <= i < n ==> IsSpace(s[i])
  {
    n := 0;
    if s != [] && IsSpace(s[0]) {
      var m := TrimStartTells(s[1..]);
      n := m + 1;
    }
  }

  /** Trimming takes white space off both ends and nothing else. */
  lemma TrimTells(s: string) returns (from: nat, to: nat)
    ensures from <= to <= |s| && Trim(s) == s[from..to] && Trimmed(Trim(s))
    ensures forall i :: 0 <= i < |s| && !(from <= i < to) ==> IsSpace(s[i])
  {
    from := TrimStartTells(s);
    TrimEndTells(s[from..]);
    to := from + |Trim(s)|;
    TrimIsTrimmed(s);
  }

  lemma {:induction false} TrimStartClean(s: string)
    ensures TrimStart(s) == [] || !IsSpace(TrimStart(s)[0])
  {
    if s != [] && IsSpace(s[0]) {
      TrimStartClean(s[1..]);
    }
  }

  /** Trimming lands on trimmed text, and leaves exactly the trimmed texts alone. */
  lemma TrimIsTrimmed(s: string)
    ensures Trimmed(Trim(s))
    ensures Trim(s) == s <==> Trimmed(s)
    ensures Trim(Trim(s)) == Trim(s)
  {
    TrimStartClean(s);
    TrimEndTrimmed(TrimStart(s));
    TrimStartClean(Trim(s));
    if Trimmed(s) {
      TrimEndTrimmed(s);
    }
    assert TrimStart(Trim(s)) == Trim(s);
    TrimEndTrimmed(Trim(s));
  }
}
