/** Canonical JSON of flat values, and why a fingerprint preimage determines its entries. */
module CanonicalJson {
  import opened Sequences
  import opened Text

  /** The members of a fingerprint entry. */
  datatype Scalar = Str(text: string) | Num(number: int) | Flag(flag: bool) | Null

  type Entry = seq<Scalar>

  function OptText(value: Option<string>): Scalar {
    match value
    case None => Null
    case Some(text) => Str(text)
  }

  function HexChar(d: int): char
    requires 0 <= d < 16
  {
    "0123456789abcdef"[d]
  }

  /** String escaping of section 7 of RFC 8259, in the short forms `JSON.stringify` prefers. */
  function EscapeChar(c: char): (s: string)
    ensures s != [] && s[0] != '"'
  {
    if c == '"' then ['\\', '"']
    else if c == '\\' then ['\\', '\\']
    else if c == '\U{0008}' then ['\\', 'b']
    else if c == '\U{0009}' then ['\\', 't']
    else if c == '\U{000A}' then ['\\', 'n']
    else if c == '\U{000C}' then ['\\', 'f']
    else if c == '\U{000D}' then ['\\', 'r']
    else if c < ' ' then ['\\', 'u', '0', '0', HexChar(c as int / 16), HexChar(c as int % 16)]
    else [c]
  }

  function Escape(s: string): string {
    if s == [] then [] else EscapeChar(s[0]) + Escape(s[1..])
  }

  function Quote(s: string): string {
    ['"'] + Escape(s) + ['"']
  }

  function ScalarText(x: Scalar): string {
    match x
    case Str(text) => Quote(text)
    case Num(number) => Number(number)
    case Flag(flag) => if flag then "true" else "false"
    case Null => "null"
  }

  function Members(xs: Entry): string {
    if xs == [] then []
    else ScalarText(xs[0]) + if |xs| == 1 then [] else "," + Members(xs[1..])
  }

  /** `canonicalJson` of an array of scalars. */
  function ArrayText(xs: Entry): string {
    "[" + Members(xs) + "]"
  }

  /** Everything a run feeds to its hash: one canonical line per entry. */
  function Preimage(entries: seq<Entry>): string {
    if entries == [] then [] else ArrayText(entries[0]) + "\n" + Preimage(entries[1..])
  }

  /** Text without quotes, backslashes and control characters stands for itself. */
  predicate Plain(s: string) {
    forall i :: 0 <= i < |s| ==> s[i] >= ' ' && s[i] != '"' && s[i] != '\\'
  }

  lemma {:induction false} EscapePlain(s: string)
    ensures Plain(s) ==> Escape(s) == s
  {
    if s != [] && Plain(s) {
      EscapePlain(s[1..]);
      assert s == [s[0]] + s[1..];
    }
  }

  lemma QuotePlain(s: string)
    requires Plain(s)
    ensures Quote(s) == "\"" + s + "\""
  {
    EscapePlain(s);
  }

  lemma EscapeMore(c: char, s: string)
    ensures Escape([c] + s) == EscapeChar(c) + Escape(s)
  {
    assert ([c] + s)[1..] == s;
  }

  /** The short escapes, and the four hexadecimal digits of any other control character. */
  lemma EscapesExample(s: string)
    ensures Escape("\"" + s) == "\\\"" + Escape(s) && Escape("\\" + s) == "\\\\" + Escape(s)
    ensures Escape("\n" + s) == "\\n" + Escape(s) && Escape("\t" + s) == "\\t" + Escape(s) && Escape("\r" + s) == "\\r" + Escape(s)
    ensures Escape("\U{0008}" + s) == "\\b" + Escape(s) && Escape("\U{000C}" + s) == "\\f" + Escape(s)
    ensures Escape("\U{001F}" + s) == "\\u001f" + Escape(s) && Escape("\0" + s) == "\\u0000" + Escape(s)
  {
    EscapeMore('"', s);
    EscapeMore('\\', s);
    EscapeMore('\n', s);
    EscapeMore('\t', s);
    EscapeMore('\r', s);
    EscapeMore('\U{0008}', s);
    EscapeMore('\U{000C}', s);
    EscapeMore('\U{001F}', s);
    EscapeMore('\0', s);
  }

  lemma PairText(x: Scalar, y: Scalar)
    ensures Members([x, y]) == ScalarText(x) + "," + ScalarText(y)
  {
    assert [x, y][1..] == [y];
    Associate(ScalarText(x), ",", ScalarText(y));
  }

  /** An entry is a JSON array without spaces. */
  lemma LineExample(a: string, n: nat)
    requires Plain(a)
    ensures ArrayText([Str(a), Num(n)]) == "[" + (("\"" + a + "\"") + "," + Digits(n)) + "]"
    ensures ArrayText([Flag(true), Null]) == "[" + ("true" + "," + "null") + "]"
  {
    QuotePlain(a);
    PairText(Str(a), Num(n));
    PairText(Flag(true), Null);
  }

  function HexValue(c: char): int {
    if IsDigit(c) then DigitValue(c) else c as int - 'a' as int + 10
  }

  /** The character whose escape starts `u`, and the length of that escape. */
  function Unescape(u: string): (int, int)
    requires u != [] && (u[0] == '\\' ==> |u| > 1 && (u[1] == 'u' ==> |u| > 5))
  {
    if u[0] != '\\' then (u[0] as int, 1)
    else if u[1] == 'b' then (8, 2)
    else if u[1] == 't' then (9, 2)
    else if u[1] == 'n' then (10, 2)
    else if u[1] == 'f' then (12, 2)
    else if u[1] == 'r' then (13, 2)
    else if u[1] == 'u' then (HexValue(u[4]) * 16 + HexValue(u[5]), 6)
    else (u[1] as int, 2)
  }

  lemma HexRoundTrip(d: int)
    requires 0 <= d < 16
    ensures HexValue(HexChar(d)) == d
  {
    assert d == 0 || d == 1 || d == 2 || d == 3 || d == 4 || d == 5 || d == 6 || d == 7
        || d == 8 || d == 9 || d == 10 || d == 11 || d == 12 || d == 13 || d == 14 || d == 15;
  }

  lemma UnescapeEscape(c: char)
    ensures var e := EscapeChar(c);
            && (e[0] == '\\' ==> |e| > 1 && (e[1] == 'u' ==> |e| > 5))
            && Unescape(e) == (c as int, |e|)
  {
    if c < ' ' {
      HexRoundTrip(c as int / 16);
      HexRoundTrip(c as int % 16);
    }
  }

  lemma UnescapeAppend(e: string, x: string)
    requires e != [] && (e[0] == '\\' ==> |e| > 1 && (e[1] == 'u' ==> |e| > 5))
    ensures Unescape(e + x) == Unescape(e)
  {
    assert forall i :: 0 <= i < |e| ==> (e + x)[i] == e[i];
  }

  /** No escape is a proper prefix of another. */
  lemma EscapeCharPrefix(c: char, d: char, x: string, y: string)
    requires EscapeChar(c) + x == EscapeChar(d) + y
    ensures c == d && x == y
  {
    UnescapeEscape(c);
    UnescapeEscape(d);
    UnescapeAppend(EscapeChar(c), x);
    UnescapeAppend(EscapeChar(d), y);
    Cut(EscapeChar(c), x);
    Cut(EscapeChar(d), y);
  }

  lemma Cut<T>(front: seq<T>, rest: seq<T>)
    ensures (front + rest)[|front|..] == rest
  {
  }

  lemma Regroup<T>(a: seq<T>, b: seq<T>, c: seq<T>, d: seq<T>)
    ensures a + b + c + d == a + (b + c + d)
  {
  }

  lemma RegroupInner<T>(a: seq<T>, b: seq<T>, c: seq<T>, d: seq<T>, e: seq<T>)
    ensures a + (b + c) + d + e == a + (b + (c + d + e))
  {
  }

  lemma RegroupOuter<T>(a: seq<T>, b: seq<T>, c: seq<T>, d: seq<T>, e: seq<T>)
    ensures a + b + c + d + e == a + (b + c + (d + e))
  {
  }

  /** The closing quote of an escaped string can be found again. */
  lemma {:induction false} EscapePrefix(s: string, t: string, a: string, b: string)
    requires Escape(s) + ['"'] + a == Escape(t) + ['"'] + b
    ensures s == t && a == b
  {
    if s == [] || t == [] {
      EscapeEnd(s, a);
      EscapeEnd(t, b);
      Cut(Escape(s) + ['"'], a);
      Cut(Escape(t) + ['"'], b);
    } else {
      Regroup(EscapeChar(s[0]), Escape(s[1..]), ['"'], a);
      Regroup(EscapeChar(t[0]), Escape(t[1..]), ['"'], b);
      EscapeCharPrefix(s[0], t[0], Escape(s[1..]) + ['"'] + a, Escape(t[1..]) + ['"'] + b);
      EscapePrefix(s[1..], t[1..], a, b);
      assert s == [s[0]] + s[1..] && t == [t[0]] + t[1..];
    }
  }

  lemma EscapeEnd(s: string, a: string)
    ensures (Escape(s) + ['"'] + a)[0] == '"' <==> s == []
  {
    if s != [] {
      assert (Escape(s) + ['"'] + a)[0] == EscapeChar(s[0])[0];
    }
  }

  lemma QuotePrefix(s: string, t: string, a: string, b: string)
    requires Quote(s) + a == Quote(t) + b
    ensures s == t && a == b
  {
    QuoteTail(s, a);
    QuoteTail(t, b);
    EscapePrefix(s, t, a, b);
  }

  lemma QuoteTail(s: string, a: string)
    ensures (Quote(s) + a)[1..] == Escape(s) + ['"'] + a
  {
  }

  predicate Delimited(s: string) {
    s != [] && (s[0] == ',' || s[0] == ']')
  }

  lemma ScalarStart(x: Scalar, a: string)
    ensures ScalarText(x) != [] && (ScalarText(x) + a)[0] == ScalarText(x)[0]
    ensures match x
            case Str(_) => ScalarText(x)[0] == '"'
            case Num(_) => ScalarText(x)[0] == '-' || IsDigit(ScalarText(x)[0])
            case Flag(flag) => ScalarText(x)[0] == if flag then 't' else 'f'
            case Null => ScalarText(x)[0] == 'n'
  {
  }

  lemma ScalarPrefix(x: Scalar, y: Scalar, a: string, b: string)
    requires ScalarText(x) + a == ScalarText(y) + b && Delimited(a) && Delimited(b)
    ensures x == y && a == b
  {
    ScalarStart(x, a);
    ScalarStart(y, b);
    match x {
      case Str(s) => QuotePrefix(s, y.text, a, b);
      case Num(n) => NumberPrefix(n, y.number, a, b);
      case Flag(_) => assert (ScalarText(x) + a)[|ScalarText(x)|..] == a && (ScalarText(y) + b)[|ScalarText(y)|..] == b;
      case Null => assert ("null" + a)[4..] == a && ("null" + b)[4..] == b;
    }
  }

  /** What follows the first member. */
  function Tail(xs: Entry, a: string): string
    requires xs != []
  {
    if |xs| == 1 then "]" + a else "," + (Members(xs[1..]) + "]" + a)
  }

  lemma MembersTail(xs: Entry, a: string)
    requires xs != []
    ensures Members(xs) + "]" + a == ScalarText(xs[0]) + Tail(xs, a)
    ensures Delimited(Tail(xs, a))
  {
    if |xs| > 1 {
      RegroupInner(ScalarText(xs[0]), ",", Members(xs[1..]), "]", a);
    } else {
      assert ScalarText(xs[0]) + [] == ScalarText(xs[0]);
      Associate(ScalarText(xs[0]), "]", a);
    }
  }

  lemma TailParts(xs: Entry, a: string)
    requires xs != []
    ensures Tail(xs, a)[0] == if |xs| == 1 then ']' else ','
    ensures Tail(xs, a)[1..] == if |xs| == 1 then a else Members(xs[1..]) + "]" + a
  {
    if |xs| == 1 {
      Cut("]", a);
    } else {
      Cut(",", Members(xs[1..]) + "]" + a);
    }
  }

  /** The closing bracket comes first exactly after no members. */
  lemma MembersEnd(xs: Entry, a: string)
    ensures (Members(xs) + "]" + a)[0] == ']' <==> xs == []
    ensures xs == [] ==> (Members(xs) + "]" + a)[1..] == a
  {
    if xs == [] {
      assert [] + "]" == "]";
      Cut("]", a);
    } else {
      MembersTail(xs, a);
      ScalarStart(xs[0], Tail(xs, a));
    }
  }

  lemma MembersStep(xs: Entry, ys: Entry, a: string, b: string)
    requires xs != [] && ys != [] && Members(xs) + "]" + a == Members(ys) + "]" + b
    ensures xs[0] == ys[0] && Tail(xs, a) == Tail(ys, b)
  {
    MembersTail(xs, a);
    MembersTail(ys, b);
    ScalarPrefix(xs[0], ys[0], Tail(xs, a), Tail(ys, b));
  }

  lemma {:induction false} MembersPrefix(xs: Entry, ys: Entry, a: string, b: string)
    requires Members(xs) + "]" + a == Members(ys) + "]" + b
    ensures xs == ys && a == b
    decreases |xs|
  {
    MembersEnd(xs, a);
    MembersEnd(ys, b);
    if xs != [] {
      MembersStep(xs, ys, a, b);
      TailSplit(xs, ys, a, b);
      if |xs| > 1 {
        MembersPrefix(xs[1..], ys[1..], a, b);
      }
      SameParts(xs, ys);
    }
  }

  lemma SameParts(xs: Entry, ys: Entry)
    requires xs != [] && ys != [] && xs[0] == ys[0] && xs[1..] == ys[1..]
    ensures xs == ys
  {
    assert xs == [xs[0]] + xs[1..] && ys == [ys[0]] + ys[1..];
  }

  lemma TailSplit(xs: Entry, ys: Entry, a: string, b: string)
    requires xs != [] && ys != [] && Tail(xs, a) == Tail(ys, b)
    ensures |xs| == 1 <==> |ys| == 1
    ensures |xs| == 1 ==> a == b
    ensures |xs| > 1 ==> Members(xs[1..]) + "]" + a == Members(ys[1..]) + "]" + b
  {
    TailParts(xs, a);
    TailParts(ys, b);
  }

  lemma PreimageSplit(es: seq<Entry>)
    requires es != []
    ensures Preimage(es) == "[" + (Members(es[0]) + "]" + ("\n" + Preimage(es[1..])))
  {
    RegroupOuter("[", Members(es[0]), "]", "\n", Preimage(es[1..]));
  }

  /** The byte stream of a run determines the sequence of entries that produced it. */
  lemma {:induction false} PreimageInjective(es: seq<Entry>, fs: seq<Entry>)
    requires Preimage(es) == Preimage(fs)
    ensures es == fs
  {
    if es != [] { PreimageSplit(es); }
    if fs != [] { PreimageSplit(fs); }
    if es != [] && fs != [] {
      var a, b := "\n" + Preimage(es[1..]), "\n" + Preimage(fs[1..]);
      Cut("[", Members(es[0]) + "]" + a);
      Cut("[", Members(fs[0]) + "]" + b);
      MembersPrefix(es[0], fs[0], a, b);
      Cut("\n", Preimage(es[1..]));
      Cut("\n", Preimage(fs[1..]));
      PreimageInjective(es[1..], fs[1..]);
      assert es == [es[0]] + es[1..] && fs == [fs[0]] + fs[1..];
    }
  }
}
