/**
 The canonical JSON texts that cache keys are hashed from: objects of scalars with sorted keys and
 no blanks, strings escaped to ASCII, and arrays (RFC 8259, sections 4, 5 and 7).
 A text determines the value it was made from.
 */
module Json {
  import opened Common

  datatype Scalar = Null | Int(n: int) | Str(s: string)

  type Member = (string, Scalar)

  // ---- strings -------------------------------------------------------------------------------

  function HexDigit(n: int): char
    requires 0 <= n < 16
  {
    "0123456789abcdef"[n]
  }

  function Hex2(n: int): (r: string)
    requires 0 <= n < 0x100
    ensures |r| == 2
  {
    [HexDigit(n / 16), HexDigit(n % 16)]
  }

  function Hex4(n: int): (r: string)
    requires 0 <= n < 0x10000
    ensures |r| == 4
  {
    Hex2(n / 256) + Hex2(n % 256)
  }

  function Unit(n: int): string
    requires 0 <= n < 0x10000
  {
    "\\u" + Hex4(n)
  }

  predicate Printable(c: char) { ' ' <= c <= '~' }

  /** The letter of a two-character escape, if `c` has one. */
  function ShortEscape(c: char): Option<char> {
    match c
    case '\"' => Some('\"')
    case '\\' => Some('\\')
    case '\n' => Some('n')
    case '\r' => Some('r')
    case '\t' => Some('t')
    case '\U{000C}' => Some('f')
    case '\U{0008}' => Some('b')
    case _ => None
  }

  /** The first unit of a code point: itself, or a high surrogate beyond the basic plane. */
  function Lead(n: int): (r: int)
    requires 0 <= n < 0x110000
    ensures 0 <= r < 0x10000
  {
    if n < 0x10000 then n else 0xD800 + (n - 0x10000) / 1024
  }

  /** The low surrogate of a code point beyond the basic plane. */
  function Low(n: int): (r: int)
    requires 0x10000 <= n < 0x110000
    ensures 0xDC00 <= r < 0xE000
  {
    0xDC00 + (n - 0x10000) % 1024
  }

  function Trail(n: int): string
    requires 0 <= n < 0x110000
  {
    if n < 0x10000 then "" else Unit(Low(n))
  }

  function LongEscape(n: int): (r: string)
    requires 0 <= n < 0x110000
    ensures |r| >= 6 && r[0] == '\\' && r[1] == 'u'
  {
    Unit(Lead(n)) + Trail(n)
  }

  /** One character: itself, a short escape, one `\uXXXX` unit, or a surrogate pair of units. */
  function Escape(c: char): (r: string)
    ensures r != [] && r[0] != '\"'
  {
    var n := c as int;
    match ShortEscape(c)
    case Some(e) => ['\\', e]
    case None =>
      if Printable(c) then [c]
      else LongEscape(n)
  }

  function EscapeAll(s: string): string {
    if s == [] then [] else Escape(s[0]) + EscapeAll(s[1..])
  }

  function Quote(s: string): string {
    "\"" + EscapeAll(s) + "\""
  }

  lemma Hex4Injective(m: int, n: int)
    requires 0 <= m < 0x10000 && 0 <= n < 0x10000 && Hex4(m) == Hex4(n)
    ensures m == n
  {
    assert Hex4(m)[..2] == Hex2(m / 256) && Hex4(n)[..2] == Hex2(n / 256);
    Hex2Injective(m / 256, n / 256);
    DropPrefix(Hex2(m / 256), Hex2(m % 256), Hex2(n % 256));
    Hex2Injective(m % 256, n % 256);
  }

  lemma Hex2Injective(m: int, n: int)
    requires 0 <= m < 0x100 && 0 <= n < 0x100 && Hex2(m) == Hex2(n)
    ensures m == n
  {
    assert Hex2(m)[0] == Hex2(n)[0] && Hex2(m)[1] == Hex2(n)[1];
    HexDigitInjective(m / 16, n / 16);
    HexDigitInjective(m % 16, n % 16);
  }

  lemma HexDigitInjective(m: int, n: int)
    requires 0 <= m < 16 && 0 <= n < 16 && HexDigit(m) == HexDigit(n)
    ensures m == n
  {}

  lemma UnitCut(m: int, x: string, n: int, y: string)
    requires 0 <= m < 0x10000 && 0 <= n < 0x10000 && Unit(m) + x == Unit(n) + y
    ensures m == n && x == y
  {
    assert (Unit(m) + x)[2..6] == Hex4(m) && (Unit(n) + y)[2..6] == Hex4(n);
    Hex4Injective(m, n);
    DropPrefix(Unit(m), x, y);
  }

  predicate ScalarValue(n: int) { 0 <= n < 0xD800 || 0xE000 <= n < 0x110000 }

  lemma LeadDecides(m: int, n: int)
    requires ScalarValue(m) && ScalarValue(n) && Lead(m) == Lead(n)
    ensures m < 0x10000 <==> n < 0x10000
    ensures m < 0x10000 ==> m == n
    ensures m >= 0x10000 && Low(m) == Low(n) ==> m == n
  {}

  lemma LongEscapeCut(m: int, x: string, n: int, y: string)
    requires ScalarValue(m) && ScalarValue(n) && LongEscape(m) + x == LongEscape(n) + y
    ensures m == n
  {
    Regroup(Unit(Lead(m)), Trail(m), x);
    Regroup(Unit(Lead(n)), Trail(n), y);
    UnitCut(Lead(m), Trail(m) + x, Lead(n), Trail(n) + y);
    LeadDecides(m, n);
    if m >= 0x10000 { UnitCut(Low(m), x, Low(n), y); }
  }

  /** No escape is a proper prefix of what another one may start. */
  lemma EscapeCut(c: char, x: string, d: char, y: string)
    requires Escape(c) + x == Escape(d) + y
    ensures c == d && x == y
  {
    hide LongEscape;
    assert (Escape(c) + x)[0] == Escape(c)[0] && (Escape(d) + y)[0] == Escape(d)[0];
    if |Escape(c)| > 2 && |Escape(d)| > 2 {
      LongEscapeCut(c as int, x, d as int, y);
    } else if |Escape(c)| > 1 && |Escape(d)| > 1 {
      assert (Escape(c) + x)[1] == Escape(c)[1] && (Escape(d) + y)[1] == Escape(d)[1];
    }
    DropPrefix(Escape(c), x, y);
  }

  /** The closing quote comes first exactly when nothing was escaped. */
  lemma EscapedStart(s: string, x: string)
    ensures (EscapeAll(s) + ("\"" + x))[0] == '\"' <==> s == []
  {}

  lemma EscapedStep(s: string, x: string, t: string, y: string)
    requires s != [] && t != []
    requires EscapeAll(s) + x == EscapeAll(t) + y
    ensures s[0] == t[0] && EscapeAll(s[1..]) + x == EscapeAll(t[1..]) + y
  {
    Regroup(Escape(s[0]), EscapeAll(s[1..]), x);
    Regroup(Escape(t[0]), EscapeAll(t[1..]), y);
    EscapeCut(s[0], EscapeAll(s[1..]) + x, t[0], EscapeAll(t[1..]) + y);
  }

  /** A quoted string delimits itself: whatever follows, the text shows where it ends and what it says. */
  lemma {:induction false} EscapedCut(s: string, x: string, t: string, y: string)
    requires EscapeAll(s) + ("\"" + x) == EscapeAll(t) + ("\"" + y)
    ensures s == t && x == y
    decreases |s|
  {
    EscapedStart(s, x);
    EscapedStart(t, y);
    if s != [] {
      EscapedStep(s, "\"" + x, t, "\"" + y);
      EscapedCut(s[1..], x, t[1..], y);
      assert s == [s[0]] + s[1..] && t == [t[0]] + t[1..];
    } else {
      assert EscapeAll(s) + ("\"" + x) == "\"" + x && EscapeAll(t) + ("\"" + y) == "\"" + y;
      DropPrefix("\"", x, y);
    }
  }

  lemma QuoteOpens(s: string, x: string)
    ensures Quote(s) + x == "\"" + (EscapeAll(s) + ("\"" + x))
  {}

  lemma QuoteCut(s: string, x: string, t: string, y: string)
    requires Quote(s) + x == Quote(t) + y
    ensures s == t && x == y
  {
    QuoteOpens(s, x);
    QuoteOpens(t, y);
    DropPrefix("\"", EscapeAll(s) + ("\"" + x), EscapeAll(t) + ("\"" + y));
    EscapedCut(s, x, t, y);
  }

  // ---- integers ------------------------------------------------------------------------------

  predicate IsDigit(c: char) { '0' <= c <= '9' }

  predicate IsNumeral(c: char) { c == '-' || IsDigit(c) }

  function Digits(n: nat): (r: string)
    ensures r != [] && forall c :: c in r ==> IsDigit(c)
  {
    if n < 10 then [(48 + n) as char] else Digits(n / 10) + [(48 + n % 10) as char]
  }

  function Decimal(n: int): (r: string)
    ensures r != [] && forall c :: c in r ==> IsNumeral(c)
  {
    if n < 0 then "-" + Digits(-n) else Digits(n)
  }

  /** Reads a numeral back. */
  function ValueOf(s: string): int
    requires forall c :: c in s ==> IsDigit(c)
  {
    if s == [] then 0 else 10 * ValueOf(s[..|s| - 1]) + (s[|s| - 1] as int - 48)
  }

  lemma {:induction false} DigitsRoundTrip(n: nat)
    ensures ValueOf(Digits(n)) == n
  {
    if n >= 10 {
      DigitsRoundTrip(n / 10);
      assert Digits(n)[..|Digits(n)| - 1] == Digits(n / 10);
    }
  }

  lemma DecimalInjective(m: int, n: int)
    requires Decimal(m) == Decimal(n)
    ensures m == n
  {
    if m >= 0 { assert IsDigit(Digits(m)[0]); }
    if n >= 0 { assert IsDigit(Digits(n)[0]); }
    if m < 0 {
      DropPrefix("-", Digits(-m), Digits(-n));
      DigitsRoundTrip(-m); DigitsRoundTrip(-n);
    } else {
      DigitsRoundTrip(m); DigitsRoundTrip(n);
    }
  }

  // ---- scalars and objects -------------------------------------------------------------------

  function Render(v: Scalar): (r: string)
    ensures r != []
  {
    match v
    case Null => "null"
    case Int(n) => Decimal(n)
    case Str(s) => Quote(s)
  }

  /** The text starts with a separator that follows a complete member. */
  predicate AtSeparator(x: string) {
    x != [] && (x[0] == ',' || x[0] == '}')
  }

  lemma ScalarCut(a: Scalar, x: string, b: Scalar, y: string)
    requires Render(a) + x == Render(b) + y && AtSeparator(x) && AtSeparator(y)
    ensures a == b && x == y
  {
    assert (Render(a) + x)[0] == Render(a)[0] && (Render(b) + y)[0] == Render(b)[0];
    if a.Int? { assert IsNumeral(Render(a)[0]); }
    if b.Int? { assert IsNumeral(Render(b)[0]); }
    match a
    case Null => DropPrefix("null", x, y);
    case Int(m) =>
      SameCut(IsNumeral, Decimal(m), x, Decimal(b.n), y);
      DecimalInjective(m, b.n);
    case Str(s) => QuoteCut(s, x, b.s, y);
  }

  function RenderMember(m: Member): string {
    Quote(m.0) + (":" + Render(m.1))
  }

  /** What follows the first member of an object. */
  function RenderTail(ms: seq<Member>): (r: string)
    ensures AtSeparator(r)
  {
    if ms == [] then "}" else "," + (RenderMember(ms[0]) + RenderTail(ms[1..]))
  }

  /** An object whose members are already in the order of their keys. */
  function RenderObject(ms: seq<Member>): string {
    "{" + if ms == [] then "}" else RenderMember(ms[0]) + RenderTail(ms[1..])
  }

  lemma MemberCut(a: Member, x: string, b: Member, y: string)
    requires RenderMember(a) + x == RenderMember(b) + y && AtSeparator(x) && AtSeparator(y)
    ensures a == b && x == y
  {
    Regroup(Quote(a.0), ":" + Render(a.1), x);
    Regroup(Quote(b.0), ":" + Render(b.1), y);
    QuoteCut(a.0, ":" + Render(a.1) + x, b.0, ":" + Render(b.1) + y);
    Regroup(":", Render(a.1), x);
    Regroup(":", Render(b.1), y);
    DropPrefix(":", Render(a.1) + x, Render(b.1) + y);
    ScalarCut(a.1, x, b.1, y);
  }

  lemma {:induction false} TailInjective(ms: seq<Member>, ns: seq<Member>)
    requires RenderTail(ms) == RenderTail(ns)
    ensures ms == ns
    decreases |ms|
  {
    if ms != [] {
      assert RenderTail(ms)[0] == ',' && RenderTail(ns)[0] == ',';
      DropPrefix(",", RenderMember(ms[0]) + RenderTail(ms[1..]), RenderMember(ns[0]) + RenderTail(ns[1..]));
      MemberCut(ms[0], RenderTail(ms[1..]), ns[0], RenderTail(ns[1..]));
      TailInjective(ms[1..], ns[1..]);
      assert ms == [ms[0]] + ms[1..] && ns == [ns[0]] + ns[1..];
    }
  }

  lemma ObjectStart(ms: seq<Member>)
    ensures |RenderObject(ms)| > 1 && RenderObject(ms)[1] == if ms == [] then '}' else '\"'
  {}

  /** Two flat objects with the same text have the same members, whatever their keys and values are. */
  lemma ObjectInjective(ms: seq<Member>, ns: seq<Member>)
    requires RenderObject(ms) == RenderObject(ns)
    ensures ms == ns
  {
    ObjectStart(ms); ObjectStart(ns);
    if ms != [] {
      var x, y := RenderMember(ms[0]) + RenderTail(ms[1..]), RenderMember(ns[0]) + RenderTail(ns[1..]);
      DropPrefix("{", x, y);
      assert RenderTail(ms) == "," + x && RenderTail(ns) == "," + y;
      TailInjective(ms, ns);
    }
  }

  // ---- arrays ---------------------------------------------------------------------------------

  predicate InElement(c: char) { c != ',' && c != ']' }

  ghost predicate ElementText(s: string) { s != [] && forall c :: c in s ==> InElement(c) }

  /** A printer of array elements: distinct ones print differently, without commas or brackets. */
  ghost predicate Printer<T(!new)>(repr: T -> string) {
    && (forall x: T :: ElementText(repr(x)))
    && (forall x: T, y: T :: repr(x) == repr(y) ==> x == y)
  }

  lemma Printed<T(!new)>(repr: T -> string, x: T, y: T)
    requires Printer(repr)
    ensures ElementText(repr(x)) && ElementText(repr(y)) && (repr(x) == repr(y) ==> x == y)
  {}

  function ArrayTail<T>(repr: T -> string, xs: seq<T>): (r: string)
    ensures r != [] && !InElement(r[0])
  {
    if xs == [] then "]" else "," + (repr(xs[0]) + ArrayTail(repr, xs[1..]))
  }

  function RenderArray<T>(repr: T -> string, xs: seq<T>): string {
    "[" + if xs == [] then "]" else repr(xs[0]) + ArrayTail(repr, xs[1..])
  }

  lemma {:induction false} ArrayTailInjective<T(!new)>(repr: T -> string, xs: seq<T>, ys: seq<T>)
    requires Printer(repr) && ArrayTail(repr, xs) == ArrayTail(repr, ys)
    ensures xs == ys
    decreases |xs|
  {
    if xs != [] {
      assert ArrayTail(repr, xs)[0] == ',' && ArrayTail(repr, ys)[0] == ',';
      Printed(repr, xs[0], ys[0]);
      var u, v := ArrayTail(repr, xs[1..]), ArrayTail(repr, ys[1..]);
      DropPrefix(",", repr(xs[0]) + u, repr(ys[0]) + v);
      SameCut(InElement, repr(xs[0]), u, repr(ys[0]), v);
      ArrayTailInjective(repr, xs[1..], ys[1..]);
      assert xs == [xs[0]] + xs[1..] && ys == [ys[0]] + ys[1..];
    }
  }

  lemma ArrayStart<T(!new)>(repr: T -> string, xs: seq<T>)
    requires Printer(repr)
    ensures |RenderArray(repr, xs)| > 1 && (InElement(RenderArray(repr, xs)[1]) <==> xs != [])
  {
    if xs != [] { Printed(repr, xs[0], xs[0]); }
  }

  /** Two arrays with the same text have the same elements. */
  lemma ArrayInjective<T(!new)>(repr: T -> string, xs: seq<T>, ys: seq<T>)
    requires Printer(repr) && RenderArray(repr, xs) == RenderArray(repr, ys)
    ensures xs == ys
  {
    ArrayStart(repr, xs); ArrayStart(repr, ys);
    if xs != [] {
      var u, v := repr(xs[0]) + ArrayTail(repr, xs[1..]), repr(ys[0]) + ArrayTail(repr, ys[1..]);
      DropPrefix("[", u, v);
      assert ArrayTail(repr, xs) == "," + u && ArrayTail(repr, ys) == "," + v;
      ArrayTailInjective(repr, xs, ys);
    }
  }
}
