/** Text as UTF-16 code units, and the quoting of strings and keys with its inverse. */
module JsonText {
  import opened Common

  type Unit = n: nat | n < 0x1_0000

  type Text = seq<Unit>

  const QUOTE: Unit := 0x22
  const COMMA: Unit := 0x2C
  const COLON: Unit := 0x3A
  const OPEN_BRACKET: Unit := 0x5B
  const BACKSLASH: Unit := 0x5C
  const CLOSE_BRACKET: Unit := 0x5D
  const OPEN_BRACE: Unit := 0x7B
  const CLOSE_BRACE: Unit := 0x7D

  predicate High(u: Unit) {
    0xD800 <= u < 0xDC00
  }

  predicate Low(u: Unit) {
    0xDC00 <= u < 0xE000
  }

  function HexDigit(d: nat): Unit
    requires d < 16
  {
    if d < 10 then 0x30 + d else 0x57 + d
  }

  function Hex(u: Unit): Text {
    [HexDigit(u / 4096), HexDigit(u / 256 % 16), HexDigit(u / 16 % 16), HexDigit(u % 16)]
  }

  function DigitValue(c: Unit): Option<nat> {
    if 0x30 <= c < 0x3A then Some(c - 0x30)
    else if 0x61 <= c < 0x67 then Some(c - 0x57)
    else None
  }

  function HexValue(t: Text): Option<Unit>
    requires |t| == 4
  {
    match (DigitValue(t[0]), DigitValue(t[1]), DigitValue(t[2]), DigitValue(t[3]))
    case (Some(a), Some(b), Some(c), Some(d)) =>
      var v := a * 4096 + b * 256 + c * 16 + d;
      if v < 0x1_0000 then Some(v) else None
    case _ => None
  }

  lemma HexRoundTrip(u: Unit)
    ensures HexValue(Hex(u)) == Some(u)
  {
    var a, b, c, d := u / 4096, u / 256 % 16, u / 16 % 16, u % 16;
    assert u / 256 == a * 16 + b && u / 16 == u / 256 * 16 + c && u == u / 16 * 16 + d;
  }

  /** The escape letter of a unit that has a short escape. */
  function ShortEscape(u: Unit): Option<Unit> {
    if u == QUOTE || u == BACKSLASH then Some(u)
    else if u == 0x08 then Some(0x62)
    else if u == 0x0C then Some(0x66)
    else if u == 0x0A then Some(0x6E)
    else if u == 0x0D then Some(0x72)
    else if u == 0x09 then Some(0x74)
    else None
  }

  function ShortUnescape(c: Unit): Option<Unit> {
    if c == QUOTE || c == BACKSLASH then Some(c)
    else if c == 0x62 then Some(0x08)
    else if c == 0x66 then Some(0x0C)
    else if c == 0x6E then Some(0x0A)
    else if c == 0x72 then Some(0x0D)
    else if c == 0x74 then Some(0x09)
    else None
  }

  function Escaped(u: Unit): Text {
    if ShortEscape(u).Some? then [BACKSLASH, ShortEscape(u).value]
    else if u < 0x20 || High(u) || Low(u) then [BACKSLASH, 0x75] + Hex(u)
    else [u]
  }

  /** The inside of a quoted string: a surrogate pair stays, a lone surrogate is escaped. */
  function Body(s: Text): Text {
    if s == [] then []
    else if |s| > 1 && High(s[0]) && Low(s[1]) then [s[0], s[1]] + Body(s[2..])
    else Escaped(s[0]) + Body(s[1..])
  }

  function Quote(s: Text): Text {
    [QUOTE] + Body(s) + [QUOTE]
  }

  function Prepend(u: Unit, r: Option<(Text, Text)>): Option<(Text, Text)> {
    match r
    case None => None
    case Some((s, rest)) => Some(([u] + s, rest))
  }

  /** Reads the inside of a quoted string up to its closing quote, and what follows it. */
  function Unbody(t: Text): Option<(Text, Text)> {
    if t == [] then None
    else if t[0] == QUOTE then Some(([], t[1..]))
    else if t[0] != BACKSLASH then Prepend(t[0], Unbody(t[1..]))
    else if |t| > 1 && ShortUnescape(t[1]).Some? then Prepend(ShortUnescape(t[1]).value, Unbody(t[2..]))
    else if |t| > 5 && t[1] == 0x75 && HexValue(t[2..6]).Some? then Prepend(HexValue(t[2..6]).value, Unbody(t[6..]))
    else None
  }

  lemma UnbodyEscaped(u: Unit, t: Text)
    ensures Unbody(Escaped(u) + t) == Prepend(u, Unbody(t))
  {
    var e := Escaped(u) + t;
    if ShortEscape(u).Some? {
      assert e[2..] == t;
    } else if u < 0x20 || High(u) || Low(u) {
      HexRoundTrip(u);
      assert e[2..6] == Hex(u) && e[6..] == t;
    } else {
      assert e[1..] == t;
    }
  }

  lemma UnbodyPair(high: Unit, low: Unit, t: Text)
    requires High(high) && Low(low)
    ensures Unbody([high, low] + t) == Prepend(high, Prepend(low, Unbody(t)))
  {
    assert ([high, low] + t)[1..] == [low] + t;
    assert ([low] + t)[1..] == t;
  }

  lemma Associate(a: Text, b: Text, c: Text)
    ensures (a + b) + c == a + (b + c)
  {
  }

  /** A quoted string determines the string and where it ends. */
  lemma {:induction false} UnbodyBody(s: Text, rest: Text)
    ensures Unbody(Body(s) + ([QUOTE] + rest)) == Some((s, rest))
  {
    var tail := [QUOTE] + rest;
    if s == [] {
      assert Body(s) + tail == tail && tail[1..] == rest;
    } else if |s| > 1 && High(s[0]) && Low(s[1]) {
      UnbodyBody(s[2..], rest);
      UnbodyPair(s[0], s[1], Body(s[2..]) + tail);
      Associate([s[0], s[1]], Body(s[2..]), tail);
      assert [s[0]] + ([s[1]] + s[2..]) == s;
    } else {
      UnbodyBody(s[1..], rest);
      UnbodyEscaped(s[0], Body(s[1..]) + tail);
      Associate(Escaped(s[0]), Body(s[1..]), tail);
      assert [s[0]] + s[1..] == s;
    }
  }

  lemma Opened(s: Text, x: Text)
    ensures (Quote(s) + x)[1..] == Body(s) + ([QUOTE] + x)
  {
    Associate([QUOTE], Body(s), [QUOTE]);
    Associate([QUOTE], Body(s) + [QUOTE], x);
    Associate(Body(s), [QUOTE], x);
    assert ([QUOTE] + ((Body(s) + [QUOTE]) + x))[1..] == (Body(s) + [QUOTE]) + x;
  }

  lemma QuoteDetermines(a: Text, b: Text, x: Text, y: Text)
    requires Quote(a) + x == Quote(b) + y
    ensures a == b && x == y
  {
    UnbodyBody(a, x);
    UnbodyBody(b, y);
    Opened(a, x);
    Opened(b, y);
  }
}
