/**
 Quoted strings against section 7 of RFC 8259: nothing that must be escaped is left, what need not be stays as it
 is, and the escapes are the ones of the grammar. The text is well-formed UTF-16 whatever the string.
 */
module JsonStrings {
  import opened Common
  import opened JsonText

  function Units(s: string): Text {
    seq(|s|, i requires 0 <= i < |s| => if s[i] as int < 0x1_0000 then s[i] as int else 0)
  }

  predicate IsHigh(u: Unit) {
    0xD800 <= u <= 0xDBFF
  }

  predicate IsLow(u: Unit) {
    0xDC00 <= u <= 0xDFFF
  }

  /** Every high surrogate is followed by a low one, and there are no other low ones. */
  predicate Utf16(t: Text) {
    if t == [] then true
    else if IsHigh(t[0]) then |t| > 1 && IsLow(t[1]) && Utf16(t[2..])
    else !IsLow(t[0]) && Utf16(t[1..])
  }

  lemma {:induction false} Utf16Joins(a: Text, b: Text)
    requires Utf16(a) && Utf16(b)
    ensures Utf16(a + b)
  {
    if a == [] {
      assert a + b == b;
    } else if IsHigh(a[0]) {
      Utf16Joins(a[2..], b);
      assert (a + b)[2..] == a[2..] + b;
    } else {
      Utf16Joins(a[1..], b);
      assert (a + b)[1..] == a[1..] + b;
    }
  }

  /** No units that must be escaped. */
  predicate Clean(t: Text) {
    forall i | 0 <= i < |t| :: t[i] >= 0x20 && t[i] != '\"' as int && t[i] != '\\' as int
  }

  predicate Ascii7(t: Text) {
    forall i | 0 <= i < |t| :: 0x20 <= t[i] < 0x80
  }

  lemma {:induction false} AsciiIsUtf16(t: Text)
    requires Ascii7(t)
    ensures Utf16(t)
  {
    if t != [] { AsciiIsUtf16(t[1..]); }
  }

  lemma EscapedIsStrict(u: Unit)
    ensures Utf16(Escaped(u)) && forall i | 0 <= i < |Escaped(u)| :: Escaped(u)[i] >= 0x20
  {
    if Escaped(u) == [u] {
      assert Utf16([]);
    } else {
      AsciiIsUtf16(Escaped(u));
    }
  }

  /** Whatever the string, its text is well-formed and without control characters. */
  lemma {:induction false} BodyIsStrict(s: Text)
    ensures Utf16(Body(s)) && forall i | 0 <= i < |Body(s)| :: Body(s)[i] >= 0x20
  {
    if s == [] {
    } else if |s| > 1 && High(s[0]) && Low(s[1]) {
      BodyIsStrict(s[2..]);
      assert Utf16([]) && [s[0], s[1]][2..] == [];
      Utf16Joins([s[0], s[1]], Body(s[2..]));
    } else {
      BodyIsStrict(s[1..]);
      EscapedIsStrict(s[0]);
      Utf16Joins(Escaped(s[0]), Body(s[1..]));
    }
  }

  /** A well-formed string without quotes, backslashes and control characters stays as it is. */
  lemma {:induction false} CleanStays(s: Text)
    requires Utf16(s) && Clean(s)
    ensures Body(s) == s
  {
    if s == [] {
    } else if IsHigh(s[0]) {
      CleanStays(s[2..]);
      assert s == [s[0], s[1]] + s[2..];
    } else {
      CleanStays(s[1..]);
      assert s == [s[0]] + s[1..];
    }
  }

  /** The short escapes are the ones of the grammar. */
  lemma ShortEscapes()
    ensures Body(Units("\"\\\n\r\t")) == Units("\\\"\\\\\\n\\r\\t")
    ensures Body([0x08, 0x0C]) == Units("\\b\\f")
  {
    var s := Units("\"\\\n\r\t");
    assert s == [34, 92, 10, 13, 9];
    BodyOf(s);
    BodyOf(s[1..]);
    BodyOf(s[2..]);
    BodyOf(s[3..]);
    BodyOf(s[4..]);
    BodyOf([0x08, 0x0C]);
    BodyOf([0x0C]);
    assert [0x08, 0x0C][1..] == [0x0C];
    assert s[1..] == [92, 10, 13, 9] && s[2..] == [10, 13, 9] && s[3..] == [13, 9] && s[4..] == [9];
    assert Body([]) == [];
  }

  lemma BodyOf(s: Text)
    requires s != [] && s[0] < 0x80
    ensures Body(s) == Escaped(s[0]) + Body(s[1..])
  {
  }

  /** Every other control character, and every lone surrogate, is written as its number in four hexadecimal digits. */
  lemma OthersByNumber(u: Unit)
    requires (u < 0x20 && u !in {0x08, 0x09, 0x0A, 0x0C, 0x0D}) || IsHigh(u) || IsLow(u)
    ensures var digits := Units("0123456789abcdef");
      Body([u]) == Units("\\u") + [digits[u / 4096], digits[u / 256 % 16], digits[u / 16 % 16], digits[u % 16]]
  {
    assert Body([]) == [] && [u][1..] == [];
    HexLetter(u / 4096);
    HexLetter(u / 256 % 16);
    HexLetter(u / 16 % 16);
    HexLetter(u % 16);
  }

  lemma HexLetter(d: nat)
    requires d < 16
    ensures HexDigit(d) == Units("0123456789abcdef")[d]
  {
    assert "0123456789abcdef"[d] as int == if d < 10 then 48 + d else 87 + d;
  }
}
