/** Fields of tar headers, extended headers and safe relative paths, on bytes. */
module TarFormat {
  import opened Common

  type Byte = n: nat | n < 256

  type Bytes = seq<Byte>

  const SLASH: Byte := 0x2F
  const DOT: Byte := 0x2E

  // ------------------------------------------------------------------ Strings and numbers

  /** The bytes before the first NUL. */
  function CutNul(b: Bytes): Bytes {
    if b == [] || b[0] == 0 then [] else [b[0]] + CutNul(b[1..])
  }

  function ReadString(b: Bytes, start: nat, length: nat): Bytes
    requires start + length <= |b|
  {
    CutNul(b[start..start + length])
  }

  predicate Space(c: Byte) {
    9 <= c <= 13 || c == 32
  }

  function TrimStart(b: Bytes): Bytes {
    if b != [] && Space(b[0]) then TrimStart(b[1..]) else b
  }

  function TrimEnd(b: Bytes): Bytes {
    if b != [] && Space(b[|b| - 1]) then TrimEnd(b[..|b| - 1]) else b
  }

  predicate Digit(c: Byte, radix: nat)
    requires radix <= 10
  {
    0x30 <= c < 0x30 + radix
  }

  /** The leading digits. */
  function Digits(b: Bytes, radix: nat): (d: Bytes)
    requires radix <= 10
    ensures forall c | c in d :: Digit(c, radix)
  {
    if b == [] || !Digit(b[0], radix) then [] else [b[0]] + Digits(b[1..], radix)
  }

  function Value(digits: Bytes, radix: nat): nat
    requires radix <= 10 && forall c | c in digits :: Digit(c, radix)
  {
    if digits == [] then 0
    else
      var last := digits[|digits| - 1];
      assert Digit(last, radix);
      Value(digits[..|digits| - 1], radix) * radix + (last - 0x30)
  }

  /** `parseInt`: spaces, a sign, then as many digits as there are; None where it gives NaN. */
  function ParseInt(b: Bytes, radix: nat): Option<int>
    requires radix <= 10
  {
    var t := TrimStart(b);
    var signed := t != [] && (t[0] == 0x2B || t[0] == 0x2D);
    var digits := Digits(if signed then t[1..] else t, radix);
    if digits == [] then None
    else
      var value: int := Value(digits, radix);
      Some(if t[0] == 0x2D then -value else value)
  }

  /** A size field: blank is zero; None where the reader throws. */
  function ParseTarNumber(b: Bytes): Option<nat> {
    var clean := TrimEnd(TrimStart(CutNul(b)));
    if clean == [] then Some(0)
    else
      match ParseInt(clean, 8)
      case None => None
      case Some(n) => if 0 <= n < 0x20_0000_0000_0000 then Some(n) else None
  }

  // ------------------------------------------------------------------ Headers

  datatype Header = Header(name: Bytes, prefix: Bytes, size: Option<nat>, kind: Byte)

  predicate Blank(b: Bytes) {
    forall k | 0 <= k < |b| :: b[k] == 0
  }

  /** The fields of a header block; shorter blocks never occur. */
  function Decode(h: Bytes): Header {
    if |h| != 512 then Header([], [], None, 0)
    else Header(ReadString(h, 0, 100), ReadString(h, 345, 155), ParseTarNumber(ReadString(h, 124, 12)), h[156])
  }

  // ------------------------------------------------------------------ Extended headers

  function IndexOf(b: Bytes, c: Byte): (k: Option<nat>)
    ensures k.Some? ==> k.value < |b| && b[k.value] == c && c !in b[..k.value]
    ensures k.None? ==> c !in b
  {
    if b == [] then None
    else if b[0] == c then Some(0)
    else
      match IndexOf(b[1..], c)
      case None => None
      case Some(k) => Some(k + 1)
  }

  /** Decoding as ASCII drops the high bit. */
  function Ascii(b: Bytes): Bytes {
    seq(|b|, k requires 0 <= k < |b| => b[k] % 128)
  }

  /** Where the length at the front ends, and the length, if it is a number. */
  function PaxHead(content: Bytes): (head: Option<(nat, Option<int>)>)
    ensures head.Some? ==> head.value.0 < |content|
  {
    match IndexOf(content, 0x20)
    case None => None
    case Some(space) => Some((space, ParseInt(Ascii(content[..space]), 10)))
  }

  predicate LengthOk(content: Bytes, length: int) {
    0 < length < 0x20_0000_0000_0000 && length <= |content|
  }

  /** What is between the length and the line end. */
  function PaxRecord(content: Bytes, space: nat, length: int): Bytes
    requires LengthOk(content, length)
  {
    if space + 1 <= length - 1 then content[space + 1..length - 1] else []
  }

  /** Records `length key=value` one after the other; None where the reader throws. */
  function ParsePax(content: Bytes, found: map<Bytes, Bytes>): Option<map<Bytes, Bytes>>
    decreases |content|
  {
    match PaxHead(content)
    case None => Some(found)
    case Some((_, None)) => None
    case Some((space, Some(length))) =>
      if !LengthOk(content, length) then None
      else ParsePax(content[length..], WithRecord(found, PaxRecord(content, space, length)))
  }

  function WithRecord(found: map<Bytes, Bytes>, record: Bytes): map<Bytes, Bytes> {
    match IndexOf(record, 0x3D)
    case None => found
    case Some(equals) => if equals > 0 then found[record[..equals] := record[equals + 1..]] else found
  }

  // ------------------------------------------------------------------ Paths

  function PackagePrefix(): Bytes { [0x70, 0x61, 0x63, 0x6B, 0x61, 0x67, 0x65, 0x2F] }

  function PathKey(): Bytes { [0x70, 0x61, 0x74, 0x68] }

  function Slashes(b: Bytes): Bytes {
    seq(|b|, k requires 0 <= k < |b| => if b[k] == 0x5C then SLASH else b[k])
  }

  function StripSlashes(b: Bytes): Bytes {
    if b != [] && b[0] == SLASH then StripSlashes(b[1..]) else b
  }

  /** Drops one leading `./` with all its slashes. */
  function StripDot(b: Bytes): Bytes {
    if |b| > 1 && b[0] == DOT && b[1] == SLASH then StripSlashes(b[1..]) else b
  }

  function StripTrailing(b: Bytes): Bytes {
    if b != [] && b[|b| - 1] == SLASH then StripTrailing(b[..|b| - 1]) else b
  }

  function Split(b: Bytes): (parts: seq<Bytes>)
    ensures parts != []
  {
    if b == [] then [[]]
    else
      var rest := Split(b[1..]);
      if b[0] == SLASH then [[]] + rest else [[b[0]] + rest[0]] + rest[1..]
  }

  predicate Plain(b: Bytes) {
    forall p | p in Split(b) :: p != [] && p != [DOT] && p != [DOT, DOT]
  }

  /** None where the path is refused. */
  function SafeRelative(path: Bytes): Option<Bytes> {
    if path == [] || path[0] == SLASH || 0 in path then None
    else
      var normalized := StripTrailing(StripDot(Slashes(path)));
      if normalized == [] || !Plain(normalized) then None else Some(normalized)
  }

  function DropOneSlash(b: Bytes): Bytes {
    if b != [] && b[|b| - 1] == SLASH then b[..|b| - 1] else b
  }

  function FullName(prefix: Bytes, name: Bytes): Bytes {
    if prefix == [] then name else prefix + [SLASH] + name
  }

  function DropNuls(b: Bytes): Bytes {
    if b != [] && b[|b| - 1] == 0 then DropNuls(b[..|b| - 1]) else b
  }
}
