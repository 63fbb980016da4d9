/** Base64url without padding (sections 3.2 and 5 of RFC 4648), as base64.RawURLEncoding reads and
    writes it. Bytes are numbers below 256. */
module Base64Url {
  import opened Outcomes

  predicate IsBytes(b: seq<nat>) {
    forall i :: 0 <= i < |b| ==> b[i] < 256
  }

  function Digit(v: nat): char
    requires v < 64
  {
    if v < 26 then 'A' + v as char
    else if v < 52 then 'a' + (v - 26) as char
    else if v < 62 then '0' + (v - 52) as char
    else if v == 62 then '-' else '_'
  }

  function Value(c: char): Option<nat> {
    if 'A' <= c <= 'Z' then Some(c as nat - 'A' as nat)
    else if 'a' <= c <= 'z' then Some(c as nat - 'a' as nat + 26)
    else if '0' <= c <= '9' then Some(c as nat - '0' as nat + 52)
    else if c == '-' then Some(62)
    else if c == '_' then Some(63)
    else None
  }

  lemma ValueOfDigit(v: nat)
    requires v < 64
    ensures Value(Digit(v)) == Some(v)
    ensures Digit(v) != '\n' && Digit(v) != '\r'
  {
  }

  /** The four 6-bit digits of three bytes. */
  function First(x: nat): nat { x / 4 }
  function Second(x: nat, y: nat): nat { x % 4 * 16 + y / 16 }
  function Third(y: nat, z: nat): nat { y % 16 * 4 + z / 64 }
  function Fourth(z: nat): nat { z % 64 }

  lemma DigitsFit(x: nat, y: nat, z: nat)
    requires x < 256 && y < 256 && z < 256
    ensures First(x) < 64 && Second(x, y) < 64 && Third(y, z) < 64 && Fourth(z) < 64
  {
  }

  /** The values of the digits that stand for b; missing bytes of a short last group count as zero. */
  function Packed(b: seq<nat>): (v: seq<nat>)
    requires IsBytes(b)
    ensures forall i :: 0 <= i < |v| ==> v[i] < 64
  {
    if |b| == 0 then []
    else if |b| == 1 then
      DigitsFit(b[0], 0, 0);
      [First(b[0]), Second(b[0], 0)]
    else if |b| == 2 then
      DigitsFit(b[0], b[1], 0);
      [First(b[0]), Second(b[0], b[1]), Third(b[1], 0)]
    else
      DigitsFit(b[0], b[1], b[2]);
      [First(b[0]), Second(b[0], b[1]), Third(b[1], b[2]), Fourth(b[2])] + Packed(b[3..])
  }

  function Encode(b: seq<nat>): string
    requires IsBytes(b)
  {
    var v := Packed(b);
    seq(|v|, i requires 0 <= i < |v| => Digit(v[i]))
  }

  /** The values of a string's digits; None if it holds any other character. */
  function Values(s: string): Option<seq<nat>> {
    if s == "" then Some([])
    else match (Value(s[0]), Values(s[1..]))
      case (Some(v), Some(rest)) => Some([v] + rest)
      case _ => None
  }

  /** The three bytes of four 6-bit digits. */
  function Byte0(p: nat, q: nat): nat { p * 4 + q / 16 }
  function Byte1(q: nat, r: nat): nat { q % 16 * 16 + r / 4 }
  function Byte2(r: nat, t: nat): nat { r % 4 * 64 + t }

  /** Groups of four digits are three bytes; a last group of one digit is malformed. Spare bits of a
      short last group are ignored. */
  function Unpack(v: seq<nat>): Option<seq<nat>> {
    if |v| == 0 then Some([])
    else if |v| == 1 then None
    else if |v| == 2 then Some([Byte0(v[0], v[1])])
    else if |v| == 3 then Some([Byte0(v[0], v[1]), Byte1(v[1], v[2])])
    else match Unpack(v[4..])
      case None => None
      case Some(rest) => Some([Byte0(v[0], v[1]), Byte1(v[1], v[2]), Byte2(v[2], v[3])] + rest)
  }

  /** Line breaks are skipped. */
  function WithoutBreaks(s: string): string {
    if s == "" then ""
    else if s[0] == '\n' || s[0] == '\r' then WithoutBreaks(s[1..])
    else [s[0]] + WithoutBreaks(s[1..])
  }

  function Decode(s: string): Option<seq<nat>> {
    match Values(WithoutBreaks(s))
    case None => None
    case Some(v) => Unpack(v)
  }

  /** s is written in digits only, with the values v. */
  predicate Spells(s: string, v: seq<nat>) {
    WithoutBreaks(s) == s && Values(s) == Some(v)
  }

  lemma {:induction false} DigitsSpell(v: seq<nat>)
    requires forall i :: 0 <= i < |v| ==> v[i] < 64
    ensures Spells(seq(|v|, i requires 0 <= i < |v| => Digit(v[i])), v)
  {
    if v != [] {
      var s := seq(|v|, i requires 0 <= i < |v| => Digit(v[i]));
      var rest := v[1..];
      DigitsSpell(rest);
      assert s[1..] == seq(|rest|, i requires 0 <= i < |rest| => Digit(rest[i]));
      ValueOfDigit(v[0]);
      hide Digit, Value;
      assert v == [v[0]] + rest && s == [s[0]] + s[1..];
    }
  }

  lemma ThreeBytes(x: nat, y: nat, z: nat)
    requires x < 256 && y < 256 && z < 256
    ensures Byte0(First(x), Second(x, y)) == x
    ensures Byte1(Second(x, y), Third(y, z)) == y
    ensures Byte2(Third(y, z), Fourth(z)) == z
  {
  }

  lemma {:induction false} UnpackPacked(b: seq<nat>)
    requires IsBytes(b)
    ensures Unpack(Packed(b)) == Some(b)
    decreases |b|
  {
    hide First, Second, Third, Fourth, Byte0, Byte1, Byte2;
    if |b| == 1 {
      ThreeBytes(b[0], 0, 0);
      assert b == [b[0]];
    } else if |b| == 2 {
      ThreeBytes(b[0], b[1], 0);
      assert b == [b[0], b[1]];
    } else if |b| > 2 {
      UnpackPacked(b[3..]);
      ThreeBytes(b[0], b[1], b[2]);
      assert Packed(b)[4..] == Packed(b[3..]);
      assert b == [b[0], b[1], b[2]] + b[3..];
    }
  }

  /** Decoding undoes encoding on every byte string. */
  lemma RoundTrip(b: seq<nat>)
    requires IsBytes(b)
    ensures Decode(Encode(b)) == Some(b)
  {
    DigitsSpell(Packed(b));
    UnpackPacked(b);
  }

  /** The test vectors of section 10 of RFC 4648, without their padding, and two bytes whose digits are those
      the URL alphabet changes. */
  lemma TestVectors()
    ensures Encode([]) == "" && Encode([0x66]) == "Zg" && Encode([0x66, 0x6f]) == "Zm8"
    ensures Encode([0x66, 0x6f, 0x6f]) == "Zm9v" && Encode([0x66, 0x6f, 0x6f, 0x62]) == "Zm9vYg"
    ensures Encode([0x66, 0x6f, 0x6f, 0x62, 0x61]) == "Zm9vYmE"
    ensures Encode([0x66, 0x6f, 0x6f, 0x62, 0x61, 0x72]) == "Zm9vYmFy"
    ensures Encode([0xfb, 0xff]) == "-_8"
  {
  }
}
