/** The list cursor: an opaque text for the last row's (created_at, id)
    (internal/application/query/cursor.go). */
module Cursor {
  import opened Outcomes
  import opened Base64Url
  import opened Strings

  /** A UTC instant in calendar fields, as RFC 3339 writes it. */
  datatype Instant = Instant(year: nat, month: nat, day: nat, hour: nat, minute: nat, second: nat, nanos: nat)

  datatype PageKey = PageKey(createdAt: Instant, id: nat)

  predicate Leap(year: nat) {
    year % 4 == 0 && (year % 100 != 0 || year % 400 == 0)
  }

  function DaysIn(year: nat, month: nat): nat {
    if month == 2 then (if Leap(year) then 29 else 28)
    else if month == 4 || month == 6 || month == 9 || month == 11 then 30 else 31
  }

  predicate ValidInstant(t: Instant) {
    && t.year <= 9999 && 1 <= t.month <= 12 && 1 <= t.day <= DaysIn(t.year, t.month)
    && t.hour < 24 && t.minute < 60 && t.second < 60 && t.nanos < 1_000_000_000
  }

  /** Field by field, from the year down. */
  predicate Earlier(a: Instant, b: Instant) {
    a.year < b.year || (a.year == b.year && (
    a.month < b.month || (a.month == b.month && (
    a.day < b.day || (a.day == b.day && (
    a.hour < b.hour || (a.hour == b.hour && (
    a.minute < b.minute || (a.minute == b.minute && (
    a.second < b.second || (a.second == b.second && a.nanos < b.nanos)))))))))))
  }

  predicate ValidKey(k: PageKey) {
    ValidInstant(k.createdAt) && k.id < Power(16, 32)
  }

  // ---------------------------------------------------------------- fixed-width numbers

  function Power(base: nat, width: nat): nat {
    if width == 0 then 1 else base * Power(base, width - 1)
  }

  function DigitChar(v: nat): char
    requires v < 16
  {
    if v < 10 then '0' + v as char else 'a' + (v - 10) as char
  }

  function DigitValue(base: nat, c: char): Option<nat> {
    var v := if '0' <= c <= '9' then c as nat - '0' as nat
             else if 'a' <= c <= 'f' then c as nat - 'a' as nat + 10
             else if 'A' <= c <= 'F' then c as nat - 'A' as nat + 10
             else 16;
    if v < base then Some(v) else None
  }

  function Padded(base: nat, n: nat, width: nat): string
    requires 2 <= base <= 16
  {
    if width == 0 then "" else Padded(base, n / base, width - 1) + [DigitChar(n % base)]
  }

  function Number(base: nat, s: string): Option<nat>
    requires base <= 16
  {
    if s == "" then Some(0)
    else match (Number(base, s[..|s| - 1]), DigitValue(base, s[|s| - 1]))
      case (Some(high), Some(low)) => Some(high * base + low)
      case _ => None
  }

  lemma DigitRoundTrip(base: nat, v: nat)
    requires v < base <= 16
    ensures DigitValue(base, DigitChar(v)) == Some(v)
  {
  }

  lemma DropDigit(base: nat, n: nat, rest: nat)
    requires (base == 10 || base == 16) && n < base * rest
    ensures n / base < rest && n / base * base + n % base == n && n % base < base
  {
  }

  lemma NumberOfSnoc(base: nat, s: string, c: char, high: nat, low: nat)
    requires base <= 16 && Number(base, s) == Some(high) && DigitValue(base, c) == Some(low)
    ensures Number(base, s + [c]) == Some(high * base + low)
  {
    hide DigitValue;
    assert (s + [c])[..|s|] == s;
  }

  lemma {:induction false} NumberOfPadded(base: nat, n: nat, width: nat)
    requires (base == 10 || base == 16) && n < Power(base, width)
    ensures |Padded(base, n, width)| == width
    ensures Number(base, Padded(base, n, width)) == Some(n)
  {
    if width > 0 {
      DropDigit(base, n, Power(base, width - 1));
      var high, low := n / base, n % base;
      assert Padded(base, n, width) == Padded(base, high, width - 1) + [DigitChar(low)];
      hide Padded, Number, DigitValue, DigitChar, Power;
      NumberOfPadded(base, high, width - 1);
      DigitRoundTrip(base, low);
      NumberOfSnoc(base, Padded(base, high, width - 1), DigitChar(low), high, low);
    }
  }

  // ---------------------------------------------------------------- RFC 3339 timestamps

  function TrimZeros(s: string): string {
    if s == "" || s[|s| - 1] != '0' then s else TrimZeros(s[..|s| - 1])
  }

  function Zeros(n: nat): string {
    if n == 0 then "" else Zeros(n - 1) + "0"
  }

  lemma {:induction false} TrimmedDigits(s: string)
    ensures |TrimZeros(s)| <= |s|
    ensures TrimZeros(s) + Zeros(|s| - |TrimZeros(s)|) == s
  {
    if s != "" && s[|s| - 1] == '0' {
      TrimmedDigits(s[..|s| - 1]);
    }
  }

  function DateText(year: string, month: string, day: string): string {
    year + "-" + month + "-" + day
  }

  function ClockText(hour: string, minute: string, second: string): string {
    hour + ":" + minute + ":" + second
  }

  function FractionText(nanos: nat): string {
    var fraction := TrimZeros(Padded(10, nanos, 9));
    if fraction == "" then "" else "." + fraction
  }

  function SecondsText(t: Instant): string {
    DateText(Padded(10, t.year, 4), Padded(10, t.month, 2), Padded(10, t.day, 2)) + "T"
    + ClockText(Padded(10, t.hour, 2), Padded(10, t.minute, 2), Padded(10, t.second, 2))
  }

  /** time.RFC3339Nano in UTC: the fraction without trailing zeros, left out when zero. */
  function FormatInstant(t: Instant): string {
    SecondsText(t) + FractionText(t.nanos) + "Z"
  }

  /** Reads a fraction of one to nine digits. */
  function ParseFraction(s: string): Option<nat> {
    if |s| == 0 then Some(0)
    else if s[0] != '.' || |s| == 1 || |s| > 10 then None
    else Number(10, s[1..] + Zeros(10 - |s|))
  }

  function ParseSeconds(s: string): Option<Instant> {
    if |s| != 19 || s[4] != '-' || s[7] != '-' || s[10] != 'T' || s[13] != ':' || s[16] != ':' then None
    else
      match (Number(10, s[..4]), Number(10, s[5..7]), Number(10, s[8..10]), Number(10, s[11..13]),
             Number(10, s[14..16]), Number(10, s[17..]))
      case (Some(year), Some(month), Some(day), Some(hour), Some(minute), Some(second)) =>
        Some(Instant(year, month, day, hour, minute, second, 0))
      case _ => None
  }

  function ParseInstant(s: string): Option<Instant> {
    if |s| < 20 || s[|s| - 1] != 'Z' then None
    else
      match (ParseSeconds(s[..19]), ParseFraction(s[19..|s| - 1]))
      case (Some(whole), Some(nanos)) =>
        var t := whole.(nanos := nanos);
        if ValidInstant(t) then Some(t) else None
      case _ => None
  }

  lemma {:induction false} PaddedZero(width: nat)
    ensures Padded(10, 0, width) == Zeros(width)
  {
    if width > 0 {
      PaddedZero(width - 1);
    }
  }

  lemma FractionRoundTrip(nanos: nat)
    requires nanos < 1_000_000_000
    ensures |FractionText(nanos)| <= 10 && ParseFraction(FractionText(nanos)) == Some(nanos)
  {
    var digits := Padded(10, nanos, 9);
    assert Power(10, 9) == 1_000_000_000;
    NumberOfPadded(10, nanos, 9);
    TrimmedDigits(digits);
    hide Power, Number, Padded, TrimZeros;
    var fraction := TrimZeros(digits);
    if fraction == "" {
      assert Zeros(9) == digits;
      PaddedZero(9);
      assert 0 < Power(10, 9);
      NumberOfPadded(10, 0, 9);
    } else {
      assert ("." + fraction)[1..] == fraction;
    }
  }

  lemma SecondsLayout(year: string, month: string, day: string, hour: string, minute: string, second: string)
    requires |year| == 4 && |month| == |day| == |hour| == |minute| == |second| == 2
    ensures var s := DateText(year, month, day) + "T" + ClockText(hour, minute, second);
            && |s| == 19 && s[4] == '-' && s[7] == '-' && s[10] == 'T' && s[13] == ':' && s[16] == ':'
            && s[..4] == year && s[5..7] == month && s[8..10] == day
            && s[11..13] == hour && s[14..16] == minute && s[17..] == second
  {
  }

  lemma SecondsRoundTrip(t: Instant)
    requires ValidInstant(t)
    ensures |SecondsText(t)| == 19 && ParseSeconds(SecondsText(t)) == Some(t.(nanos := 0))
  {
    assert Power(10, 4) == 10_000 && Power(10, 2) == 100;
    NumberOfPadded(10, t.year, 4);
    NumberOfPadded(10, t.month, 2);
    NumberOfPadded(10, t.day, 2);
    NumberOfPadded(10, t.hour, 2);
    NumberOfPadded(10, t.minute, 2);
    NumberOfPadded(10, t.second, 2);
    hide Power, Number, Padded, DateText, ClockText;
    SecondsLayout(Padded(10, t.year, 4), Padded(10, t.month, 2), Padded(10, t.day, 2),
                  Padded(10, t.hour, 2), Padded(10, t.minute, 2), Padded(10, t.second, 2));
  }

  /** The text of an instant: year, month, day, hour, minute and second in that order and in decimal. */
  lemma FieldsInOrder(t: Instant)
    requires ValidInstant(t)
    ensures var s := FormatInstant(t);
            && 20 <= |s| <= 30 && s[4] == s[7] == '-' && s[10] == 'T' && s[13] == s[16] == ':' && s[|s| - 1] == 'Z'
            && Number(10, s[..4]) == Some(t.year) && Number(10, s[5..7]) == Some(t.month)
            && Number(10, s[8..10]) == Some(t.day) && Number(10, s[11..13]) == Some(t.hour)
            && Number(10, s[14..16]) == Some(t.minute) && Number(10, s[17..19]) == Some(t.second)
  {
    SecondsRoundTrip(t);
    FractionRoundTrip(t.nanos);
    hide SecondsText, FractionText, Number, ParseFraction;
    var s, c := FormatInstant(t), SecondsText(t);
    assert forall i :: 0 <= i < 19 ==> s[i] == c[i];
    assert s[..4] == c[..4] && s[5..7] == c[5..7] && s[8..10] == c[8..10];
    assert s[11..13] == c[11..13] && s[14..16] == c[14..16] && s[17..19] == c[17..];
  }

  /** Parsing undoes formatting, to the nanosecond. */
  lemma InstantRoundTrip(t: Instant)
    requires ValidInstant(t)
    ensures ParseInstant(FormatInstant(t)) == Some(t)
  {
    SecondsRoundTrip(t);
    FractionRoundTrip(t.nanos);
    hide SecondsText, FractionText, ParseSeconds, ParseFraction;
    var s := FormatInstant(t);
    assert s[..19] == SecondsText(t);
    assert s[19..|s| - 1] == FractionText(t.nanos);
  }

  // ---------------------------------------------------------------- UUIDs

  function Dashed(h: string): string
    requires |h| == 32
  {
    h[..8] + "-" + h[8..12] + "-" + h[12..16] + "-" + h[16..20] + "-" + h[20..]
  }

  function FormatId(id: nat): string
    requires id < Power(16, 32)
  {
    NumberOfPadded(16, id, 32);
    Dashed(Padded(16, id, 32))
  }

  function ParseId(s: string): Option<nat> {
    if |s| != 36 || s[8] != '-' || s[13] != '-' || s[18] != '-' || s[23] != '-' then None
    else Number(16, s[..8] + s[9..13] + s[14..18] + s[19..23] + s[24..])
  }

  lemma DashedLayout(h: string)
    requires |h| == 32
    ensures var s := Dashed(h);
            && |s| == 36 && s[8] == '-' && s[13] == '-' && s[18] == '-' && s[23] == '-'
            && s[..8] + s[9..13] + s[14..18] + s[19..23] + s[24..] == h
  {
    var s := Dashed(h);
    assert s[..8] == h[..8] && s[9..13] == h[8..12] && s[14..18] == h[12..16] && s[19..23] == h[16..20]
        && s[24..] == h[20..];
    assert h[..8] + h[8..12] + h[12..16] + h[16..20] + h[20..] == h;
  }

  lemma IdRoundTrip(id: nat)
    requires id < Power(16, 32)
    ensures ParseId(FormatId(id)) == Some(id)
  {
    NumberOfPadded(16, id, 32);
    hide Number, Padded, Power, Dashed;
    DashedLayout(Padded(16, id, 32));
  }

  // ---------------------------------------------------------------- cursors

  predicate Ascii(s: string) {
    forall i :: 0 <= i < |s| ==> s[i] < 128 as char
  }

  /** A text of ASCII characters as its UTF-8 bytes. */
  function ToBytes(s: string): (b: seq<nat>)
    requires Ascii(s)
    ensures IsBytes(b)
  {
    seq(|s|, i requires 0 <= i < |s| => s[i] as nat)
  }

  /** The text behind the bytes; a byte above 127 can only make a timestamp or an id malformed, so it
      stands for itself here. */
  function FromBytes(b: seq<nat>): string
    requires IsBytes(b)
  {
    seq(|b|, i requires 0 <= i < |b| => if b[i] < 256 then b[i] as char else ' ')
  }

  predicate Plain(s: string) {
    forall i :: 0 <= i < |s| ==> s[i] < 128 as char && s[i] != '|'
  }

  lemma {:induction false} PaddedPlain(base: nat, n: nat, width: nat)
    requires 2 <= base <= 16
    ensures Plain(Padded(base, n, width))
  {
    if width > 0 {
      PaddedPlain(base, n / base, width - 1);
    }
  }

  lemma {:induction false} TrimmedPlain(s: string)
    requires Plain(s)
    ensures Plain(TrimZeros(s))
  {
    if s != "" && s[|s| - 1] == '0' {
      TrimmedPlain(s[..|s| - 1]);
    }
  }

  lemma JoinedPlain(a: string, b: string, c: string, sep: char)
    requires Plain(a) && Plain(b) && Plain(c) && sep < 128 as char && sep != '|'
    ensures Plain(a + [sep] + b + [sep] + c)
  {
  }

  lemma InstantPlain(t: Instant)
    ensures Plain(FormatInstant(t))
  {
    PaddedPlain(10, t.year, 4);
    PaddedPlain(10, t.month, 2);
    PaddedPlain(10, t.day, 2);
    PaddedPlain(10, t.hour, 2);
    PaddedPlain(10, t.minute, 2);
    PaddedPlain(10, t.second, 2);
    PaddedPlain(10, t.nanos, 9);
    TrimmedPlain(Padded(10, t.nanos, 9));
    hide Padded, TrimZeros;
    JoinedPlain(Padded(10, t.year, 4), Padded(10, t.month, 2), Padded(10, t.day, 2), '-');
    JoinedPlain(Padded(10, t.hour, 2), Padded(10, t.minute, 2), Padded(10, t.second, 2), ':');
    hide DateText, ClockText;
  }

  lemma IdPlain(id: nat)
    requires id < Power(16, 32)
    ensures Plain(FormatId(id))
  {
    PaddedPlain(16, id, 32);
    NumberOfPadded(16, id, 32);
    hide Padded, Number, Power;
  }

  lemma BytesRoundTrip(s: string)
    requires Ascii(s)
    ensures FromBytes(ToBytes(s)) == s
  {
  }

  function CursorText(k: PageKey): (s: string)
    requires ValidKey(k)
    ensures Ascii(s)
  {
    InstantPlain(k.createdAt);
    IdPlain(k.id);
    FormatInstant(k.createdAt) + "|" + FormatId(k.id)
  }

  function EncodeCursor(k: PageKey): string
    requires ValidKey(k)
  {
    Encode(ToBytes(CursorText(k)))
  }

  /** No cursor starts at the first page; anything encodeCursor did not write is refused. */
  function DecodeCursor(s: string): Result<Option<PageKey>> {
    if s == "" then Ok(None)
    else match Decode(s)
      case None => Err(InvalidInput)
      case Some(raw) =>
        if !IsBytes(raw) then Err(InvalidInput)
        else match Cut(FromBytes(raw), '|')
          case None => Err(InvalidInput)
          case Some((ts, id)) =>
            match (ParseInstant(ts), ParseId(id))
            case (Some(createdAt), Some(parsed)) => Ok(Some(PageKey(createdAt, parsed)))
            case _ => Err(InvalidInput)
  }

  /** Every cursor a page hands out is non-empty and leads back to exactly the row it was made from. */
  lemma CursorRoundTrip(k: PageKey)
    requires ValidKey(k)
    ensures EncodeCursor(k) != ""
    ensures DecodeCursor(EncodeCursor(k)) == Ok(Some(k))
  {
    var text := CursorText(k);
    InstantPlain(k.createdAt);
    InstantRoundTrip(k.createdAt);
    IdRoundTrip(k.id);
    hide FormatInstant, FormatId, ParseInstant, ParseId, Power;
    RoundTrip(ToBytes(text));
    BytesRoundTrip(text);
    assert "|" == ['|'];
    CutAtFirst(FormatInstant(k.createdAt), '|', FormatId(k.id));
    assert Decode("") == Some([]);
    assert |ToBytes(text)| > 0;
  }
}
