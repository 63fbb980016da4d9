/** Reading a gateway amount such as "5000.00" through a 64-bit float
    (internal/adapter/outbound/gateway/midtrans/adapter.go). Rounding is to the nearest double, ties to
    even (section 4.3.1 of IEEE 754-2019). */
module FlexAmount {
  import opened Outcomes
  import opened Cursor

  const TWO_TO_52: nat := 0x10_0000_0000_0000
  const TWO_TO_53: nat := 0x20_0000_0000_0000
  const TWO_TO_63: nat := 0x8000_0000_0000_0000

  // ---------------------------------------------------------------- whole doubles

  /** n is a whole number with a significand of at most 53 bits. */
  ghost predicate IsDouble(n: nat) {
    exists m: nat, e: nat :: IsScaled(n, m, e)
  }

  predicate IsScaled(n: nat, m: nat, e: nat) {
    m < TWO_TO_53 && n == m * Power(2, e)
  }

  /** How many bits n has beyond 53. */
  function ExtraBits(n: nat): nat {
    if n < TWO_TO_53 then 0 else 1 + ExtraBits(n / 2)
  }

  /** The significand of the double a whole number is rounded to, in units of its last place. */
  function Significand(n: nat): nat {
    var ulp := Power(2, ExtraBits(n));
    PowerPositive(ExtraBits(n));
    Tie(n / ulp, n % ulp, ulp)
  }

  function Rounded(n: nat): nat {
    Significand(n) * Power(2, ExtraBits(n))
  }

  /** The significand chosen: the nearer one, or the even one of two that are equally near. */
  function Tie(q: nat, r: nat, ulp: nat): nat {
    if 2 * r < ulp || (2 * r == ulp && q % 2 == 0) then q else q + 1
  }

  lemma {:induction false} PowerPositive(e: nat)
    ensures Power(2, e) >= 1
  {
    if e > 0 {
      PowerPositive(e - 1);
    }
  }

  lemma {:induction false} PowerSum(a: nat, b: nat)
    ensures Power(2, a + b) == Power(2, a) * Power(2, b)
  {
    if a > 0 {
      PowerSum(a - 1, b);
      Reassociate(Power(2, a - 1), Power(2, b));
    }
  }

  lemma Reassociate(x: nat, y: nat)
    ensures 2 * (x * y) == (2 * x) * y
  {
  }

  lemma {:induction false} ExtraBitsBounds(n: nat)
    ensures n < TWO_TO_53 * Power(2, ExtraBits(n))
    ensures ExtraBits(n) > 0 ==> TWO_TO_52 * Power(2, ExtraBits(n)) <= n
  {
    if n >= TWO_TO_53 {
      ExtraBitsBounds(n / 2);
      assert Power(2, ExtraBits(n)) == 2 * Power(2, ExtraBits(n / 2));
    }
  }

  /** n lies between two neighbouring multiples of its last place, both with 53-bit significands. */
  lemma Bracket(n: nat)
    ensures Power(2, ExtraBits(n)) >= 1
    ensures var e := ExtraBits(n); var ulp := Power(2, e);
            && n == n / ulp * ulp + n % ulp && n % ulp < ulp
            && n / ulp < TWO_TO_53
            && (e > 0 ==> TWO_TO_52 <= n / ulp)
  {
    PowerPositive(ExtraBits(n));
    ExtraBitsBounds(n);
    QuotientBounds(n, Power(2, ExtraBits(n)));
  }

  lemma QuotientBounds(n: nat, ulp: nat)
    requires ulp >= 1 && n < TWO_TO_53 * ulp
    ensures n == n / ulp * ulp + n % ulp && n % ulp < ulp
    ensures n / ulp < TWO_TO_53
    ensures TWO_TO_52 * ulp <= n ==> TWO_TO_52 <= n / ulp
  {
    var q := n / ulp;
    assert n == q * ulp + n % ulp;
    if q >= TWO_TO_53 {
      Scale(TWO_TO_53, q, ulp);
    }
    if q + 1 <= TWO_TO_52 {
      Scale(q + 1, TWO_TO_52, ulp);
    }
  }

  lemma Scale(a: nat, b: nat, ulp: nat)
    requires a <= b
    ensures a * ulp <= b * ulp
  {
  }

  /** No double lies strictly between n's two neighbours. */
  lemma NoDoubleBetween(n: nat, d: nat)
    requires IsDouble(d)
    ensures var ulp := Power(2, ExtraBits(n)); ulp >= 1 && (d <= n / ulp * ulp || (n / ulp + 1) * ulp <= d)
  {
    Bracket(n);
    var m: nat, f: nat :| IsScaled(d, m, f);
    if ExtraBits(n) <= f {
      CoarseDouble(n / Power(2, ExtraBits(n)), ExtraBits(n), m, f);
    } else {
      FineDouble(n / Power(2, ExtraBits(n)), ExtraBits(n), m, f);
    }
  }

  /** A double with at least n's last place is one of its multiples. */
  lemma CoarseDouble(q: nat, e: nat, m: nat, f: nat)
    requires e <= f
    ensures m * Power(2, f) <= q * Power(2, e) || (q + 1) * Power(2, e) <= m * Power(2, f)
  {
    PowerSum(f - e, e);
    hide Power;
    assert Power(2, f) == Power(2, f - e) * Power(2, e);
    OnGrid(q, m, Power(2, f - e), Power(2, e), Power(2, f));
  }

  lemma OnGrid(q: nat, m: nat, a: nat, ulp: nat, x: nat)
    requires x == a * ulp
    ensures m * x <= q * ulp || (q + 1) * ulp <= m * x
  {
    Multiples(m, a, ulp);
    var w := m * a;
    if w <= q {
      Scale(w, q, ulp);
    } else {
      Scale(q + 1, w, ulp);
    }
  }

  /** A double with a smaller last place is below n's binade. */
  lemma FineDouble(q: nat, e: nat, m: nat, f: nat)
    requires f < e && m < TWO_TO_53 && TWO_TO_52 <= q
    ensures m * Power(2, f) <= q * Power(2, e)
  {
    PowerSum(e - 1 - f, f);
    PowerPositive(e - 1 - f);
    assert Power(2, e) == 2 * Power(2, e - 1);
    hide Power;
    Shrinks(Power(2, f), Power(2, e - 1 - f));
    Scale(m, TWO_TO_53, Power(2, f));
    Grow(Power(2, f), Power(2, e - 1));
    Scale(TWO_TO_52, q, Power(2, e));
  }

  lemma Multiples(m: nat, a: nat, ulp: nat)
    ensures m * (a * ulp) == (m * a) * ulp
  {
  }

  lemma Shrinks(x: nat, y: nat)
    requires y >= 1
    ensures x <= y * x
  {
  }

  lemma Grow(x: nat, y: nat)
    requires x <= y
    ensures TWO_TO_53 * x <= TWO_TO_52 * (2 * y)
  {
  }

  lemma RoundedIsDouble(n: nat)
    ensures IsDouble(Rounded(n))
  {
    Bracket(n);
    var e := ExtraBits(n);
    var ulp := Power(2, e);
    var m := Tie(n / ulp, n % ulp, ulp);
    if m < TWO_TO_53 {
      assert IsScaled(Rounded(n), m, e);
    } else {
      assert Power(2, e + 1) == 2 * ulp;
      assert IsScaled(Rounded(n), TWO_TO_52, e + 1);
    }
  }

  function Distance(a: nat, b: nat): nat {
    if a < b then b - a else a - b
  }

  /** Rounded is the nearest double. */
  lemma RoundedIsNearest(n: nat, d: nat)
    requires IsDouble(d)
    ensures Distance(n, Rounded(n)) <= Distance(n, d)
  {
    Bracket(n);
    NoDoubleBetween(n, d);
    var ulp := Power(2, ExtraBits(n));
    var q, r := n / ulp, n % ulp;
    assert (q + 1) * ulp == q * ulp + ulp;
  }

  /** Where two doubles are equally near, the chosen one has the even significand. */
  lemma TiesGoToEven(n: nat, d: nat)
    requires IsDouble(d) && d != Rounded(n) && Distance(n, d) == Distance(n, Rounded(n))
    ensures Significand(n) % 2 == 0
  {
    hide Power, ExtraBits, IsDouble;
    Bracket(n);
    NoDoubleBetween(n, d);
    var ulp := Power(2, ExtraBits(n));
    var q, r := n / ulp, n % ulp;
    NextMultiple(q, ulp);
    EvenTie(q * ulp, ulp, q, r, d);
  }

  lemma NextMultiple(q: nat, ulp: nat)
    ensures (q + 1) * ulp == q * ulp + ulp
  {
  }

  lemma EvenTie(low: nat, ulp: nat, q: nat, r: nat, d: nat)
    requires r < ulp && (d <= low || low + ulp <= d)
    requires var chosen := if Tie(q, r, ulp) == q then low else low + ulp;
             d != chosen && Distance(low + r, d) == Distance(low + r, chosen)
    ensures Tie(q, r, ulp) % 2 == 0
  {
  }

  /** A whole number survives rounding exactly when it is a double. */
  lemma UnchangedIffDouble(n: nat)
    ensures Rounded(n) == n <==> IsDouble(n)
  {
    RoundedIsDouble(n);
    if IsDouble(n) {
      RoundedIsNearest(n, n);
    }
  }

  // ---------------------------------------------------------------- amounts as text

  function Decimal(n: nat): string {
    if n < 10 then [DigitChar(n)] else Decimal(n / 10) + [DigitChar(n % 10)]
  }

  /** The gateway's text for n whole units. */
  function WholeText(n: nat): string {
    Decimal(n) + ".00"
  }

  /** The number a text of digits followed by ".00" stands for. */
  function ExactValue(text: string): Option<nat> {
    if |text| < 4 || text[|text| - 3..] != ".00" then None
    else Number(10, text[..|text| - 3])
  }

  /** ParseFloat, Round and the conversion to int64, on such texts; a float of 2^63 or more has no
      int64 the language specifies. */
  function Amount(text: string): Option<nat> {
    match ExactValue(text)
    case None => None
    case Some(n) => if Rounded(n) < TWO_TO_63 then Some(Rounded(n)) else None
  }

  lemma {:induction false} DecimalRoundTrip(n: nat)
    ensures Decimal(n) != "" && Number(10, Decimal(n)) == Some(n)
  {
    if n < 10 {
      DigitRoundTrip(10, n);
      NumberOfSnoc(10, "", DigitChar(n), 0, n);
      assert "" + [DigitChar(n)] == [DigitChar(n)];
    } else {
      DecimalRoundTrip(n / 10);
      DigitRoundTrip(10, n % 10);
      NumberOfSnoc(10, Decimal(n / 10), DigitChar(n % 10), n / 10, n % 10);
    }
  }

  /** The amount read from "n.00" is n exactly when n is a double. */
  lemma AmountIsExactIffDouble(n: nat)
    requires Rounded(n) < TWO_TO_63
    ensures Amount(WholeText(n)) == Some(n) <==> IsDouble(n)
  {
    DecimalRoundTrip(n);
    assert WholeText(n)[..|WholeText(n)| - 3] == Decimal(n);
    UnchangedIffDouble(n);
  }

  /** So every amount up to 2^53 comes back, and a truthful notification of it never mismatches. */
  lemma AmountsUpToTwoTo53(n: nat)
    requires n <= TWO_TO_53
    ensures Amount(WholeText(n)) == Some(n)
  {
    assert Power(2, 0) == 1 && Power(2, 1) == 2;
    if n < TWO_TO_53 {
      assert IsScaled(n, n, 0);
    } else {
      assert IsScaled(n, TWO_TO_52, 1);
    }
    UnchangedIffDouble(n);
    AmountIsExactIffDouble(n);
  }

  /** The next amount is read as its neighbour. */
  lemma TwoTo53IsTheLimit()
    ensures Amount(WholeText(TWO_TO_53 + 1)) == Some(TWO_TO_53)
  {
    var n := TWO_TO_53 + 1;
    DecimalRoundTrip(n);
    assert WholeText(n)[..|WholeText(n)| - 3] == Decimal(n);
    assert ExtraBits(n) == 1 + ExtraBits(TWO_TO_52);
    assert Power(2, 1) == 2 * Power(2, 0);
  }
}
