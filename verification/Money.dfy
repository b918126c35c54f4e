/**
 Payout arithmetic.  USD amounts are whole cents, NGN columns are whole kobo, the exchange rate is
 in hundredths of a naira per dollar and the fee percentage in hundredths of a percent, which are
 the scales of the DECIMAL columns.  Before it is stored, every NGN figure is an exact number of
 millionths of a kobo; storing it in a DECIMAL(15,2) column rounds it half up.
 */
module Money {
  import opened Wrappers

  const MICRO := 1_000_000

  datatype FeeType = Fixed | Percentage

  /** The financial settings.  A missing fee or percentage is 0. */
  datatype Settings = Settings(rate: int, feeType: FeeType, fee: int, percentage: int)

  /** The bounds the settings DTO enforces. */
  predicate ValidSettings(s: Settings) {
    s.rate >= 0 && s.fee >= 0 && 0 <= s.percentage <= 10_000
  }

  /** What storing n/d in a column of whole units keeps: the nearest integer, a tie going up. */
  function Round(n: int, d: int): (r: int)
    requires d > 0
    ensures 2 * n - d < 2 * d * r <= 2 * n + d
  {
    (2 * n + d) / (2 * d)
  }

  /** The converted amount, before rounding. */
  function Gross(s: Settings, cents: int): int {
    cents * s.rate * 10_000
  }

  /** The processing fee, before rounding. */
  function Fee(s: Settings, cents: int): int {
    match s.feeType
    case Percentage => cents * s.rate * s.percentage
    case Fixed => s.fee * MICRO
  }

  function Net(s: Settings, cents: int): int {
    Gross(s, cents) - Fee(s, cents)
  }

  /** A payout request is refused unless this holds. */
  predicate Accepted(s: Settings, cents: int) {
    Net(s, cents) > 0
  }

  /** The four money columns of a payout row. */
  datatype Quote = Quote(amount: int, ngn: int, fee: int, net: int)

  function StoredNet(s: Settings, cents: int): int {
    Round(Net(s, cents), MICRO)
  }

  function QuoteFor(s: Settings, cents: int): Quote {
    Quote(cents, Round(Gross(s, cents), MICRO), Round(Fee(s, cents), MICRO), StoredNet(s, cents))
  }

  /**
   The exchange rate written at completion: stored NGN over stored USD, in a DECIMAL(10,4) column;
   none for an amount of 0, whose quotient is not a number.
   */
  function RecoveredRate(q: Quote): Option<int> {
    if q.amount == 0 then None
    else if q.amount > 0 then Some(Round(q.ngn * 10_000, q.amount))
    else Some(Round(-q.ngn * 10_000, -q.amount))
  }

  // ---------- What is accepted ----------

  lemma NothingForNoAmount(s: Settings, cents: int)
    requires ValidSettings(s) && cents <= 0
    ensures Net(s, cents) <= 0
  {
    assert cents * s.rate <= 0;
    if s.feeType == Percentage {
      assert Net(s, cents) == cents * s.rate * (10_000 - s.percentage);
    }
  }

  /** Under the settings bounds the net-amount guard alone forces a positive amount. */
  lemma AcceptedIsPositive(s: Settings, cents: int)
    requires ValidSettings(s) && Accepted(s, cents)
    ensures cents > 0
  {
    if cents <= 0 {
      NothingForNoAmount(s, cents);
    }
  }

  // ---------- Three columns rounded apart ----------

  lemma MultipleIsFar(d: int, e: int)
    requires d > 0
    ensures e >= 1 ==> d * e >= d
    ensures e <= -1 ==> d * e <= -d
  {
  }

  lemma RoundMultiple(k: int, d: int)
    requires d > 0
    ensures Round(k * d, d) == k
  {
    var e := Round(k * d, d) - k;
    MultipleIsFar(d, e);
    assert 2 * (d * e) == 2 * d * Round(k * d, d) - 2 * (k * d);
  }

  /** The stored columns add up to within one kobo, and exactly when the fee is fixed. */
  lemma QuoteAddsUp(s: Settings, cents: int)
    ensures var q := QuoteFor(s, cents);
            -1 <= q.ngn - q.fee - q.net <= 1 && (s.feeType == Fixed ==> q.ngn - q.fee == q.net)
  {
    if s.feeType == Fixed {
      RoundMultiple(s.fee, MICRO);
      assert 2 * Net(s, cents) + MICRO == 2 * Gross(s, cents) + MICRO + (-s.fee) * (2 * MICRO);
    }
  }

  // ---------- Splitting a payout ----------

  function Sum(xs: seq<int>): int {
    if xs == [] then 0 else Sum(xs[..|xs| - 1]) + xs[|xs| - 1]
  }

  function SumStoredNet(s: Settings, parts: seq<int>): int {
    if parts == [] then 0 else SumStoredNet(s, parts[..|parts| - 1]) + StoredNet(s, parts[|parts| - 1])
  }

  function SumNet(s: Settings, parts: seq<int>): int {
    if parts == [] then 0 else SumNet(s, parts[..|parts| - 1]) + Net(s, parts[|parts| - 1])
  }

  lemma {:induction false} StoredNetsNearNets(s: Settings, parts: seq<int>)
    ensures 2 * SumNet(s, parts) - |parts| * MICRO <= 2 * MICRO * SumStoredNet(s, parts)
         <= 2 * SumNet(s, parts) + |parts| * MICRO
    ensures |parts| > 0 ==> 2 * SumNet(s, parts) - |parts| * MICRO < 2 * MICRO * SumStoredNet(s, parts)
  {
    if parts == [] {
    } else {
      StoredNetsNearNets(s, parts[..|parts| - 1]);
    }
  }

  /** The fee is linear in the amount (percentage) or charged once per part (fixed). */
  lemma {:induction false} NetOfParts(s: Settings, parts: seq<int>)
    requires |parts| > 0
    ensures SumNet(s, parts) ==
            Net(s, Sum(parts)) - (if s.feeType == Fixed then (|parts| - 1) * s.fee * MICRO else 0)
  {
    var head, x := parts[..|parts| - 1], parts[|parts| - 1];
    if head == [] {
      assert Sum(parts) == x;
    } else {
      NetOfParts(s, head);
      var h := Sum(head);
      assert Sum(parts) == h + x;
      assert (h + x) * s.rate == h * s.rate + x * s.rate;
      assert (h + x) * s.rate * s.percentage == h * s.rate * s.percentage + x * s.rate * s.percentage;
      assert |parts| == |head| + 1;
      assert (|parts| - 1) * s.fee == (|head| - 1) * s.fee + s.fee;
    }
  }

  /**
   Splitting a payout into n accepted parts under the same settings never pays more than floor(n/2)
   kobo above the single payout; with a percentage fee it never pays more than that below either.
   */
  lemma SplitGain(s: Settings, parts: seq<int>)
    requires ValidSettings(s) && |parts| > 0
    requires forall i :: 0 <= i < |parts| ==> Accepted(s, parts[i])
    ensures Accepted(s, Sum(parts))
    ensures SumStoredNet(s, parts) - StoredNet(s, Sum(parts)) <= |parts| / 2
    ensures s.feeType == Percentage ==> SumStoredNet(s, parts) - StoredNet(s, Sum(parts)) >= -(|parts| / 2)
  {
    StoredNetsNearNets(s, parts);
    NetOfParts(s, parts);
    PositiveParts(s, parts);
    assert (|parts| - 1) * s.fee >= 0;
  }

  lemma {:induction false} PositiveParts(s: Settings, parts: seq<int>)
    requires forall i :: 0 <= i < |parts| ==> Accepted(s, parts[i])
    ensures SumNet(s, parts) >= |parts|
  {
    if parts == [] {
    } else {
      var head := parts[..|parts| - 1];
      assert forall i :: 0 <= i < |head| ==> head[i] == parts[i];
      PositiveParts(s, head);
    }
  }

  function Ones(n: nat): (xs: seq<int>)
    ensures |xs| == n && forall i :: 0 <= i < n ==> xs[i] == 1
  {
    seq(n, i => 1)
  }

  /** The bound is reached for every n: n one-cent parts at half a naira per dollar and no fee. */
  lemma {:induction false} SplitGainIsTight(n: nat)
    requires n > 0
    ensures var s := Settings(50, Percentage, 0, 0);
            && ValidSettings(s) && (forall i :: 0 <= i < n ==> Accepted(s, Ones(n)[i]))
            && SumStoredNet(s, Ones(n)) - StoredNet(s, Sum(Ones(n))) == n / 2
  {
    var s := Settings(50, Percentage, 0, 0);
    SumsOfOnes(n);
    assert Net(s, n) == n * 500_000;
  }

  lemma {:induction false} SumsOfOnes(n: nat)
    ensures Sum(Ones(n)) == n && SumStoredNet(Settings(50, Percentage, 0, 0), Ones(n)) == n
  {
    if n == 0 {
    } else {
      assert Ones(n)[..n - 1] == Ones(n - 1);
      SumsOfOnes(n - 1);
      assert Net(Settings(50, Percentage, 0, 0), 1) == 500_000;
    }
  }

  // ---------- The exchange rate recovered at completion ----------

  /**
   The stored NGN differs from amount times rate by at most half a kobo, so the recovered rate is
   within 1/(2c) naira per dollar of the rate in force (c = cents), plus half of the fourth decimal;
   it is exact when the rate is a whole number of naira.
   */
  lemma RateRecovered(s: Settings, cents: int)
    requires cents > 0
    ensures var q := QuoteFor(s, cents);
            && -50 <= 100 * q.ngn - cents * s.rate <= 50
            && RecoveredRate(q).Some?
            && -(cents + 10_000) <= 2 * cents * (RecoveredRate(q).value - 100 * s.rate) <= cents + 10_000
            && (s.rate % 100 == 0 ==> RecoveredRate(q) == Some(100 * s.rate))
  {
    var q := QuoteFor(s, cents);
    var x := RecoveredRate(q).value;
    var err := 100 * q.ngn - cents * s.rate;
    assert 2 * cents * (x - 100 * s.rate) == 2 * cents * x - 2 * q.ngn * 10_000 + 200 * err;
    if s.rate % 100 == 0 {
      var naira := s.rate / 100;
      assert Gross(s, cents) == cents * naira * MICRO;
      RoundMultiple(cents * naira, MICRO);
      assert q.ngn * 10_000 == (100 * s.rate) * cents;
      RoundMultiple(100 * s.rate, cents);
    }
  }
}
