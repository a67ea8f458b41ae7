/** Money conversion of api/internal/enhancements/eh6_payments.go, over exact
    numbers: the rate table is in hundredths (1 MYR buys 30 hundredths of SGD). */
module Currency {
  import opened Text

  datatype Money = Money(amount: int, currency: string)

  function Upper(s: string): (r: string)
    ensures |r| == |s|
  {
    seq(|s|, i requires 0 <= i < |s| => if 'a' <= s[i] <= 'z' then ((s[i] as int) - 32) as char else s[i])
  }

  function Rates(): map<string, nat> {
    map["MYR" := 100, "SGD" := 30, "USD" := 22]
  }

  /** Go's conversion to int64 cuts towards zero. */
  function Truncated(x: real): int {
    if x >= 0.0 then x.Floor else -((-x).Floor)
  }

  /** Back to ringgit, then to the other currency. */
  function Converted(amount: int, rFrom: nat, rTo: nat): real
    requires rFrom > 0
  {
    var myr := amount as real / (rFrom as real / 100.0);
    myr * (rTo as real / 100.0)
  }

  /** Rounded half up, as long as the amount is not negative. */
  function Exchange(amount: int, rFrom: nat, rTo: nat): int
    requires rFrom > 0
  {
    Truncated(Converted(amount, rFrom, rTo) + 0.5)
  }

  function Convert(m: Money, currency: string): Money {
    var to, from := Upper(currency), Upper(m.currency);
    if from == to then m
    else if from !in Rates() || to !in Rates() || Rates()[from] == 0 then Money(m.amount, to)
    else Money(Exchange(m.amount, Rates()[from], Rates()[to]), to)
  }

  // ---- one exchange in whole numbers ----

  /** n is k / r, rounded half up. */
  predicate Nearest(n: int, k: int, r: nat) {
    2 * n * r <= 2 * k + r < 2 * (n + 1) * r
  }

  predicate IsRate(r: nat) {
    r == 100 || r == 30 || r == 22
  }

  /** The exact quotient, for the rates of the table. */
  lemma ExactExchange(amount: nat, rFrom: nat, rTo: nat, k: int)
    requires IsRate(rFrom) && IsRate(rTo) && k == amount * rTo
    ensures Converted(amount, rFrom, rTo) >= 0.0
    ensures Converted(amount, rFrom, rTo) * rFrom as real == k as real
  {
    var x := amount as real / (rFrom as real / 100.0);
    var y := Converted(amount, rFrom, rTo);
    if rFrom == 100 {
      assert x == amount as real;
    } else if rFrom == 30 {
      assert x * 0.3 == amount as real;
    } else {
      assert x * 0.22 == amount as real;
    }
    if rTo == 100 {
      assert y == x && k == amount * 100;
    } else if rTo == 30 {
      assert y == x * 0.3 && k == amount * 30;
    } else {
      assert y == x * 0.22 && k == amount * 22;
    }
  }

  lemma ScaledBounds(y: real, n: int, k: int, rFrom: nat)
    requires IsRate(rFrom) && y * rFrom as real == k as real
    requires n as real <= y + 0.5 < (n + 1) as real
    ensures 2 * n * rFrom <= 2 * k + rFrom < 2 * (n + 1) * rFrom
  {
    if rFrom == 100 {
      assert y * 100.0 == k as real;
    } else if rFrom == 30 {
      assert y * 30.0 == k as real;
    } else {
      assert y * 22.0 == k as real;
    }
  }

  lemma ExchangeNearest(amount: nat, rFrom: nat, rTo: nat, k: int)
    requires IsRate(rFrom) && IsRate(rTo) && k == amount * rTo
    ensures Exchange(amount, rFrom, rTo) >= 0 && Nearest(Exchange(amount, rFrom, rTo), k, rFrom)
  {
    hide Converted;
    var y := Converted(amount, rFrom, rTo);
    ExactExchange(amount, rFrom, rTo, k);
    ScaledBounds(y, (y + 0.5).Floor, k, rFrom);
  }

  function Gap(a: int, b: int): nat {
    if a >= b then a - b else b - a
  }

  /** There and back between two rates, in whole numbers. */
  lemma ThereAndBack(a: int, n: int, b: int, rFrom: nat, rTo: nat)
    requires IsRate(rFrom) && IsRate(rTo) && rFrom != rTo
    requires Nearest(n, a * rTo, rFrom) && Nearest(b, n * rFrom, rTo)
    ensures rFrom < rTo ==> b == a
    ensures Gap(a, b) <= 2
    ensures rFrom == 30 && rTo == 22 ==> Gap(a, b) <= 1
  {
    if rFrom == 100 {
      if rTo == 30 { assert a * rTo == a * 30; } else { assert a * rTo == a * 22; }
    } else if rFrom == 30 {
      if rTo == 100 { assert a * rTo == a * 100; } else { assert a * rTo == a * 22; }
    } else {
      if rTo == 100 { assert a * rTo == a * 100; } else { assert a * rTo == a * 30; }
    }
  }

  function RateOf(currency: string): nat
    requires currency in Rates()
  {
    Rates()[currency]
  }

  lemma Supported(currency: string)
    requires currency in Rates()
    ensures Upper(currency) == currency && IsRate(RateOf(currency))
  {
    if currency == "MYR" {
      assert Upper("MYR") == "MYR";
    } else if currency == "SGD" {
      assert Upper("SGD") == "SGD";
    } else {
      assert Upper("USD") == "USD";
    }
  }

  lemma SameRate(c: string, d: string)
    requires c in Rates() && d in Rates() && RateOf(c) == RateOf(d)
    ensures c == d
  {
  }

  /** What Convert does with a non-negative amount: nothing when the currencies
      are the same, the nearest whole number of the other unit when both are in
      the table, and the bare amount under the new name otherwise. */
  lemma ConvertNearest(m: Money, currency: string)
    requires m.amount >= 0
    ensures var to, from, r := Upper(currency), Upper(m.currency), Convert(m, currency);
            if from == to then r == m
            else if from in Rates() && to in Rates() then
              r.currency == to && Nearest(r.amount, m.amount * Rates()[to], Rates()[from])
            else r == Money(m.amount, to)
  {
    var to, from := Upper(currency), Upper(m.currency);
    if from != to && from in Rates() && to in Rates() {
      ExchangeNearest(m.amount, Rates()[from], Rates()[to], m.amount * Rates()[to]);
    }
  }

  /** Converting to another currency and back. */
  function RoundTrip(amount: int, from: string, to: string): int {
    Convert(Convert(Money(amount, from), to), from).amount
  }

  lemma RoundTripRates(amount: int, from: string, to: string)
    requires from in Rates() && to in Rates() && from != to
    ensures RoundTrip(amount, from, to) == Exchange(Exchange(amount, RateOf(from), RateOf(to)), RateOf(to),
                                                    RateOf(from))
  {
    hide Exchange, Upper;
    Supported(from);
    Supported(to);
  }

  /** For a non-negative amount the round trip is off by at most two units, by
      at most one between SGD and USD, and exact when the other unit is finer. */
  lemma RoundTripError(amount: nat, from: string, to: string)
    requires from in Rates() && to in Rates()
    ensures Gap(amount, RoundTrip(amount, from, to)) <= 2
    ensures from == "SGD" && to == "USD" ==> Gap(amount, RoundTrip(amount, from, to)) <= 1
    ensures RateOf(from) <= RateOf(to) ==> RoundTrip(amount, from, to) == amount
  {
    if from != to {
      hide Exchange, Nearest, Convert;
      var f, t := RateOf(from), RateOf(to);
      Supported(from);
      Supported(to);
      if f == t { SameRate(from, to); }
      RoundTripRates(amount, from, to);
      var n := Exchange(amount, f, t);
      ExchangeNearest(amount, f, t, amount * t);
      ExchangeNearest(n, t, f, n * f);
      ThereAndBack(amount, n, Exchange(n, t, f), f, t);
    }
  }

  lemma NearestUnique(n: int, k: int, r: nat, expected: int)
    requires r > 0 && Nearest(n, k, r) && Nearest(expected, k, r) && IsRate(r)
    ensures n == expected
  {
  }

  /** Two units of the coarser currency do not survive the way back. */
  lemma CoarserLoses(from: string, to: string) returns (amount: nat)
    requires from in Rates() && to in Rates() && RateOf(from) > RateOf(to)
    ensures RoundTrip(amount, from, to) != amount
  {
    hide Exchange, Convert;
    var f, t := RateOf(from), RateOf(to);
    Supported(from);
    Supported(to);
    amount := if f == 100 then 1 else 2;
    RoundTripRates(amount, from, to);
    var n := Exchange(amount, f, t);
    ExchangeNearest(amount, f, t, amount * t);
    NearestUnique(n, amount * t, f, if f == 100 then 0 else 1);
    ExchangeNearest(n, t, f, n * f);
    NearestUnique(Exchange(n, t, f), n * f, t, if f == 100 then 0 else 1);
  }

  /** The round trip is exact for every non-negative amount exactly when the
      other currency is not the coarser one. */
  lemma ExactIffFiner(from: string, to: string)
    requires from in Rates() && to in Rates()
    ensures (forall amount: nat :: RoundTrip(amount, from, to) == amount) <==> RateOf(from) <= RateOf(to)
  {
    hide RoundTrip, RateOf;
    if RateOf(from) <= RateOf(to) {
      forall amount: nat ensures RoundTrip(amount, from, to) == amount { RoundTripError(amount, from, to); }
    } else {
      var amount := CoarserLoses(from, to);
    }
  }

  // ---- the table itself ----

  /** The rates, as amounts that come out even: a ringgit buys 30 cents of a
      Singapore dollar and 22 cents of a US dollar. */
  lemma RinggitBuys(n: nat)
    ensures Convert(Money(100 * n, "MYR"), "SGD") == Money(30 * n, "SGD")
    ensures Convert(Money(100 * n, "MYR"), "USD") == Money(22 * n, "USD")
    ensures Convert(Money(30 * n, "SGD"), "MYR") == Money(100 * n, "MYR")
    ensures Convert(Money(22 * n, "USD"), "MYR") == Money(100 * n, "MYR")
    ensures Convert(Money(30 * n, "SGD"), "USD") == Money(22 * n, "USD")
    ensures Convert(Money(22 * n, "USD"), "SGD") == Money(30 * n, "SGD")
  {
    Supported("MYR");
    Supported("SGD");
    Supported("USD");
    ThreeNames();
    hide Exchange, Upper;
    EvenExchange(100 * n, 100, 30, 30 * n);
    EvenExchange(100 * n, 100, 22, 22 * n);
    EvenExchange(30 * n, 30, 100, 100 * n);
    EvenExchange(22 * n, 22, 100, 100 * n);
    EvenExchange(30 * n, 30, 22, 22 * n);
    EvenExchange(22 * n, 22, 30, 30 * n);
  }

  lemma ThreeNames()
    ensures "MYR" != "SGD" && "MYR" != "USD" && "SGD" != "USD"
    ensures RateOf("MYR") == 100 && RateOf("SGD") == 30 && RateOf("USD") == 22
  {
    assert "MYR"[0] == 'M' && "SGD"[0] == 'S' && "USD"[0] == 'U';
  }

  /** An exact quotient stays as it is. */
  lemma EvenExchange(amount: nat, rFrom: nat, rTo: nat, result: nat)
    requires IsRate(rFrom) && IsRate(rTo) && amount * rTo == result * rFrom
    ensures Exchange(amount, rFrom, rTo) == result
  {
    ExchangeNearest(amount, rFrom, rTo, amount * rTo);
    hide Exchange;
    var x := Exchange(amount, rFrom, rTo);
    assert 2 * x * rFrom <= 2 * result * rFrom + rFrom < 2 * (x + 1) * rFrom;
  }

  /** Codes are taken in either case. */
  lemma UpperPairs(k: nat)
    requires k < 26
    ensures Upper(["abcdefghijklmnopqrstuvwxyz"[k]]) == ["ABCDEFGHIJKLMNOPQRSTUVWXYZ"[k]]
    ensures Upper(["ABCDEFGHIJKLMNOPQRSTUVWXYZ"[k]]) == ["ABCDEFGHIJKLMNOPQRSTUVWXYZ"[k]]
  {
  }

  lemma UpperConcat(a: string, b: string)
    ensures Upper(a + b) == Upper(a) + Upper(b)
  {
  }
}
