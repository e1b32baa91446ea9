/**
  Replacement prices. Each boost pays at least floor(120 p / 100) = p + floor(p / 5), repeated
  without bound: a geometric lower bound that needs 5 wei to start, and a geometric upper bound
  when suggested prices are bounded.
*/
module Prices {
  import opened Watcher

  function Pow(b: nat, n: nat): nat {
    if n == 0 then 1 else b * Pow(b, n - 1)
  }

  /** A fifth more than the price before, rounded down, or twice the suggestion, whichever is more. */
  predicate Offers(price: nat, previous: nat, suggested: nat) {
    price >= previous + previous / 5 && price >= 2 * suggested && (price == previous + previous / 5 || price == 2 * suggested)
  }

  /** Every price is a boost of the one before it, on its own suggestion. */
  ghost predicate Ladder(prices: seq<nat>, suggestions: seq<nat>) {
    |suggestions| == |prices| && forall i :: 0 < i < |prices| ==> Offers(prices[i], prices[i-1], suggestions[i])
  }

  /** The bar is the old price and a fifth, rounded down; it is a replacement's 10% from 5 wei up, and stalls below. */
  lemma BarStalls(price: nat)
    ensures Bar(price) == price + price / 5
    ensures 10 * Bar(price) >= 11 * price <==> price >= 5 || price == 0
    ensures Bar(price) > price <==> price >= 5
  {
  }

  /** What a boost offers; it is 10% more, or more at all, exactly from 5 wei up or when the suggestion gives it. */
  lemma BoostStalls(price: nat, suggested: nat)
    ensures
      var offered := BoostedPrice(price, suggested);
      && offered >= price + price / 5 && offered >= 2 * suggested
      && (offered == price + price / 5 || offered == 2 * suggested)
      && (10 * offered >= 11 * price <==> price == 0 || price >= 5 || 20 * suggested >= 11 * price)
      && (offered > price <==> price >= 5 || 2 * suggested > price)
  {
    BarStalls(price);
  }

  /** k boosts multiply a price of 5 wei or more by at least 1.1^k, and every one raises it. */
  lemma {:induction false} LadderGrows(prices: seq<nat>, suggestions: seq<nat>, k: nat)
    requires Ladder(prices, suggestions) && k < |prices| && prices[0] >= 5
    ensures prices[k] >= 5 && Pow(10, k) * prices[k] >= Pow(11, k) * prices[0]
    ensures k > 0 ==> prices[k] > prices[k-1]
  {
    if k > 0 {
      LadderGrows(prices, suggestions, k - 1);
      assert Offers(prices[k], prices[k-1], suggestions[k]);
      Scale(Pow(11, k - 1), prices[0], Pow(10, k - 1), prices[k-1], 11, 10, prices[k]);
    }
  }

  /** With suggestions up to `cap`, the price after k boosts is at most 1.2^k times twice the cap. */
  lemma {:induction false} LadderCapped(prices: seq<nat>, suggestions: seq<nat>, cap: nat, k: nat)
    requires Ladder(prices, suggestions) && k < |prices| && prices[0] <= 2 * cap
    requires forall i :: 0 <= i < |suggestions| ==> suggestions[i] <= cap
    ensures Pow(5, k) * prices[k] <= Pow(6, k) * (2 * cap)
  {
    if k > 0 {
      LadderCapped(prices, suggestions, cap, k - 1);
      assert Offers(prices[k], prices[k-1], suggestions[k]);
      if prices[k] <= 2 * cap {
        PowLe(k);
        MulLe(Pow(5, k), prices[k], 2 * cap);
        MulLe(2 * cap, Pow(5, k), Pow(6, k));
      } else {
        ScaleDown(Pow(5, k - 1), prices[k-1], Pow(6, k - 1), 2 * cap, 5, 6, prices[k]);
      }
    }
  }

  lemma Scale(b: nat, q: nat, a: nat, p: nat, m: nat, n: nat, p': nat)
    requires b * q <= a * p && m * p <= n * p'
    ensures (m * b) * q <= (n * a) * p'
  {
    assert (m * b) * q == m * (b * q);
    MulLe(m, b * q, a * p);
    assert m * (a * p) == a * (m * p);
    MulLe(a, m * p, n * p');
    assert a * (n * p') == (n * a) * p';
  }

  lemma ScaleDown(a: nat, p: nat, b: nat, q: nat, m: nat, n: nat, p': nat)
    requires a * p <= b * q && m * p' <= n * p
    ensures (m * a) * p' <= (n * b) * q
  {
    assert (m * a) * p' == a * (m * p');
    MulLe(a, m * p', n * p);
    assert a * (n * p) == n * (a * p);
    MulLe(n, a * p, b * q);
    assert n * (b * q) == (n * b) * q;
  }

  lemma MulLe(a: nat, x: nat, y: nat)
    requires x <= y
    ensures a * x <= a * y && x * a <= y * a
  {
  }

  lemma {:induction false} PowLe(n: nat)
    ensures 1 <= Pow(5, n) <= Pow(6, n)
  {
    if n > 0 {
      PowLe(n - 1);
    }
  }

  /** The cap after k boosts holds, weaker, for any greater number. */
  lemma {:induction false} CapLater(price: nat, cap: nat, k: nat, e: nat)
    requires Pow(5, k) * price <= Pow(6, k) * cap && k <= e
    ensures Pow(5, e) * price <= Pow(6, e) * cap
    decreases e
  {
    if k < e {
      CapLater(price, cap, k, e - 1);
      ScaleDown(Pow(5, e - 1), price, Pow(6, e - 1), cap, 5, 6, price);
    }
  }
}
