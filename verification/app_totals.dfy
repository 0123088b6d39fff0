/**
 * `calculateTotals` (subscription-frontend/src/App.jsx): the monthly-equivalent spend of the
 * listed subscriptions, and twelve times that as the annual spend. Amounts are exact reals.
 */
module AppTotals {
  import opened AppState

  /** The cycles that contribute to the totals. */
  const KnownCycles: set<string> := {"Monthly", "Yearly", "Weekly"}

  /** The average number of weeks in a month the source uses. */
  const WeeksPerMonth: real := 4.33

  /** What one subscription adds to the monthly total. */
  function Contribution(s: Subscription): (r: real)
    ensures s.billingCycle !in KnownCycles ==> r == 0.0
    ensures s.billingCycle in KnownCycles ==> (r > 0.0 <==> s.amount > 0.0) && (r == 0.0 <==> s.amount == 0.0)
    ensures s.billingCycle == "Monthly" ==> r == s.amount
    ensures s.billingCycle == "Yearly" ==> 12.0 * r == s.amount
    ensures s.billingCycle == "Weekly" ==> 100.0 * r == 433.0 * s.amount
  {
    if s.billingCycle == "Monthly" then s.amount
    else if s.billingCycle == "Yearly" then s.amount / 12.0
    else if s.billingCycle == "Weekly" then s.amount * WeeksPerMonth
    else 0.0
  }

  /** `subscriptions.reduce(..., 0)`: the running sum, accumulated from the first element to the last. */
  function Reduce(items: seq<Subscription>): real
    decreases |items|
  {
    if |items| == 0 then 0.0 else Reduce(items[..|items| - 1]) + Contribution(items[|items| - 1])
  }

  /** Reference definition: the sum of the contributions, head first. */
  function Sum(items: seq<Subscription>): real
    decreases |items|
  {
    if |items| == 0 then 0.0 else Contribution(items[0]) + Sum(items[1..])
  }

  datatype Totals = Totals(monthly: real, yearly: real)

  function CalculateTotals(items: seq<Subscription>): (t: Totals)
    ensures t.monthly == Sum(items)
    ensures t.yearly == 12.0 * t.monthly
  {
    ReduceIsSum(items);
    var monthly := Reduce(items);
    Totals(monthly, monthly * 12.0)
  }

  lemma {:induction false} SumAppend(a: seq<Subscription>, b: seq<Subscription>)
    ensures Sum(a + b) == Sum(a) + Sum(b)
    decreases |a|
  {
    if |a| == 0 {
      assert a + b == b;
    } else {
      assert (a + b)[1..] == a[1..] + b;
      SumAppend(a[1..], b);
    }
  }

  /** The left-to-right fold computes the sum of the contributions. */
  lemma {:induction false} ReduceIsSum(items: seq<Subscription>)
    ensures Reduce(items) == Sum(items)
    decreases |items|
  {
    if |items| > 0 {
      var init, last := items[..|items| - 1], items[|items| - 1];
      ReduceIsSum(init);
      SumAppend(init, [last]);
      assert init + [last] == items;
    }
  }

  /** The totals do not depend on the order in which the server lists the subscriptions. */
  lemma {:induction false} SumIgnoresOrder(a: seq<Subscription>, b: seq<Subscription>)
    requires multiset(a) == multiset(b)
    ensures Sum(a) == Sum(b)
    decreases |a|
  {
    if |a| > 0 {
      var x := a[0];
      assert x in multiset(b);
      var i :| 0 <= i < |b| && b[i] == x;
      var rest := b[..i] + b[i + 1..];
      assert b == b[..i] + [x] + b[i + 1..];
      assert a == [x] + a[1..];
      assert multiset(b) == multiset(b[..i]) + multiset{x} + multiset(b[i + 1..]);
      assert multiset(rest) == multiset(b[..i]) + multiset(b[i + 1..]);
      assert multiset(a) == multiset{x} + multiset(a[1..]);
      assert multiset(a[1..]) == multiset(a) - multiset{x};
      assert multiset(rest) == multiset(b) - multiset{x};
      SumIgnoresOrder(a[1..], rest);
      SumAppend(b[..i] + [x], b[i + 1..]);
      SumAppend(b[..i], [x]);
      SumAppend(b[..i], b[i + 1..]);
    }
  }

  /** With no negative amounts, neither total is negative. */
  lemma {:induction false} TotalsNonNegative(items: seq<Subscription>)
    requires forall k :: 0 <= k < |items| ==> items[k].amount >= 0.0
    ensures Sum(items) >= 0.0
    ensures CalculateTotals(items).monthly >= 0.0 && CalculateTotals(items).yearly >= 0.0
    decreases |items|
  {
    if |items| > 0 {
      TotalsNonNegative(items[1..]);
    }
  }

  /** A yearly subscription of 12, a monthly one of 100 and a weekly one of 10 come to 144.30 a month, 1731.60 a year. */
  lemma ProrationExample(yearly: Subscription, monthly: Subscription, weekly: Subscription)
    requires yearly.billingCycle == "Yearly" && yearly.amount == 12.0
    requires monthly.billingCycle == "Monthly" && monthly.amount == 100.0
    requires weekly.billingCycle == "Weekly" && weekly.amount == 10.0
    ensures CalculateTotals([yearly, monthly, weekly]) == Totals(144.3, 1731.6)
  {
    var items := [yearly, monthly, weekly];
    assert items[1..] == [monthly, weekly];
    assert items[1..][1..] == [weekly];
    assert [weekly][1..] == [];
    assert Sum([weekly]) == 43.3;
    assert Sum([monthly, weekly]) == 143.3;
    assert Sum(items) == 144.3;
  }

  /** An item with an unrecognised cycle ("Biannual") leaves the totals as they were without it. */
  lemma UnknownCycleIsIgnored(items: seq<Subscription>, odd: Subscription)
    requires odd.billingCycle !in KnownCycles
    ensures CalculateTotals(items + [odd]) == CalculateTotals(items)
  {
    SumAppend(items, [odd]);
    assert [odd][1..] == [];
  }
}
