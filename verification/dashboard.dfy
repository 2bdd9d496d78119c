/**
 * The sales aggregation behind GET /api/dashboard-stats: one pass over the
 * orders that sums their amounts into a total revenue and into per-day
 * buckets, then turns the buckets into the two index-aligned chart arrays
 * `labels` and `data`.
 *
 * The day label of an order (the locale-formatted "Mon D" string, which has
 * no year) is a parameter `dayLabel` of the aggregation, so nothing here
 * depends on how a date is formatted.
 */
module Dashboard {

  /** An order document, with the fields of the order schema. */
  datatype Order = Order(
    customerName: string,
    address: string,
    city: string,
    zip: string,
    totalAmount: real,
    items: seq<string>,  // the line items, opaque to the aggregation
    status: string,
    date: int)           // milliseconds since the epoch

  /** The chart series: `data[i]` is the revenue of the day `labels[i]`. */
  datatype Chart = Chart(labels: seq<string>, data: seq<real>)

  /** The JSON body the dashboard endpoint answers with. */
  datatype Stats = Stats(totalProducts: nat, totalOrders: nat, totalRevenue: real, chart: Chart)

  ghost predicate Distinct<T>(s: seq<T>) {
    forall i, j :: 0 <= i < j < |s| ==> s[i] != s[j]
  }

  // ---------------------------------------------------------------------
  // Specification functions

  /** The sum of the amounts of all orders, added up front to back. */
  function Revenue(orders: seq<Order>): real {
    if orders == [] then 0.0
    else Revenue(orders[..|orders| - 1]) + orders[|orders| - 1].totalAmount
  }

  /** The sum of the amounts of exactly those orders labelled `day`. */
  function DayTotal(orders: seq<Order>, dayLabel: Order -> string, day: string): real {
    if orders == [] then 0.0
    else
      var last := orders[|orders| - 1];
      DayTotal(orders[..|orders| - 1], dayLabel, day)
        + (if dayLabel(last) == day then last.totalAmount else 0.0)
  }

  /** The sum of a sequence of amounts. */
  function SumOf(amounts: seq<real>): real {
    if amounts == [] then 0.0 else SumOf(amounts[..|amounts| - 1]) + amounts[|amounts| - 1]
  }

  /** The position of the first order labelled `day`, or |orders| when there is none. */
  function FirstIndex(orders: seq<Order>, dayLabel: Order -> string, day: string): (k: nat)
    ensures k <= |orders|
    ensures k < |orders| ==> dayLabel(orders[k]) == day
    ensures forall j :: 0 <= j < k ==> dayLabel(orders[j]) != day
  {
    if orders == [] then 0
    else if dayLabel(orders[0]) == day then 0
    else
      var k := 1 + FirstIndex(orders[1..], dayLabel, day);
      assert forall j :: 1 <= j < k ==> orders[j] == orders[1..][j - 1];
      k
  }

  /**
   * The distinct day labels of the orders, each where it first occurs: the
   * keys of the buckets in the order the aggregation creates them.
   */
  function DayLabels(orders: seq<Order>, dayLabel: Order -> string): (labels: seq<string>)
    ensures Distinct(labels)
    ensures forall day :: day in labels <==> exists k :: 0 <= k < |orders| && dayLabel(orders[k]) == day
  {
    if orders == [] then []
    else
      var earlier := DayLabels(orders[..|orders| - 1], dayLabel);
      var day := dayLabel(orders[|orders| - 1]);
      assert forall k :: 0 <= k < |orders| - 1 ==> orders[k] == orders[..|orders| - 1][k];
      if day in earlier then earlier else earlier + [day]
  }

  /** The bucket totals of the given days, index for index. */
  function DayTotals(orders: seq<Order>, dayLabel: Order -> string, days: seq<string>): (totals: seq<real>)
    ensures |totals| == |days|
    ensures forall i :: 0 <= i < |days| ==> totals[i] == DayTotal(orders, dayLabel, days[i])
  {
    if days == [] then []
    else DayTotals(orders, dayLabel, days[..|days| - 1]) + [DayTotal(orders, dayLabel, days[|days| - 1])]
  }

  /** What the dashboard reports for the given orders and product count. */
  function Summary(orders: seq<Order>, totalProducts: nat, dayLabel: Order -> string): Stats {
    var labels := DayLabels(orders, dayLabel);
    Stats(totalProducts, |orders|, Revenue(orders), Chart(labels, DayTotals(orders, dayLabel, labels)))
  }

  // ---------------------------------------------------------------------
  // The aggregation loop

  /**
   * The `forEach` over the orders. `salesData` is the bucket object and
   * `keys` the order in which its properties were created, which is the
   * order `Object.keys` and `Object.values` list keys that are not array
   * indices in. The map has no inherited properties: labels are taken not
   * to be names of `Object.prototype` members.
   */
  method AccumulateSales(orders: seq<Order>, dayLabel: Order -> string)
    returns (totalRevenue: real, salesData: map<string, real>, keys: seq<string>)
    ensures totalRevenue == Revenue(orders)
    ensures keys == DayLabels(orders, dayLabel)
    ensures forall day :: day in salesData <==> day in keys
    ensures forall day :: day in salesData ==> salesData[day] == DayTotal(orders, dayLabel, day)
  {
    totalRevenue := 0.0;
    salesData := map[];
    keys := [];
    var i := 0;
    while i < |orders|
      invariant 0 <= i <= |orders|
      invariant totalRevenue == Revenue(orders[..i])
      invariant keys == DayLabels(orders[..i], dayLabel)
      invariant forall day :: day in salesData <==> day in keys
      invariant forall day :: day in salesData ==> salesData[day] == DayTotal(orders[..i], dayLabel, day)
    {
      var order := orders[i];
      OneMoreOrder(orders, i, dayLabel);
      totalRevenue := totalRevenue + order.totalAmount;
      var dateStr := dayLabel(order);
      if dateStr in salesData && salesData[dateStr] != 0.0 {
        salesData := salesData[dateStr := salesData[dateStr] + order.totalAmount];
      } else {
        if dateStr !in salesData {
          // assigning a new property appends it to the key order
          keys := keys + [dateStr];
        }
        salesData := salesData[dateStr := order.totalAmount];
      }
      i := i + 1;
    }
    assert orders[..|orders|] == orders;
  }

  /**
   * The body of the dashboard handler once the product count and the orders
   * have been fetched: the `forEach`, then `Object.keys` and `Object.values`
   * of the buckets as the chart.
   */
  method ComputeStats(orders: seq<Order>, totalProducts: nat, dayLabel: Order -> string)
    returns (stats: Stats)
    ensures stats == Summary(orders, totalProducts, dayLabel)
    ensures stats.totalOrders == |orders| && stats.totalRevenue == Revenue(orders)
    ensures |stats.chart.labels| == |stats.chart.data| && Distinct(stats.chart.labels)
  {
    var totalRevenue, salesData, keys := AccumulateSales(orders, dayLabel);
    var data := seq(|keys|, i requires 0 <= i < |keys| => salesData[keys[i]]);
    assert data == DayTotals(orders, dayLabel, keys);
    stats := Stats(totalProducts, |orders|, totalRevenue, Chart(keys, data));
  }

  // ---------------------------------------------------------------------
  // Properties of the specification

  /** A day no order is labelled with has an empty bucket. */
  lemma {:induction false} DayTotalOfUnseenDay(orders: seq<Order>, dayLabel: Order -> string, day: string)
    requires day !in DayLabels(orders, dayLabel)
    ensures DayTotal(orders, dayLabel, day) == 0.0
  {
    if orders != [] {
      var earlier := orders[..|orders| - 1];
      assert dayLabel(orders[|orders| - 1]) != day;
      DayTotalOfUnseenDay(earlier, dayLabel, day);
    }
  }

  /** What processing order `i` does to the specification of the prefix before it. */
  lemma OneMoreOrder(orders: seq<Order>, i: nat, dayLabel: Order -> string)
    requires i < |orders|
    ensures Revenue(orders[..i + 1]) == Revenue(orders[..i]) + orders[i].totalAmount
    ensures dayLabel(orders[i]) in DayLabels(orders[..i], dayLabel) ==>
      DayLabels(orders[..i + 1], dayLabel) == DayLabels(orders[..i], dayLabel)
    ensures dayLabel(orders[i]) !in DayLabels(orders[..i], dayLabel) ==>
      && DayLabels(orders[..i + 1], dayLabel) == DayLabels(orders[..i], dayLabel) + [dayLabel(orders[i])]
      && DayTotal(orders[..i], dayLabel, dayLabel(orders[i])) == 0.0
    ensures forall d ::
      DayTotal(orders[..i + 1], dayLabel, d)
        == DayTotal(orders[..i], dayLabel, d) + (if dayLabel(orders[i]) == d then orders[i].totalAmount else 0.0)
  {
    assert orders[..i + 1][..i] == orders[..i];
    if dayLabel(orders[i]) !in DayLabels(orders[..i], dayLabel) {
      DayTotalOfUnseenDay(orders[..i], dayLabel, dayLabel(orders[i]));
    }
  }

  /** One more order adds its amount to the bucket of its own day and to no other. */
  lemma {:induction false} AppendOrderTotals(orders: seq<Order>, order: Order, dayLabel: Order -> string, days: seq<string>)
    requires Distinct(days)
    ensures SumOf(DayTotals(orders + [order], dayLabel, days))
         == SumOf(DayTotals(orders, dayLabel, days)) + (if dayLabel(order) in days then order.totalAmount else 0.0)
  {
    if days != [] {
      var before := days[..|days| - 1];
      var day := days[|days| - 1];
      assert days == before + [day];
      assert Distinct(before);
      assert day !in before;
      assert (orders + [order])[..|orders|] == orders;
      AppendOrderTotals(orders, order, dayLabel, before);
      var now := DayTotals(orders + [order], dayLabel, days);
      var was := DayTotals(orders, dayLabel, days);
      assert now[..|now| - 1] == DayTotals(orders + [order], dayLabel, before);
      assert was[..|was| - 1] == DayTotals(orders, dayLabel, before);
    }
  }

  /** The day buckets partition the revenue: the chart data sums to the total. */
  lemma {:induction false} BucketsPartitionRevenue(orders: seq<Order>, totalProducts: nat, dayLabel: Order -> string)
    ensures var stats := Summary(orders, totalProducts, dayLabel);
      SumOf(stats.chart.data) == stats.totalRevenue
  {
    if orders != [] {
      var earlier := orders[..|orders| - 1];
      var last := orders[|orders| - 1];
      var day := dayLabel(last);
      var labels := DayLabels(earlier, dayLabel);
      assert orders == earlier + [last];
      BucketsPartitionRevenue(earlier, totalProducts, dayLabel);
      AppendOrderTotals(earlier, last, dayLabel, labels);
      if day !in labels {
        DayTotalOfUnseenDay(earlier, dayLabel, day);
        assert (earlier + [last])[..|earlier|] == earlier;
        var totals := DayTotals(orders, dayLabel, labels + [day]);
        assert (labels + [day])[..|labels|] == labels;
        assert totals[..|totals| - 1] == DayTotals(orders, dayLabel, labels);
      }
    }
  }

  /** An order that is a prefix's first with a given label stays the first. */
  lemma FirstIndexInPrefix(orders: seq<Order>, n: nat, dayLabel: Order -> string, day: string)
    requires n <= |orders|
    requires FirstIndex(orders[..n], dayLabel, day) < n
    ensures FirstIndex(orders, dayLabel, day) == FirstIndex(orders[..n], dayLabel, day)
  {
    var k := FirstIndex(orders[..n], dayLabel, day);
    assert orders[..n][k] == orders[k];
    assert forall j :: 0 <= j < k ==> orders[..n][j] == orders[j];
  }

  /**
   * `labels` is listed in the order in which each label first occurs among
   * the orders, and each of them does occur.
   */
  ghost predicate InFirstAppearanceOrder(orders: seq<Order>, dayLabel: Order -> string, labels: seq<string>) {
    && (forall i :: 0 <= i < |labels| ==> FirstIndex(orders, dayLabel, labels[i]) < |orders|)
    && (forall i, j :: 0 <= i < j < |labels| ==>
          FirstIndex(orders, dayLabel, labels[i]) < FirstIndex(orders, dayLabel, labels[j]))
  }

  /** The chart labels come in the order of their first occurrence. */
  lemma {:induction false} LabelsInFirstAppearanceOrder(orders: seq<Order>, dayLabel: Order -> string)
    ensures InFirstAppearanceOrder(orders, dayLabel, DayLabels(orders, dayLabel))
  {
    var labels := DayLabels(orders, dayLabel);
    forall i | 0 <= i < |labels|
      ensures FirstIndex(orders, dayLabel, labels[i]) < |orders|
    {
      assert labels[i] in labels;
      var k :| 0 <= k < |orders| && dayLabel(orders[k]) == labels[i];
    }
    if orders != [] {
      var n := |orders| - 1;
      var earlier := orders[..n];
      var day := dayLabel(orders[n]);
      var before := DayLabels(earlier, dayLabel);
      LabelsInFirstAppearanceOrder(earlier, dayLabel);
      assert InFirstAppearanceOrder(earlier, dayLabel, before);
      forall i | 0 <= i < |before|
        ensures FirstIndex(orders, dayLabel, before[i]) == FirstIndex(earlier, dayLabel, before[i]) < n
      {
        FirstIndexInPrefix(orders, n, dayLabel, before[i]);
      }
      if day !in before {
        forall j | 0 <= j < n ensures dayLabel(orders[j]) != day {
          assert orders[j] == earlier[j];
        }
        assert FirstIndex(orders, dayLabel, day) == n;
        assert labels == before + [day];
      }
      forall i, j | 0 <= i < j < |labels|
        ensures FirstIndex(orders, dayLabel, labels[i]) < FirstIndex(orders, dayLabel, labels[j])
      {
        assert labels[i] == before[i];
        if j < |before| {
          assert labels[j] == before[j];
        }
      }
    }
  }

  /** Revenue adds up over a concatenation. */
  lemma {:induction false} RevenueConcat(a: seq<Order>, b: seq<Order>)
    ensures Revenue(a + b) == Revenue(a) + Revenue(b)
  {
    if b == [] {
      assert a + b == a;
    } else {
      var front := b[..|b| - 1];
      assert (a + b)[..|a + b| - 1] == a + front;
      RevenueConcat(a, front);
    }
  }

  /** Taking one order out of a list takes its amount out of the revenue. */
  lemma RevenueWithout(b: seq<Order>, k: nat)
    requires k < |b|
    ensures Revenue(b) == Revenue(b[..k] + b[k + 1..]) + b[k].totalAmount
  {
    var left, x, right := b[..k], b[k], b[k + 1..];
    assert b == (left + [x]) + right;
    RevenueConcat(left, right);
    RevenueConcat(left + [x], right);
    RevenueConcat(left, [x]);
    assert [x][..0] == [];
  }

  /** Taking element k out of a sequence takes one copy of it out of its multiset. */
  lemma MultisetWithout<T>(b: seq<T>, k: nat)
    requires k < |b|
    ensures multiset(b[..k] + b[k + 1..]) == multiset(b) - multiset{b[k]}
  {
    assert b == b[..k] + [b[k]] + b[k + 1..];
  }

  /** The revenue does not depend on the order in which the orders come. */
  lemma {:induction false} RevenuePermutation(a: seq<Order>, b: seq<Order>)
    requires multiset(a) == multiset(b)
    ensures Revenue(a) == Revenue(b)
  {
    if a == [] {
      assert |b| == |multiset(b)| == 0;
    } else {
      var n := |a| - 1;
      assert a[n] in multiset(b);
      var k :| 0 <= k < |b| && b[k] == a[n];
      MultisetWithout(a, n);
      MultisetWithout(b, k);
      assert a[..n] + a[n + 1..] == a[..n];
      RevenuePermutation(a[..n], b[..k] + b[k + 1..]);
      RevenueWithout(b, k);
    }
  }

  /** With no orders the dashboard reports nothing sold and an empty chart. */
  lemma NoOrders(totalProducts: nat, dayLabel: Order -> string)
    ensures Summary([], totalProducts, dayLabel) == Stats(totalProducts, 0, 0.0, Chart([], []))
  {
  }

  // Three orders: two on the 23rd of November of different years, one on the 24th.
  const November23: Order := Order("Ann", "1 Main St", "Springfield", "11111", 100.0, [], "Pending", 1732363200000)
  const November23Earlier: Order := Order("Bob", "2 Main St", "Springfield", "11111", 50.0, [], "Pending", 1700740800000)
  const November24: Order := Order("Cy", "3 Main St", "Springfield", "11111", 75.0, [], "Shipped", 1732449600000)

  /**
   * Orders labelled alike share one bucket even when their years differ,
   * since the label has no year.
   */
  lemma SameDayDifferentYears(dayLabel: Order -> string)
    requires dayLabel(November23) == "Nov 23" && dayLabel(November23Earlier) == "Nov 23"
    requires dayLabel(November24) == "Nov 24"
    ensures Summary([November23, November23Earlier, November24], 10, dayLabel)
         == Stats(10, 3, 225.0, Chart(["Nov 23", "Nov 24"], [150.0, 75.0]))
  {
    var orders := [November23, November23Earlier, November24];
    var first, firstTwo := [November23], [November23, November23Earlier];
    assert orders[..2] == firstTwo && firstTwo[..1] == first && first[..0] == [];
    assert Revenue(first) == 100.0;
    assert Revenue(firstTwo) == 150.0;
    assert Revenue(orders) == 225.0;
    assert DayLabels(first, dayLabel) == ["Nov 23"];
    assert DayLabels(firstTwo, dayLabel) == ["Nov 23"];
    var labels := DayLabels(orders, dayLabel);
    assert labels == ["Nov 23", "Nov 24"];
    assert DayTotal(first, dayLabel, "Nov 23") == 100.0;
    assert DayTotal(firstTwo, dayLabel, "Nov 23") == 150.0;
    assert DayTotal(orders, dayLabel, "Nov 23") == 150.0;
    assert "Nov 23"[5] != "Nov 24"[5];
    assert DayTotal(first, dayLabel, "Nov 24") == 0.0;
    assert DayTotal(firstTwo, dayLabel, "Nov 24") == 0.0;
    assert DayTotal(orders, dayLabel, "Nov 24") == 75.0;
    assert labels[..1] == ["Nov 23"] && ["Nov 23"][..0] == [];
  }
}
