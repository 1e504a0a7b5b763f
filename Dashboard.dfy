/**
 * The dashboard of the home page (`Index`): sales totals, today's and yesterday's sales, the
 * stock value, the low-stock count, the last seven days of sales, and the short list of
 * batches lowest on stock.
 */
module Dashboard {
  import opened Wrappers
  import opened Seqs
  import Db

  function BillTotal(b: Db.Bill): real
  {
    b.total
  }

  /** The summed totals of the bills dated in `[from, to)`. */
  function SalesIn(bills: seq<Db.Bill>, from: int, to: int): real
  {
    SumReal(Filter(bills, (b: Db.Bill) => from <= b.date < to), BillTotal)
  }

  /** The summed totals of the bills dated at or after `from`. */
  function SalesSince(bills: seq<Db.Bill>, from: int): real
  {
    SumReal(Filter(bills, (b: Db.Bill) => b.date >= from), BillTotal)
  }

  /** The number of bills dated at or after `from`. */
  function BillsSince(bills: seq<Db.Bill>, from: int): nat
  {
    |Filter(bills, (b: Db.Bill) => b.date >= from)|
  }

  /** What a stock entry is worth: price times quantity when its product is found, else 0. */
  function EntryValue(products: seq<Db.Product>, e: Db.StockEntry): real
  {
    match Db.FindProduct(products, e.item.productId)
    case Some(p) => p.price * e.item.quantity as real
    case None => 0.0
  }

  function InventoryValue(inventory: seq<Db.StockEntry>, products: seq<Db.Product>): real
  {
    SumReal(inventory, e => EntryValue(products, e))
  }

  function LowStockCount(inventory: seq<Db.StockEntry>): nat
  {
    |Filter(inventory, (e: Db.StockEntry) => Db.IsLowStock(e.item))|
  }

  /** The change badge of today's sales against yesterday's. */
  datatype Change = Change(percent: real, isPositive: bool)

  /**
   * No percentage without sales yesterday; otherwise the relative change in percent. The badge
   * is positive exactly when today's sales are at least yesterday's.
   */
  function ChangeOf(today: real, yesterday: real): (c: Change)
    ensures c.isPositive <==> today >= yesterday
    ensures yesterday == 0.0 ==> c.percent == 0.0
    ensures yesterday > 0.0 ==> (c.percent >= 0.0 <==> c.isPositive)
    ensures yesterday != 0.0 ==> c.percent * yesterday == (today - yesterday) * 100.0
  {
    Change(if yesterday != 0.0 then (today - yesterday) / yesterday * 100.0 else 0.0, today >= yesterday)
  }

  /** One bar of the sales chart: the day starting at `start` and its sales. */
  datatype DayBucket = DayBucket(start: int, sales: real)

  function BucketSales(d: DayBucket): real
  {
    d.sales
  }

  /** The start of the `k`-th day after the day starting at `from`. */
  function DayStart(from: int, k: nat): (t: int)
    ensures t >= from
    decreases k
  {
    if k == 0 then from else DayStart(from + Db.DAY, k - 1)
  }

  /** The bar of the day starting at `start`: that day's sales. */
  function DayBucketAt(bills: seq<Db.Bill>, start: int): DayBucket
  {
    DayBucket(start, SalesIn(bills, start, start + Db.DAY))
  }

  /** `bar` applied to `n` consecutive days from `from` on, oldest first. */
  function DaysFrom<T>(bar: int -> T, from: int, n: nat): (r: seq<T>)
    ensures |r| == n
  {
    seq(n, k requires 0 <= k < n => bar(DayStart(from, k)))
  }

  /** The first entry is the day at `from`; the others are the days from the next one on. */
  lemma DaysFromUnfold<T>(bar: int -> T, from: int, n: nat)
    requires n > 0
    ensures DaysFrom(bar, from, n) == [bar(from)] + DaysFrom(bar, from + Db.DAY, n - 1)
  {
    var b := DaysFrom(bar, from, n);
    var t := DaysFrom(bar, from + Db.DAY, n - 1);
    forall k | 0 <= k < n - 1
      ensures b[k + 1] == t[k]
    {
      assert DayStart(from, k + 1) == DayStart(from + Db.DAY, k);
    }
    assert b[0] == bar(DayStart(from, 0)) == bar(from);
    assert b[1..] == t;
    assert b == [b[0]] + b[1..];
  }

  function BarOf(bills: seq<Db.Bill>): int -> DayBucket
  {
    start => DayBucketAt(bills, start)
  }

  /** `n` consecutive day buckets from `from` on, oldest first. */
  function Buckets(bills: seq<Db.Bill>, from: int, n: nat): (r: seq<DayBucket>)
    ensures |r| == n
  {
    DaysFrom(BarOf(bills), from, n)
  }

  /** The stat cards and the chart. */
  datatype Stats = Stats(
    todaySales: real,
    todayBillCount: nat,
    change: Change,
    allSales: real,
    billCount: nat,
    inventoryValue: real,
    productCount: nat,
    lowStockCount: nat)

  datatype View = View(stats: Stats, chart: seq<DayBucket>)

  /**
   * The dashboard effect, with `todayStart` the local midnight that starts today. Nothing is
   * computed (the previous view stays) unless there are bills and products.
   */
  function ComputeDashboard(bills: seq<Db.Bill>, products: seq<Db.Product>, inventory: seq<Db.StockEntry>,
                            todayStart: int): (v: Option<View>)
    ensures v.Some? <==> |bills| > 0 && |products| > 0
    ensures v.Some? ==> |v.value.chart| == 7
  {
    if |bills| == 0 || |products| == 0 then None
    else
      var yesterdayStart := todayStart - Db.DAY;
      var todaySales := SalesSince(bills, todayStart);
      var yesterdaySales := SalesIn(bills, yesterdayStart, todayStart);
      Some(View(
        Stats(
          todaySales,
          BillsSince(bills, todayStart),
          ChangeOf(todaySales, yesterdaySales),
          SumReal(bills, BillTotal),
          |bills|,
          InventoryValue(inventory, products),
          |products|,
          LowStockCount(inventory)),
        Buckets(bills, todayStart - 6 * Db.DAY, 7)))
  }

  /**
   * No bill is counted both today and yesterday: today's bills and yesterday's together are
   * exactly the bills since yesterday's start.
   */
  lemma TodayAndYesterdayDisjoint(bills: seq<Db.Bill>, todayStart: int)
    ensures BillsSince(bills, todayStart) + |Filter(bills, (b: Db.Bill) => todayStart - Db.DAY <= b.date < todayStart)|
      == BillsSince(bills, todayStart - Db.DAY)
  {
    var y := todayStart - Db.DAY;
    FilterCountDisjoint(bills, (b: Db.Bill) => b.date >= todayStart, (b: Db.Bill) => y <= b.date < todayStart,
                        (b: Db.Bill) => b.date >= y);
  }

  /** The summed totals of the bills dated before `to`. */
  function SalesBefore(bills: seq<Db.Bill>, to: int): real
  {
    SumReal(Filter(bills, (b: Db.Bill) => b.date < to), BillTotal)
  }

  /**
   * The total-sales card is today's sales, plus yesterday's, plus everything older; today's
   * transactions are among all transactions.
   */
  lemma TotalSalesSplit(bills: seq<Db.Bill>, products: seq<Db.Product>, inventory: seq<Db.StockEntry>,
                        todayStart: int)
    requires |bills| > 0 && |products| > 0
    ensures var s := ComputeDashboard(bills, products, inventory, todayStart).value.stats;
      && s.allSales == s.todaySales + SalesIn(bills, todayStart - Db.DAY, todayStart)
                       + SalesBefore(bills, todayStart - Db.DAY)
      && s.todayBillCount <= s.billCount
  {
    var y := todayStart - Db.DAY;
    SumRealPartition(bills, (b: Db.Bill) => b.date >= y, (b: Db.Bill) => b.date < y, BillTotal);
    SalesSinceYesterday(bills, todayStart);
  }

  /** Adjacent windows add up: sales in `[a, b)` and in `[b, c)` are the sales in `[a, c)`. */
  lemma SalesInSplit(bills: seq<Db.Bill>, a: int, b: int, c: int)
    requires a <= b <= c
    ensures SalesIn(bills, a, b) + SalesIn(bills, b, c) == SalesIn(bills, a, c)
  {
    var f := (x: Db.Bill) => if a <= x.date < b then x.total else 0.0;
    var g := (x: Db.Bill) => if b <= x.date < c then x.total else 0.0;
    var h := (x: Db.Bill) => if a <= x.date < c then x.total else 0.0;
    SumRealFilter(bills, (x: Db.Bill) => a <= x.date < b, BillTotal, f);
    SumRealFilter(bills, (x: Db.Bill) => b <= x.date < c, BillTotal, g);
    SumRealFilter(bills, (x: Db.Bill) => a <= x.date < c, BillTotal, h);
    SumRealAdd(bills, f, g, h);
  }

  /** Sales since yesterday's start are yesterday's sales plus today's. */
  lemma SalesSinceYesterday(bills: seq<Db.Bill>, todayStart: int)
    ensures SalesSince(bills, todayStart - Db.DAY)
      == SalesIn(bills, todayStart - Db.DAY, todayStart) + SalesSince(bills, todayStart)
  {
    var y := todayStart - Db.DAY;
    var f := (x: Db.Bill) => if y <= x.date < todayStart then x.total else 0.0;
    var g := (x: Db.Bill) => if x.date >= todayStart then x.total else 0.0;
    var h := (x: Db.Bill) => if x.date >= y then x.total else 0.0;
    SumRealFilter(bills, (x: Db.Bill) => y <= x.date < todayStart, BillTotal, f);
    SumRealFilter(bills, (x: Db.Bill) => x.date >= todayStart, BillTotal, g);
    SumRealFilter(bills, (x: Db.Bill) => x.date >= y, BillTotal, h);
    SumRealAdd(bills, f, g, h);
  }

  /** The bars add up to the sales of the whole span they cover. */
  lemma {:induction false} BucketsSum(bills: seq<Db.Bill>, from: int, n: nat)
    ensures SumReal(Buckets(bills, from, n), BucketSales) == SalesIn(bills, from, DayStart(from, n))
    decreases n
  {
    if n == 0 {
      FilterNone(bills, (b: Db.Bill) => from <= b.date < from);
    } else {
      var next := from + Db.DAY;
      DaysFromUnfold(BarOf(bills), from, n);
      BucketsSum(bills, next, n - 1);
      SalesInSplit(bills, from, next, DayStart(next, n - 1));
    }
  }

  /** Later days start later: day `m` starts no earlier than day `k` ends. */
  lemma {:induction false} DayStartsIncrease(from: int, k: nat, m: nat)
    requires k < m
    ensures DayStart(from, k) + Db.DAY <= DayStart(from, m)
    decreases k
  {
    if k > 0 {
      DayStartsIncrease(from + Db.DAY, k - 1, m - 1);
    }
  }

  /** A bill falls into at most one bar of the chart. */
  lemma BucketOfBill(b: Db.Bill, from: int, k: nat, m: nat)
    requires k < m
    ensures !(DayStart(from, k) <= b.date < DayStart(from, k) + Db.DAY
              && DayStart(from, m) <= b.date < DayStart(from, m) + Db.DAY)
  {
    DayStartsIncrease(from, k, m);
  }

  /**
   * The seven bars are the six days before today and today, and add up to the sales of that
   * span; when no bill is dated after today ends, today's bar equals today's sales.
   */
  lemma ChartMatchesStats(bills: seq<Db.Bill>, products: seq<Db.Product>, inventory: seq<Db.StockEntry>,
                          todayStart: int)
    requires |bills| > 0 && |products| > 0
    ensures ComputeDashboard(bills, products, inventory, todayStart).value.chart[6].start == todayStart
    ensures var v := ComputeDashboard(bills, products, inventory, todayStart).value;
      SumReal(v.chart, BucketSales) == SalesIn(bills, todayStart - 6 * Db.DAY, todayStart + Db.DAY)
    ensures (forall i :: 0 <= i < |bills| ==> bills[i].date < todayStart + Db.DAY) ==>
      ComputeDashboard(bills, products, inventory, todayStart).value.chart[6].sales
        == ComputeDashboard(bills, products, inventory, todayStart).value.stats.todaySales
  {
    var from := todayStart - 6 * Db.DAY;
    assert DayStart(from, 7) == todayStart + Db.DAY by {
      assert DayStart(from, 7) == DayStart(from + Db.DAY, 6) == DayStart(from + 2 * Db.DAY, 5)
        == DayStart(from + 3 * Db.DAY, 4) == DayStart(from + 4 * Db.DAY, 3) == DayStart(from + 5 * Db.DAY, 2)
        == DayStart(from + 6 * Db.DAY, 1) == DayStart(from + 7 * Db.DAY, 0);
    }
    assert DayStart(from, 6) == todayStart by {
      assert DayStart(from, 6) == DayStart(from + Db.DAY, 5) == DayStart(from + 2 * Db.DAY, 4)
        == DayStart(from + 3 * Db.DAY, 3) == DayStart(from + 4 * Db.DAY, 2) == DayStart(from + 5 * Db.DAY, 1)
        == DayStart(from + 6 * Db.DAY, 0);
    }
    BucketsSum(bills, from, 7);
    if forall i :: 0 <= i < |bills| ==> bills[i].date < todayStart + Db.DAY {
      FilterAgree(bills, (b: Db.Bill) => todayStart <= b.date < todayStart + Db.DAY, (b: Db.Bill) => b.date >= todayStart);
    }
  }

  /**
   * The stock value counts only batches whose product is found: it is the value of those
   * batches, an unmatched batch adding 0.
   */
  lemma InventoryValueOfMatched(inventory: seq<Db.StockEntry>, products: seq<Db.Product>)
    ensures InventoryValue(inventory, products)
      == SumReal(Filter(inventory, (e: Db.StockEntry) => Db.FindProduct(products, e.item.productId).Some?),
                 e => EntryValue(products, e))
  {
    SumRealFilter(inventory, (e: Db.StockEntry) => Db.FindProduct(products, e.item.productId).Some?,
      e => EntryValue(products, e), e => EntryValue(products, e));
  }

  /** The low-stock card counts exactly the batches the low-stock inventory listing returns. */
  lemma LowStockCountMatchesListing(items: seq<Db.InventoryItem>, products: seq<Db.Product>)
    ensures LowStockCount(Db.FetchInventory(items, products, false)) == |Db.FetchInventory(items, products, true)|
    ensures LowStockCount(Db.FetchInventory(items, products, false)) <= |items|
  {
  }

  // ---------------------------------------------------------------- lowest stock

  predicate AscendingQuantity(s: seq<Db.StockEntry>)
  {
    forall i, j :: 0 <= i < j < |s| ==> s[i].item.quantity <= s[j].item.quantity
  }

  /** Inserts `e` before the first entry holding at least as much. */
  function InsertByQuantity(e: Db.StockEntry, s: seq<Db.StockEntry>): (r: seq<Db.StockEntry>)
    ensures multiset(r) == multiset(s) + multiset{e}
    ensures |r| == |s| + 1
    ensures r[0] == e || (s != [] && r[0] == s[0])
  {
    if s == [] then [e]
    else if e.item.quantity <= s[0].item.quantity then [e] + s
    else
      var rest := InsertByQuantity(e, s[1..]);
      assert s == [s[0]] + s[1..];
      assert multiset([s[0]] + rest) == multiset{s[0]} + multiset(rest);
      [s[0]] + rest
  }

  /** Inserting into an ascending list keeps it ascending. */
  lemma {:induction false} InsertKeepsAscending(e: Db.StockEntry, s: seq<Db.StockEntry>)
    requires AscendingQuantity(s)
    ensures AscendingQuantity(InsertByQuantity(e, s))
  {
    if s == [] {
    } else if e.item.quantity <= s[0].item.quantity {
      ConsAscending(e, s);
    } else {
      var rest := InsertByQuantity(e, s[1..]);
      assert AscendingQuantity(s[1..]) by {
        forall i, j | 0 <= i < j < |s[1..]|
          ensures s[1..][i].item.quantity <= s[1..][j].item.quantity
        {
          assert s[1..][i] == s[i + 1] && s[1..][j] == s[j + 1];
        }
      }
      InsertKeepsAscending(e, s[1..]);
      ConsAscending(s[0], rest);
    }
  }

  /** Putting an entry in front of an ascending list that starts no lower keeps it ascending. */
  lemma ConsAscending(x: Db.StockEntry, t: seq<Db.StockEntry>)
    requires AscendingQuantity(t)
    requires t == [] || x.item.quantity <= t[0].item.quantity
    ensures AscendingQuantity([x] + t)
  {
    var r := [x] + t;
    forall i, j | 0 <= i < j < |r|
      ensures r[i].item.quantity <= r[j].item.quantity
    {
      if i > 0 {
        assert r[i] == t[i - 1] && r[j] == t[j - 1];
      } else {
        assert r[j] == t[j - 1];
      }
    }
  }

  /** `sort((a, b) => a.quantity - b.quantity)`. */
  function SortByQuantity(s: seq<Db.StockEntry>): (r: seq<Db.StockEntry>)
    ensures AscendingQuantity(r)
    ensures multiset(r) == multiset(s)
  {
    if s == [] then []
    else
      assert s == [s[0]] + s[1..];
      InsertKeepsAscending(s[0], SortByQuantity(s[1..]));
      InsertByQuantity(s[0], SortByQuantity(s[1..]))
  }

  /** The five batches lowest on stock among those whose product is known. */
  function RecentInventory(inventory: seq<Db.StockEntry>): seq<Db.StockEntry>
  {
    Take(SortByQuantity(Filter(inventory, (e: Db.StockEntry) => e.product.Some?)), 5)
  }

  /**
   * The short list: at most five entries, each with a product, from the inventory, in
   * ascending quantity, and none holding more than any entry with a product that was left out.
   */
  lemma RecentInventoryLowest(inventory: seq<Db.StockEntry>)
    ensures var r := RecentInventory(inventory);
      var n := |Filter(inventory, (e: Db.StockEntry) => e.product.Some?)|;
      && |r| == (if n < 5 then n else 5)
      && AscendingQuantity(r)
      && (forall i :: 0 <= i < |r| ==> r[i].product.Some? && r[i] in inventory)
      && (forall i, e :: 0 <= i < |r| && e in inventory && e.product.Some? && e !in r ==>
            r[i].item.quantity <= e.item.quantity)
  {
    var withProduct := Filter(inventory, (e: Db.StockEntry) => e.product.Some?);
    var sorted := SortByQuantity(withProduct);
    var r := RecentInventory(inventory);
    assert r == sorted[..|r|];
    assert |multiset(sorted)| == |multiset(withProduct)|;
    ShortListEntries(inventory);
    PrefixAscending(sorted, |r|);
    forall e | e in inventory && e.product.Some? && e !in r
      ensures forall i :: 0 <= i < |r| ==> r[i].item.quantity <= e.item.quantity
    {
      assert e in withProduct;
      assert e in multiset(sorted);
      PrefixIsLowest(sorted, |r|, e);
    }
  }

  /** Every entry of the short list is a batch of the inventory whose product is known. */
  lemma ShortListEntries(inventory: seq<Db.StockEntry>)
    ensures var r := RecentInventory(inventory);
      forall i :: 0 <= i < |r| ==> r[i].product.Some? && r[i] in inventory
  {
    var withProduct := Filter(inventory, (e: Db.StockEntry) => e.product.Some?);
    var sorted := SortByQuantity(withProduct);
    var r := RecentInventory(inventory);
    forall i | 0 <= i < |r|
      ensures r[i].product.Some? && r[i] in inventory
    {
      assert r[i] == sorted[i];
      assert r[i] in multiset(withProduct);
    }
  }

  lemma PrefixAscending(s: seq<Db.StockEntry>, n: nat)
    requires AscendingQuantity(s) && n <= |s|
    ensures AscendingQuantity(s[..n])
  {
  }

  /** In an ascending list, the entries of a prefix hold no more than any entry after it. */
  lemma PrefixIsLowest(sorted: seq<Db.StockEntry>, n: nat, e: Db.StockEntry)
    requires AscendingQuantity(sorted) && n <= |sorted|
    requires e in sorted && e !in sorted[..n]
    ensures forall i :: 0 <= i < n ==> sorted[i].item.quantity <= e.item.quantity
  {
    var j :| 0 <= j < |sorted| && sorted[j] == e;
    assert forall k :: 0 <= k < n ==> sorted[k] == sorted[..n][k];
    assert j >= n;
  }
}
