/**
 * The dashboard (pages/Dashboard.tsx): the summary figures, the sales of the
 * last seven days bucketed per day, and the "Atenção ao Estoque" panel.
 * Everything is read-only. The clock enters as `today`, a "YYYY-MM-DD"
 * string, or as a day number together with the function that writes a day
 * number as "YYYY-MM-DD".
 */
module Dashboard {
  import opened Seqs
  import opened Strings
  import opened Types

  function StockValue(p: Product): int { p.stock * p.purchasePrice }

  /** Σ stock × purchasePrice over the catalog. */
  function InventoryValue(products: seq<Product>): int { SumOf(products, StockValue) }

  /** Σ stock over the catalog. */
  function StockCount(products: seq<Product>): int { SumOf(products, StockOf) }

  /** The sales whose ISO timestamp starts with the given "YYYY-MM-DD" day. */
  function SalesOn(sales: seq<Sale>, day: string): (r: seq<Sale>)
    ensures forall s :: s in r ==> s in sales && StartsWith(s.date, day)
    ensures forall s :: s in sales && StartsWith(s.date, day) ==> s in r
    ensures IsSubsequence(r, sales)
    ensures forall s :: s in sales ==> multiset(r)[s] == if StartsWith(s.date, day) then multiset(sales)[s] else 0
  {
    Filter(sales, (s: Sale) => StartsWith(s.date, day))
  }

  function RevenueOn(sales: seq<Sale>, day: string): int { SumOf(SalesOn(sales, day), ValueOf) }
  function ProfitOn(sales: seq<Sale>, day: string): int { SumOf(SalesOn(sales, day), ProfitOf) }

  predicate InStock(p: Product) { p.stock != 0 }
  predicate IsLowStock(p: Product) { p.stock <= 5 && p.stock > 0 }
  predicate IsOutOfStock(p: Product) { p.stock == 0 }
  predicate NeedsAttention(p: Product) { p.stock <= 5 }

  datatype Stats = Stats(
    totalInventoryValue: int,
    totalStockCount: int,
    revenueToday: int,
    profitToday: int,
    lowStockAlerts: nat,
    outOfStockAlerts: nat)

  /**
   * The six summary cards. The two alert counters never count one product
   * twice, so together they count at most the whole catalog.
   */
  function ComputeStats(products: seq<Product>, sales: seq<Sale>, today: string): (st: Stats)
    ensures st.lowStockAlerts + st.outOfStockAlerts <= |products|
  {
    FilterDisjointUnion(products, IsLowStock, IsOutOfStock, (p: Product) => IsLowStock(p) || IsOutOfStock(p));
    Stats(InventoryValue(products), StockCount(products), RevenueOn(sales, today), ProfitOn(sales, today),
          |Filter(products, IsLowStock)|, |Filter(products, IsOutOfStock)|)
  }

  /** Products without stock add nothing to the inventory value. */
  lemma InventoryValueSkipsEmpty(products: seq<Product>)
    ensures InventoryValue(products) == InventoryValue(Filter(products, InStock))
  {
    SumOfDropsZeros(products, InStock, StockValue);
  }

  /** With non-negative stocks and costs the inventory value and the stock count are non-negative. */
  lemma TotalsNonNegative(products: seq<Product>)
    requires StocksNonNegative(products)
    requires forall p :: p in products ==> p.purchasePrice >= 0
    ensures InventoryValue(products) >= 0 && StockCount(products) >= 0
  {
    SumOfNonNegative(products, StockValue);
    SumOfNonNegative(products, StockOf);
  }

  /**
   * The two alert counters never count the same product, and when no stock is
   * negative they add up to the products with at most five units.
   */
  lemma AlertCountsPartition(products: seq<Product>, sales: seq<Sale>, today: string)
    requires StocksNonNegative(products)
    ensures var st := ComputeStats(products, sales, today);
      st.lowStockAlerts + st.outOfStockAlerts == |Filter(products, NeedsAttention)|
  {
    FilterDisjointUnion(products, IsLowStock, IsOutOfStock, NeedsAttention);
  }

  /** A day without sales yields zero revenue and zero profit. */
  lemma QuietDayIsZero(sales: seq<Sale>, day: string)
    requires forall s :: s in sales ==> !StartsWith(s.date, day)
    ensures RevenueOn(sales, day) == 0 && ProfitOn(sales, day) == 0
  {
  }

  /** A new sale at the front changes a day's figures by its own amounts exactly when its date is that day. */
  lemma {:induction false} NewSaleOnDay(s: Sale, sales: seq<Sale>, day: string)
    ensures RevenueOn([s] + sales, day) == RevenueOn(sales, day) + (if StartsWith(s.date, day) then s.totalValue else 0)
    ensures ProfitOn([s] + sales, day) == ProfitOn(sales, day) + (if StartsWith(s.date, day) then s.profit else 0)
  {
    assert ([s] + sales)[0] == s;
    assert ([s] + sales)[1..] == sales;
  }

  /** `days`: the last seven days, oldest first, ending today. */
  function WeekDays(today: int, isoDate: int -> string): (days: seq<string>)
    ensures |days| == 7
    ensures forall i :: 0 <= i < 7 ==> days[i] == isoDate(today - 6 + i)
    ensures days[6] == isoDate(today)
  {
    Reverse(seq(7, i => isoDate(today - i)))
  }

  /** The chart label of a day: the pieces after the year, joined by a slash, so no dash is left. */
  function DayLabel(day: string): (shown: string)
    ensures '-' !in shown
  {
    var pieces := Split(day, '-');
    JoinAvoids(pieces[1..], '/', '-');
    Join(pieces[1..], '/')
  }

  /** The label of "YYYY-MM-DD" is "MM/DD". */
  lemma DayLabelOfIsoDate(y: string, m: string, d: string)
    requires '-' !in y && '-' !in m && '-' !in d
    ensures DayLabel(y + "-" + m + "-" + d) == m + "/" + d
  {
    var xs := [y, m, d];
    assert Join(xs, '-') == y + "-" + m + "-" + d by {
      assert Join(xs[2..], '-') == d;
      assert Join(xs[1..], '-') == m + "-" + d;
    }
    SplitJoin(xs, '-');
    assert xs[1..] == [m, d];
    assert Join([m, d][1..], '/') == d;
  }

  /** One bar of the weekly chart: the day's label, revenue (`vendas`) and profit (`lucro`). */
  datatype Bucket = Bucket(name: string, revenue: int, profit: int)

  /** `salesData`: one bucket per day, in day order; a day without sales is a zero bucket, not a gap. */
  function WeeklySeries(days: seq<string>, sales: seq<Sale>): (r: seq<Bucket>)
    ensures |r| == |days|
    ensures forall i :: 0 <= i < |days| ==> r[i].name == DayLabel(days[i])
    ensures forall i :: 0 <= i < |days| ==>
      r[i].revenue == RevenueOn(sales, days[i]) && r[i].profit == ProfitOn(sales, days[i])
    ensures forall i :: 0 <= i < |days| && (forall s :: s in sales ==> !StartsWith(s.date, days[i])) ==>
      r[i].revenue == 0 && r[i].profit == 0
  {
    seq(|days|, i requires 0 <= i < |days| =>
      Bucket(DayLabel(days[i]), RevenueOn(sales, days[i]), ProfitOn(sales, days[i])))
  }

  /** The chart's last bar shows the same revenue and profit as the "today" cards. */
  lemma LastBucketIsToday(today: int, isoDate: int -> string, products: seq<Product>, sales: seq<Sale>)
    ensures var series := WeeklySeries(WeekDays(today, isoDate), sales);
      var st := ComputeStats(products, sales, isoDate(today));
      series[6].revenue == st.revenueToday && series[6].profit == st.profitToday
  {
  }

  /**
   * The low-stock panel: at most five products with at most five units, by
   * ascending stock, none listed more often than it occurs in the catalog; a
   * product left out has no less stock than any shown.
   */
  function AttentionList(products: seq<Product>): (r: seq<Product>)
    ensures |r| == Min(5, |Filter(products, NeedsAttention)|)
    ensures forall p :: p in r ==> p in products && p.stock <= 5
    ensures multiset(r) <= multiset(products)
    ensures SortedBy(r, StockOf)
    ensures forall p :: p in products && p.stock <= 5 ==> p in r || forall q :: q in r ==> q.stock <= p.stock
  {
    var candidates := Filter(products, NeedsAttention);
    assert multiset(candidates) <= multiset(products) by {
      forall p | p in multiset(candidates) ensures multiset(candidates)[p] <= multiset(products)[p] {
        assert p in products;
      }
    }
    Lowest(candidates, StockOf, 5)
  }
}
