/**
 * How the pages agree with one another: a sale or a purchase recorded on
 * one page moves the figures shown on the dashboard and the reports by
 * exactly its own amounts, and the stock badge of the catalog agrees with
 * the dashboard's alert counters.
 */
module Ledger {
  import opened Seqs
  import opened Types
  import opened Sales
  import opened Purchases
  import opened Inventory
  import opened Dashboard
  import opened Reports

  /** With unique ids, the product at `i` is the one `find` returns for its id. */
  lemma FoundAt(products: seq<Product>, i: nat)
    requires UniqueIds(products) && i < |products|
    ensures ProductById(products, products[i].id) == Some(products[i])
  {
    var k := ProductIndex(products, products[i].id).value;
    assert k == i;
  }

  /** With unique ids, taking stock from the product at `i` touches that one position only. */
  lemma TakeFromStockAt(products: seq<Product>, i: nat, quantity: int)
    requires UniqueIds(products) && i < |products|
    ensures TakeFromStock(products, products[i].id, quantity) ==
      products[i := products[i].(stock := products[i].stock - quantity)]
  {
    var r := TakeFromStock(products, products[i].id, quantity);
    forall k | 0 <= k < |products| ensures r[k] == products[i := products[i].(stock := products[i].stock - quantity)][k] {
      if k != i {
        assert products[k].id != products[i].id;
      }
    }
  }

  /** With unique ids, a restock of the product at `i` touches that one position only. */
  lemma RestockAt(products: seq<Product>, i: nat, quantity: int, unitCost: int, supplier: string)
    requires UniqueIds(products) && i < |products|
    ensures Restock(products, products[i].id, quantity, unitCost, supplier) ==
      products[i := products[i].(stock := products[i].stock + quantity, purchasePrice := unitCost, supplier := supplier)]
  {
    var r := Restock(products, products[i].id, quantity, unitCost, supplier);
    var p := products[i];
    forall k | 0 <= k < |products|
      ensures r[k] == products[i := p.(stock := p.stock + quantity, purchasePrice := unitCost, supplier := supplier)][k]
    {
      if k != i {
        assert products[k].id != p.id;
      }
    }
  }

  /** Taking stock from the product at `i` lowers the stock count by the quantity and the value by its cost. */
  lemma TakeFromStockTotals(products: seq<Product>, i: nat, quantity: int)
    requires UniqueIds(products) && i < |products|
    ensures var after := TakeFromStock(products, products[i].id, quantity);
      && StockCount(after) == StockCount(products) - quantity
      && InventoryValue(after) == InventoryValue(products) - quantity * products[i].purchasePrice
  {
    var p := products[i];
    TakeFromStockAt(products, i, quantity);
    var q := p.(stock := p.stock - quantity);
    SumOfUpdate(products, i, q, StockOf);
    SumOfUpdate(products, i, q, StockValue);
    assert StockValue(q) == StockValue(p) - quantity * p.purchasePrice by {
      assert (p.stock - quantity) * p.purchasePrice == p.stock * p.purchasePrice - quantity * p.purchasePrice;
    }
  }

  /**
   * A recorded sale takes its quantity off the stock count and its cost of
   * goods off the inventory value, and the inventory value falls by exactly
   * the sale's value minus its profit.
   */
  lemma SaleMovesStock(products: seq<Product>, i: nat, quantity: int, saleId: string,
                       date: string, payment: PaymentMethod, selectedCustomer: string)
    requires UniqueIds(products) && i < |products|
    requires Checkout(products, products[i].id, quantity, saleId, date, payment, selectedCustomer).Recorded?
    ensures var p := products[i];
      var sale := Checkout(products, p.id, quantity, saleId, date, payment, selectedCustomer).sale;
      var after := TakeFromStock(products, p.id, quantity);
      && StockCount(after) == StockCount(products) - quantity
      && InventoryValue(after) == InventoryValue(products) - quantity * p.purchasePrice
      && InventoryValue(products) - InventoryValue(after) == sale.totalValue - sale.profit
  {
    FoundAt(products, i);
    TakeFromStockTotals(products, i, quantity);
  }

  /** A new sale at the front of the log adds its value and profit to the all-time totals. */
  lemma NewSaleInTotals(s: Sale, sales: seq<Sale>)
    ensures TotalRevenue([s] + sales) == TotalRevenue(sales) + s.totalValue
    ensures TotalProfit([s] + sales) == TotalProfit(sales) + s.profit
    ensures forall id :: UnitsSold([s] + sales, id) == UnitsSold(sales, id) + if s.productId == id then s.quantity else 0
  {
    assert ([s] + sales)[1..] == sales;
    forall id ensures UnitsSold([s] + sales, id) == UnitsSold(sales, id) + if s.productId == id then s.quantity else 0 {
      UnitsSoldConcat([s], sales, id);
      UnitsSoldOne(s, id);
    }
  }

  /**
   * A purchase adds its quantity to the stock count, re-values the product's
   * whole stock at the new unit cost, and adds its cost to the investment.
   */
  lemma {:induction false} PurchaseMovesStock(products: seq<Product>, purchases: seq<Purchase>, i: nat,
                                              purchaseId: string, quantity: int, unitCost: int, date: string,
                                              supplier: string)
    requires UniqueIds(products) && i < |products|
    ensures var p := products[i];
      var after := Restock(products, p.id, quantity, unitCost, supplier);
      var bought := NewPurchase(purchaseId, p.id, quantity, unitCost, date, supplier);
      && StockCount(after) == StockCount(products) + quantity
      && InventoryValue(after) == InventoryValue(products) - p.stock * p.purchasePrice + (p.stock + quantity) * unitCost
      && TotalInvestment([bought] + purchases) == TotalInvestment(purchases) + quantity * unitCost
  {
    var p := products[i];
    RestockAt(products, i, quantity, unitCost, supplier);
    var q := p.(stock := p.stock + quantity, purchasePrice := unitCost, supplier := supplier);
    SumOfUpdate(products, i, q, StockOf);
    SumOfUpdate(products, i, q, StockValue);
    var bought := NewPurchase(purchaseId, p.id, quantity, unitCost, date, supplier);
    assert ([bought] + purchases)[1..] == purchases;
  }

  /**
   * For a product with non-negative stock, the catalog badge says "Sem
   * estoque" exactly when the dashboard counts it as out of stock and
   * "Baixo" exactly when it counts it as low. A negative stock is shown as
   * "Baixo" yet counted by neither.
   */
  lemma StatusMatchesAlerts(p: Product)
    ensures p.stock >= 0 ==> (Status(p.stock) == OutOfStock <==> IsOutOfStock(p))
    ensures p.stock >= 0 ==> (Status(p.stock) == Low <==> IsLowStock(p))
    ensures p.stock < 0 ==> Status(p.stock) == Low && !IsLowStock(p) && !IsOutOfStock(p) && NeedsAttention(p)
  {
  }
}
