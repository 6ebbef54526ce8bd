/**
 * Recording a sale (pages/Sales.tsx, `handleNewSale`): look the product up,
 * refuse the sale when the stock is short, otherwise snapshot its value and
 * profit from the product's current prices and take the quantity out of
 * stock. The store applies the outcome to its collections (store.dfy).
 */
module Sales {
  import opened Seqs
  import opened Strings
  import opened Types

  /** What one submission of the sale form leads to. */
  datatype SaleOutcome =
    | Recorded(sale: Sale)
    | UnknownProduct
    | InsufficientStock(available: int)

  /** The customer select posts "" for "Consumidor Final", which is recorded as no customer. */
  function CustomerRef(selected: string): (r: Option<string>)
    ensures r.None? <==> selected == ""
    ensures r.Some? ==> r.value == selected
  {
    if selected == "" then None else Some(selected)
  }

  /** The sale record built from the product `p` as it is at the moment of sale. */
  function NewSale(p: Product, saleId: string, quantity: int, date: string,
                   payment: PaymentMethod, selectedCustomer: string): (s: Sale)
    ensures s.id == saleId && s.productId == p.id && s.quantity == quantity
    ensures s.date == date && s.paymentMethod == payment
    ensures s.totalValue == quantity * p.salePrice
    ensures s.profit == s.totalValue - quantity * p.purchasePrice
    ensures s.customerId == CustomerRef(selectedCustomer)
  {
    Sale(saleId, p.id, quantity, p.salePrice * quantity,
         (p.salePrice - p.purchasePrice) * quantity, date, payment, CustomerRef(selectedCustomer))
  }

  /** The decision `handleNewSale` takes for one submission. */
  function Checkout(products: seq<Product>, productId: string, quantity: int, saleId: string,
                    date: string, payment: PaymentMethod, selectedCustomer: string): (o: SaleOutcome)
    ensures o.UnknownProduct? <==> forall p :: p in products ==> p.id != productId
    ensures o.InsufficientStock? <==>
      ProductById(products, productId).Some? && ProductById(products, productId).value.stock < quantity
    ensures o.InsufficientStock? ==> o.available == ProductById(products, productId).value.stock
    ensures o.Recorded? ==>
      && ProductById(products, productId).Some?
      && quantity <= ProductById(products, productId).value.stock
      && o.sale == NewSale(ProductById(products, productId).value, saleId, quantity, date, payment, selectedCustomer)
  {
    match ProductById(products, productId)
    case None => UnknownProduct
    case Some(p) =>
      if p.stock < quantity then InsufficientStock(p.stock)
      else Recorded(NewSale(p, saleId, quantity, date, payment, selectedCustomer))
  }

  /** Every product with the id loses the quantity; the others are left alone. */
  function TakeFromStock(products: seq<Product>, productId: string, quantity: int): (r: seq<Product>)
    ensures |r| == |products|
    ensures forall i :: 0 <= i < |products| && products[i].id != productId ==> r[i] == products[i]
    ensures forall i :: 0 <= i < |products| && products[i].id == productId ==>
      r[i].stock == products[i].stock - quantity && r[i].(stock := products[i].stock) == products[i]
  {
    seq(|products|, i requires 0 <= i < |products| =>
      if products[i].id == productId then products[i].(stock := products[i].stock - quantity) else products[i])
  }

  const ShortStockPrefix := "Estoque insuficiente! Apenas "
  const ShortStockSuffix := " disponíveis."

  /** The error text shown when the stock is short; between its fixed parts, the decimal numeral of the available stock. */
  function ShortStockMessage(available: int): (m: string)
    ensures |ShortStockPrefix| + |ShortStockSuffix| <= |m|
    ensures m[..|ShortStockPrefix|] == ShortStockPrefix
    ensures m[|m| - |ShortStockSuffix|..] == ShortStockSuffix
    ensures m[|ShortStockPrefix|..|m| - |ShortStockSuffix|] == Decimal(available)
    ensures DecimalValue(m[|ShortStockPrefix|..|m| - |ShortStockSuffix|]) == available
  {
    var m := ShortStockPrefix + Decimal(available) + ShortStockSuffix;
    assert m[|ShortStockPrefix|..|m| - |ShortStockSuffix|] == Decimal(available);
    DecimalRoundTrip(available);
    m
  }

  /** A sale the stock check lets through never takes a stock below zero, provided product ids are unique. */
  lemma {:induction false} SaleKeepsStocksNonNegative(products: seq<Product>, productId: string, quantity: int,
                                                      saleId: string, date: string, payment: PaymentMethod,
                                                      selectedCustomer: string)
    requires UniqueIds(products) && StocksNonNegative(products)
    requires Checkout(products, productId, quantity, saleId, date, payment, selectedCustomer).Recorded?
    ensures StocksNonNegative(TakeFromStock(products, productId, quantity))
  {
    var i := ProductIndex(products, productId).value;
    var r := TakeFromStock(products, productId, quantity);
    forall q | q in r ensures q.stock >= 0 {
      var k :| 0 <= k < |r| && r[k] == q;
      if products[k].id == productId {
        assert k == i;
      } else {
        assert products[k] in products;
      }
    }
  }

  /**
   * The stock check reads only the first product with the id, but the update
   * rewrites every product with it: with a duplicated id, a later copy can go
   * below zero.
   */
  lemma DuplicateIdCanGoNegative()
    ensures
      var a := Product("1", "A", "A", Other, 0, 0, 10, "", "");
      var b := Product("1", "B", "B", Other, 0, 0, 0, "", "");
      && Checkout([a, b], "1", 5, "s", "d", Cash, "").Recorded?
      && TakeFromStock([a, b], "1", 5)[1].stock == -5
  {
  }

  /** Selling the whole stock is allowed and leaves zero. */
  lemma {:induction false} SellingAllLeavesZero(products: seq<Product>, i: nat, saleId: string, date: string,
                                                payment: PaymentMethod, selectedCustomer: string)
    requires i < |products| && UniqueIds(products)
    ensures var p := products[i];
      && Checkout(products, p.id, p.stock, saleId, date, payment, selectedCustomer).Recorded?
      && TakeFromStock(products, p.id, p.stock)[i].stock == 0
  {
    var j := ProductIndex(products, products[i].id).value;
    assert j == i;
  }
}
