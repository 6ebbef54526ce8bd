/**
 * Recording a purchase (pages/Purchases.tsx, `handleNewPurchase`): for a
 * known product, build the purchase record and put the quantity into stock,
 * overwriting the product's cost and supplier with the new terms
 * (last purchase wins). There is no rejection path for a known product.
 */
module Purchases {
  import opened Seqs
  import opened Types

  /** The purchase record; its total is the unit cost times the quantity. */
  function NewPurchase(purchaseId: string, productId: string, quantity: int, unitCost: int,
                       date: string, supplier: string): (r: Purchase)
    ensures r.id == purchaseId && r.productId == productId && r.date == date && r.supplier == supplier
    ensures r.quantity == quantity && r.unitCost == unitCost
    ensures r.totalCost == quantity * unitCost
  {
    Purchase(purchaseId, productId, quantity, unitCost, unitCost * quantity, date, supplier)
  }

  /** The decision `handleNewPurchase` takes: nothing for an unknown product, otherwise the record. */
  function Receive(products: seq<Product>, purchaseId: string, productId: string, quantity: int,
                   unitCost: int, date: string, supplier: string): (r: Option<Purchase>)
    ensures r.None? <==> forall p :: p in products ==> p.id != productId
    ensures r.Some? ==> r.value == NewPurchase(purchaseId, productId, quantity, unitCost, date, supplier)
  {
    if ProductById(products, productId).None? then None
    else Some(NewPurchase(purchaseId, productId, quantity, unitCost, date, supplier))
  }

  /** Every product with the id gains the quantity and takes the new unit cost and supplier; the others are left alone. */
  function Restock(products: seq<Product>, productId: string, quantity: int, unitCost: int,
                   supplier: string): (r: seq<Product>)
    ensures |r| == |products|
    ensures forall i :: 0 <= i < |products| && products[i].id != productId ==> r[i] == products[i]
    ensures forall i :: 0 <= i < |products| && products[i].id == productId ==>
      && r[i].stock == products[i].stock + quantity
      && r[i].purchasePrice == unitCost
      && r[i].supplier == supplier
      && r[i].id == products[i].id && r[i].sku == products[i].sku && r[i].name == products[i].name
      && r[i].category == products[i].category && r[i].salePrice == products[i].salePrice
      && r[i].entryDate == products[i].entryDate
  {
    seq(|products|, i requires 0 <= i < |products| =>
      if products[i].id == productId
      then products[i].(stock := products[i].stock + quantity, purchasePrice := unitCost, supplier := supplier)
      else products[i])
  }

  /** With the form's minimum quantity of one, a purchase never takes a stock below zero. */
  lemma {:induction false} RestockKeepsStocksNonNegative(products: seq<Product>, productId: string, quantity: int,
                                                         unitCost: int, supplier: string)
    requires StocksNonNegative(products) && quantity >= 1
    ensures StocksNonNegative(Restock(products, productId, quantity, unitCost, supplier))
  {
    var r := Restock(products, productId, quantity, unitCost, supplier);
    forall q | q in r ensures q.stock >= 0 {
      var k :| 0 <= k < |r| && r[k] == q;
      assert products[k] in products;
    }
  }

  /** Two purchases in a row: the stock gains both quantities, the cost and supplier are the second's. */
  lemma LastPurchaseWins(products: seq<Product>, productId: string, q1: int, c1: int, s1: string,
                         q2: int, c2: int, s2: string, i: nat)
    requires i < |products| && products[i].id == productId
    ensures var r := Restock(Restock(products, productId, q1, c1, s1), productId, q2, c2, s2);
      && r[i].stock == products[i].stock + q1 + q2
      && r[i].purchasePrice == c2
      && r[i].supplier == s2
      && r[i].salePrice == products[i].salePrice
  {
  }
}
