/**
 * The application state (App.tsx): four collections held by the root
 * component and replaced wholesale by the page handlers. Each handler is a
 * method on `Store`; what it computes is the function of the same page's
 * module, and its contract states the whole new state.
 */
module App {
  import opened Seqs
  import opened Types
  import opened Sales
  import opened Purchases
  import opened Inventory
  import opened Customers

  /** `INITIAL_PRODUCTS`, money in centavos. */
  function SeedCatalog(): (ps: seq<Product>)
    ensures |ps| == 2 && ps[0].id == "1" && ps[1].id == "2"
    ensures UniqueIds(ps) && StocksNonNegative(ps)
  {
    [ Product("1", "ELET-001", "Smartphone Pro Max", Electronics, 350000, 500000, 12, "Tech Solutions", "2023-10-01"),
      Product("2", "HOME-005", "Luminária LED", Home, 4500, 9900, 5, "Decor Ltda", "2023-11-15") ]
  }

  /** With unique ids, taking stock where the check allowed it keeps the ids unique and every stock non-negative. */
  lemma SaleKeepsCatalogSound(products: seq<Product>, productId: string, quantity: int, saleId: string,
                              date: string, payment: PaymentMethod, selectedCustomer: string)
    requires UniqueIds(products) && StocksNonNegative(products)
    requires Checkout(products, productId, quantity, saleId, date, payment, selectedCustomer).Recorded?
    ensures UniqueIds(TakeFromStock(products, productId, quantity))
    ensures StocksNonNegative(TakeFromStock(products, productId, quantity))
  {
    SaleKeepsStocksNonNegative(products, productId, quantity, saleId, date, payment, selectedCustomer);
    TakeFromStockKeepsIds(products, productId, quantity);
  }

  /** Taking stock never changes an id. */
  lemma TakeFromStockKeepsIds(products: seq<Product>, productId: string, quantity: int)
    requires UniqueIds(products)
    ensures UniqueIds(TakeFromStock(products, productId, quantity))
  {
    var r := TakeFromStock(products, productId, quantity);
    assert forall k :: 0 <= k < |r| ==> r[k].id == products[k].id;
  }

  /** A restock never changes an id. */
  lemma RestockKeepsIds(products: seq<Product>, productId: string, quantity: int, unitCost: int, supplier: string)
    requires UniqueIds(products)
    ensures UniqueIds(Restock(products, productId, quantity, unitCost, supplier))
  {
    var r := Restock(products, productId, quantity, unitCost, supplier);
    assert forall k :: 0 <= k < |r| ==> r[k].id == products[k].id;
  }

  /** Deleting keeps the ids unique and the stocks non-negative, since what is left is a subsequence. */
  lemma RemoveKeepsCatalogSound(products: seq<Product>, id: string)
    requires UniqueIds(products) && StocksNonNegative(products)
    ensures UniqueIds(Remove(products, id)) && StocksNonNegative(Remove(products, id))
  {
    RemoveKeepsUniqueIds(products, id);
  }

  /** What is left after deleting from a catalog with unique ids has unique ids. */
  lemma {:induction false} RemoveKeepsUniqueIds(products: seq<Product>, id: string)
    requires UniqueIds(products)
    ensures UniqueIds(Remove(products, id))
    decreases |products|
  {
    if products != [] {
      var rest := products[1..];
      assert UniqueIds(rest);
      RemoveKeepsUniqueIds(rest, id);
      var keep := (p: Product) => p.id != id;
      assert Remove(products, id) == Filter(products, keep);
      assert Remove(rest, id) == Filter(rest, keep);
      if keep(products[0]) {
        assert Remove(products, id) == [products[0]] + Remove(rest, id);
        HeadIdFresh(products);
        UniqueIdsCons(products[0], Remove(rest, id));
      }
    }
  }

  /** With unique ids, no later product shares the first one's id. */
  lemma HeadIdFresh(products: seq<Product>)
    requires UniqueIds(products) && products != []
    ensures forall p :: p in products[1..] ==> p.id != products[0].id
  {
    forall p | p in products[1..] ensures p.id != products[0].id {
      var k :| 0 <= k < |products[1..]| && products[1..][k] == p;
      assert products[k + 1] == p;
    }
  }

  /** A product whose id is new, put in front of a catalog with unique ids, keeps them unique. */
  lemma UniqueIdsCons(h: Product, ps: seq<Product>)
    requires UniqueIds(ps)
    requires forall p :: p in ps ==> p.id != h.id
    ensures UniqueIds([h] + ps)
  {
    var r := [h] + ps;
    forall i, j | 0 <= i < j < |r| ensures r[i].id != r[j].id {
      assert r[j] == ps[j - 1];
      if i > 0 {
        assert r[i] == ps[i - 1];
      }
    }
  }

  class Store {
    var products: seq<Product>
    var sales: seq<Sale>
    var purchases: seq<Purchase>
    var customers: seq<Customer>

    /** The stock ledger is consistent: ids are unique and no stock is negative. */
    ghost predicate Sound()
      reads this
    {
      UniqueIds(products) && StocksNonNegative(products)
    }

    /** A first visit: nothing saved, so the seed catalog and empty logs. */
    constructor ()
      ensures products == SeedCatalog() && sales == [] && purchases == [] && customers == []
      ensures Sound()
    {
      products := SeedCatalog();
      sales := [];
      purchases := [];
      customers := [];
    }

    /** A later visit: the four collections as they were saved. */
    constructor Restore(products: seq<Product>, sales: seq<Sale>, purchases: seq<Purchase>, customers: seq<Customer>)
      ensures this.products == products && this.sales == sales
      ensures this.purchases == purchases && this.customers == customers
    {
      this.products := products;
      this.sales := sales;
      this.purchases := purchases;
      this.customers := customers;
    }

    /**
     * `handleNewSale`: nothing happens for an unknown product or a short
     * stock; otherwise the sale goes to the front of the log and its
     * quantity comes off the product's stock.
     */
    method RecordSale(productId: string, quantity: int, saleId: string, date: string, payment: PaymentMethod,
                      selectedCustomer: string) returns (outcome: SaleOutcome)
      modifies this
      ensures outcome == Checkout(old(products), productId, quantity, saleId, date, payment, selectedCustomer)
      ensures outcome.Recorded? ==>
        && sales == [outcome.sale] + old(sales)
        && products == TakeFromStock(old(products), productId, quantity)
      ensures !outcome.Recorded? ==> sales == old(sales) && products == old(products)
      ensures purchases == old(purchases) && customers == old(customers)
      ensures old(Sound()) ==> Sound()
    {
      outcome := Checkout(products, productId, quantity, saleId, date, payment, selectedCustomer);
      if outcome.Recorded? {
        if Sound() {
          SaleKeepsCatalogSound(products, productId, quantity, saleId, date, payment, selectedCustomer);
        }
        sales := [outcome.sale] + sales;
        products := TakeFromStock(products, productId, quantity);
      }
    }

    /**
     * `handleNewPurchase`: nothing happens for an unknown product;
     * otherwise the purchase goes to the front of the log and the product
     * is restocked at the new cost and supplier.
     */
    method RecordPurchase(productId: string, quantity: int, unitCost: int, purchaseId: string, date: string,
                          supplier: string) returns (recorded: Option<Purchase>)
      modifies this
      ensures recorded == Receive(old(products), purchaseId, productId, quantity, unitCost, date, supplier)
      ensures recorded.Some? ==>
        && purchases == [recorded.value] + old(purchases)
        && products == Restock(old(products), productId, quantity, unitCost, supplier)
      ensures recorded.None? ==> purchases == old(purchases) && products == old(products)
      ensures sales == old(sales) && customers == old(customers)
      ensures old(Sound()) && quantity >= 1 ==> Sound()
    {
      recorded := Receive(products, purchaseId, productId, quantity, unitCost, date, supplier);
      if recorded.Some? {
        if Sound() {
          RestockKeepsIds(products, productId, quantity, unitCost, supplier);
          if quantity >= 1 {
            RestockKeepsStocksNonNegative(products, productId, quantity, unitCost, supplier);
          }
        }
        purchases := [recorded.value] + purchases;
        products := Restock(products, productId, quantity, unitCost, supplier);
      }
    }

    /** `handleDelete`: once confirmed, every product with the id goes. */
    method DeleteProduct(id: string, confirmed: bool)
      modifies this
      ensures products == if confirmed then Remove(old(products), id) else old(products)
      ensures sales == old(sales) && purchases == old(purchases) && customers == old(customers)
      ensures old(Sound()) ==> Sound()
    {
      if confirmed {
        if Sound() {
          RemoveKeepsCatalogSound(products, id);
        }
        products := Remove(products, id);
      }
    }

    /**
     * `handleSave`: with a product being edited, every product with its id
     * takes the form's fields; otherwise a new product is appended under a
     * fresh id. Sales and purchases already recorded are left as they are.
     */
    method SaveProduct(editingId: Option<string>, form: ProductForm, freshId: string, today: string)
      modifies this
      ensures editingId.Some? ==> products == Edit(old(products), editingId.value, form, today)
      ensures editingId.None? ==> products == Add(old(products), form, freshId, today)
      ensures sales == old(sales) && purchases == old(purchases) && customers == old(customers)
      ensures old(UniqueIds(products)) && (editingId.Some? || forall p :: p in old(products) ==> p.id != freshId) ==>
        UniqueIds(products)
      ensures old(StocksNonNegative(products)) && form.stock >= 0 && editingId.None? ==> StocksNonNegative(products)
    {
      if editingId.Some? {
        if UniqueIds(products) {
          SaveKeepsUniqueIds(products, form, editingId.value, today);
        }
        products := Edit(products, editingId.value, form, today);
      } else {
        if UniqueIds(products) {
          SaveKeepsUniqueIds(products, form, freshId, today);
        }
        if StocksNonNegative(products) {
          AddStocksNonNegative(products, form, freshId, today);
        }
        products := Add(products, form, freshId, today);
      }
    }

    /** `handleAddCustomer`: one more customer at the end of the list. */
    method AddCustomer(freshId: string, name: string, email: string, phone: string)
      modifies this
      ensures customers == Append(old(customers), freshId, name, email, phone)
      ensures products == old(products) && sales == old(sales) && purchases == old(purchases)
    {
      customers := Append(customers, freshId, name, email, phone);
    }
  }

  /**
   * A first session on the seed catalog: selling 3 of the 12 smartphones
   * leaves 9; asking for 999 more is refused with the 9 available; buying 5
   * at a new cost brings the stock to 14 at that cost.
   */
  method FirstSession() returns (sold: SaleOutcome, refused: SaleOutcome, bought: Option<Purchase>, stock: int, cost: int)
    ensures sold.Recorded? && sold.sale.totalValue == 1500000 && sold.sale.profit == 450000
    ensures refused == InsufficientStock(9)
    ensures bought.Some? && bought.value.totalCost == 1800000
    ensures stock == 14 && cost == 360000
  {
    var store := new Store();
    sold := store.RecordSale("1", 3, "s1", "2024-05-01T10:00:00.000Z", Pix, "");
    assert store.products[0].stock == 9;
    refused := store.RecordSale("1", 999, "s2", "2024-05-01T10:05:00.000Z", Cash, "");
    bought := store.RecordPurchase("1", 5, 360000, "c1", "2024-05-02T09:00:00.000Z", "Tech Solutions");
    stock := store.products[0].stock;
    cost := store.products[0].purchasePrice;
  }
}
