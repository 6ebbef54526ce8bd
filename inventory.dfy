/**
 * Catalog maintenance (pages/Inventory.tsx): the case-insensitive search,
 * deleting by id, saving the product form as an edit or as a new product,
 * and the stock status badge. Nothing here checks the stock the form
 * carries, so this is the one path that can make a stock negative.
 */
module Inventory {
  import opened Seqs
  import opened Strings
  import opened Types

  /** The lower-cased term occurs in the lower-cased name, SKU or supplier. */
  predicate Matches(p: Product, term: string)
  {
    var t := ToLower(term);
    Includes(ToLower(p.name), t) || Includes(ToLower(p.sku), t) || Includes(ToLower(p.supplier), t)
  }

  /** `filteredProducts`: the matching products, in catalog order and with their repeats; an empty term lists them all. */
  function Search(products: seq<Product>, term: string): (r: seq<Product>)
    ensures forall p :: p in r ==> p in products && Matches(p, term)
    ensures forall p :: p in products && Matches(p, term) ==> p in r
    ensures IsSubsequence(r, products)
    ensures term == "" ==> r == products
    ensures forall p :: p in products ==> multiset(r)[p] == if Matches(p, term) then multiset(products)[p] else 0
  {
    assert term == "" ==> ToLower(term) == "";
    Filter(products, p => Matches(p, term))
  }

  /** The search does not distinguish the case of the Latin letters it lowers. */
  lemma SearchIgnoresCase(products: seq<Product>, term: string)
    ensures Search(products, ToLower(term)) == Search(products, term)
  {
    ToLowerIdempotent(term);
    FilterAgree(products, p => Matches(p, ToLower(term)), p => Matches(p, term));
  }

  /** `handleDelete` once confirmed: every product with the id goes, the others stay in order. */
  function Remove(products: seq<Product>, id: string): (r: seq<Product>)
    ensures forall p :: p in r ==> p in products && p.id != id
    ensures forall p :: p in products && p.id != id ==> p in r
    ensures IsSubsequence(r, products)
    ensures |r| + |Filter(products, (p: Product) => p.id == id)| == |products|
  {
    FilterComplement(products, (p: Product) => p.id != id, (p: Product) => p.id == id);
    Filter(products, (p: Product) => p.id != id)
  }

  /** The fields of the product form, as typed values. */
  datatype ProductForm = ProductForm(
    sku: string,
    name: string,
    category: Category,
    purchasePrice: int,
    salePrice: int,
    stock: int,
    supplier: string,
    entryDate: string)

  /** The product the form describes under `id`; an empty entry date becomes today. */
  function FromForm(form: ProductForm, id: string, today: string): (p: Product)
    ensures p.id == id
    ensures p.sku == form.sku && p.name == form.name && p.category == form.category
    ensures p.purchasePrice == form.purchasePrice && p.salePrice == form.salePrice
    ensures p.stock == form.stock && p.supplier == form.supplier
    ensures form.entryDate == "" ==> p.entryDate == today
    ensures form.entryDate != "" ==> p.entryDate == form.entryDate
  {
    Product(id, form.sku, form.name, form.category, form.purchasePrice, form.salePrice, form.stock,
            form.supplier, if form.entryDate == "" then today else form.entryDate)
  }

  /** `handleSave` when editing: the edited product takes the form's fields and keeps its id. */
  function Edit(products: seq<Product>, editingId: string, form: ProductForm, today: string): (r: seq<Product>)
    ensures |r| == |products|
    ensures forall i :: 0 <= i < |products| ==> r[i].id == products[i].id
    ensures forall i :: 0 <= i < |products| && products[i].id != editingId ==> r[i] == products[i]
    ensures forall i :: 0 <= i < |products| && products[i].id == editingId ==> r[i] == FromForm(form, editingId, today)
  {
    seq(|products|, i requires 0 <= i < |products| =>
      if products[i].id == editingId then FromForm(form, products[i].id, today) else products[i])
  }

  /** `handleSave` when adding: one new product at the end under a fresh id. */
  function Add(products: seq<Product>, form: ProductForm, freshId: string, today: string): (r: seq<Product>)
    ensures |r| == |products| + 1
    ensures r[..|products|] == products
    ensures r[|products|] == FromForm(form, freshId, today)
  {
    products + [FromForm(form, freshId, today)]
  }

  /** Adding keeps every stock non-negative exactly when the form's stock is. */
  lemma AddStocksNonNegative(products: seq<Product>, form: ProductForm, freshId: string, today: string)
    requires StocksNonNegative(products)
    ensures StocksNonNegative(Add(products, form, freshId, today)) <==> form.stock >= 0
  {
    var r := Add(products, form, freshId, today);
    assert r[|products|] in r;
    if form.stock >= 0 {
      forall q | q in r ensures q.stock >= 0 {
        var k :| 0 <= k < |r| && r[k] == q;
        if k < |products| { assert r[k] == products[k]; }
      }
    }
  }

  /** Editing an existing product to a negative stock breaks the invariant; a non-negative one keeps it. */
  lemma EditStocksNonNegative(products: seq<Product>, editingId: string, form: ProductForm, today: string)
    requires StocksNonNegative(products)
    requires exists p :: p in products && p.id == editingId
    ensures StocksNonNegative(Edit(products, editingId, form, today)) <==> form.stock >= 0
  {
    var r := Edit(products, editingId, form, today);
    var p :| p in products && p.id == editingId;
    var i :| 0 <= i < |products| && products[i] == p;
    assert r[i] in r;
    if form.stock >= 0 {
      forall q | q in r ensures q.stock >= 0 {
        var k :| 0 <= k < |r| && r[k] == q;
        assert products[k] in products;
      }
    }
  }

  /** A fresh id keeps the ids unique when adding; editing never changes an id. */
  lemma SaveKeepsUniqueIds(products: seq<Product>, form: ProductForm, id: string, today: string)
    requires UniqueIds(products)
    ensures (forall p :: p in products ==> p.id != id) ==> UniqueIds(Add(products, form, id, today))
    ensures UniqueIds(Edit(products, id, form, today))
  {
    if forall p :: p in products ==> p.id != id {
      var r := Add(products, form, id, today);
      forall i, j | 0 <= i < j < |r| ensures r[i].id != r[j].id {
        assert r[i] == products[i];
        if j < |products| { assert r[j] == products[j]; } else { assert products[i] in products; }
      }
    }
  }

  /** The stock badge of the catalog table: "Sem estoque", "Baixo" or "Normal". */
  datatype StockStatus = OutOfStock | Low | Normal

  /** Zero is out of stock, anything else up to five (negatives too) is low, above five is normal. */
  function Status(stock: int): (s: StockStatus)
    ensures s == OutOfStock <==> stock == 0
    ensures s == Low <==> stock != 0 && stock <= 5
    ensures s == Normal <==> stock > 5
  {
    if stock == 0 then OutOfStock else if stock <= 5 then Low else Normal
  }
}
