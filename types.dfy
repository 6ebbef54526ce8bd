/**
 * The records of the store (types.ts): products, sales, purchases and
 * customers, and the two closed enumerations whose members are written as
 * Portuguese labels. Money is an integer number of centavos; stock and
 * quantities are integer unit counts. Every record carries a string id;
 * sales and purchases name their product only through `productId` and keep
 * their own totals, so nothing a later catalog change does can reach them.
 */
module Types {
  import opened Seqs

  datatype Category = Electronics | Clothing | Home | Beauty | Other

  function CategoryLabel(c: Category): string
  {
    match c
    case Electronics => "Eletrônicos"
    case Clothing => "Vestuário"
    case Home => "Casa"
    case Beauty => "Beleza"
    case Other => "Outros"
  }

  /** `Object.values(Category)`: every member once, in declaration order, under distinct labels. */
  function Categories(): (cs: seq<Category>)
    ensures |cs| == 5
    ensures forall c :: c in cs
    ensures forall i, j :: 0 <= i < j < |cs| ==> CategoryLabel(cs[i]) != CategoryLabel(cs[j])
  {
    var cs := [Electronics, Clothing, Home, Beauty, Other];
    assert forall c: Category :: c in cs <== c.Electronics? || c.Clothing? || c.Home? || c.Beauty? || c.Other?;
    cs
  }

  /** The member whose text the category select posts, if the string is one of them. */
  function CategoryOfLabel(text: string): (r: Option<Category>)
    ensures r.Some? ==> CategoryLabel(r.value) == text
    ensures r.None? ==> forall c :: CategoryLabel(c) != text
  {
    if text == "Eletrônicos" then Some(Electronics)
    else if text == "Vestuário" then Some(Clothing)
    else if text == "Casa" then Some(Home)
    else if text == "Beleza" then Some(Beauty)
    else if text == "Outros" then Some(Other)
    else None
  }

  lemma CategoryLabelRoundTrip(c: Category)
    ensures CategoryOfLabel(CategoryLabel(c)) == Some(c)
  {
  }

  datatype PaymentMethod = Cash | Transfer | Card | Pix

  function PaymentLabel(m: PaymentMethod): string
  {
    match m
    case Cash => "Dinheiro"
    case Transfer => "Transferência"
    case Card => "Cartão"
    case Pix => "PIX"
  }

  /** `Object.values(PaymentMethod)`: every member once, under distinct labels. */
  function PaymentMethods(): (ms: seq<PaymentMethod>)
    ensures |ms| == 4
    ensures forall m :: m in ms
    ensures forall i, j :: 0 <= i < j < |ms| ==> PaymentLabel(ms[i]) != PaymentLabel(ms[j])
  {
    var ms := [Cash, Transfer, Card, Pix];
    assert forall m: PaymentMethod :: m in ms <== m.Cash? || m.Transfer? || m.Card? || m.Pix?;
    ms
  }

  /** The member whose text the payment select posts, if the string is one of them. */
  function PaymentOfLabel(text: string): (r: Option<PaymentMethod>)
    ensures r.Some? ==> PaymentLabel(r.value) == text
    ensures r.None? ==> forall m :: PaymentLabel(m) != text
  {
    if text == "Dinheiro" then Some(Cash)
    else if text == "Transferência" then Some(Transfer)
    else if text == "Cartão" then Some(Card)
    else if text == "PIX" then Some(Pix)
    else None
  }

  lemma PaymentLabelRoundTrip(m: PaymentMethod)
    ensures PaymentOfLabel(PaymentLabel(m)) == Some(m)
  {
  }

  datatype Product = Product(
    id: string,
    sku: string,
    name: string,
    category: Category,
    purchasePrice: int,
    salePrice: int,
    stock: int,
    supplier: string,
    entryDate: string)

  /** A sale snapshots its totals; `customerId` is `None` for a walk-in customer. */
  datatype Sale = Sale(
    id: string,
    productId: string,
    quantity: int,
    totalValue: int,
    profit: int,
    date: string,
    paymentMethod: PaymentMethod,
    customerId: Option<string>)

  datatype Purchase = Purchase(
    id: string,
    productId: string,
    quantity: int,
    unitCost: int,
    totalCost: int,
    date: string,
    supplier: string)

  datatype Customer = Customer(id: string, name: string, email: string, phone: string)

  /** The field accessors the pages sum over. */
  function StockOf(p: Product): int { p.stock }
  function ValueOf(s: Sale): int { s.totalValue }
  function ProfitOf(s: Sale): int { s.profit }
  function QuantityOf(s: Sale): int { s.quantity }
  function CostOf(p: Purchase): int { p.totalCost }

  /** The first position holding the id, if any. */
  function ProductIndex(products: seq<Product>, id: string): (r: Option<nat>)
    ensures r.None? <==> forall p :: p in products ==> p.id != id
    ensures r.Some? ==> r.value < |products| && products[r.value].id == id
    ensures r.Some? ==> forall j :: 0 <= j < r.value ==> products[j].id != id
  {
    Find(products, (p: Product) => p.id == id)
  }

  /** The first product with the id, if any. */
  function ProductById(products: seq<Product>, id: string): (r: Option<Product>)
    ensures r.None? <==> forall p :: p in products ==> p.id != id
    ensures r.Some? ==> r.value in products && r.value.id == id
    ensures r.Some? ==>
      exists i :: 0 <= i < |products| && products[i] == r.value && forall j :: 0 <= j < i ==> products[j].id != id
  {
    match ProductIndex(products, id)
    case None => None
    case Some(i) => Some(products[i])
  }

  /** No two products share an id. */
  ghost predicate UniqueIds(products: seq<Product>)
  {
    forall i, j :: 0 <= i < j < |products| ==> products[i].id != products[j].id
  }

  /** Every product has a non-negative stock. */
  ghost predicate StocksNonNegative(products: seq<Product>)
  {
    forall p :: p in products ==> p.stock >= 0
  }
}
