/**
 * The reports page (pages/Reports.tsx): the all-time totals, the units sold
 * per product (built by a loop over the sales), the five best sellers, the
 * average margin and the text of the CSV export.
 */
module Reports {
  import opened Seqs
  import opened Strings
  import opened Types

  /** Σ totalValue over every sale. */
  function TotalRevenue(sales: seq<Sale>): int { SumOf(sales, ValueOf) }

  /** Σ profit over every sale. */
  function TotalProfit(sales: seq<Sale>): int { SumOf(sales, ProfitOf) }

  /** Σ totalCost over every purchase. */
  function TotalInvestment(purchases: seq<Purchase>): int { SumOf(purchases, CostOf) }

  /** The ids of the products that appear in at least one sale. */
  ghost function SoldIds(sales: seq<Sale>): set<string>
  {
    set s | s in sales :: s.productId
  }

  /** The units sold of one product over all its sales. */
  function UnitsSold(sales: seq<Sale>, id: string): int
  {
    SumOf(Filter(sales, (s: Sale) => s.productId == id), QuantityOf)
  }

  /** Units sold over two runs of sales add up. */
  lemma UnitsSoldConcat(a: seq<Sale>, b: seq<Sale>, id: string)
    ensures UnitsSold(a + b, id) == UnitsSold(a, id) + UnitsSold(b, id)
  {
    FilterConcat(a, b, (s: Sale) => s.productId == id);
    SumOfConcat(Filter(a, (s: Sale) => s.productId == id), Filter(b, (s: Sale) => s.productId == id), QuantityOf);
  }

  /** One sale counts its quantity towards its own product only. */
  lemma UnitsSoldOne(x: Sale, id: string)
    ensures UnitsSold([x], id) == if x.productId == id then x.quantity else 0
  {
    var f := Filter([x], (s: Sale) => s.productId == id);
    assert UnitsSold([x], id) == SumOf(f, QuantityOf);
    if x.productId == id {
      assert f == [x];
      assert SumOf(f, QuantityOf) == QuantityOf(x) + SumOf(f[1..], QuantityOf);
      assert f[1..] == [];
    } else {
      assert f == [];
    }
  }

  /** Appending a sale adds its product to the sold ids. */
  lemma SoldIdsAfter(xs: seq<Sale>, x: Sale)
    ensures SoldIds(xs + [x]) == SoldIds(xs) + {x.productId}
  {
  }

  /** A product that was never sold has sold no units. */
  lemma UnsoldIsZero(sales: seq<Sale>, id: string)
    requires id !in SoldIds(sales)
    ensures UnitsSold(sales, id) == 0
  {
    assert forall s :: s in sales ==> s.productId != id;
  }

  /** `totals` holds, for each product sold in `xs` and no other, its units sold. */
  ghost predicate Grouped(totals: map<string, int>, xs: seq<Sale>)
  {
    && totals.Keys == SoldIds(xs)
    && forall id :: id in totals ==> totals[id] == UnitsSold(xs, id)
  }

  /** One turn of the grouping loop: the sale's quantity goes to its product's entry, created at zero. */
  lemma GroupStep(xs: seq<Sale>, x: Sale, totals: map<string, int>)
    requires Grouped(totals, xs)
    ensures Grouped(totals[x.productId := (if x.productId in totals then totals[x.productId] else 0) + x.quantity], xs + [x])
  {
    var next := totals[x.productId := (if x.productId in totals then totals[x.productId] else 0) + x.quantity];
    SoldIdsAfter(xs, x);
    forall id | id in next ensures next[id] == UnitsSold(xs + [x], id) {
      GroupEntry(xs, x, totals, id);
    }
  }

  /** The entry of one id after the loop step. */
  lemma GroupEntry(xs: seq<Sale>, x: Sale, totals: map<string, int>, id: string)
    requires totals.Keys == SoldIds(xs)
    requires id in totals ==> totals[id] == UnitsSold(xs, id)
    requires id in totals || id == x.productId
    ensures totals[x.productId := (if x.productId in totals then totals[x.productId] else 0) + x.quantity][id]
      == UnitsSold(xs + [x], id)
  {
    var known := id in totals;
    GroupStepAt(xs, x, id, known, if known then totals[id] else 0);
  }

  /** One entry of the loop step: the sale's own product gains its quantity, every other entry stays. */
  lemma GroupStepAt(xs: seq<Sale>, x: Sale, id: string, known: bool, before: int)
    requires known <==> id in SoldIds(xs)
    requires before == if known then UnitsSold(xs, id) else 0
    ensures UnitsSold(xs + [x], id) == before + if id == x.productId then x.quantity else 0
  {
    UnitsSoldConcat(xs, [x], id);
    UnitsSoldOne(x, id);
    if !known {
      UnsoldIsZero(xs, id);
    }
  }

  /**
   * `productSales`: one entry per product that was sold, holding the units
   * sold of it. The loop adds each sale's quantity to its product's entry,
   * starting from zero for a product not seen yet.
   */
  method GroupQuantities(sales: seq<Sale>) returns (totals: map<string, int>)
    ensures totals.Keys == SoldIds(sales)
    ensures forall id :: id in totals ==> totals[id] == UnitsSold(sales, id)
  {
    totals := map[];
    var i := 0;
    NothingGrouped(sales);
    while i < |sales|
      invariant 0 <= i <= |sales|
      invariant Grouped(totals, sales[..i])
    {
      var s := sales[i];
      GroupStep(sales[..i], s, totals);
      PrefixGrows(sales, i);
      totals := totals[s.productId := (if s.productId in totals then totals[s.productId] else 0) + s.quantity];
      i := i + 1;
    }
    PrefixWhole(sales);
  }

  /** Before the loop no sale has been read and nothing is grouped. */
  lemma NothingGrouped(sales: seq<Sale>)
    ensures Grouped(map[], sales[..0])
  {
    assert sales[..0] == [];
  }

  /** One more element read. */
  lemma PrefixGrows<T>(xs: seq<T>, i: nat)
    requires i < |xs|
    ensures xs[..i + 1] == xs[..i] + [xs[i]]
  {
  }

  /** Every element read. */
  lemma PrefixWhole<T>(xs: seq<T>)
    ensures xs[..|xs|] == xs
  {
  }

  /** Counted once per product, the units sold add up to all the units in all the sales. */
  lemma {:induction false} UnitsSoldAddUp(sales: seq<Sale>, ids: seq<string>)
    requires Distinct(ids)
    requires forall s :: s in sales ==> s.productId in ids
    ensures SumOf(ids, id => UnitsSold(sales, id)) == SumOf(sales, QuantityOf)
  {
    if sales != [] {
      var s := sales[0];
      var rest := sales[1..];
      assert sales == [s] + rest;
      UnitsSoldAddUp(rest, ids);
      forall id ensures UnitsSold(sales, id) == UnitsSold(rest, id) + (if id == s.productId then s.quantity else 0) {
        UnitsSoldConcat([s], rest, id);
        UnitsSoldOne(s, id);
      }
      SumOfAdd(ids, id => UnitsSold(sales, id), id => UnitsSold(rest, id),
               id => if id == s.productId then s.quantity else 0);
      SumOfSingleOut(ids, s.productId, id => if id == s.productId then s.quantity else 0);
      assert s.productId in ids;
    } else {
      SumOfDropsZeros(ids, id => false, id => UnitsSold(sales, id));
    }
  }

  /** The name of the first product with the id; an unknown product, or one with an empty name, shows the fallback. */
  function NameOr(products: seq<Product>, id: string, fallback: string): (r: string)
    ensures ProductById(products, id).None? ==> r == fallback
    ensures ProductById(products, id).Some? ==>
      r == if ProductById(products, id).value.name == "" then fallback else ProductById(products, id).value.name
  {
    match ProductById(products, id)
    case None => fallback
    case Some(p) => if p.name == "" then fallback else p.name
  }

  /** One line of the best-seller panel. */
  datatype Seller = Seller(product: string, qty: int)

  /** One seller line per grouped entry: the product's name ("Desconhecido" when unknown) and its units. */
  function Named(entries: seq<(string, int)>, products: seq<Product>): (r: seq<Seller>)
    ensures |r| == |entries|
    ensures forall i :: 0 <= i < |entries| ==>
      r[i] == Seller(NameOr(products, entries[i].0, "Desconhecido"), entries[i].1)
  {
    seq(|entries|, i requires 0 <= i < |entries| =>
      Seller(NameOr(products, entries[i].0, "Desconhecido"), entries[i].1))
  }

  /** The sort key of the best-seller ranking: more units first. */
  function MoreUnitsFirst(x: Seller): int { -x.qty }

  /** `topSelling`: at most five sellers, by descending units; none left out sold more than one shown. */
  function TopSelling(entries: seq<(string, int)>, products: seq<Product>): (r: seq<Seller>)
    ensures |r| == Min(5, |entries|)
    ensures forall x :: x in r ==> x in Named(entries, products)
    ensures multiset(r) <= multiset(Named(entries, products))
    ensures forall i, j :: 0 <= i < j < |r| ==> r[i].qty >= r[j].qty
    ensures forall x :: x in Named(entries, products) ==> x in r || forall y :: y in r ==> y.qty >= x.qty
  {
    var r := Lowest(Named(entries, products), MoreUnitsFirst, 5);
    assert forall i, j :: 0 <= i < j < |r| ==> MoreUnitsFirst(r[i]) <= MoreUnitsFirst(r[j]);
    r
  }

  /** `Object.entries(totals)`, in some order: each key once, with its value. */
  ghost predicate EntriesOf(entries: seq<(string, int)>, totals: map<string, int>)
  {
    && (forall i, j :: 0 <= i < j < |entries| ==> entries[i].0 != entries[j].0)
    && (forall e :: e in entries ==> e.0 in totals && e.1 == totals[e.0])
    && (forall id :: id in totals ==> (id, totals[id]) in entries)
  }

  /**
   * Built from the grouped sales, every best seller shown is a product that
   * was sold, with its units sold, and every product that was sold is shown
   * or sold no more units than each one shown.
   */
  lemma TopSellingOfSales(sales: seq<Sale>, products: seq<Product>, totals: map<string, int>,
                          entries: seq<(string, int)>)
    requires totals.Keys == SoldIds(sales)
    requires forall id :: id in totals ==> totals[id] == UnitsSold(sales, id)
    requires EntriesOf(entries, totals)
    ensures var r := TopSelling(entries, products);
      && (forall x :: x in r ==>
            exists id :: id in SoldIds(sales) && x == Seller(NameOr(products, id, "Desconhecido"), UnitsSold(sales, id)))
      && (forall id :: id in SoldIds(sales) ==>
            Seller(NameOr(products, id, "Desconhecido"), UnitsSold(sales, id)) in r ||
            forall y :: y in r ==> y.qty >= UnitsSold(sales, id))
  {
    var named := Named(entries, products);
    var r := TopSelling(entries, products);
    forall x | x in r
      ensures exists id :: id in SoldIds(sales) && x == Seller(NameOr(products, id, "Desconhecido"), UnitsSold(sales, id))
    {
      var k :| 0 <= k < |named| && named[k] == x;
      assert entries[k] in entries;
    }
    forall id | id in SoldIds(sales)
      ensures Seller(NameOr(products, id, "Desconhecido"), UnitsSold(sales, id)) in r ||
              forall y :: y in r ==> y.qty >= UnitsSold(sales, id)
    {
      var k :| 0 <= k < |entries| && entries[k] == (id, totals[id]);
      assert named[k] in named;
    }
  }

  /** The average margin in percent, `profit / revenue * 100`, and 0 when there is no revenue. */
  function Margin(revenue: int, profit: int): (m: real)
    ensures revenue > 0 ==> m * revenue as real == profit as real * 100.0
    ensures revenue <= 0 ==> m == 0.0
  {
    if revenue > 0 then profit as real / revenue as real * 100.0 else 0.0
  }

  /** A profit between zero and the revenue puts the margin between 0% and 100%. */
  lemma MarginBounds(revenue: int, profit: int)
    requires 0 <= profit <= revenue
    ensures 0.0 <= Margin(revenue, profit) <= 100.0
  {
    if revenue > 0 {
      var m := Margin(revenue, profit);
      assert m * revenue as real == profit as real * 100.0;
      assert m * revenue as real <= revenue as real * 100.0;
    }
  }

  /** When no sale earns more than it takes in, the total profit is at most the total revenue. */
  lemma ProfitWithinRevenue(sales: seq<Sale>)
    requires forall s :: s in sales ==> s.profit <= s.totalValue
    ensures TotalProfit(sales) <= TotalRevenue(sales)
  {
    SumOfAdd(sales, ValueOf, ProfitOf, (s: Sale) => s.totalValue - s.profit);
    SumOfNonNegative(sales, (s: Sale) => s.totalValue - s.profit);
  }

  /*
   * CSV export. Numbers are written by the page with JavaScript's own
   * number-to-text conversion; the model writes quantities in decimal and
   * leaves the money columns to a `showMoney` parameter.
   */

  const Headers: seq<string> := ["ID", "Data", "Produto", "Quantidade", "Valor Total", "Lucro"]

  /** The six column titles joined by commas. */
  function HeaderLine(): (h: string)
    ensures Split(h, ',') == Headers
    ensures '\n' !in h
  {
    assert forall k :: 0 <= k < |Headers| ==> ',' !in Headers[k] && '\n' !in Headers[k] by {
      assert ',' !in "ID" && '\n' !in "ID";
      assert ',' !in "Data" && '\n' !in "Data";
      assert ',' !in "Produto" && '\n' !in "Produto";
      assert ',' !in "Quantidade" && '\n' !in "Quantidade";
      assert ',' !in "Valor Total" && '\n' !in "Valor Total";
      assert ',' !in "Lucro" && '\n' !in "Lucro";
    }
    SplitJoin(Headers, ',');
    JoinAvoids(Headers, ',', '\n');
    Join(Headers, ',')
  }

  /** The product column: the name wrapped in double quotes, embedded quotes left as they are. */
  function ProductCell(products: seq<Product>, productId: string): string
  {
    "\"" + NameOr(products, productId, "---") + "\""
  }

  /** One CSV line of a sale, exactly as the page writes it. */
  function CsvRow(products: seq<Product>, s: Sale, showMoney: int -> string): string
  {
    Join([s.id, s.date, ProductCell(products, s.productId), Decimal(s.quantity),
          showMoney(s.totalValue), showMoney(s.profit)], ',')
  }

  /**
   * A reader of one record as section 2 of RFC 4180 describes it: fields
   * separated by commas; a field may be enclosed in double quotes, inside
   * which a comma is text and a doubled quote stands for one quote.
   */
  function ReadRecord(line: string): seq<string>
  {
    Scan(line, "", false, [])
  }

  function Scan(s: string, cur: string, quoted: bool, done: seq<string>): seq<string>
    decreases |s|
  {
    if s == [] then done + [cur]
    else if quoted then
      if s[0] == '"' then
        if |s| > 1 && s[1] == '"' then Scan(s[2..], cur + ['"'], true, done)
        else Scan(s[1..], cur, false, done)
      else Scan(s[1..], cur + [s[0]], true, done)
    else if s[0] == '"' then Scan(s[1..], cur, true, done)
    else if s[0] == ',' then Scan(s[1..], "", false, done + [cur])
    else Scan(s[1..], cur + [s[0]], false, done)
  }

  /** Text without quotes or commas is read as it is. */
  lemma {:induction false} ScanPlain(x: string, rest: string, cur: string, done: seq<string>)
    requires '"' !in x && ',' !in x
    ensures Scan(x + rest, cur, false, done) == Scan(rest, cur + x, false, done)
    decreases |x|
  {
    if x != [] {
      assert x[0] in x;
      assert (x + rest)[0] == x[0];
      assert (x + rest)[1..] == x[1..] + rest;
      ScanPlain(x[1..], rest, cur + [x[0]], done);
      assert cur + [x[0]] + x[1..] == cur + x;
    } else {
      assert x + rest == rest && cur + x == cur;
    }
  }

  /** A comma ends a field outside quotes. */
  lemma ScanComma(rest: string, cur: string, done: seq<string>)
    ensures Scan([','] + rest, cur, false, done) == Scan(rest, "", false, done + [cur])
  {
    assert ([','] + rest)[1..] == rest;
  }

  /** Every quote of the text doubled, as rule 7 of section 2 of RFC 4180 asks inside a quoted field. */
  function Escape(t: string): (e: string)
    ensures '"' !in t ==> e == t
  {
    if t == [] then []
    else if t[0] == '"' then ['"', '"'] + Escape(t[1..])
    else [t[0]] + Escape(t[1..])
  }

  lemma ScanDoubledQuote(r: string, cur: string, done: seq<string>)
    ensures Scan(['"', '"'] + r, cur, true, done) == Scan(r, cur + ['"'], true, done)
  {
    assert (['"', '"'] + r)[2..] == r;
  }

  lemma ScanClosingQuote(r: string, cur: string, done: seq<string>)
    requires r == [] || r[0] != '"'
    ensures Scan(['"'] + r, cur, true, done) == Scan(r, cur, false, done)
  {
    assert (['"'] + r)[1..] == r;
  }

  lemma ScanQuotedChar(c: char, r: string, cur: string, done: seq<string>)
    requires c != '"'
    ensures Scan([c] + r, cur, true, done) == Scan(r, cur + [c], true, done)
  {
    assert ([c] + r)[1..] == r;
  }

  /** Inside quotes, one escaped character is read as the character. */
  lemma ScanEscapedChar(c: char, r: string, cur: string, done: seq<string>)
    ensures Scan(Escape([c]) + r, cur, true, done) == Scan(r, cur + [c], true, done)
  {
    if c == '"' {
      assert Escape([c]) == ['"', '"'];
      ScanDoubledQuote(r, cur, done);
    } else {
      assert Escape([c]) == [c];
      ScanQuotedChar(c, r, cur, done);
    }
  }

  /** Escaping works one character at a time. */
  lemma EscapeFirst(t: string, rest: string)
    requires t != []
    ensures Escape(t) + ['"'] + rest == Escape([t[0]]) + (Escape(t[1..]) + ['"'] + rest)
  {
    assert [t[0]][1..] == [];
  }

  /** Inside quotes, escaped text followed by the closing quote reads back as the text itself. */
  lemma {:induction false} ScanEscaped(t: string, rest: string, cur: string, done: seq<string>)
    requires rest == [] || rest[0] != '"'
    ensures Scan(Escape(t) + ['"'] + rest, cur, true, done) == Scan(rest, cur + t, false, done)
    decreases |t|
  {
    if t == [] {
      assert Escape(t) + ['"'] + rest == ['"'] + rest;
      ScanClosingQuote(rest, cur, done);
      assert cur + t == cur;
    } else {
      var tail := Escape(t[1..]) + ['"'] + rest;
      calc {
        Scan(Escape(t) + ['"'] + rest, cur, true, done);
        { EscapeFirst(t, rest); }
        Scan(Escape([t[0]]) + tail, cur, true, done);
        { ScanEscapedChar(t[0], tail, cur, done); }
        Scan(tail, cur + [t[0]], true, done);
        { ScanEscaped(t[1..], rest, cur + [t[0]], done); }
        Scan(rest, cur + [t[0]] + t[1..], false, done);
        { assert cur + [t[0]] + t[1..] == cur + t; }
        Scan(rest, cur + t, false, done);
      }
    }
  }

  /** The product column as RFC 4180 wants it: enclosed in quotes, embedded quotes doubled. */
  function EscapedProductCell(products: seq<Product>, productId: string): (c: string)
    ensures '"' !in NameOr(products, productId, "---") ==> c == ProductCell(products, productId)
  {
    ['"'] + Escape(NameOr(products, productId, "---")) + ['"']
  }

  /** The CSV line of a sale with the product column escaped. */
  function EscapedCsvRow(products: seq<Product>, s: Sale, showMoney: int -> string): (row: string)
    ensures '"' !in NameOr(products, s.productId, "---") ==> row == CsvRow(products, s, showMoney)
  {
    Join([s.id, s.date, EscapedProductCell(products, s.productId), Decimal(s.quantity),
          showMoney(s.totalValue), showMoney(s.profit)], ',')
  }

  /** The six values a sale's line is meant to carry. */
  function RowValues(products: seq<Product>, s: Sale, showMoney: int -> string): seq<string>
  {
    [s.id, s.date, NameOr(products, s.productId, "---"), Decimal(s.quantity), showMoney(s.totalValue), showMoney(s.profit)]
  }

  /** The id, date and money columns hold neither quotes, commas nor line breaks. */
  ghost predicate PlainColumns(s: Sale, showMoney: int -> string)
  {
    forall x :: x in [s.id, s.date, showMoney(s.totalValue), showMoney(s.profit)] ==>
      '"' !in x && ',' !in x && '\n' !in x
  }

  /** A decimal numeral has no quotes, commas or line breaks. */
  lemma DecimalIsPlain(n: int)
    ensures '"' !in Decimal(n) && ',' !in Decimal(n) && '\n' !in Decimal(n)
  {
    var d := Decimal(n);
    forall c | c in d ensures c != '"' && c != ',' && c != '\n' {
      var k :| 0 <= k < |d| && d[k] == c;
    }
  }

  /** A line of six fields, written out. */
  lemma RowShape(a: string, b: string, c: string, d: string, e: string, f: string)
    ensures Join([a, b, c, d, e, f], ',') == a + ([','] + (b + ([','] + (c + ([','] + (d + ([','] + (e + ([','] + f)))))))))
  {
    JoinCons(e, [f], ',');
    assert [e, f] == [e] + [f];
    JoinCons(d, [e, f], ',');
    assert [d, e, f] == [d] + [e, f];
    JoinCons(c, [d, e, f], ',');
    assert [c, d, e, f] == [c] + [d, e, f];
    JoinCons(b, [c, d, e, f], ',');
    assert [b, c, d, e, f] == [b] + [c, d, e, f];
    JoinCons(a, [b, c, d, e, f], ',');
    assert [a, b, c, d, e, f] == [a] + [b, c, d, e, f];
  }

  /** A field without quotes or commas, then a comma: the field is read as it is. */
  lemma ScanPlainField(x: string, r: string, done: seq<string>)
    requires '"' !in x && ',' !in x
    ensures Scan(x + ([','] + r), "", false, done) == Scan(r, "", false, done + [x])
  {
    ScanPlain(x, [','] + r, "", done);
    assert "" + x == x;
    ScanComma(r, x, done);
  }

  /** The last field, without quotes or commas, is read as it is. */
  lemma ScanLastField(x: string, done: seq<string>)
    requires '"' !in x && ',' !in x
    ensures Scan(x, "", false, done) == done + [x]
  {
    ScanPlain(x, [], "", done);
    assert x + [] == x && "" + x == x;
  }

  /** A quoted field with its quotes doubled is read back as the text it encloses. */
  lemma ScanQuotedField(t: string, r: string, done: seq<string>)
    requires r == [] || r[0] != '"'
    ensures Scan(['"'] + Escape(t) + ['"'] + r, "", false, done) == Scan(r, t, false, done)
  {
    var s := ['"'] + Escape(t) + ['"'] + r;
    assert s[0] == '"';
    assert s[1..] == Escape(t) + ['"'] + r;
    ScanEscaped(t, r, "", done);
    assert "" + t == t;
  }

  /** An RFC 4180 reader gets the six values back from the escaped line, whatever the product name holds. */
  lemma EscapedRowReadsBack(products: seq<Product>, s: Sale, showMoney: int -> string)
    requires PlainColumns(s, showMoney)
    ensures ReadRecord(EscapedCsvRow(products, s, showMoney)) == RowValues(products, s, showMoney)
  {
    var name := NameOr(products, s.productId, "---");
    var q := Decimal(s.quantity);
    var v := showMoney(s.totalValue);
    var p := showMoney(s.profit);
    assert s.id in [s.id, s.date, v, p] && s.date in [s.id, s.date, v, p];
    assert v in [s.id, s.date, v, p] && p in [s.id, s.date, v, p];
    DecimalIsPlain(s.quantity);
    var cell := EscapedProductCell(products, s.productId);
    RowShape(s.id, s.date, cell, q, v, p);
    var r3 := q + ([','] + (v + ([','] + p)));
    var r2 := cell + ([','] + r3);
    assert r2 == ['"'] + Escape(name) + ['"'] + ([','] + r3);
    calc {
      ReadRecord(EscapedCsvRow(products, s, showMoney));
      Scan(s.id + ([','] + (s.date + ([','] + r2))), "", false, []);
      { ScanLeadingFields(s.id, s.date, r2); }
      Scan(r2, "", false, [s.id, s.date]);
      { ScanQuotedField(name, [','] + r3, [s.id, s.date]); }
      Scan([','] + r3, name, false, [s.id, s.date]);
      { ScanComma(r3, name, [s.id, s.date]); }
      Scan(r3, "", false, [s.id, s.date] + [name]);
      { assert [s.id, s.date] + [name] == [s.id, s.date, name]; ScanPlainField(q, v + ([','] + p), [s.id, s.date, name]); }
      Scan(v + ([','] + p), "", false, [s.id, s.date, name] + [q]);
      { assert [s.id, s.date, name] + [q] == [s.id, s.date, name, q]; ScanPlainField(v, p, [s.id, s.date, name, q]); }
      Scan(p, "", false, [s.id, s.date, name, q] + [v]);
      { assert [s.id, s.date, name, q] + [v] == [s.id, s.date, name, q, v]; ScanLastField(p, [s.id, s.date, name, q, v]); }
      [s.id, s.date, name, q, v] + [p];
    }
  }

  /** Inside quotes, text without quotes runs to the end of the line as one field. */
  lemma {:induction false} ScanQuotedRun(x: string, cur: string, done: seq<string>)
    requires '"' !in x
    ensures Scan(x, cur, true, done) == done + [cur + x]
    decreases |x|
  {
    if x != [] {
      assert x[0] in x;
      ScanQuotedRun(x[1..], cur + [x[0]], done);
      assert cur + [x[0]] + x[1..] == cur + x;
    } else {
      assert cur + x == cur;
    }
  }

  /**
   * Written as the page writes it, a product named `"` breaks its line: the
   * reader takes the doubled quote for an escaped one, stays inside the
   * quotes to the end of the line and sees three fields instead of six.
   */
  lemma UnescapedQuoteMisreads(products: seq<Product>, s: Sale, showMoney: int -> string)
    requires PlainColumns(s, showMoney)
    requires NameOr(products, s.productId, "---") == "\""
    ensures |ReadRecord(CsvRow(products, s, showMoney))| == 3
    ensures ReadRecord(CsvRow(products, s, showMoney)) != RowValues(products, s, showMoney)
    ensures ReadRecord(EscapedCsvRow(products, s, showMoney)) == RowValues(products, s, showMoney)
  {
    QuoteNameReadsThree(products, s, showMoney);
    EscapedRowReadsBack(products, s, showMoney);
  }

  /** The reading of the as-written row of a product named `"`, field by field. */
  lemma QuoteNameReadsThree(products: seq<Product>, s: Sale, showMoney: int -> string)
    requires PlainColumns(s, showMoney)
    requires NameOr(products, s.productId, "---") == "\""
    ensures |ReadRecord(CsvRow(products, s, showMoney))| == 3
  {
    var q := Decimal(s.quantity);
    var v := showMoney(s.totalValue);
    var p := showMoney(s.profit);
    assert s.id in [s.id, s.date, v, p] && s.date in [s.id, s.date, v, p];
    assert v in [s.id, s.date, v, p] && p in [s.id, s.date, v, p];
    DecimalIsPlain(s.quantity);
    var cell := ProductCell(products, s.productId);
    assert cell == ['"', '"', '"'];
    RowShape(s.id, s.date, cell, q, v, p);
    var after := [','] + (q + ([','] + (v + ([','] + p))));
    ScanLeadingFields(s.id, s.date, cell + after);
    TripleQuoteRun(after, [s.id, s.date]);
  }

  /** Two plain fields, each followed by a comma, are read as they are. */
  lemma ScanLeadingFields(a: string, b: string, r: string)
    requires '"' !in a && ',' !in a && '"' !in b && ',' !in b
    ensures Scan(a + ([','] + (b + ([','] + r))), "", false, []) == Scan(r, "", false, [a, b])
  {
    ScanPlainField(a, b + ([','] + r), []);
    assert [] + [a] == [a];
    ScanPlainField(b, r, [a]);
    assert [a] + [b] == [a, b];
  }

  /** Three quotes open a field, escape one quote, and leave the field open to the end of the line. */
  lemma TripleQuoteRun(after: string, done: seq<string>)
    requires '"' !in after
    ensures Scan(['"', '"', '"'] + after, "", false, done) == done + ["\"" + after]
  {
    var r := ['"', '"', '"'] + after;
    assert r[1..] == ['"', '"'] + after;
    ScanDoubledQuote(after, "", done);
    ScanQuotedRun(after, "" + ['"'], done);
    assert "" + ['"'] + after == "\"" + after;
  }

  /** One line per sale, in list order, with the product column escaped. */
  function CsvRows(products: seq<Product>, sales: seq<Sale>, showMoney: int -> string): (rows: seq<string>)
    ensures |rows| == |sales|
    ensures forall i :: 0 <= i < |sales| ==> rows[i] == EscapedCsvRow(products, sales[i], showMoney)
  {
    seq(|sales|, i requires 0 <= i < |sales| => EscapedCsvRow(products, sales[i], showMoney))
  }

  /** The header line, then the sale lines, separated by line breaks. */
  function CsvText(products: seq<Product>, sales: seq<Sale>, showMoney: int -> string): string
  {
    Join([HeaderLine()] + CsvRows(products, sales, showMoney), '\n')
  }

  /**
   * With no line break in any value, the export has one line per sale after
   * the header, in list order, and each line reads back as its sale's values.
   */
  lemma CsvTextReadsBack(products: seq<Product>, sales: seq<Sale>, showMoney: int -> string)
    requires forall s :: s in sales ==> PlainColumns(s, showMoney) && '\n' !in NameOr(products, s.productId, "---")
    ensures var lines := Split(CsvText(products, sales, showMoney), '\n');
      && |lines| == |sales| + 1
      && Split(lines[0], ',') == Headers
      && forall i :: 0 <= i < |sales| ==> ReadRecord(lines[i + 1]) == RowValues(products, sales[i], showMoney)
  {
    var all := [HeaderLine()] + CsvRows(products, sales, showMoney);
    forall k | 0 <= k < |all| ensures '\n' !in all[k] {
      if k > 0 {
        assert sales[k - 1] in sales;
        RowHasNoLineBreak(products, sales[k - 1], showMoney);
      }
    }
    SplitJoin(all, '\n');
    forall i | 0 <= i < |sales| ensures ReadRecord(all[i + 1]) == RowValues(products, sales[i], showMoney) {
      assert all[i + 1] == EscapedCsvRow(products, sales[i], showMoney);
      assert sales[i] in sales;
      EscapedRowReadsBack(products, sales[i], showMoney);
    }
  }

  /** With no line break in its values, a sale's line has none either. */
  lemma RowHasNoLineBreak(products: seq<Product>, s: Sale, showMoney: int -> string)
    requires PlainColumns(s, showMoney) && '\n' !in NameOr(products, s.productId, "---")
    ensures '\n' !in EscapedCsvRow(products, s, showMoney)
  {
    var v := showMoney(s.totalValue);
    var p := showMoney(s.profit);
    assert s.id in [s.id, s.date, v, p] && s.date in [s.id, s.date, v, p];
    assert v in [s.id, s.date, v, p] && p in [s.id, s.date, v, p];
    EscapeAvoids(NameOr(products, s.productId, "---"), '\n');
    DecimalIsPlain(s.quantity);
    var fields := [s.id, s.date, EscapedProductCell(products, s.productId), Decimal(s.quantity), v, p];
    JoinAvoids(fields, ',', '\n');
  }

  /** Escaping adds only quotes. */
  lemma {:induction false} EscapeAvoids(t: string, c: char)
    requires c != '"' && c !in t
    ensures c !in Escape(t)
    decreases |t|
  {
    if t != [] {
      EscapeAvoids(t[1..], c);
    }
  }
}
