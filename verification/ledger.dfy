/** The stock ledger and the invoice pricing engine: how an invoice is priced and totalled, and how
    invoices and conversions move product stock. All functions here work on values; the store
    (module MockApi) performs the same steps in place and is proved equal to them. */
module Ledger {
  import opened Types
  import opened Catalogue
  import opened Arrays

  // ---------------------------------------------------------------------------------------------
  // Lookups

  /** `products.findIndex(p => p.id === id)` (also `products.find`, which reads that element). */
  function ProductIndex(ps: seq<Product>, id: string): (k: int)
    ensures -1 <= k < |ps|
    ensures k >= 0 ==> ps[k].id == id && forall j :: 0 <= j < k ==> ps[j].id != id
    ensures k == -1 <==> forall j :: 0 <= j < |ps| ==> ps[j].id != id
  {
    FindIndex(ps, (p: Product) => p.id == id)
  }

  /** `products.find(p => p.name === name)`, as an index: conversions look products up by NAME. */
  function ProductNamed(ps: seq<Product>, name: string): (k: int)
    ensures -1 <= k < |ps|
    ensures k >= 0 ==> ps[k].name == name && forall j :: 0 <= j < k ==> ps[j].name != name
    ensures k == -1 <==> forall j :: 0 <= j < |ps| ==> ps[j].name != name
  {
    FindIndex(ps, (p: Product) => p.name == name)
  }

  /** Two product lists that differ at most in stock. */
  ghost predicate SameExceptStock(a: seq<Product>, b: seq<Product>)
  {
    |a| == |b| && forall k :: 0 <= k < |a| ==> a[k] == b[k].(stock := a[k].stock)
  }

  /** Position k holds the first product carrying its id: the one `find` by id would return. */
  ghost predicate FirstWithId(ps: seq<Product>, k: int)
  {
    0 <= k < |ps| && forall j :: 0 <= j < k ==> ps[j].id != ps[k].id
  }

  /** A stock change never moves the result of a lookup by id or by name. */
  lemma LookupsIgnoreStock(a: seq<Product>, b: seq<Product>, key: string)
    requires SameExceptStock(a, b)
    ensures ProductIndex(a, key) == ProductIndex(b, key)
    ensures ProductNamed(a, key) == ProductNamed(b, key)
  {
    assert forall k :: 0 <= k < |a| ==> a[k].id == b[k].id && a[k].name == b[k].name;
  }

  // ---------------------------------------------------------------------------------------------
  // Pricing

  /** `items.map(item => ({...item, price: productPrices[item.productId] || 0}))`: each line keeps
      its product and quantity, and any price the caller gave is overwritten by the table price
      (0 for an unknown product). */
  function PriceItems(items: seq<LineItem>): (r: seq<LineItem>)
    ensures |r| == |items|
    ensures PricedFromTable(r)
    ensures forall k :: 0 <= k < |items| ==> r[k].productId == items[k].productId && r[k].quantity == items[k].quantity
    ensures forall k :: 0 <= k < |items| && items[k].productId !in ProductPrices ==> r[k].price == 0
  {
    seq(|items|, k requires 0 <= k < |items| => items[k].(price := PriceOf(items[k].productId)))
  }

  function LineAmount(item: LineItem): int
  {
    item.quantity * item.price
  }

  /** No line has a negative quantity or a negative price. */
  ghost predicate NoNegativeLine(items: seq<LineItem>)
  {
    forall k :: 0 <= k < |items| ==> items[k].quantity >= 0 && items[k].price >= 0
  }

  /** `items.reduce((sum, item) => sum + item.quantity * item.price, 0)`: a left fold. No lines
      total 0, and lines with no negative quantity or price never total below 0. */
  function Total(items: seq<LineItem>): (t: int)
    ensures items == [] ==> t == 0
    ensures NoNegativeLine(items) ==> t >= 0
  {
    if items == [] then 0 else Total(items[..|items| - 1]) + LineAmount(items[|items| - 1])
  }

  /** The sum of quantity times table price over the lines, written head first, independently of
      the fold above. */
  function ExpectedTotal(items: seq<LineItem>): int
  {
    if items == [] then 0 else items[0].quantity * PriceOf(items[0].productId) + ExpectedTotal(items[1..])
  }

  /** Every line carries the table price of its product. */
  ghost predicate PricedFromTable(items: seq<LineItem>)
  {
    forall k :: 0 <= k < |items| ==> items[k].price == PriceOf(items[k].productId)
  }

  /** What every invoice the store creates satisfies. */
  ghost predicate InvoiceConsistent(inv: Invoice)
  {
    PricedFromTable(inv.items) && inv.total == Total(inv.items)
  }

  /** Prices supplied by the caller play no part: drafts that agree on products and quantities are
      priced identically. */
  lemma PricingIgnoresCallerPrices(a: seq<LineItem>, b: seq<LineItem>)
    requires |a| == |b|
    requires forall k :: 0 <= k < |a| ==> a[k].productId == b[k].productId && a[k].quantity == b[k].quantity
    ensures PriceItems(a) == PriceItems(b)
  {
  }

  lemma {:induction false} TotalCons(x: LineItem, s: seq<LineItem>)
    ensures Total([x] + s) == LineAmount(x) + Total(s)
    decreases |s|
  {
    if s == [] {
      assert ([x] + s)[..0] == [];
    } else {
      var init := s[..|s| - 1];
      TotalCons(x, init);
      assert ([x] + s)[..|[x] + s| - 1] == [x] + init;
    }
  }

  /** The fold over the priced lines equals the sum of quantity times table price. */
  lemma {:induction false} InvoiceTotalIsSum(items: seq<LineItem>)
    ensures Total(PriceItems(items)) == ExpectedTotal(items)
  {
    if items != [] {
      var priced := PriceItems(items);
      assert priced == [priced[0]] + PriceItems(items[1..]);
      TotalCons(priced[0], PriceItems(items[1..]));
      InvoiceTotalIsSum(items[1..]);
    }
  }

  /** A new invoice's lines are table-priced and its total is their sum. */
  lemma NewInvoiceConsistent(inv: Invoice, items: seq<LineItem>)
    requires inv.items == PriceItems(items) && inv.total == Total(PriceItems(items))
    ensures InvoiceConsistent(inv)
    ensures inv.total == ExpectedTotal(items)
  {
    InvoiceTotalIsSum(items);
  }

  // ---------------------------------------------------------------------------------------------
  // Stock moved by invoices

  /** One iteration of the stock loop: the first product with the line's id loses the line's
      quantity, with no floor; an unknown id changes nothing. */
  function ApplySale(ps: seq<Product>, item: LineItem): (r: seq<Product>)
    ensures |r| == |ps|
  {
    var k := ProductIndex(ps, item.productId);
    if k < 0 then ps else ps[k := ps[k].(stock := ps[k].stock - item.quantity)]
  }

  /** `items.forEach(...)` over ApplySale, in order. */
  function DecrementStock(ps: seq<Product>, items: seq<LineItem>): (r: seq<Product>)
    ensures |r| == |ps|
  {
    if items == [] then ps else ApplySale(DecrementStock(ps, items[..|items| - 1]), items[|items| - 1])
  }

  /** The total quantity the lines order of product `id`. */
  function QuantityFor(items: seq<LineItem>, id: string): int
  {
    if items == [] then 0
    else
      var last := items[|items| - 1];
      QuantityFor(items[..|items| - 1], id) + (if last.productId == id then last.quantity else 0)
  }

  lemma {:induction false} DecrementKeepsProducts(ps: seq<Product>, items: seq<LineItem>)
    ensures SameExceptStock(DecrementStock(ps, items), ps)
  {
    if items != [] {
      DecrementKeepsProducts(ps, items[..|items| - 1]);
    }
  }

  /** The effect of an invoice on one product: the first product with a given id loses the total
      quantity ordered of that id, however many lines name it, even below zero; every other
      product (not named, or a later duplicate of an id) is unchanged. */
  lemma {:induction false} SaleEffect(ps: seq<Product>, items: seq<LineItem>, k: int)
    requires 0 <= k < |ps|
    ensures |DecrementStock(ps, items)| == |ps|
    ensures DecrementStock(ps, items)[k]
         == ps[k].(stock := ps[k].stock - (if FirstWithId(ps, k) then QuantityFor(items, ps[k].id) else 0))
  {
    DecrementKeepsProducts(ps, items);
    if items != [] {
      var init, last := items[..|items| - 1], items[|items| - 1];
      var before := DecrementStock(ps, init);
      SaleEffect(ps, init, k);
      DecrementKeepsProducts(ps, init);
      var i := ProductIndex(before, last.productId);
      if i == k {
        assert FirstWithId(ps, k) by {
          forall j | 0 <= j < k ensures ps[j].id != ps[k].id {
            assert before[j].id == ps[j].id;
          }
        }
      }
    }
  }

  /** A line whose product id is unknown leaves every stock as it was. */
  lemma UnknownIdNoEffect(ps: seq<Product>, items: seq<LineItem>, item: LineItem)
    requires ProductIndex(ps, item.productId) == -1
    ensures DecrementStock(ps, items + [item]) == DecrementStock(ps, items)
  {
    var all := items + [item];
    assert all[..|all| - 1] == items;
    DecrementKeepsProducts(ps, items);
    LookupsIgnoreStock(DecrementStock(ps, items), ps, item.productId);
  }

  function StockTotal(ps: seq<Product>): int
  {
    if ps == [] then 0 else ps[0].stock + StockTotal(ps[1..])
  }

  lemma {:induction false} StockTotalUpdate(ps: seq<Product>, k: nat, p: Product)
    requires k < |ps|
    ensures StockTotal(ps[k := p]) == StockTotal(ps) - ps[k].stock + p.stock
  {
    if k > 0 {
      StockTotalUpdate(ps[1..], k - 1, p);
      assert ps[k := p][1..] == ps[1..][k - 1 := p];
    }
  }

  /** The quantity ordered, over the lines whose product id exists. */
  function KnownQuantity(ps: seq<Product>, items: seq<LineItem>): int
  {
    if items == [] then 0
    else
      var last := items[|items| - 1];
      KnownQuantity(ps, items[..|items| - 1]) + (if ProductIndex(ps, last.productId) >= 0 then last.quantity else 0)
  }

  /** One sale lowers the total stock by its quantity when its product is found, and not at all
      otherwise. */
  lemma SaleStockTotal(ps: seq<Product>, item: LineItem)
    ensures StockTotal(ApplySale(ps, item)) ==
      StockTotal(ps) - (if ProductIndex(ps, item.productId) >= 0 then item.quantity else 0)
  {
    var k := ProductIndex(ps, item.productId);
    if k >= 0 {
      StockTotalUpdate(ps, k, ps[k].(stock := ps[k].stock - item.quantity));
    }
  }

  /** Conservation: an invoice removes from total stock exactly the quantity ordered of existing
      products. */
  lemma {:induction false} InvoiceStockConservation(ps: seq<Product>, items: seq<LineItem>)
    ensures StockTotal(DecrementStock(ps, items)) == StockTotal(ps) - KnownQuantity(ps, items)
  {
    if items != [] {
      var init, last := items[..|items| - 1], items[|items| - 1];
      var before := DecrementStock(ps, init);
      InvoiceStockConservation(ps, init);
      DecrementKeepsProducts(ps, init);
      LookupsIgnoreStock(before, ps, last.productId);
      SaleStockTotal(before, last);
    }
  }

  // ---------------------------------------------------------------------------------------------
  // Stock moved by conversions

  /** Both products are found by name first; only if both exist does the source lose `fromQty`
      and then the destination gain `toQty` (the same product, if both names match it). */
  function ConvertStock(ps: seq<Product>, fromName: string, fromQty: int, toName: string, toQty: int): (r: seq<Product>)
    ensures SameExceptStock(r, ps)
  {
    var i, j := ProductNamed(ps, fromName), ProductNamed(ps, toName);
    if i >= 0 && j >= 0 then
      var taken := ps[i := ps[i].(stock := ps[i].stock - fromQty)];
      taken[j := taken[j].(stock := taken[j].stock + toQty)]
    else ps
  }

  /** All or nothing: with both names resolved, exactly the two products move (a product named
      on both sides nets toQty - fromQty); with either unresolved, nothing moves. */
  lemma ConversionEffect(ps: seq<Product>, fromName: string, fromQty: int, toName: string, toQty: int)
    ensures var r, i, j := ConvertStock(ps, fromName, fromQty, toName, toQty), ProductNamed(ps, fromName), ProductNamed(ps, toName);
      (i < 0 || j < 0 ==> r == ps) &&
      (i >= 0 && j >= 0 ==> forall k :: 0 <= k < |ps| ==>
         r[k].stock == ps[k].stock - (if k == i then fromQty else 0) + (if k == j then toQty else 0))
  {
    var r, i, j := ConvertStock(ps, fromName, fromQty, toName, toQty), ProductNamed(ps, fromName), ProductNamed(ps, toName);
    if i >= 0 && j >= 0 {
      var taken := ps[i := ps[i].(stock := ps[i].stock - fromQty)];
      assert r == taken[j := taken[j].(stock := taken[j].stock + toQty)];
      forall k | 0 <= k < |ps|
        ensures r[k] == ps[k].(stock := r[k].stock)
        ensures r[k].stock == ps[k].stock - (if k == i then fromQty else 0) + (if k == j then toQty else 0)
      {
        assert taken[k].stock == ps[k].stock - (if k == i then fromQty else 0);
      }
    }
  }

  /** Conservation: a resolved conversion changes total stock by toQty - fromQty. */
  lemma ConversionStockConservation(ps: seq<Product>, fromName: string, fromQty: int, toName: string, toQty: int)
    ensures var i, j := ProductNamed(ps, fromName), ProductNamed(ps, toName);
      StockTotal(ConvertStock(ps, fromName, fromQty, toName, toQty))
        == StockTotal(ps) + (if i >= 0 && j >= 0 then toQty - fromQty else 0)
  {
    var i, j := ProductNamed(ps, fromName), ProductNamed(ps, toName);
    if i >= 0 && j >= 0 {
      var taken := ps[i := ps[i].(stock := ps[i].stock - fromQty)];
      var given := taken[j := taken[j].(stock := taken[j].stock + toQty)];
      assert ConvertStock(ps, fromName, fromQty, toName, toQty) == given;
      StockTotalUpdate(ps, i, taken[i]);
      StockTotalUpdate(taken, j, given[j]);
    } else {
      assert ConvertStock(ps, fromName, fromQty, toName, toQty) == ps;
    }
  }

  // ---------------------------------------------------------------------------------------------
  // Edges

  /** Nothing stops an invoice from driving stock below zero. */
  lemma StockCanGoNegative()
    ensures DecrementStock([Product("cow-milk", "Cow Milk", 1, Ltr, CowMilk)], [LineItem("cow-milk", 3, 0)])[0].stock == -2
  {
    var items := [LineItem("cow-milk", 3, 0)];
    assert items[..0] == [];
  }

  /** Two lines for the same product decrement it twice. */
  lemma RepeatedIdCumulative(p: Product, q1: int, q2: int)
    ensures DecrementStock([p], [LineItem(p.id, q1, 0), LineItem(p.id, q2, 0)])[0].stock == p.stock - q1 - q2
  {
    var items := [LineItem(p.id, q1, 0), LineItem(p.id, q2, 0)];
    SaleEffect([p], items, 0);
    assert items[..1][..0] == [] && items[..1] == [items[0]];
    assert QuantityFor(items[..1], p.id) == q1;
    assert QuantityFor(items, p.id) == q1 + q2;
  }

  /** An id missing from the price table is priced 0 and adds nothing to the total. */
  lemma UnknownIdPricedZero(id: string, quantity: int, callerPrice: int)
    requires id !in ProductPrices
    ensures PriceItems([LineItem(id, quantity, callerPrice)]) == [LineItem(id, quantity, 0)]
    ensures Total(PriceItems([LineItem(id, quantity, callerPrice)])) == 0
  {
    InvoiceTotalIsSum([LineItem(id, quantity, callerPrice)]);
  }
}
