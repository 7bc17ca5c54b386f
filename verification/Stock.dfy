/** The stock ledger: the settlement's aggregation of items by product, and the writers of
    `stock_quantity`, each paired with a movement. */
module Stock {
  import opened Outcomes
  import opened Schema

  datatype Ledger = Ledger(products: map<Id, Product>, movements: seq<Movement>)

  /** The sum of the movements of one product. */
  function Moved(movements: seq<Movement>, p: Id): int {
    if movements == [] then
      0
    else
      var m := movements[|movements| - 1];
      Moved(movements[..|movements| - 1], p) + (if m.product == p then m.quantity else 0)
  }

  lemma MovedAppend(movements: seq<Movement>, m: Movement, p: Id)
    ensures Moved(movements + [m], p) == Moved(movements, p) + (if m.product == p then m.quantity else 0)
  {
    assert (movements + [m])[..|movements|] == movements;
  }

  /** Every product's quantity is the sum of its movements, and every movement belongs to a known
      product of its own tenant. */
  ghost predicate Balanced(l: Ledger) {
    && (forall p :: p in l.products ==> l.products[p].stock == Moved(l.movements, p))
    && (forall i :: 0 <= i < |l.movements| ==>
          && l.movements[i].product in l.products
          && l.movements[i].tenant == l.products[l.movements[i].product].tenant)
  }

  lemma {:induction false} UnknownProductNeverMoved(movements: seq<Movement>, p: Id)
    requires forall i :: 0 <= i < |movements| ==> movements[i].product != p
    ensures Moved(movements, p) == 0
  {
    if movements != [] {
      UnknownProductNeverMoved(movements[..|movements| - 1], p);
    }
  }

  /** A quantity change together with the movement that records it. */
  function Record(l: Ledger, m: Movement): Ledger
    requires m.product in l.products
  {
    var p := l.products[m.product];
    Ledger(l.products[m.product := p.(stock := p.stock + m.quantity)], l.movements + [m])
  }

  lemma RecordKeepsBalance(l: Ledger, m: Movement)
    requires Balanced(l) && m.product in l.products && m.tenant == l.products[m.product].tenant
    ensures Balanced(Record(l, m))
  {
    forall p { MovedAppend(l.movements, m, p); }
  }

  // ----- the items of one order, by product -----

  /** The distinct products, in the order in which a JavaScript Map would list them. */
  function Products(items: seq<Item>): seq<Id> {
    if items == [] then
      []
    else
      var before := Products(items[..|items| - 1]);
      var last := items[|items| - 1];
      if last.product.None? || last.product.value in before then before else before + [last.product.value]
  }

  predicate Lists(items: seq<Item>, p: Id) {
    exists k :: 0 <= k < |items| && items[k].product == Some(p)
  }

  /** Products lists exactly the products of the items, each once. */
  lemma {:induction false} ProductsAreDistinct(items: seq<Item>)
    ensures forall i, j :: 0 <= i < j < |Products(items)| ==> Products(items)[i] != Products(items)[j]
    ensures forall p :: p in Products(items) <==> Lists(items, p)
  {
    if items != [] {
      var init, last := items[..|items| - 1], items[|items| - 1];
      ProductsAreDistinct(init);
      forall p ensures Lists(items, p) <==> Lists(init, p) || last.product == Some(p) {
        if Lists(init, p) {
          var k :| 0 <= k < |init| && init[k].product == Some(p);
          assert items[k].product == Some(p);
        }
      }
    }
  }

  /** Total quantity of one product over the items. */
  function Sold(items: seq<Item>, p: Id): int {
    if items == [] then
      0
    else
      var last := items[|items| - 1];
      Sold(items[..|items| - 1], p) + (if last.product == Some(p) then last.quantity else 0)
  }

  /** The cost carried by the first item of a product. */
  function FirstCost(items: seq<Item>, p: Id): int {
    if items == [] then
      0
    else
      var init := items[..|items| - 1];
      var last := items[|items| - 1];
      if p !in Products(init) && last.product == Some(p) then last.cost else FirstCost(init, p)
  }

  datatype SaleTotal = SaleTotal(quantity: int, unitCost: int)

  lemma NextProduct(items: seq<Item>, i: nat)
    requires i < |items|
    ensures Products(items[..i + 1]) ==
            if items[i].product.None? || items[i].product.value in Products(items[..i]) then Products(items[..i])
            else Products(items[..i]) + [items[i].product.value]
  {
    assert items[..i + 1][..i] == items[..i];
  }

  lemma NextItem(items: seq<Item>, i: nat, p: Id)
    requires i < |items|
    ensures Sold(items[..i + 1], p) ==
            Sold(items[..i], p) + (if items[i].product == Some(p) then items[i].quantity else 0)
    ensures FirstCost(items[..i + 1], p) ==
            if p !in Products(items[..i]) && items[i].product == Some(p) then items[i].cost
            else FirstCost(items[..i], p)
  {
    assert items[..i + 1][..i] == items[..i];
  }

  /** The `saleByProduct` loop. The map it fills is the filtered sum, product by product. */
  method AggregateSales(items: seq<Item>) returns (order: seq<Id>, sales: map<Id, SaleTotal>)
    ensures order == Products(items)
    ensures sales.Keys == set p | p in order
    ensures forall p :: p in sales ==> sales[p] == SaleTotal(Sold(items, p), FirstCost(items, p))
  {
    order, sales := [], map[];
    for i := 0 to |items|
      invariant order == Products(items[..i])
      invariant sales.Keys == set p | p in order
      invariant forall p :: p in sales ==> sales[p] == SaleTotal(Sold(items[..i], p), FirstCost(items[..i], p))
      invariant forall p :: p !in order ==> Sold(items[..i], p) == 0
    {
      hide Products, Sold, FirstCost;
      NextProduct(items, i);
      forall p { NextItem(items, i, p); }
      if items[i].product.None? {
        continue;
      }
      var p := items[i].product.value;
      var current := if p in sales then sales[p] else SaleTotal(0, items[i].cost);
      if p !in sales {
        order := order + [p];
      }
      sales := sales[p := SaleTotal(current.quantity + items[i].quantity, current.unitCost)];
    }
    assert items[..|items|] == items;
  }

  // ----- settlement -----

  /** Who is selling: the order settled, its tenant, and whether products are looked up inside that
      tenant (settleOrder) or by identifier alone (the Pix webhook). */
  datatype Seller = Seller(tenant: Id, order: Id, author: Option<Id>, scoped: bool)

  predicate Sells(products: map<Id, Product>, seller: Seller, p: Id) {
    && p in products
    && (seller.scoped ==> products[p].tenant == seller.tenant)
    && products[p].controlled
  }

  function SaleMovement(seller: Seller, items: seq<Item>, p: Id): Movement {
    Movement(seller.tenant, p, Sale, -1000 * Sold(items, p), Some(FirstCost(items, p)), Some(seller.order),
        seller.author)
  }

  /** The stock loop over the first products of `order`. */
  function SellAll(l: Ledger, seller: Seller, items: seq<Item>, order: seq<Id>): Ledger
    decreases |order|
  {
    if order == [] then
      l
    else
      var before := SellAll(l, seller, items, order[..|order| - 1]);
      var p := order[|order| - 1];
      if Sells(before.products, seller, p) then Record(before, SaleMovement(seller, items, p)) else before
  }

  /** Selling never changes who sells: the controlled set, owners and prices stay. */
  lemma {:induction false} SellAllFrame(l: Ledger, seller: Seller, items: seq<Item>, order: seq<Id>)
    ensures var l' := SellAll(l, seller, items, order);
      && l'.products.Keys == l.products.Keys
      && (forall p :: p in l.products ==> l'.products[p] == l.products[p].(stock := l'.products[p].stock))
      && l.movements <= l'.movements
    decreases |order|
  {
    if order != [] {
      SellAllFrame(l, seller, items, order[..|order| - 1]);
    }
  }

  /** The loop in one step: each listed product that sells is lowered by exactly its sold quantity,
      and no other product changes. */
  lemma {:induction false} SellAllStock(l: Ledger, seller: Seller, items: seq<Item>, order: seq<Id>, p: Id)
    requires forall i, j :: 0 <= i < j < |order| ==> order[i] != order[j]
    requires p in l.products
    ensures p in SellAll(l, seller, items, order).products
    ensures SellAll(l, seller, items, order).products[p].stock ==
            l.products[p].stock - (if p in order && Sells(l.products, seller, p) then 1000 * Sold(items, p) else 0)
    decreases |order|
  {
    if order != [] {
      var init, last := order[..|order| - 1], order[|order| - 1];
      SellAllFrame(l, seller, items, init);
      SellAllStock(l, seller, items, init, p);
      assert order == init + [last];
      assert p in order <==> p in init || p == last;
      assert last !in init;
    }
  }

  function SalesOf(movements: seq<Movement>, order: Id, p: Id): seq<Movement> {
    if movements == [] then
      []
    else
      var m := movements[|movements| - 1];
      SalesOf(movements[..|movements| - 1], order, p) +
      (if m.kind == Sale && m.reference == Some(order) && m.product == p then [m] else [])
  }

  lemma SalesOfAppend(movements: seq<Movement>, m: Movement, order: Id, p: Id)
    ensures SalesOf(movements + [m], order, p) ==
            SalesOf(movements, order, p) +
            (if m.kind == Sale && m.reference == Some(order) && m.product == p then [m] else [])
  {
    assert (movements + [m])[..|movements|] == movements;
  }

  /** Exactly one sale movement per listed product that sells, carrying minus its sold quantity;
      the sale movements of every other order and product are as before. */
  lemma {:induction false} SellAllMovements(
      l: Ledger, seller: Seller, items: seq<Item>, order: seq<Id>, id: Id, p: Id)
    requires forall i, j :: 0 <= i < j < |order| ==> order[i] != order[j]
    ensures SalesOf(SellAll(l, seller, items, order).movements, id, p) ==
            SalesOf(l.movements, id, p) +
            (if id == seller.order && p in order && Sells(l.products, seller, p)
             then [SaleMovement(seller, items, p)] else [])
    decreases |order|
  {
    if order != [] {
      var init, last := order[..|order| - 1], order[|order| - 1];
      SellAllFrame(l, seller, items, init);
      SellAllMovements(l, seller, items, init, id, p);
      var before := SellAll(l, seller, items, init);
      SalesOfAppend(before.movements, SaleMovement(seller, items, last), id, p);
      assert order == init + [last];
      assert p in order <==> p in init || p == last;
      assert last !in init;
    }
  }

  /** Every movement added is the sale of a listed product that sells. */
  lemma {:induction false} SellAllAddsOnlySales(l: Ledger, seller: Seller, items: seq<Item>, order: seq<Id>, i: nat)
    requires |l.movements| <= i < |SellAll(l, seller, items, order).movements|
    ensures var m := SellAll(l, seller, items, order).movements[i];
      m == SaleMovement(seller, items, m.product) && m.product in order && Sells(l.products, seller, m.product)
    decreases |order|
  {
    if order != [] {
      var init, last := order[..|order| - 1], order[|order| - 1];
      SellAllFrame(l, seller, items, init);
      assert order == init + [last];
      if i < |SellAll(l, seller, items, init).movements| {
        SellAllAddsOnlySales(l, seller, items, init, i);
      }
    }
  }

  lemma {:induction false} SellAllKeepsBalance(l: Ledger, seller: Seller, items: seq<Item>, order: seq<Id>)
    requires Balanced(l)
    requires forall p :: p in order && p in l.products ==> l.products[p].tenant == seller.tenant
    ensures Balanced(SellAll(l, seller, items, order))
    decreases |order|
  {
    if order != [] {
      var init, last := order[..|order| - 1], order[|order| - 1];
      SellAllFrame(l, seller, items, init);
      SellAllKeepsBalance(l, seller, items, init);
      var before := SellAll(l, seller, items, init);
      if Sells(before.products, seller, last) {
        RecordKeepsBalance(before, SaleMovement(seller, items, last));
      }
    }
  }

  /** Looking products up by identifier alone does the same as looking them up inside the tenant,
      as long as the products sold belong to the seller's tenant. */
  lemma {:induction false} ScopeIsImmaterial(l: Ledger, seller: Seller, items: seq<Item>, order: seq<Id>)
    requires forall p :: p in order && p in l.products ==> l.products[p].tenant == seller.tenant
    ensures SellAll(l, seller, items, order) == SellAll(l, seller.(scoped := !seller.scoped), items, order)
    decreases |order|
  {
    if order != [] {
      SellAllFrame(l, seller, items, order[..|order| - 1]);
      ScopeIsImmaterial(l, seller, items, order[..|order| - 1]);
    }
  }

  // ----- purchases -----

  /** One line of a purchase. Whether the product is controlled was read before the transaction. */
  function ReceiveOne(l: Ledger, tenant: Id, purchase: Id, author: Option<Id>, line: PurchaseLine,
      controlled: bool): Ledger
    requires line.product in l.products
  {
    var costed := l.(products := l.products[line.product := l.products[line.product].(cost := line.unitCost)]);
    if controlled then
      Record(costed, Movement(tenant, line.product, PurchaseEntry, line.quantity, Some(line.unitCost), Some(purchase),
          author))
    else
      costed
  }

  function ReceiveAll(
      l: Ledger, tenant: Id, purchase: Id, author: Option<Id>, lines: seq<PurchaseLine>,
      read: map<Id, Product>): (l': Ledger)
    requires forall i :: 0 <= i < |lines| ==> lines[i].product in l.products && lines[i].product in read
    ensures l'.products.Keys == l.products.Keys
    ensures forall p :: p in l.products ==>
              l'.products[p] == l.products[p].(stock := l'.products[p].stock, cost := l'.products[p].cost)
    decreases |lines|
  {
    if lines == [] then
      l
    else
      var line := lines[|lines| - 1];
      var before := ReceiveAll(l, tenant, purchase, author, lines[..|lines| - 1], read);
      ReceiveOne(before, tenant, purchase, author, line, read[line.product].controlled)
  }

  lemma ReceiveNext(
      l: Ledger, tenant: Id, purchase: Id, author: Option<Id>, lines: seq<PurchaseLine>, read: map<Id, Product>, i: nat)
    requires i < |lines|
    requires forall k :: 0 <= k <= i ==> lines[k].product in l.products && lines[k].product in read
    ensures ReceiveAll(l, tenant, purchase, author, lines[..i + 1], read) ==
            ReceiveOne(ReceiveAll(l, tenant, purchase, author, lines[..i], read), tenant, purchase, author, lines[i],
                       read[lines[i].product].controlled)
  {
    assert lines[..i + 1][..i] == lines[..i];
  }

  lemma {:induction false} ReceiveAllKeepsBalance(
      l: Ledger, tenant: Id, purchase: Id, author: Option<Id>, lines: seq<PurchaseLine>, read: map<Id, Product>)
    requires Balanced(l)
    requires forall i :: 0 <= i < |lines| ==>
               lines[i].product in l.products && lines[i].product in read &&
                   l.products[lines[i].product].tenant == tenant
    ensures Balanced(ReceiveAll(l, tenant, purchase, author, lines, read))
    decreases |lines|
  {
    if lines != [] {
      var init, line := lines[..|lines| - 1], lines[|lines| - 1];
      ReceiveAllKeepsBalance(l, tenant, purchase, author, init, read);
      var before := ReceiveAll(l, tenant, purchase, author, init, read);
      var costed := before.(products := before.products[line.product :=
          before.products[line.product].(cost := line.unitCost)]);
      assert Balanced(costed);
      if read[line.product].controlled {
        RecordKeepsBalance(costed,
          Movement(tenant, line.product, PurchaseEntry, line.quantity, Some(line.unitCost), Some(purchase), author));
      }
    }
  }

  // ----- what is sold of a product -----

  /** The quantity sold of a product adds up over any division of the items, and an item counts for its
      own product alone. */
  lemma {:induction false} SoldAddsUp(a: seq<Item>, b: seq<Item>, p: Id)
    ensures Sold(a + b, p) == Sold(a, p) + Sold(b, p)
    ensures |b| == 1 ==> Sold(b, p) == if b[0].product == Some(p) then b[0].quantity else 0
  {
    if b == [] {
      assert a + b == a;
    } else {
      var init, last := b[..|b| - 1], b[|b| - 1];
      SoldAddsUp(a, init, p);
      assert (a + b)[..|a + b| - 1] == a + init;
    }
  }

  /** The cost taken for a product is that of its first item. */
  lemma {:induction false} FirstCostIsFirst(items: seq<Item>, p: Id, k: nat)
    requires k < |items| && items[k].product == Some(p) && forall i :: 0 <= i < k ==> items[i].product != Some(p)
    ensures FirstCost(items, p) == items[k].cost
  {
    var init := items[..|items| - 1];
    ProductsAreDistinct(init);
    if k < |init| {
      FirstCostIsFirst(init, p, k);
      assert Lists(init, p) by { assert init[k].product == Some(p); }
    }
  }
}
