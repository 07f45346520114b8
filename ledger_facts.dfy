/**
 * What the order handlers promise, proved about the transitions of `Ledger`:
 * the shape of the lines create_order adds, its total and its stock moves,
 * the fault each handler raises, the stock bookkeeping all three mutators keep,
 * the order-total bookkeeping that create_order and delete_item_order keep and
 * update_order breaks, and the create-then-delete round trip.
 */
module LedgerFacts {
  import opened Results
  import opened Ledger

  // ---------------------------------------------------------------------------
  // Folds

  /** create_order adds exactly one line per item, in list order, carrying the
      generated id, the caller's product, quantity and price, the new order and the customer. */
  lemma {:induction false} NewLinesShape(ids: seq<Id>, items: seq<Item>, orderId: Id, custId: Id)
    requires |ids| == |items|
    ensures |NewLines(ids, items, orderId, custId)| == |items|
    ensures forall k :: 0 <= k < |items| ==>
      NewLines(ids, items, orderId, custId)[k] == Line(ids[k], items[k].prodId, orderId, custId, items[k].quantity, items[k].price)
  {
    if items != [] {
      var n := |items| - 1;
      NewLinesShape(ids[..n], items[..n], orderId, custId);
    }
  }

  /** The first missing product is the product of the first item whose product is not in the catalog. */
  lemma {:induction false} FirstMissingSpec(products: map<Id, Product>, items: seq<Item>)
    ensures FirstMissing(products, items).None? <==> forall k :: 0 <= k < |items| ==> items[k].prodId in products
    ensures FirstMissing(products, items).Some? ==>
      exists k :: 0 <= k < |items| && items[k].prodId == FirstMissing(products, items).value
        && items[k].prodId !in products
        && forall j :: 0 <= j < k ==> items[j].prodId in products
  {
    if items != [] {
      var n := |items| - 1;
      FirstMissingSpec(products, items[..n]);
      assert forall k :: 0 <= k < n ==> items[..n][k] == items[k];
      if FirstMissing(products, items[..n]).None? && items[n].prodId !in products {
        assert forall j :: 0 <= j < n ==> items[j].prodId in products;
      }
    }
  }

  /** Once a prefix of the items has a missing product, the whole list has the same first missing product. */
  lemma {:induction false} FirstMissingPrefix(products: map<Id, Product>, items: seq<Item>, i: nat)
    requires i <= |items| && FirstMissing(products, items[..i]).Some?
    ensures FirstMissing(products, items) == FirstMissing(products, items[..i])
    decreases |items| - i
  {
    if i < |items| {
      assert items[..i + 1][..i] == items[..i];
      FirstMissingPrefix(products, items, i + 1);
    } else {
      assert items[..i] == items;
    }
  }

  /** One more item of create_order's loop: each fold over the prefix grows
      by that item alone. */
  lemma PlaceOrderStep(products: map<Id, Product>, ids: seq<Id>, items: seq<Item>, orderId: Id, custId: Id, i: nat)
    requires |ids| == |items| && i < |items| && FirstMissing(products, items[..i]).None?
    ensures FirstMissing(products, items[..i + 1]) == if items[i].prodId in products then None else Some(items[i].prodId)
    ensures ItemsTotal(items[..i + 1]) == ItemsTotal(items[..i]) + items[i].price
    ensures NewLines(ids[..i + 1], items[..i + 1], orderId, custId)
            == NewLines(ids[..i], items[..i], orderId, custId) + [NewProdOrder(ids[i], items[i], orderId, custId)]
    ensures items[i].prodId in products ==>
      Deplete(products, items[..i + 1])
      == Deplete(products, items[..i])[items[i].prodId := DecrementQuantity(Deplete(products, items[..i])[items[i].prodId], items[i].quantity)]
  {
    assert items[..i + 1][..i] == items[..i];
    assert ids[..i + 1][..i] == ids[..i];
    if items[i].prodId in products {
      var before := Deplete(products, items[..i]);
      var after := Deplete(products, items[..i + 1]);
      var expected := before[items[i].prodId := DecrementQuantity(before[items[i].prodId], items[i].quantity)];
      assert after.Keys == expected.Keys;
      forall p | p in after
        ensures after[p] == expected[p]
      {
        assert Requested(items[..i + 1], p) == Requested(items[..i], p) + (if items[i].prodId == p then items[i].quantity else 0);
      }
      assert after == expected;
    }
  }

  lemma {:induction false} OrderTotalOfAppend(a: seq<Line>, b: seq<Line>, orderId: Id)
    ensures OrderTotalOf(a + b, orderId) == OrderTotalOf(a, orderId) + OrderTotalOf(b, orderId)
  {
    if b != [] {
      var n := |b| - 1;
      assert (a + b)[..|a + b| - 1] == a + b[..n];
      OrderTotalOfAppend(a, b[..n], orderId);
    } else {
      assert a + b == a;
    }
  }

  lemma {:induction false} ReservedAppend(a: seq<Line>, b: seq<Line>, prodId: Id)
    ensures Reserved(a + b, prodId) == Reserved(a, prodId) + Reserved(b, prodId)
  {
    if b != [] {
      var n := |b| - 1;
      assert (a + b)[..|a + b| - 1] == a + b[..n];
      ReservedAppend(a, b[..n], prodId);
    } else {
      assert a + b == a;
    }
  }

  /** The new lines' prices add up to the sum of the caller-supplied prices. */
  lemma {:induction false} NewLinesTotal(ids: seq<Id>, items: seq<Item>, orderId: Id, custId: Id)
    requires |ids| == |items|
    ensures OrderTotalOf(NewLines(ids, items, orderId, custId), orderId) == ItemsTotal(items)
  {
    if items != [] {
      var n := |items| - 1;
      var prefix := NewLines(ids[..n], items[..n], orderId, custId);
      var whole := prefix + [NewProdOrder(ids[n], items[n], orderId, custId)];
      NewLinesTotal(ids[..n], items[..n], orderId, custId);
      assert whole[..|whole| - 1] == prefix;
    }
  }

  /** The new lines take from each product exactly the quantity requested for it. */
  lemma {:induction false} NewLinesReserved(ids: seq<Id>, items: seq<Item>, orderId: Id, custId: Id, prodId: Id)
    requires |ids| == |items|
    ensures Reserved(NewLines(ids, items, orderId, custId), prodId) == Requested(items, prodId)
  {
    if items != [] {
      var n := |items| - 1;
      var prefix := NewLines(ids[..n], items[..n], orderId, custId);
      var whole := prefix + [NewProdOrder(ids[n], items[n], orderId, custId)];
      NewLinesReserved(ids[..n], items[..n], orderId, custId, prodId);
      assert whole[..|whole| - 1] == prefix;
    }
  }

  /** An order no line belongs to has lines totalling zero. */
  lemma {:induction false} OrderTotalOfAbsent(lines: seq<Line>, orderId: Id)
    requires forall j :: 0 <= j < |lines| ==> lines[j].orderId != orderId
    ensures OrderTotalOf(lines, orderId) == 0
  {
    if lines != [] {
      OrderTotalOfAbsent(lines[..|lines| - 1], orderId);
    }
  }

  /** Replacing line k changes the sums by the difference of the two lines' contributions. */
  lemma {:induction false} SumsAfterReplace(lines: seq<Line>, k: nat, line: Line, orderId: Id, prodId: Id)
    requires k < |lines|
    ensures OrderTotalOf(lines[k := line], orderId)
         == OrderTotalOf(lines, orderId)
            - (if lines[k].orderId == orderId then lines[k].price else 0)
            + (if line.orderId == orderId then line.price else 0)
    ensures Reserved(lines[k := line], prodId)
         == Reserved(lines, prodId)
            - (if lines[k].prodId == prodId then lines[k].quantity else 0)
            + (if line.prodId == prodId then line.quantity else 0)
  {
    var n := |lines| - 1;
    if k == n {
      assert lines[k := line][..n] == lines[..n];
    } else {
      SumsAfterReplace(lines[..n], k, line, orderId, prodId);
      assert lines[k := line][..n] == lines[..n][k := line];
    }
  }

  /** Deleting line k takes its contribution off the sums. */
  lemma SumsAfterRemove(lines: seq<Line>, k: nat, orderId: Id, prodId: Id)
    requires k < |lines|
    ensures OrderTotalOf(lines[..k] + lines[k + 1..], orderId)
         == OrderTotalOf(lines, orderId) - (if lines[k].orderId == orderId then lines[k].price else 0)
    ensures Reserved(lines[..k] + lines[k + 1..], prodId)
         == Reserved(lines, prodId) - (if lines[k].prodId == prodId then lines[k].quantity else 0)
  {
    assert lines == lines[..k] + [lines[k]] + lines[k + 1..];
    OrderTotalOfAppend(lines[..k] + [lines[k]], lines[k + 1..], orderId);
    OrderTotalOfAppend(lines[..k], [lines[k]], orderId);
    OrderTotalOfAppend(lines[..k], lines[k + 1..], orderId);
    ReservedAppend(lines[..k] + [lines[k]], lines[k + 1..], prodId);
    ReservedAppend(lines[..k], [lines[k]], prodId);
    ReservedAppend(lines[..k], lines[k + 1..], prodId);
  }

  lemma RemoveKeepsDistinctIds(lines: seq<Line>, k: nat)
    requires k < |lines| && DistinctIds(lines)
    ensures DistinctIds(lines[..k] + lines[k + 1..])
  {
    var rest := lines[..k] + lines[k + 1..];
    forall i, j | 0 <= i < j < |rest|
      ensures rest[i].id != rest[j].id
    {
      var i' := if i < k then i else i + 1;
      var j' := if j < k then j else j + 1;
      assert rest[i] == lines[i'] && rest[j] == lines[j'];
    }
  }

  /** `CustomerLines` keeps exactly the lines of the customer, each as often as the table holds it. */
  lemma {:induction false} CustomerLinesSpec(lines: seq<Line>, custId: Id)
    ensures forall line :: multiset(CustomerLines(lines, custId))[line]
                           == if line.custId == custId then multiset(lines)[line] else 0
    ensures forall line :: line in CustomerLines(lines, custId) <==> line in lines && line.custId == custId
  {
    if lines != [] {
      var n := |lines| - 1;
      CustomerLinesSpec(lines[..n], custId);
      assert lines == lines[..n] + [lines[n]];
      assert multiset(lines) == multiset(lines[..n]) + multiset{lines[n]};
    }
  }

  // ---------------------------------------------------------------------------
  // Bookkeeping invariants

  /** Every line refers to an existing order, customer and product. */
  predicate Referenced(db: Db) {
    forall j :: 0 <= j < |db.lines| ==>
      db.lines[j].orderId in db.orders && db.lines[j].custId in db.customers && db.lines[j].prodId in db.products
  }

  /** Stock bookkeeping: each product has on hand what was stocked for it
      minus what the lines hold. */
  predicate Inventory(db: Db, stocked: map<Id, int>) {
    forall p :: p in db.products ==> p in stocked && db.products[p].quantity == stocked[p] - Reserved(db.lines, p)
  }

  /** Order-total bookkeeping: each order's total is the sum of its lines' prices. */
  predicate Totals(db: Db) {
    forall o :: o in db.orders ==> db.orders[o] == OrderTotalOf(db.lines, o)
  }

  // ---------------------------------------------------------------------------
  // create_order

  /** create_order raises exactly when a requested product is not in the
      catalog, and then names the first such product. */
  lemma PlaceOrderFails(db: Db, custId: Id, orderId: Id, lineIds: seq<Id>, items: seq<Item>)
    requires |lineIds| == |items|
    ensures PlaceOrder(db, custId, orderId, lineIds, items).Err?
            <==> exists k :: 0 <= k < |items| && items[k].prodId !in db.products
    ensures PlaceOrder(db, custId, orderId, lineIds, items).Err? ==>
      exists k :: 0 <= k < |items|
        && PlaceOrder(db, custId, orderId, lineIds, items).error == ProductMissing(items[k].prodId)
        && items[k].prodId !in db.products
        && forall j :: 0 <= j < k ==> items[j].prodId in db.products
  {
    FirstMissingSpec(db.products, items);
  }

  /** A committed create_order adds the customer only when it is new and
      appends one line per item, in list order, after the lines already there. */
  lemma PlaceOrderEffect(db: Db, custId: Id, orderId: Id, lineIds: seq<Id>, items: seq<Item>)
    requires |lineIds| == |items|
    requires PlaceOrder(db, custId, orderId, lineIds, items).Ok?
    ensures var after := PlaceOrder(db, custId, orderId, lineIds, items).value;
      && after.customers == db.customers + {custId}
      && (custId in db.customers ==> after.customers == db.customers)
      && |after.lines| == |db.lines| + |items|
      && after.lines[..|db.lines|] == db.lines
      && (forall k :: 0 <= k < |items| ==>
            after.lines[|db.lines| + k] == Line(lineIds[k], items[k].prodId, orderId, custId, items[k].quantity, items[k].price))
  {
    var after := PlaceOrder(db, custId, orderId, lineIds, items).value;
    NewLinesShape(lineIds, items, orderId, custId);
    assert after.lines == db.lines + NewLines(lineIds, items, orderId, custId);
  }

  /** A committed create_order opens the new order with the sum of its new
      lines' prices and leaves the other orders alone. */
  lemma PlaceOrderCharges(db: Db, custId: Id, orderId: Id, lineIds: seq<Id>, items: seq<Item>)
    requires |lineIds| == |items| && orderId !in db.orders
    requires PlaceOrder(db, custId, orderId, lineIds, items).Ok?
    ensures var after := PlaceOrder(db, custId, orderId, lineIds, items).value;
      && after.orders.Keys == db.orders.Keys + {orderId}
      && (forall o :: o in db.orders ==> after.orders[o] == db.orders[o])
      && after.orders[orderId] == OrderTotalOf(after.lines[|db.lines|..], orderId)
  {
    var after := PlaceOrder(db, custId, orderId, lineIds, items).value;
    assert after.lines[|db.lines|..] == NewLines(lineIds, items, orderId, custId);
    NewLinesTotal(lineIds, items, orderId, custId);
  }

  /** A committed create_order takes from each product what the new lines
      hold of it. */
  lemma PlaceOrderMovesStock(db: Db, custId: Id, orderId: Id, lineIds: seq<Id>, items: seq<Item>)
    requires |lineIds| == |items|
    requires PlaceOrder(db, custId, orderId, lineIds, items).Ok?
    ensures var after := PlaceOrder(db, custId, orderId, lineIds, items).value;
      && after.products.Keys == db.products.Keys
      && (forall p :: p in db.products ==>
            after.products[p] == db.products[p].(quantity := db.products[p].quantity - Reserved(after.lines[|db.lines|..], p)))
  {
    var after := PlaceOrder(db, custId, orderId, lineIds, items).value;
    var added := NewLines(lineIds, items, orderId, custId);
    assert after.lines[|db.lines|..] == added;
    forall p | p in db.products
      ensures Reserved(added, p) == Requested(items, p)
    {
      NewLinesReserved(lineIds, items, orderId, custId, p);
    }
  }

  /** Nothing stops create_order from taking more than is in stock. */
  lemma PlaceOrderOversells()
    ensures var db := Db({}, map[], map["p" := Product("", "", "", 100, 1)], []);
            var res := PlaceOrder(db, "c", "o", ["l"], [Item("p", 5, 500)]);
            res.Ok? && res.value.products["p"].quantity == -4
  {
    var items := [Item("p", 5, 500)];
    assert items[..0] == [];
    assert Requested(items, "p") == 5;
  }

  lemma PlaceOrderKeepsDistinctIds(db: Db, custId: Id, orderId: Id, lineIds: seq<Id>, items: seq<Item>)
    requires |lineIds| == |items| && DistinctIds(db.lines) && FreshLineIds(db.lines, lineIds)
    requires PlaceOrder(db, custId, orderId, lineIds, items).Ok?
    ensures DistinctIds(PlaceOrder(db, custId, orderId, lineIds, items).value.lines)
  {
    NewLinesShape(lineIds, items, orderId, custId);
  }

  lemma PlaceOrderKeepsReferences(db: Db, custId: Id, orderId: Id, lineIds: seq<Id>, items: seq<Item>)
    requires |lineIds| == |items| && Referenced(db)
    requires PlaceOrder(db, custId, orderId, lineIds, items).Ok?
    ensures Referenced(PlaceOrder(db, custId, orderId, lineIds, items).value)
  {
    NewLinesShape(lineIds, items, orderId, custId);
    FirstMissingSpec(db.products, items);
  }

  /** create_order keeps the stock bookkeeping. */
  lemma PlaceOrderKeepsInventory(db: Db, stocked: map<Id, int>, custId: Id, orderId: Id, lineIds: seq<Id>, items: seq<Item>)
    requires |lineIds| == |items| && Inventory(db, stocked)
    requires PlaceOrder(db, custId, orderId, lineIds, items).Ok?
    ensures Inventory(PlaceOrder(db, custId, orderId, lineIds, items).value, stocked)
  {
    var after := PlaceOrder(db, custId, orderId, lineIds, items).value;
    var added := NewLines(lineIds, items, orderId, custId);
    forall p | p in after.products
      ensures after.products[p].quantity == stocked[p] - Reserved(after.lines, p)
    {
      ReservedAppend(db.lines, added, p);
      NewLinesReserved(lineIds, items, orderId, custId, p);
    }
  }

  /** create_order keeps the order-total bookkeeping, given that no line yet
      refers to the fresh order id. */
  lemma PlaceOrderKeepsTotals(db: Db, custId: Id, orderId: Id, lineIds: seq<Id>, items: seq<Item>)
    requires |lineIds| == |items| && Totals(db) && Referenced(db) && orderId !in db.orders
    requires PlaceOrder(db, custId, orderId, lineIds, items).Ok?
    ensures Totals(PlaceOrder(db, custId, orderId, lineIds, items).value)
  {
    var after := PlaceOrder(db, custId, orderId, lineIds, items).value;
    var added := NewLines(lineIds, items, orderId, custId);
    NewLinesShape(lineIds, items, orderId, custId);
    forall o | o in after.orders
      ensures after.orders[o] == OrderTotalOf(after.lines, o)
    {
      OrderTotalOfAppend(db.lines, added, o);
      if o == orderId {
        OrderTotalOfAbsent(db.lines, orderId);
        NewLinesTotal(lineIds, items, orderId, custId);
      } else {
        OrderTotalOfAbsent(added, o);
      }
    }
  }

  // ---------------------------------------------------------------------------
  // update_order

  /** update_order raises when no line of the order takes the product; else
      when the product is gone; else, on an increase only, when the order is
      gone. A decrease never looks at the order, so it commits even when the
      order row no longer exists. */
  lemma UpdateLineFails(db: Db, orderId: Id, prodId: Id, newQuantity: int)
    ensures (forall j :: 0 <= j < |db.lines| ==> !Matches(db.lines[j], orderId, prodId))
            ==> UpdateLine(db, orderId, prodId, newQuantity) == Err(LineMissing(orderId, prodId))
    ensures (exists j :: 0 <= j < |db.lines| && Matches(db.lines[j], orderId, prodId)) && prodId !in db.products
            ==> UpdateLine(db, orderId, prodId, newQuantity) == Err(ProductMissing(prodId))
    ensures UpdateLine(db, orderId, prodId, newQuantity) == Err(OrderMissing(orderId)) <==>
      (exists j :: 0 <= j < |db.lines| && Matches(db.lines[j], orderId, prodId))
      && prodId in db.products && orderId !in db.orders
      && db.lines[FindLine(db.lines, orderId, prodId).value].quantity < newQuantity
    ensures UpdateLine(db, orderId, prodId, newQuantity).Ok? <==>
      (exists j :: 0 <= j < |db.lines| && Matches(db.lines[j], orderId, prodId))
      && prodId in db.products
      && (orderId in db.orders || db.lines[FindLine(db.lines, orderId, prodId).value].quantity >= newQuantity)
  {
  }

  /** A committed update_order leaves the first line of (order, product) at
      the new quantity, priced at the catalog price, and changes no other
      line and no customer. */
  lemma UpdateLineEffect(db: Db, orderId: Id, prodId: Id, newQuantity: int)
    requires UpdateLine(db, orderId, prodId, newQuantity).Ok?
    ensures FindLine(db.lines, orderId, prodId).Some? && prodId in db.products
    ensures var k := FindLine(db.lines, orderId, prodId).value;
      UpdateLine(db, orderId, prodId, newQuantity).value.lines
      == db.lines[k := db.lines[k].(quantity := newQuantity, price := db.products[prodId].price * newQuantity)]
    ensures UpdateLine(db, orderId, prodId, newQuantity).value.customers == db.customers
  {
    var k := FindLine(db.lines, orderId, prodId).value;
    var line := SetPrice(db.lines[k], db.products[prodId].price, newQuantity);
    assert UpdateQuantity(line, newQuantity) == db.lines[k].(quantity := newQuantity, price := db.products[prodId].price * newQuantity);
  }

  /** A committed update_order moves the product's stock against the change
      in the line's quantity; equal quantities leave the catalog as it was. */
  lemma UpdateLineMovesStock(db: Db, orderId: Id, prodId: Id, newQuantity: int)
    requires UpdateLine(db, orderId, prodId, newQuantity).Ok?
    ensures FindLine(db.lines, orderId, prodId).Some? && prodId in db.products
    ensures var k := FindLine(db.lines, orderId, prodId).value;
      UpdateLine(db, orderId, prodId, newQuantity).value.products
      == db.products[prodId := db.products[prodId].(quantity := db.products[prodId].quantity - (newQuantity - db.lines[k].quantity))]
    ensures db.lines[FindLine(db.lines, orderId, prodId).value].quantity == newQuantity
            ==> UpdateLine(db, orderId, prodId, newQuantity).value.products == db.products
  {
    var k := FindLine(db.lines, orderId, prodId).value;
    var p := db.products[prodId];
    var was := db.lines[k].quantity;
    var after := UpdateLine(db, orderId, prodId, newQuantity).value;
    if was < newQuantity {
      assert after.products == db.products[prodId := DecrementQuantity(p, newQuantity - was)];
    } else if was > newQuantity {
      assert after.products == db.products[prodId := IncrementQuantity(p, was - newQuantity)];
    } else {
      assert p.(quantity := p.quantity - 0) == p;
      assert db.products[prodId := p] == db.products;
    }
  }

  /** A committed update_order adds the line's whole new price to the order's
      total on an increase and changes no total otherwise. */
  lemma UpdateLineCharges(db: Db, orderId: Id, prodId: Id, newQuantity: int)
    requires UpdateLine(db, orderId, prodId, newQuantity).Ok?
    ensures FindLine(db.lines, orderId, prodId).Some? && prodId in db.products
    ensures var k := FindLine(db.lines, orderId, prodId).value;
      UpdateLine(db, orderId, prodId, newQuantity).value.orders
      == if db.lines[k].quantity < newQuantity
         then db.orders[orderId := db.orders[orderId] + db.products[prodId].price * newQuantity]
         else db.orders
  {
  }

  /** update_order keeps the stock bookkeeping. */
  lemma UpdateLineKeepsInventory(db: Db, stocked: map<Id, int>, orderId: Id, prodId: Id, newQuantity: int)
    requires Inventory(db, stocked)
    requires UpdateLine(db, orderId, prodId, newQuantity).Ok?
    ensures Inventory(UpdateLine(db, orderId, prodId, newQuantity).value, stocked)
  {
    var after := UpdateLine(db, orderId, prodId, newQuantity).value;
    var k := FindLine(db.lines, orderId, prodId).value;
    forall p | p in after.products
      ensures after.products[p].quantity == stocked[p] - Reserved(after.lines, p)
    {
      SumsAfterReplace(db.lines, k, after.lines[k], orderId, p);
      assert after.lines == db.lines[k := after.lines[k]];
    }
  }

  lemma UpdateLineKeepsReferences(db: Db, orderId: Id, prodId: Id, newQuantity: int)
    requires Referenced(db) && DistinctIds(db.lines)
    requires UpdateLine(db, orderId, prodId, newQuantity).Ok?
    ensures Referenced(UpdateLine(db, orderId, prodId, newQuantity).value)
    ensures DistinctIds(UpdateLine(db, orderId, prodId, newQuantity).value.lines)
  {
  }

  /** The evidently intended update keeps the order-total bookkeeping. */
  lemma RepriceLineKeepsTotals(db: Db, orderId: Id, prodId: Id, newQuantity: int)
    requires Totals(db)
    requires RepriceLine(db, orderId, prodId, newQuantity).Ok?
    ensures Totals(RepriceLine(db, orderId, prodId, newQuantity).value)
  {
    var after := RepriceLine(db, orderId, prodId, newQuantity).value;
    var k := FindLine(db.lines, orderId, prodId).value;
    forall o | o in after.orders
      ensures after.orders[o] == OrderTotalOf(after.lines, o)
    {
      SumsAfterReplace(db.lines, k, after.lines[k], o, prodId);
      assert after.lines == db.lines[k := after.lines[k]];
    }
  }

  /** The evidently intended update keeps the stock bookkeeping too. */
  lemma RepriceLineKeepsInventory(db: Db, stocked: map<Id, int>, orderId: Id, prodId: Id, newQuantity: int)
    requires Inventory(db, stocked)
    requires RepriceLine(db, orderId, prodId, newQuantity).Ok?
    ensures Inventory(RepriceLine(db, orderId, prodId, newQuantity).value, stocked)
  {
    var after := RepriceLine(db, orderId, prodId, newQuantity).value;
    var k := FindLine(db.lines, orderId, prodId).value;
    forall p | p in after.products
      ensures after.products[p].quantity == stocked[p] - Reserved(after.lines, p)
    {
      SumsAfterReplace(db.lines, k, after.lines[k], orderId, p);
      assert after.lines == db.lines[k := after.lines[k]];
    }
  }

  // ---------------------------------------------------------------------------
  // delete_item_order

  /** delete_item_order raises when the order is gone; else when no line of
      the order takes the product; else when the product is gone. */
  lemma DeleteItemFails(db: Db, orderId: Id, prodId: Id)
    ensures orderId !in db.orders ==> DeleteItem(db, orderId, prodId) == Err(OrderMissing(orderId))
    ensures orderId in db.orders && (forall j :: 0 <= j < |db.lines| ==> !Matches(db.lines[j], orderId, prodId))
            ==> DeleteItem(db, orderId, prodId) == Err(LineMissing(orderId, prodId))
    ensures DeleteItem(db, orderId, prodId).Ok? <==>
      orderId in db.orders && prodId in db.products
      && exists j :: 0 <= j < |db.lines| && Matches(db.lines[j], orderId, prodId)
  {
  }

  /** A committed delete_item_order removes only the first line of (order,
      product), takes its price off that order's total and returns its
      quantity to that product's stock. */
  lemma DeleteItemEffect(db: Db, orderId: Id, prodId: Id)
    requires DeleteItem(db, orderId, prodId).Ok?
    ensures FindLine(db.lines, orderId, prodId).Some? && orderId in db.orders && prodId in db.products
    ensures var gone := db.lines[FindLine(db.lines, orderId, prodId).value];
      DeleteItem(db, orderId, prodId).value.orders == db.orders[orderId := db.orders[orderId] - gone.price]
    ensures var gone := db.lines[FindLine(db.lines, orderId, prodId).value];
      DeleteItem(db, orderId, prodId).value.products
      == db.products[prodId := db.products[prodId].(quantity := db.products[prodId].quantity + gone.quantity)]
    ensures DeleteItem(db, orderId, prodId).value.customers == db.customers
  {
  }

  /** ... and the lines left are the others, in their order. */
  lemma DeleteItemRemovesOneLine(db: Db, orderId: Id, prodId: Id)
    requires DeleteItem(db, orderId, prodId).Ok?
    ensures FindLine(db.lines, orderId, prodId).Some?
    ensures var k := FindLine(db.lines, orderId, prodId).value;
      var rest := DeleteItem(db, orderId, prodId).value.lines;
      && |rest| == |db.lines| - 1
      && (forall j :: 0 <= j < k ==> rest[j] == db.lines[j])
      && (forall j :: k <= j < |rest| ==> rest[j] == db.lines[j + 1])
    ensures multiset(DeleteItem(db, orderId, prodId).value.lines) + multiset{db.lines[FindLine(db.lines, orderId, prodId).value]}
            == multiset(db.lines)
  {
    var k := FindLine(db.lines, orderId, prodId).value;
    var rest := db.lines[..k] + db.lines[k + 1..];
    assert DeleteItem(db, orderId, prodId).value.lines == rest;
    assert db.lines == db.lines[..k] + [db.lines[k]] + db.lines[k + 1..];
    calc {
      multiset(db.lines);
      multiset(db.lines[..k] + [db.lines[k]] + db.lines[k + 1..]);
      multiset(db.lines[..k]) + multiset{db.lines[k]} + multiset(db.lines[k + 1..]);
      multiset(rest) + multiset{db.lines[k]};
    }
  }

  /** delete_item_order keeps the stock bookkeeping. */
  lemma DeleteItemKeepsInventory(db: Db, stocked: map<Id, int>, orderId: Id, prodId: Id)
    requires Inventory(db, stocked)
    requires DeleteItem(db, orderId, prodId).Ok?
    ensures Inventory(DeleteItem(db, orderId, prodId).value, stocked)
  {
    var k := FindLine(db.lines, orderId, prodId).value;
    forall p | p in db.products {
      SumsAfterRemove(db.lines, k, orderId, p);
    }
  }

  /** delete_item_order keeps the order-total bookkeeping. */
  lemma DeleteItemKeepsTotals(db: Db, orderId: Id, prodId: Id)
    requires Totals(db)
    requires DeleteItem(db, orderId, prodId).Ok?
    ensures Totals(DeleteItem(db, orderId, prodId).value)
  {
    var k := FindLine(db.lines, orderId, prodId).value;
    forall o | o in db.orders {
      SumsAfterRemove(db.lines, k, o, prodId);
    }
  }

  lemma DeleteItemKeepsReferences(db: Db, orderId: Id, prodId: Id)
    requires Referenced(db) && DistinctIds(db.lines)
    requires DeleteItem(db, orderId, prodId).Ok?
    ensures Referenced(DeleteItem(db, orderId, prodId).value)
    ensures DistinctIds(DeleteItem(db, orderId, prodId).value.lines)
  {
    var k := FindLine(db.lines, orderId, prodId).value;
    RemoveKeepsDistinctIds(db.lines, k);
    var rest := db.lines[..k] + db.lines[k + 1..];
    forall j | 0 <= j < |rest|
      ensures rest[j] == db.lines[if j < k then j else j + 1]
    {
    }
  }

  // ---------------------------------------------------------------------------
  // Round trip

  /** Placing a one-item order for a product in the catalog commits: one new
      line, the order's total at the item's price, the quantity off its product. */
  lemma PlaceOneItem(db: Db, custId: Id, orderId: Id, lineId: Id, item: Item)
    requires item.prodId in db.products
    ensures PlaceOrder(db, custId, orderId, [lineId], [item])
            == Ok(Db(db.customers + {custId}, db.orders[orderId := item.price],
                     db.products[item.prodId := DecrementQuantity(db.products[item.prodId], item.quantity)],
                     db.lines + [NewProdOrder(lineId, item, orderId, custId)]))
  {
    var items := [item];
    assert items[..0] == [];
    assert FirstMissing(db.products, items) == None;
    assert ItemsTotal(items) == item.price;
    assert NewLines([lineId], items, orderId, custId) == [NewProdOrder(lineId, item, orderId, custId)];
    var depleted := Deplete(db.products, items);
    var expected := db.products[item.prodId := DecrementQuantity(db.products[item.prodId], item.quantity)];
    assert depleted.Keys == expected.Keys;
    forall p | p in db.products
      ensures depleted[p] == expected[p]
    {
      assert Requested(items, p) == if p == item.prodId then item.quantity else 0;
    }
    assert depleted == expected;
  }

  /** A line appended for an order no existing line refers to is the one the
      (order, product) query finds. */
  lemma FindAppendedLine(db: Db, line: Line)
    requires Referenced(db) && line.orderId !in db.orders
    ensures FindLine(db.lines + [line], line.orderId, line.prodId) == Some(|db.lines|)
  {
    var all := db.lines + [line];
    forall j | 0 <= j < |db.lines|
      ensures !Matches(all[j], line.orderId, line.prodId)
    {
      assert all[j] == db.lines[j];
    }
    assert Matches(all[|db.lines|], line.orderId, line.prodId);
  }

  /** Placing a one-item order and then deleting its line puts the stock back,
      leaves the lines as they were and the new order at a total of zero. */
  lemma CreateThenDeleteRestores(db: Db, custId: Id, orderId: Id, lineId: Id, item: Item)
    requires Referenced(db) && orderId !in db.orders && item.prodId in db.products
    ensures PlaceOrder(db, custId, orderId, [lineId], [item]).Ok?
    ensures DeleteItem(PlaceOrder(db, custId, orderId, [lineId], [item]).value, orderId, item.prodId)
            == Ok(Db(db.customers + {custId}, db.orders[orderId := 0], db.products, db.lines))
  {
    PlaceOneItem(db, custId, orderId, lineId, item);
    var pid := item.prodId;
    var line := NewProdOrder(lineId, item, orderId, custId);
    FindAppendedLine(db, line);
    var placed := Db(db.customers + {custId}, db.orders[orderId := item.price],
                     db.products[pid := DecrementQuantity(db.products[pid], item.quantity)],
                     db.lines + [line]);
    var n := |db.lines|;
    assert placed.lines[n] == line;
    assert placed.lines[..n] + placed.lines[n + 1..] == db.lines;
    var orders' := placed.orders[orderId := DecrementOrderTotal(placed.orders[orderId], line.price)];
    var products' := placed.products[pid := IncrementQuantity(placed.products[pid], line.quantity)];
    assert DeleteItem(placed, orderId, pid) == Ok(placed.(orders := orders', products := products', lines := db.lines));
    assert orders' == db.orders[orderId := 0];
    assert products' == db.products;
  }

  // ---------------------------------------------------------------------------
  // The order-total bookkeeping under update_order

  /** The tables after placing an order for 3 of a product priced 5.00 with 10
      in stock, the caller sending 15.00 as the line's price. */
  function ThreeOrdered(): Db {
    Db({"C1"}, map["O1" := 1500], map["P" := Product("", "", "", 500, 7)], [Line("L1", "P", "O1", "C1", 3, 1500)])
  }

  /** Placing that order gives those tables, and they keep both bookkeepings. */
  lemma ThreeOrderedPlaced()
    ensures PlaceOrder(Db({}, map[], map["P" := Product("", "", "", 500, 10)], []), "C1", "O1", ["L1"], [Item("P", 3, 1500)])
            == Ok(ThreeOrdered())
    ensures Totals(ThreeOrdered()) && Inventory(ThreeOrdered(), map["P" := 10])
  {
    var items := [Item("P", 3, 1500)];
    var catalog := map["P" := Product("", "", "", 500, 10)];
    assert items[..0] == [];
    assert Requested(items, "P") == 3;
    assert FirstMissing(catalog, items) == None;
    assert Deplete(catalog, items) == map["P" := Product("", "", "", 500, 7)];
    assert NewLines(["L1"], items, "O1", "C1") == [Line("L1", "P", "O1", "C1", 3, 1500)];
    assert {} + {"C1"} == {"C1"};
    var lines := ThreeOrdered().lines;
    assert lines[..0] == [];
    assert OrderTotalOf(lines, "O1") == 1500;
    assert Reserved(lines, "P") == 3;
  }

  /** As written, raising the line from 3 to 5 adds the whole new line price
      (25.00) to the total instead of the 10.00 difference: the order's total
      becomes 40.00 while its only line is priced 25.00; deleting that line
      then leaves 15.00 on an order with no lines. */
  lemma UpdateIncreaseOvercharges()
    ensures var up := UpdateLine(ThreeOrdered(), "O1", "P", 5);
      && up.Ok?
      && up.value.products["P"].quantity == 5
      && up.value.orders["O1"] == 4000
      && OrderTotalOf(up.value.lines, "O1") == 2500
      && !Totals(up.value)
      && DeleteItem(up.value, "O1", "P").Ok?
      && DeleteItem(up.value, "O1", "P").value.orders["O1"] == 1500
      && DeleteItem(up.value, "O1", "P").value.lines == []
  {
    var up := UpdateLine(ThreeOrdered(), "O1", "P", 5).value;
    assert up.lines == [Line("L1", "P", "O1", "C1", 5, 2500)];
    assert up.lines[..0] == [];
    assert OrderTotalOf(up.lines, "O1") == 2500;
  }

  /** As written, lowering the line from 3 to 1 leaves the order's total at
      15.00 while its only line is now priced 5.00. */
  lemma UpdateDecreaseKeepsCharge()
    ensures var up := UpdateLine(ThreeOrdered(), "O1", "P", 1);
      && up.Ok?
      && up.value.products["P"].quantity == 9
      && up.value.orders["O1"] == 1500
      && OrderTotalOf(up.value.lines, "O1") == 500
      && !Totals(up.value)
  {
    var up := UpdateLine(ThreeOrdered(), "O1", "P", 1).value;
    assert up.lines == [Line("L1", "P", "O1", "C1", 1, 500)];
    assert up.lines[..0] == [];
    assert OrderTotalOf(up.lines, "O1") == 500;
  }

  /** With the corrected update the same sequence gives 25.00 after
      raising to 5, and 0.00 with 10 back in stock after the delete. */
  lemma RepriceScenario()
    ensures var up := RepriceLine(ThreeOrdered(), "O1", "P", 5);
      && up.Ok?
      && up.value.products["P"].quantity == 5
      && up.value.orders["O1"] == 2500
      && Totals(up.value)
      && DeleteItem(up.value, "O1", "P") == Ok(Db({"C1"}, map["O1" := 0], map["P" := Product("", "", "", 500, 10)], []))
  {
    var up := RepriceLine(ThreeOrdered(), "O1", "P", 5).value;
    assert up.lines == [Line("L1", "P", "O1", "C1", 5, 2500)];
    assert up.lines[..0] == [];
    assert OrderTotalOf(up.lines, "O1") == 2500;
    assert up.orders == map["O1" := 2500];
    assert up.products == map["P" := Product("", "", "", 500, 5)];
    assert FindLine(up.lines, "O1", "P") == Some(0);
    assert up.lines[..0] + up.lines[1..] == [];
    var after := DeleteItem(up, "O1", "P").value;
    assert after.orders == map["O1" := 2500 - 2500];
    assert after.products == map["P" := Product("", "", "", 500, 5 + 5)];
    assert after.lines == [];
    assert after.customers == {"C1"};
  }
}
