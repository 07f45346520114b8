/**
 * The order handlers of rangers_shop/blueprints/api/routes.py over one store
 * holding the four tables. Each handler stages its changes in local copies
 * (the session) and assigns the tables once at the end (the commit); a lookup
 * that comes back empty returns its fault before the commit, so the tables
 * are left as they were (the rollback).
 */
module OrderRoutes {
  import opened Results
  import opened Ledger
  import LedgerFacts

  class Store {
    var customers: set<Id>
    var orders: map<Id, int>
    var products: map<Id, Product>
    var prodorders: seq<Line>

    /** The tables as one value. */
    function Tables(): Db
      reads this
    {
      Db(customers, orders, products, prodorders)
    }

    /** The primary key of ProdOrder. */
    predicate Valid()
      reads this
    {
      DistinctIds(prodorders)
    }

    /** A store with a stocked catalog and no customers, orders or lines. */
    constructor (catalog: map<Id, Product>)
      ensures Valid()
      ensures Tables() == Db({}, map[], catalog, [])
    {
      customers := {};
      orders := map[];
      products := catalog;
      prodorders := [];
    }

    /** get_order: one entry per line of the customer, in the order the query
        returns them, each with the product's id, name, image, description and
        price, and the line's quantity, order id and id. The line's quantity overwrites the
        product's `quantity` key, so the stock on hand is not reported.
        Reads only. */
    method GetOrder(custId: Id) returns (data: seq<Entry>)
      ensures |data| == |CustomerLines(prodorders, custId)|
      ensures forall k :: 0 <= k < |data| ==>
        var line := CustomerLines(prodorders, custId)[k];
        && data[k].quantity == line.quantity
        && data[k].orderId == line.orderId
        && data[k].id == line.id
        && (data[k].product.Some? <==> line.prodId in products)
        && (data[k].product.Some? ==>
              var p := products[line.prodId];
              && data[k].product.value.prodId == line.prodId
              && data[k].product.value.name == p.name
              && data[k].product.value.image == p.image
              && data[k].product.value.description == p.description
              && data[k].product.value.price == p.price
              && data[k].product.value.quantity == line.quantity)
    {
      var rows := CustomerLines(prodorders, custId);
      data := [];
      var i := 0;
      while i < |rows|
        invariant 0 <= i <= |rows|
        invariant |data| == i
        invariant forall k :: 0 <= k < i ==> data[k] == EntryFor(rows[k], products)
      {
        var row := rows[i];
        var product: Option<Listing> := None;
        if row.prodId in products {
          var p := products[row.prodId];
          product := Some(Listing(row.prodId, p.name, p.image, p.description, p.price, p.quantity));
          product := Some(product.value.(quantity := row.quantity));
        }
        data := data + [Entry(product, row.quantity, row.orderId, row.id)];
        i := i + 1;
      }
    }

    /** create_order. `orderId` and `lineIds` are the ids the Order and
        ProdOrder constructors generate. */
    method CreateOrder(custId: Id, orderId: Id, lineIds: seq<Id>, items: seq<Item>) returns (r: Result<(), Fault>)
      requires Valid()
      requires orderId !in orders
      requires |lineIds| == |items| && FreshLineIds(prodorders, lineIds)
      modifies this
      ensures Valid()
      ensures var res := PlaceOrder(old(Tables()), custId, orderId, lineIds, items);
              r == Status(res) && Tables() == Commit(old(Tables()), res)
    {
      var custs := customers;
      if custId !in custs {
        custs := custs + {custId};
      }
      var total := 0;
      var prods := products;
      var lines := prodorders;
      var i := 0;
      while i < |items|
        invariant 0 <= i <= |items|
        invariant Tables() == old(Tables())
        invariant FirstMissing(products, items[..i]).None?
        invariant total == ItemsTotal(items[..i])
        invariant prods == Deplete(products, items[..i])
        invariant lines == prodorders + NewLines(lineIds[..i], items[..i], orderId, custId)
      {
        var item := items[i];
        lines := lines + [NewProdOrder(lineIds[i], item, orderId, custId)];
        total := IncrementOrderTotal(total, item.price);
        LedgerFacts.PlaceOrderStep(products, lineIds, items, orderId, custId, i);
        if item.prodId !in prods {
          LedgerFacts.FirstMissingPrefix(products, items, i + 1);
          assert PlaceOrder(Tables(), custId, orderId, lineIds, items) == Err(ProductMissing(item.prodId));
          return Err(ProductMissing(item.prodId));
        }
        prods := prods[item.prodId := DecrementQuantity(prods[item.prodId], item.quantity)];
        i := i + 1;
      }
      assert items[..i] == items && lineIds[..i] == lineIds;
      ghost var before := Tables();
      assert custs == customers + {custId};
      assert PlaceOrder(before, custId, orderId, lineIds, items) == Ok(Db(custs, orders[orderId := total], prods, lines));
      LedgerFacts.PlaceOrderKeepsDistinctIds(before, custId, orderId, lineIds, items);
      customers, orders, products, prodorders := custs, orders[orderId := total], prods, lines;
      r := Ok(());
    }

    /** update_order, as written. */
    method UpdateOrder(orderId: Id, prodId: Id, newQuantity: int) returns (r: Result<(), Fault>)
      requires Valid()
      modifies this
      ensures Valid()
      ensures var res := UpdateLine(old(Tables()), orderId, prodId, newQuantity);
              r == Status(res) && Tables() == Commit(old(Tables()), res)
    {
      var found := FindLine(prodorders, orderId, prodId);
      if found.None? {
        return Err(LineMissing(orderId, prodId));
      }
      var k := found.value;
      if prodId !in products {
        return Err(ProductMissing(prodId));
      }
      var prods, ords := products, orders;
      var line := SetPrice(prodorders[k], prods[prodId].price, newQuantity);
      var diff := Abs(line.quantity - newQuantity);
      if line.quantity < newQuantity {
        prods := prods[prodId := DecrementQuantity(prods[prodId], diff)];
        if orderId !in ords {
          return Err(OrderMissing(orderId));
        }
        ords := ords[orderId := IncrementOrderTotal(ords[orderId], line.price)];
      } else if line.quantity > newQuantity {
        prods := prods[prodId := IncrementQuantity(prods[prodId], diff)];
        // decrement_order_total is called on the product: no order total changes
      }
      line := UpdateQuantity(line, newQuantity);
      products, orders, prodorders := prods, ords, prodorders[k := line];
      r := Ok(());
    }

    /** delete_item_order. */
    method DeleteItemOrder(orderId: Id, prodId: Id) returns (r: Result<(), Fault>)
      requires Valid()
      modifies this
      ensures Valid()
      ensures var res := DeleteItem(old(Tables()), orderId, prodId);
              r == Status(res) && Tables() == Commit(old(Tables()), res)
    {
      var found := FindLine(prodorders, orderId, prodId);
      if orderId !in orders {
        return Err(OrderMissing(orderId));
      }
      if found.None? {
        return Err(LineMissing(orderId, prodId));
      }
      var k := found.value;
      var line := prodorders[k];
      var ords := orders[orderId := DecrementOrderTotal(orders[orderId], line.price)];
      if prodId !in products {
        return Err(ProductMissing(prodId));
      }
      var prods := products[prodId := IncrementQuantity(products[prodId], line.quantity)];
      LedgerFacts.RemoveKeepsDistinctIds(prodorders, k);
      orders, products, prodorders := ords, prods, prodorders[..k] + prodorders[k + 1..];
      r := Ok(());
    }
  }
}
