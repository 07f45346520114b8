/**
 * The order bookkeeping of the shop's JSON API as values: the four tables
 * (Customer, Order, Product, ProdOrder) and what one request does to them.
 * Each handler either commits all its changes at once or raises before the
 * commit, in which case the session is rolled back; a transition therefore
 * returns either the tables after the commit or the fault it raised.
 *
 * Prices and totals are integer cents. Stock is an `int`: nothing stops it
 * from going below zero.
 */
module Ledger {
  import opened Results

  type Id = string

  /** A row of the Product table. */
  datatype Product = Product(name: string, image: string, description: string, price: int, quantity: int)

  /** A row of the ProdOrder table: one product on one order of one customer. */
  datatype Line = Line(id: Id, prodId: Id, orderId: Id, custId: Id, quantity: int, price: int)

  /** One element of the `order` list in create_order's request body. */
  datatype Item = Item(prodId: Id, quantity: int, price: int)

  /** A product row as get_order dumps it: its id and catalog fields, with the
      `quantity` key holding the line's quantity instead of the stock on hand. */
  datatype Listing = Listing(prodId: Id, name: string, image: string, description: string, price: int, quantity: int)

  /** One element of get_order's response: the dumped product (none when the
      product row is gone) and the line's quantity, order id and id. */
  datatype Entry = Entry(product: Option<Listing>, quantity: int, orderId: Id, id: Id)

  /** The lookup that came back empty and made a handler raise before its commit. */
  datatype Fault = ProductMissing(prodId: Id) | OrderMissing(orderId: Id) | LineMissing(orderId: Id, prodId: Id)

  /** The four tables: customer ids, order totals by id, products by id, and the ProdOrder rows; their order is the model's choice, since the queries have no ORDER BY. */
  datatype Db = Db(customers: set<Id>, orders: map<Id, int>, products: map<Id, Product>, lines: seq<Line>)

  // The row helpers routes.py calls on Product, Order and ProdOrder.

  function IncrementQuantity(p: Product, n: int): Product { p.(quantity := p.quantity + n) }

  function DecrementQuantity(p: Product, n: int): Product { p.(quantity := p.quantity - n) }

  function IncrementOrderTotal(total: int, price: int): int { total + price }

  function DecrementOrderTotal(total: int, price: int): int { total - price }

  function SetPrice(line: Line, unitPrice: int, quantity: int): Line { line.(price := unitPrice * quantity) }

  function UpdateQuantity(line: Line, quantity: int): Line { line.(quantity := quantity) }

  function Abs(x: int): int { if x < 0 then -x else x }

  /** `ProdOrder(prod_id, quantity, price, order_id, cust_id)` with its freshly generated id. */
  function NewProdOrder(id: Id, item: Item, orderId: Id, custId: Id): Line {
    Line(id, item.prodId, orderId, custId, item.quantity, item.price)
  }

  /** The response entry get_order builds for one line: the product's stock
      on hand never reaches the response, the line's quantity replaces it. */
  function EntryFor(line: Line, products: map<Id, Product>): Entry {
    Entry(if line.prodId in products then Some(ListingFor(line.prodId, products[line.prodId], line.quantity)) else None,
          line.quantity, line.orderId, line.id)
  }

  /** `product_schema.dump(product)` with `quantity` overwritten by the line's quantity. */
  function ListingFor(prodId: Id, p: Product, quantity: int): Listing {
    Listing(prodId, p.name, p.image, p.description, p.price, quantity)
  }

  /** ProdOrder ids are a primary key. */
  predicate DistinctIds(lines: seq<Line>) {
    forall i, j :: 0 <= i < j < |lines| ==> lines[i].id != lines[j].id
  }

  /** What the id generator promises for a batch of new line ids. */
  predicate FreshLineIds(lines: seq<Line>, ids: seq<Id>) {
    && (forall i, j :: 0 <= i < j < |ids| ==> ids[i] != ids[j])
    && (forall i, j :: 0 <= i < |ids| && 0 <= j < |lines| ==> ids[i] != lines[j].id)
  }

  // Folds over the requested items. Each is defined by its last element, so
  // that create_order's left-to-right loop extends it one item at a time.

  /** Sum of the caller-supplied prices. */
  function ItemsTotal(items: seq<Item>): int {
    if items == [] then 0 else ItemsTotal(items[..|items| - 1]) + items[|items| - 1].price
  }

  /** Total quantity requested for one product. */
  function Requested(items: seq<Item>, prodId: Id): int {
    if items == [] then 0
    else
      var last := items[|items| - 1];
      Requested(items[..|items| - 1], prodId) + (if last.prodId == prodId then last.quantity else 0)
  }

  /** The first requested product id that is not in the catalog. */
  function FirstMissing(products: map<Id, Product>, items: seq<Item>): (r: Option<Id>)
  {
    if items == [] then None
    else
      match FirstMissing(products, items[..|items| - 1])
      case Some(p) => Some(p)
      case None => if items[|items| - 1].prodId in products then None else Some(items[|items| - 1].prodId)
  }

  /** The product FirstMissing reports is one the catalog lacks. */
  lemma {:induction false} FirstMissingAbsent(products: map<Id, Product>, items: seq<Item>)
    ensures FirstMissing(products, items).Some? ==> FirstMissing(products, items).value !in products
  {
    if items != [] {
      FirstMissingAbsent(products, items[..|items| - 1]);
    }
  }

  /** The lines create_order adds, one per item, in list order. */
  function NewLines(ids: seq<Id>, items: seq<Item>, orderId: Id, custId: Id): (r: seq<Line>)
    requires |ids| == |items|
    ensures |r| == |items|
  {
    if items == [] then []
    else NewLines(ids[..|ids| - 1], items[..|items| - 1], orderId, custId)
         + [NewProdOrder(ids[|ids| - 1], items[|items| - 1], orderId, custId)]
  }

  /** The catalog after every requested quantity has been taken off its product. */
  function Deplete(products: map<Id, Product>, items: seq<Item>): map<Id, Product> {
    map p | p in products :: DecrementQuantity(products[p], Requested(items, p))
  }

  // Folds over the ProdOrder table.

  /** Sum of the prices of the lines of one order. */
  function OrderTotalOf(lines: seq<Line>, orderId: Id): int {
    if lines == [] then 0
    else
      var last := lines[|lines| - 1];
      OrderTotalOf(lines[..|lines| - 1], orderId) + (if last.orderId == orderId then last.price else 0)
  }

  /** Sum of the quantities of the lines that take one product. */
  function Reserved(lines: seq<Line>, prodId: Id): int {
    if lines == [] then 0
    else
      var last := lines[|lines| - 1];
      Reserved(lines[..|lines| - 1], prodId) + (if last.prodId == prodId then last.quantity else 0)
  }

  /** `ProdOrder.query.filter(ProdOrder.cust_id == cust_id).all()`, in sequence order. */
  function CustomerLines(lines: seq<Line>, custId: Id): (r: seq<Line>)
    ensures |r| <= |lines|
    ensures forall i :: 0 <= i < |r| ==> r[i].custId == custId
  {
    if lines == [] then []
    else
      var last := lines[|lines| - 1];
      CustomerLines(lines[..|lines| - 1], custId) + (if last.custId == custId then [last] else [])
  }

  predicate Matches(line: Line, orderId: Id, prodId: Id) {
    line.orderId == orderId && line.prodId == prodId
  }

  /** `ProdOrder.query.filter(order_id == …, prod_id == …).first()`: the index of the first matching line in sequence order. */
  function FindLine(lines: seq<Line>, orderId: Id, prodId: Id): (r: Option<nat>)
    ensures r.Some? ==> r.value < |lines| && Matches(lines[r.value], orderId, prodId)
    ensures r.Some? ==> forall j :: 0 <= j < r.value ==> !Matches(lines[j], orderId, prodId)
    ensures r.None? ==> forall j :: 0 <= j < |lines| ==> !Matches(lines[j], orderId, prodId)
  {
    if lines == [] then None
    else if Matches(lines[0], orderId, prodId) then Some(0)
    else
      match FindLine(lines[1..], orderId, prodId)
      case None => None
      case Some(k) => Some(k + 1)
  }

  // The handlers as transitions.

  /** create_order: reuse or add the customer, open an order with total 0,
      add one line per item carrying the caller's product, quantity and price,
      add each price to the order's total and take each quantity off its
      product; a missing product raises and nothing is committed. */
  function PlaceOrder(db: Db, custId: Id, orderId: Id, lineIds: seq<Id>, items: seq<Item>): (r: Result<Db, Fault>)
    requires |lineIds| == |items|
    ensures r.Err? ==> r.error.ProductMissing? && r.error.prodId !in db.products
    ensures r.Ok? ==> custId in r.value.customers && |r.value.lines| == |db.lines| + |items|
  {
    FirstMissingAbsent(db.products, items);
    match FirstMissing(db.products, items)
    case Some(p) => Err(ProductMissing(p))
    case None =>
      Ok(Db(db.customers + {custId},
            db.orders[orderId := ItemsTotal(items)],
            Deplete(db.products, items),
            db.lines + NewLines(lineIds, items, orderId, custId)))
  }

  /** update_order as written: reprice the first line of (order, product) at
      the catalog price, move stock by the size of the quantity change, add
      the line's whole new price to the order's total on an increase, leave
      the total alone on a decrease (the source calls decrement_order_total
      on the product), and store the new quantity. */
  function UpdateLine(db: Db, orderId: Id, prodId: Id, newQuantity: int): (r: Result<Db, Fault>)
    ensures r.Err? ==> r.error in {LineMissing(orderId, prodId), ProductMissing(prodId), OrderMissing(orderId)}
    ensures r.Ok? ==> && FindLine(db.lines, orderId, prodId).Some?
                      && r.value.customers == db.customers
                      && r.value.orders.Keys == db.orders.Keys && r.value.products.Keys == db.products.Keys
                      && |r.value.lines| == |db.lines|
                      && r.value.lines[FindLine(db.lines, orderId, prodId).value].quantity == newQuantity
                      && forall j :: 0 <= j < |db.lines| && j != FindLine(db.lines, orderId, prodId).value
                           ==> r.value.lines[j] == db.lines[j]
  {
    match FindLine(db.lines, orderId, prodId)
    case None => Err(LineMissing(orderId, prodId))
    case Some(k) =>
      if prodId !in db.products then Err(ProductMissing(prodId))
      else
        var line := SetPrice(db.lines[k], db.products[prodId].price, newQuantity);
        var diff := Abs(line.quantity - newQuantity);
        var lines' := db.lines[k := UpdateQuantity(line, newQuantity)];
        if line.quantity < newQuantity then
          if orderId !in db.orders then Err(OrderMissing(orderId))
          else
            Ok(db.(products := db.products[prodId := DecrementQuantity(db.products[prodId], diff)],
                   orders := db.orders[orderId := IncrementOrderTotal(db.orders[orderId], line.price)],
                   lines := lines'))
        else if line.quantity > newQuantity then
          Ok(db.(products := db.products[prodId := IncrementQuantity(db.products[prodId], diff)],
                 lines := lines'))
        else
          Ok(db.(lines := lines'))
  }

  /** update_order as the comments at routes.py:145, :149 and :153 describe
      it: the order's total moves by the change in the line's price, in both
      directions, so it stays the sum of its lines' prices. Raises the same kinds of fault as UpdateLine does, but raises
      OrderMissing whenever the order is gone, whatever the new quantity. */
  function RepriceLine(db: Db, orderId: Id, prodId: Id, newQuantity: int): (r: Result<Db, Fault>)
    ensures r.Err? ==> r.error in {LineMissing(orderId, prodId), ProductMissing(prodId), OrderMissing(orderId)}
    ensures r.Ok? ==> && FindLine(db.lines, orderId, prodId).Some?
                      && r.value.customers == db.customers
                      && r.value.orders.Keys == db.orders.Keys && r.value.products.Keys == db.products.Keys
                      && |r.value.lines| == |db.lines|
                      && r.value.lines[FindLine(db.lines, orderId, prodId).value].quantity == newQuantity
                      && forall j :: 0 <= j < |db.lines| && j != FindLine(db.lines, orderId, prodId).value
                           ==> r.value.lines[j] == db.lines[j]
  {
    match FindLine(db.lines, orderId, prodId)
    case None => Err(LineMissing(orderId, prodId))
    case Some(k) =>
      if prodId !in db.products then Err(ProductMissing(prodId))
      else if orderId !in db.orders then Err(OrderMissing(orderId))
      else
        var was := db.lines[k];
        var line := SetPrice(was, db.products[prodId].price, newQuantity);
        Ok(db.(products := db.products[prodId := DecrementQuantity(db.products[prodId], newQuantity - was.quantity)],
               orders := db.orders[orderId := db.orders[orderId] - was.price + line.price],
               lines := db.lines[k := UpdateQuantity(line, newQuantity)]))
  }

  /** delete_item_order: take the line's price off the order's total, return
      its quantity to stock and delete the line. */
  function DeleteItem(db: Db, orderId: Id, prodId: Id): (r: Result<Db, Fault>)
    ensures r.Err? ==> r.error in {OrderMissing(orderId), LineMissing(orderId, prodId), ProductMissing(prodId)}
    ensures r.Ok? ==> && r.value.customers == db.customers
                      && r.value.orders.Keys == db.orders.Keys && r.value.products.Keys == db.products.Keys
                      && |r.value.lines| == |db.lines| - 1
  {
    if orderId !in db.orders then Err(OrderMissing(orderId))
    else
      match FindLine(db.lines, orderId, prodId)
      case None => Err(LineMissing(orderId, prodId))
      case Some(k) =>
        if prodId !in db.products then Err(ProductMissing(prodId))
        else
          var line := db.lines[k];
          Ok(db.(orders := db.orders[orderId := DecrementOrderTotal(db.orders[orderId], line.price)],
                 products := db.products[prodId := IncrementQuantity(db.products[prodId], line.quantity)],
                 lines := db.lines[..k] + db.lines[k + 1..]))
  }

  /** The tables after the single commit, or the old tables after a rollback. */
  function Commit(before: Db, res: Result<Db, Fault>): Db {
    match res
    case Ok(after) => after
    case Err(_) => before
  }

  /** What the handler reports: success, or the fault it raised. */
  function Status(res: Result<Db, Fault>): Result<(), Fault> {
    match res
    case Ok(_) => Ok(())
    case Err(f) => Err(f)
  }
}
