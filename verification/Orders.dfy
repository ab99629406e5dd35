/** Order placement run alone: what one create_order call does to a committed database. */
module Orders {
  import opened Prelude
  import opened Texts
  import opened Models
  import opened Money
  import opened Events

  /** The values the database and uuid4 supply while the order is built. */
  datatype Stamp = Stamp(orderId: Uuid, eventId: Uuid, createdAt: string)

  datatype StockShortage = StockShortage(product: Uuid, requested: nat, available: int)

  datatype Outcome =
    | Created(order: Order)
    | Replayed(order: Order)
    | KeyConflict
    | ProductsNotFound(products: seq<Uuid>)
    | InsufficientStock(shortages: seq<StockShortage>)
    | AmountTooLarge

  type Rows = map<Uuid, Product>

  /* ---- _place_order over the rows it has locked ---- */

  predicate Known(items: seq<Item>, rows: Rows) {
    forall i :: 0 <= i < |items| ==> items[i].product in rows
  }

  function Missing(items: seq<Item>, rows: Rows): (ids: seq<Uuid>)
    ensures ids == [] <==> Known(items, rows)
  {
    if items == [] then []
    else
      var last := items[|items| - 1];
      Missing(items[..|items| - 1], rows) + (if last.product in rows then [] else [last.product])
  }

  function Shortages(items: seq<Item>, rows: Rows): seq<StockShortage>
    requires Known(items, rows)
  {
    if items == [] then []
    else
      var last := items[|items| - 1];
      var available := rows[last.product].stock;
      Shortages(items[..|items| - 1], rows)
      + (if available < last.quantity then [StockShortage(last.product, last.quantity, available)] else [])
  }

  function Lines(items: seq<Item>, rows: Rows): (lines: seq<OrderItem>)
    requires Known(items, rows)
    ensures |lines| == |items|
    ensures forall i :: 0 <= i < |items| ==>
                          lines[i] == OrderItem(items[i].product, items[i].quantity, rows[items[i].product].price)
  {
    if items == [] then []
    else
      var last := items[|items| - 1];
      Lines(items[..|items| - 1], rows) + [OrderItem(last.product, last.quantity, rows[last.product].price)]
  }

  function LinesTotal(lines: seq<OrderItem>): nat {
    if lines == [] then 0
    else
      var last := lines[|lines| - 1];
      LinesTotal(lines[..|lines| - 1]) + last.unitPrice * last.quantity
  }

  /** What a request costs at the prices of the rows. */
  function Cost(items: seq<Item>, rows: Rows): nat
    requires Known(items, rows)
  {
    if items == [] then 0 else rows[items[0].product].price * items[0].quantity + Cost(items[1..], rows)
  }

  /** How many units of a product a request asks for in all its lines. */
  function Ordered(items: seq<Item>, product: Uuid): nat {
    if items == [] then 0
    else
      var last := items[|items| - 1];
      Ordered(items[..|items| - 1], product) + (if last.product == product then last.quantity else 0)
  }

  function TakeStock(rows: Rows, items: seq<Item>): Rows {
    map p | p in rows :: rows[p].(stock := rows[p].stock - Ordered(items, p))
  }

  function OrderOf(request: Request, stamp: Stamp, rows: Rows): Order
    requires Known(request.items, rows)
  {
    var lines := Lines(request.items, rows);
    Order(
      stamp.orderId, request.customer, request.key, request.hash, lines, LinesTotal(lines), stamp.createdAt)
  }

  function Decide(request: Request, stamp: Stamp, rows: Rows): Outcome {
    var missing := Missing(request.items, rows);
    if missing != [] then ProductsNotFound(missing)
    else
      var shortages := Shortages(request.items, rows);
      if shortages != [] then InsufficientStock(shortages)
      else
        var order := OrderOf(request, stamp, rows);
        if order.total > MAX_AMOUNT then AmountTooLarge else Created(order)
  }

  /** A product row as the ORM holds it: the loop below changes its stock in place. */
  class ProductRow {
    const id: Uuid
    const price: nat
    var stock: int

    constructor (id: Uuid, price: nat, stock: int)
      ensures this.id == id && this.price == price && this.stock == stock
    {
      this.id := id;
      this.price := price;
      this.stock := stock;
    }
  }

  /** The new order and the session's outbox additions while the transaction runs. */
  class PendingOrder {
    var items: seq<OrderItem>
    var total: nat
    var outbox: seq<OutboxMessage>

    constructor ()
      ensures items == [] && total == 0 && outbox == []
    {
      items := [];
      total := 0;
      outbox := [];
    }
  }

  /** What _reject_unknown_products and _reject_insufficient_stock see. */
  function View(products: map<Uuid, ProductRow>): Rows
    reads products.Values
  {
    map p | p in products :: Product(products[p].price, products[p].stock)
  }

  lemma NextLine(items: seq<Item>, i: nat, rows: Rows)
    requires i < |items| && Known(items, rows)
    ensures Lines(items[..i + 1], rows)
         == Lines(items[..i], rows) + [OrderItem(items[i].product, items[i].quantity, rows[items[i].product].price)]
  {
    assert items[..i + 1][..i] == items[..i];
  }

  /** A total starts at zero, and every line adds its unit price times its quantity. */
  lemma TotalAdds(lines: seq<OrderItem>, line: OrderItem)
    ensures LinesTotal([]) == 0
    ensures LinesTotal(lines + [line]) == LinesTotal(lines) + line.unitPrice * line.quantity
  {
    assert (lines + [line])[..|lines|] == lines;
  }

  /** So does the cost of a request, at the price of the row. */
  lemma {:induction false} CostAdds(items: seq<Item>, item: Item, rows: Rows)
    requires Known(items + [item], rows) && Known(items, rows) && item.product in rows
    ensures Cost([], rows) == 0
    ensures Cost(items + [item], rows) == Cost(items, rows) + rows[item.product].price * item.quantity
  {
    var longer := items + [item];
    if items == [] {
      assert longer == [item] && longer[1..] == [];
    } else {
      assert longer[1..] == items[1..] + [item];
      assert forall i :: 0 <= i < |longer[1..]| ==> longer[1..][i] == longer[i + 1];
      CostAdds(items[1..], item, rows);
    }
  }

  lemma {:induction false} TotalIsCost(items: seq<Item>, rows: Rows)
    requires Known(items, rows)
    ensures LinesTotal(Lines(items, rows)) == Cost(items, rows)
  {
    if items != [] {
      var front, last := items[..|items| - 1], items[|items| - 1];
      assert items == front + [last];
      TotalIsCost(front, rows);
      CostAdds(front, last, rows);
      TotalAdds(Lines(front, rows), OrderItem(last.product, last.quantity, rows[last.product].price));
    }
  }

  lemma NextStock(items: seq<Item>, i: nat, rows: Rows)
    requires i < |items| && items[i].product in rows
    ensures TakeStock(rows, items[..i + 1]) == LessStock(TakeStock(rows, items[..i]), items[i])
  {
    assert items[..i + 1][..i] == items[..i];
  }

  /** One line taken off the rows. */
  function LessStock(rows: Rows, item: Item): Rows
    requires item.product in rows
  {
    rows[item.product := Product(rows[item.product].price, rows[item.product].stock - item.quantity)]
  }

  /** One iteration: decrement the row and append its line. */
  method TakeLine(item: Item, products: map<Uuid, ProductRow>, order: PendingOrder) returns (line: OrderItem)
    requires item.product in products && forall p :: p in products ==> products[p].id == p
    modifies products.Values, order`items
    ensures View(products) == LessStock(old(View(products)), item)
    ensures line == OrderItem(item.product, item.quantity, old(View(products))[item.product].price)
    ensures order.items == old(order.items) + [line]
  {
    var product := products[item.product];
    product.stock := product.stock - item.quantity;
    line := OrderItem(product.id, item.quantity, product.price);
    order.items := order.items + [line];
  }

  /** The loop of _place_order: decrement each row, append its line, add up the total. */
  method TakeLines(items: seq<Item>, products: map<Uuid, ProductRow>, order: PendingOrder) returns (total: nat)
    requires forall p :: p in products ==> products[p].id == p
    requires order.items == [] && Known(items, View(products))
    modifies products.Values, order`items
    ensures View(products) == TakeStock(old(View(products)), items)
    ensures order.items == Lines(items, old(View(products)))
    ensures total == LinesTotal(order.items) == Cost(items, old(View(products)))
  {
    ghost var rows := View(products);
    total := 0;
    for i := 0 to |items|
      invariant View(products) == TakeStock(rows, items[..i])
      invariant order.items == Lines(items[..i], rows)
      invariant total == LinesTotal(order.items)
    {
      var line := TakeLine(items[i], products, order);
      NextLine(items, i, rows);
      NextStock(items, i, rows);
      TotalAdds(Lines(items[..i], rows), line);
      total := total + line.unitPrice * line.quantity;
    }
    assert items[..|items|] == items;
    TotalIsCost(items, rows);
  }

  /** Total, flush and event, once the lines are there: the flush fails on a total the column cannot hold. */
  method FinishOrder(request: Request, stamp: Stamp, order: PendingOrder, total: nat) returns (outcome: Outcome)
    modifies order`total, order`outbox
    ensures
      var placed := Order(
        stamp.orderId, request.customer, request.key, request.hash, order.items, total, stamp.createdAt);
      && outcome == (if total > MAX_AMOUNT then AmountTooLarge else Created(placed))
      && order.total == total
      && order.outbox == old(order.outbox)
                         + (if total > MAX_AMOUNT then [] else [BuildOrderCreatedMessage(placed, stamp.eventId)])
  {
    order.total := total;
    if total > MAX_AMOUNT {
      return AmountTooLarge;
    }
    var placed := Order(
      stamp.orderId, request.customer, request.key, request.hash, order.items, total, stamp.createdAt);
    order.outbox := order.outbox + [BuildOrderCreatedMessage(placed, stamp.eventId)];
    return Created(placed);
  }

  /** The part of _place_order after the two checks: lines, total, event. */
  method FillOrder(request: Request, stamp: Stamp, products: map<Uuid, ProductRow>, order: PendingOrder)
    returns (outcome: Outcome)
    requires forall p :: p in products ==> products[p].id == p
    requires order.items == [] && Known(request.items, View(products))
    modifies products.Values, order
    ensures
      var placed := OrderOf(request, stamp, old(View(products)));
      outcome == if placed.total > MAX_AMOUNT then AmountTooLarge else Created(placed)
    ensures outcome.Created? ==>
              && View(products) == TakeStock(old(View(products)), request.items)
              && order.items == outcome.order.items && order.total == outcome.order.total
              && order.outbox == old(order.outbox) + [BuildOrderCreatedMessage(outcome.order, stamp.eventId)]
    ensures !outcome.Created? ==> order.outbox == old(order.outbox)
  {
    ghost var rows := View(products);
    var total := TakeLines(request.items, products, order);
    assert OrderOf(request, stamp, rows)
        == Order(stamp.orderId, request.customer, request.key, request.hash, order.items, total, stamp.createdAt);
    outcome := FinishOrder(request, stamp, order, total);
  }

  lemma {:induction false} NoShortageMeansEnough(items: seq<Item>, rows: Rows, i: nat)
    requires Known(items, rows) && Shortages(items, rows) == [] && i < |items|
    ensures items[i].quantity <= rows[items[i].product].stock
  {
    if i < |items| - 1 {
      NoShortageMeansEnough(items[..|items| - 1], rows, i);
    }
  }

  lemma {:induction false} EnoughMeansNoShortage(items: seq<Item>, rows: Rows)
    requires Known(items, rows)
    requires forall i :: 0 <= i < |items| ==> items[i].quantity <= rows[items[i].product].stock
    ensures Shortages(items, rows) == []
  {
    if items != [] {
      EnoughMeansNoShortage(items[..|items| - 1], rows);
    }
  }

  /** Which answer a request gets, for all requests and tables; the limit is 9,999,999,999.99. */
  lemma DecideIff(request: Request, stamp: Stamp, rows: Rows)
    ensures
      var items, outcome := request.items, Decide(request, stamp, rows);
      var known := forall i :: 0 <= i < |items| ==> items[i].product in rows;
      var enough := known && forall i :: 0 <= i < |items| ==> items[i].quantity <= rows[items[i].product].stock;
      && (outcome.ProductsNotFound? <==> !known)
      && (outcome.InsufficientStock? <==> known && !enough)
      && (outcome.AmountTooLarge? <==> enough && Cost(items, rows) > 999_999_999_999)
      && (outcome.Created? <==> enough && Cost(items, rows) <= 999_999_999_999)
  {
    var items := request.items;
    if Known(items, rows) {
      TotalIsCost(items, rows);
      if Shortages(items, rows) == [] {
        forall i | 0 <= i < |items|
          ensures items[i].quantity <= rows[items[i].product].stock
        {
          NoShortageMeansEnough(items, rows, i);
        }
      } else if forall i :: 0 <= i < |items| ==> items[i].quantity <= rows[items[i].product].stock {
        EnoughMeansNoShortage(items, rows);
      }
    }
  }

  /** The body of _place_order after lock_by_ids has returned its dictionary of locked rows. */
  method PlaceOrder(request: Request, stamp: Stamp, products: map<Uuid, ProductRow>, order: PendingOrder)
    returns (outcome: Outcome)
    requires forall p :: p in products ==> products[p].id == p
    requires order.items == [] && order.total == 0
    modifies products.Values, order
    ensures outcome == Decide(request, stamp, old(View(products)))
    ensures
      var items, rows := request.items, old(View(products));
      outcome.Created? <==>
      && (forall i :: 0 <= i < |items| ==> items[i].product in rows && items[i].quantity <= rows[items[i].product].stock)
      && Cost(items, rows) <= 999_999_999_999
    ensures outcome.Created? ==> outcome.order.total == Cost(request.items, old(View(products)))
    ensures outcome.Created? ==>
              && View(products) == TakeStock(old(View(products)), request.items)
              && order.items == outcome.order.items && order.total == outcome.order.total
              && order.outbox == old(order.outbox) + [BuildOrderCreatedMessage(outcome.order, stamp.eventId)]
    ensures !outcome.Created? ==> order.outbox == old(order.outbox)
    ensures outcome.ProductsNotFound? || outcome.InsufficientStock? ==>
              View(products) == old(View(products)) && order.items == []
  {
    var rows := View(products);
    DecideIff(request, stamp, rows);
    var missing := Missing(request.items, rows);
    if missing != [] {
      return ProductsNotFound(missing);
    }
    var shortages := Shortages(request.items, rows);
    if shortages != [] {
      return InsufficientStock(shortages);
    }
    TotalIsCost(request.items, rows);
    outcome := FillOrder(request, stamp, products, order);
  }

  /* ---- what the two rejections list ---- */

  lemma {:induction false} MissingIsExact(items: seq<Item>, rows: Rows, product: Uuid)
    ensures product in Missing(items, rows)
       <==> exists i :: 0 <= i < |items| && items[i].product == product && product !in rows
  {
    if items != [] {
      var front := items[..|items| - 1];
      MissingIsExact(front, rows, product);
      assert forall i :: 0 <= i < |front| ==> front[i] == items[i];
    }
  }

  lemma {:induction false} ShortagesAreExact(items: seq<Item>, rows: Rows, shortage: StockShortage)
    requires Known(items, rows)
    ensures shortage in Shortages(items, rows)
       <==> exists i :: 0 <= i < |items| && items[i].quantity > rows[items[i].product].stock
                        && shortage == StockShortage(items[i].product, items[i].quantity, rows[items[i].product].stock)
  {
    if items != [] {
      var front := items[..|items| - 1];
      ShortagesAreExact(front, rows, shortage);
      assert forall i :: 0 <= i < |front| ==> front[i] == items[i];
    }
  }

  /* ---- the per-line stock check ---- */

  lemma {:induction false} OrderedNothing(items: seq<Item>, product: Uuid)
    requires forall i :: 0 <= i < |items| ==> items[i].product != product
    ensures Ordered(items, product) == 0
  {
    if items != [] {
      OrderedNothing(items[..|items| - 1], product);
    }
  }

  lemma {:induction false} OrderedOnce(items: seq<Item>, i: nat)
    requires Distinct(items) && i < |items|
    ensures Ordered(items, items[i].product) == items[i].quantity
  {
    if i < |items| - 1 {
      OrderedOnce(items[..|items| - 1], i);
    } else {
      OrderedNothing(items[..|items| - 1], items[i].product);
    }
  }

  lemma {:induction false} OrderedAtLeast(items: seq<Item>, i: nat)
    requires i < |items|
    ensures items[i].quantity <= Ordered(items, items[i].product)
  {
    if i < |items| - 1 {
      OrderedAtLeast(items[..|items| - 1], i);
    }
  }

  lemma {:induction false} OrderedTwice(items: seq<Item>, i: nat, j: nat)
    requires i < j < |items| && items[i].product == items[j].product
    ensures items[i].quantity + items[j].quantity <= Ordered(items, items[i].product)
  {
    if j < |items| - 1 {
      OrderedTwice(items[..|items| - 1], i, j);
    } else {
      OrderedAtLeast(items[..|items| - 1], i);
    }
  }

  ghost predicate NoStockNegative(rows: Rows) {
    forall p :: p in rows ==> rows[p].stock >= 0
  }

  lemma DistinctNeverOversells(items: seq<Item>, rows: Rows)
    requires Distinct(items) && Known(items, rows) && NoStockNegative(rows) && Shortages(items, rows) == []
    ensures NoStockNegative(TakeStock(rows, items))
  {
    forall p | p in rows
      ensures rows[p].stock >= Ordered(items, p)
    {
      if i :| 0 <= i < |items| && items[i].product == p {
        NoShortageMeansEnough(items, rows, i);
        OrderedOnce(items, i);
      } else {
        OrderedNothing(items, p);
      }
    }
  }

  /** The per-line check keeps every stock non-negative for all tables. */
  ghost predicate LineCheckSuffices(items: seq<Item>) {
    forall rows: Rows :: Known(items, rows) && NoStockNegative(rows) && Shortages(items, rows) == []
                         ==> NoStockNegative(TakeStock(rows, items))
  }

  /** Checking each line on its own is enough exactly when no product is repeated. */
  lemma LineCheckNeedsDistinct(items: seq<Item>)
    requires forall i :: 0 <= i < |items| ==> items[i].quantity > 0
    ensures LineCheckSuffices(items) <==> Distinct(items)
  {
    if Distinct(items) {
      forall rows: Rows | Known(items, rows) && NoStockNegative(rows) && Shortages(items, rows) == []
        ensures NoStockNegative(TakeStock(rows, items))
      {
        DistinctNeverOversells(items, rows);
      }
    } else {
      var i, j :| 0 <= i < j < |items| && items[i].product == items[j].product;
      OversoldTable(items, i, j);
    }
  }

  lemma OversoldTable(items: seq<Item>, i: nat, j: nat)
    requires forall k :: 0 <= k < |items| ==> items[k].quantity > 0
    requires i < j < |items| && items[i].product == items[j].product
    ensures !LineCheckSuffices(items)
  {
    var twice := items[i].product;
    var rows := map p | p in Products(items) :: Product(0, Ordered(items, p) - (if p == twice then 1 else 0));
    forall k | 0 <= k < |items|
      ensures items[k].product in rows && items[k].quantity <= rows[items[k].product].stock
    {
      OrderedAtLeast(items, k);
      if items[k].product == twice {
        OrderedTwice(items, if k == i then i else if k < i then k else i, if k == i then j else if k < i then i else k);
      }
    }
    EnoughMeansNoShortage(items, rows);
    assert TakeStock(rows, items)[twice].stock == -1;
  }

  /* ---- only the rows of the request's own products matter ---- */

  ghost predicate Agree(items: seq<Item>, a: Rows, b: Rows) {
    forall i :: 0 <= i < |items| ==>
                  && (items[i].product in a <==> items[i].product in b)
                  && (items[i].product in a ==> a[items[i].product] == b[items[i].product])
  }

  lemma {:induction false} ListsAreLocal(items: seq<Item>, a: Rows, b: Rows)
    requires Agree(items, a, b)
    ensures Missing(items, a) == Missing(items, b)
    ensures Known(items, a) ==> Known(items, b) && Shortages(items, a) == Shortages(items, b) && Lines(items, a) == Lines(items, b)
  {
    if items != [] {
      ListsAreLocal(items[..|items| - 1], a, b);
    }
  }

  lemma DecideIsLocal(request: Request, stamp: Stamp, a: Rows, b: Rows)
    requires Agree(request.items, a, b)
    ensures Decide(request, stamp, a) == Decide(request, stamp, b)
  {
    ListsAreLocal(request.items, a, b);
  }

  /* ---- the committed database and the sequential specification ---- */

  datatype Db = Db(products: Rows, orders: seq<Order>, outbox: seq<OutboxMessage>)

  function Find(orders: seq<Order>, customer: Uuid, key: string): (found: Option<Order>)
    ensures found.Some? ==> found.value in orders && found.value.customer == customer && found.value.key == key
    ensures found.None? <==> forall i :: 0 <= i < |orders| ==> !(orders[i].customer == customer && orders[i].key == key)
  {
    if orders == [] then None
    else
      var last := orders[|orders| - 1];
      if last.customer == customer && last.key == key then Some(last)
      else Find(orders[..|orders| - 1], customer, key)
  }

  /** _find_replay on the committed orders: nothing, the conflict, or the earlier order. */
  function FindReplay(orders: seq<Order>, request: Request): Option<Outcome> {
    match Find(orders, request.customer, request.key)
    case None => None
    case Some(order) => Some(if order.hash != request.hash then KeyConflict else Replayed(order))
  }

  /** What a create_order call returns when it runs alone on db. */
  function Spec(db: Db, request: Request, stamp: Stamp): Outcome {
    match FindReplay(db.orders, request)
    case Some(outcome) => outcome
    case None => Decide(request, stamp, db.products)
  }

  /** What it leaves behind. */
  function Execute(db: Db, request: Request, stamp: Stamp): Db {
    var outcome := Spec(db, request, stamp);
    if outcome.Created? then
      Db(TakeStock(db.products, request.items),
         db.orders + [outcome.order],
         db.outbox + [BuildOrderCreatedMessage(outcome.order, stamp.eventId)])
    else db
  }

  lemma CreatedOrderOf(request: Request, stamp: Stamp, rows: Rows, order: Order)
    requires Decide(request, stamp, rows) == Created(order)
    ensures order.id == stamp.orderId && order.customer == request.customer
    ensures order.key == request.key && order.hash == request.hash && order.createdAt == stamp.createdAt
    ensures Known(request.items, rows) && order.items == Lines(request.items, rows)
    ensures order.total == LinesTotal(order.items) <= MAX_AMOUNT
    ensures Shortages(request.items, rows) == []
  {
  }

  lemma FindAppend(orders: seq<Order>, order: Order, customer: Uuid, key: string)
    ensures Find(orders + [order], customer, key)
         == if order.customer == customer && order.key == key then Some(order) else Find(orders, customer, key)
  {
    assert (orders + [order])[..|orders|] == orders;
  }

  lemma TakeStockIsLocal(products: Rows, view: Rows, items: seq<Item>)
    requires forall p :: p in view ==> p in products && products[p] == view[p]
    requires forall i :: 0 <= i < |items| ==> items[i].product in view
    ensures products + TakeStock(view, items) == TakeStock(products, items)
  {
    var written := products + TakeStock(view, items);
    forall p | p in products
      ensures written[p] == TakeStock(products, items)[p]
    {
      if p !in view {
        OrderedNothing(items, p);
      }
    }
    assert written.Keys == TakeStock(products, items).Keys;
  }

  /* ---- histories of committed transactions ---- */

  datatype Entry =
    | Placing(request: Request, stamp: Stamp)
    | Stocking(product: Uuid, initial: Product)

  function Apply(db: Db, entry: Entry): Db {
    match entry
    case Placing(request, stamp) => Execute(db, request, stamp)
    case Stocking(product, initial) => db.(products := db.products[product := initial])
  }

  const EMPTY: Db := Db(map[], [], [])

  function Replay(log: seq<Entry>): Db {
    if log == [] then EMPTY else Apply(Replay(log[..|log| - 1]), log[|log| - 1])
  }

  ghost predicate Unused(db: Db, stamp: Stamp) {
    && (forall i :: 0 <= i < |db.orders| ==> db.orders[i].id != stamp.orderId)
    && (forall i :: 0 <= i < |db.outbox| ==> db.outbox[i].eventId != stamp.eventId)
  }

  ghost predicate Legal(db: Db, entry: Entry) {
    match entry
    case Placing(request, stamp) => Valid(request) && Spec(db, request, stamp).Created? && Unused(db, stamp)
    case Stocking(product, initial) => product !in db.products && initial.stock >= 0
  }

  ghost predicate LegalLog(log: seq<Entry>) {
    forall i :: 0 <= i < |log| ==> Legal(Replay(log[..i]), log[i])
  }

  lemma LegalPrefix(log: seq<Entry>, n: nat)
    requires LegalLog(log) && n <= |log|
    ensures LegalLog(log[..n])
  {
    forall i | 0 <= i < n
      ensures Legal(Replay(log[..n][..i]), log[..n][i])
    {
      assert log[..n][..i] == log[..i];
    }
  }

  lemma LegalExtends(log: seq<Entry>, entry: Entry)
    requires LegalLog(log) && Legal(Replay(log), entry)
    ensures LegalLog(log + [entry])
    ensures Replay(log + [entry]) == Apply(Replay(log), entry)
  {
    var longer := log + [entry];
    assert longer[..|log|] == log;
    forall i | 0 <= i < |longer|
      ensures Legal(Replay(longer[..i]), longer[i])
    {
      if i < |log| {
        assert longer[..i] == log[..i];
      }
    }
  }
}
