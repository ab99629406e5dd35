/** What holds of every committed state: books that balance, one event per order, totals that fit. */
module OrderHistory {
  import opened Prelude
  import opened Texts
  import opened Models
  import opened Money
  import opened Events
  import opened Orders

  /* ---- units sold and supplied ---- */

  function UnitsOf(lines: seq<OrderItem>, product: Uuid): nat {
    if lines == [] then 0
    else
      var last := lines[|lines| - 1];
      UnitsOf(lines[..|lines| - 1], product) + (if last.product == product then last.quantity else 0)
  }

  function UnitsSold(orders: seq<Order>, product: Uuid): nat {
    if orders == [] then 0
    else UnitsSold(orders[..|orders| - 1], product) + UnitsOf(orders[|orders| - 1].items, product)
  }

  function InStock(db: Db, product: Uuid): int {
    if product in db.products then db.products[product].stock else 0
  }

  /** The stock the product was created with, read off the history. */
  function Supplied(log: seq<Entry>, product: Uuid): int {
    if log == [] then 0
    else
      var last := log[|log| - 1];
      Supplied(log[..|log| - 1], product)
      + (if last.Stocking? && last.product == product then last.initial.stock else 0)
  }

  lemma {:induction false} LinesKeepUnits(items: seq<Item>, rows: Rows, product: Uuid)
    requires Known(items, rows)
    ensures UnitsOf(Lines(items, rows), product) == Ordered(items, product)
  {
    if items != [] {
      var front := items[..|items| - 1];
      LinesKeepUnits(front, rows, product);
      assert Lines(items, rows)[..|front|] == Lines(front, rows);
    }
  }

  lemma PlacingMovesStock(db: Db, request: Request, stamp: Stamp, product: Uuid)
    requires Spec(db, request, stamp).Created?
    ensures
      var after := Execute(db, request, stamp);
      InStock(after, product) + UnitsSold(after.orders, product) == InStock(db, product) + UnitsSold(db.orders, product)
  {
    var order := Spec(db, request, stamp).order;
    CreatedOrderOf(request, stamp, db.products, order);
    LinesKeepUnits(request.items, db.products, product);
    assert (db.orders + [order])[..|db.orders|] == db.orders;
    if product !in db.products {
      OrderedNothing(request.items, product);
    }
  }

  /** Stock in hand plus units sold is what was supplied, for every product after every history. */
  lemma {:induction false} StockIsConserved(log: seq<Entry>, product: Uuid)
    requires LegalLog(log)
    ensures InStock(Replay(log), product) + UnitsSold(Replay(log).orders, product) == Supplied(log, product)
  {
    if log != [] {
      var n := |log| - 1;
      LegalPrefix(log, n);
      StockIsConserved(log[..n], product);
      assert Legal(Replay(log[..n]), log[n]);
      if log[n].Placing? {
        PlacingMovesStock(Replay(log[..n]), log[n].request, log[n].stamp, product);
      }
    }
  }

  /* ---- the books of one committed state ---- */

  /** The rows of order_items meet their own constraints and the total is exactly their sum. */
  ghost predicate SoundOrder(order: Order) {
    && order.items != []
    && (forall i, j :: 0 <= i < j < |order.items| ==> order.items[i].product != order.items[j].product)
    && (forall i :: 0 <= i < |order.items| ==> order.items[i].quantity > 0)
    && order.total == LinesTotal(order.items) <= MAX_AMOUNT
  }

  ghost predicate UniqueOrders(orders: seq<Order>) {
    forall i, j :: 0 <= i < j < |orders| ==>
                     && orders[i].id != orders[j].id
                     && !(orders[i].customer == orders[j].customer && orders[i].key == orders[j].key)
  }

  /** Row i of the outbox is the event of order i, and no two rows share an event id. */
  ghost predicate OneEventEach(db: Db) {
    && |db.outbox| == |db.orders|
    && (forall i :: 0 <= i < |db.outbox| ==>
                      db.outbox[i] == BuildOrderCreatedMessage(db.orders[i], db.outbox[i].eventId))
    && (forall i, j :: 0 <= i < j < |db.outbox| ==> db.outbox[i].eventId != db.outbox[j].eventId)
  }

  ghost predicate Books(db: Db) {
    && NoStockNegative(db.products)
    && (forall i :: 0 <= i < |db.orders| ==> SoundOrder(db.orders[i]))
    && UniqueOrders(db.orders)
    && OneEventEach(db)
  }

  lemma CreatedOrderIsSound(request: Request, stamp: Stamp, rows: Rows, order: Order)
    requires Valid(request) && Decide(request, stamp, rows) == Created(order)
    ensures SoundOrder(order)
  {
    CreatedOrderOf(request, stamp, rows, order);
  }

  lemma NewEvent(db: Db, order: Order, eventId: Uuid)
    requires OneEventEach(db)
    requires forall i :: 0 <= i < |db.outbox| ==> db.outbox[i].eventId != eventId
    ensures OneEventEach(Db(db.products, db.orders + [order], db.outbox + [BuildOrderCreatedMessage(order, eventId)]))
  {
    assert BuildOrderCreatedMessage(order, eventId).eventId == eventId;
  }

  lemma NewOrder(orders: seq<Order>, order: Order)
    requires UniqueOrders(orders)
    requires forall i :: 0 <= i < |orders| ==> orders[i].id != order.id
    requires forall i :: 0 <= i < |orders| ==> !(orders[i].customer == order.customer && orders[i].key == order.key)
    ensures UniqueOrders(orders + [order])
  {
  }

  lemma KeyIsFree(db: Db, request: Request, stamp: Stamp)
    requires Spec(db, request, stamp).Created?
    ensures forall i :: 0 <= i < |db.orders| ==>
                          !(db.orders[i].customer == request.customer && db.orders[i].key == request.key)
  {
  }

  lemma BooksOf(db: Db, rows: Rows, order: Order, eventId: Uuid)
    requires Books(db) && NoStockNegative(rows) && SoundOrder(order) && UniqueOrders(db.orders + [order])
    requires forall i :: 0 <= i < |db.outbox| ==> db.outbox[i].eventId != eventId
    ensures Books(Db(rows, db.orders + [order], db.outbox + [BuildOrderCreatedMessage(order, eventId)]))
  {
    NewEvent(db, order, eventId);
  }

  lemma PlacingKeepsBooks(db: Db, request: Request, stamp: Stamp)
    requires Books(db) && Legal(db, Placing(request, stamp))
    ensures Books(Execute(db, request, stamp))
  {
    var order := Spec(db, request, stamp).order;
    CreatedOrderOf(request, stamp, db.products, order);
    CreatedOrderIsSound(request, stamp, db.products, order);
    DistinctNeverOversells(request.items, db.products);
    KeyIsFree(db, request, stamp);
    NewOrder(db.orders, order);
    BooksOf(db, TakeStock(db.products, request.items), order, stamp.eventId);
  }

  lemma {:induction false} HistoryKeepsBooks(log: seq<Entry>)
    requires LegalLog(log)
    ensures Books(Replay(log))
  {
    if log != [] {
      var n := |log| - 1;
      LegalPrefix(log, n);
      HistoryKeepsBooks(log[..n]);
      assert Legal(Replay(log[..n]), log[n]);
      if log[n].Placing? {
        PlacingKeepsBooks(Replay(log[..n]), log[n].request, log[n].stamp);
      }
    }
  }

  /* ---- every committed order can be rendered ---- */

  /** MoneyAmount: at least zero and at most twelve digits with two places. */
  predicate FitsResponse(cents: nat) { cents <= MAX_AMOUNT }

  datatype ItemResponse = ItemResponse(product: Uuid, quantity: nat, unitPrice: nat, lineTotal: nat)

  datatype OrderResponse = OrderResponse(id: Uuid, customer: Uuid, total: nat, createdAt: string, items: seq<ItemResponse>)

  /** OrderItemResponse.from_model; None: a field does not fit the schema. */
  function ItemFromModel(item: OrderItem): Option<ItemResponse> {
    var lineTotal := item.unitPrice * item.quantity;
    if FitsResponse(item.unitPrice) && FitsResponse(lineTotal) then
      Some(ItemResponse(item.product, item.quantity, item.unitPrice, lineTotal))
    else None
  }

  function ItemsFromModel(items: seq<OrderItem>): Option<seq<ItemResponse>> {
    if items == [] then Some([])
    else
      var first, rest := ItemFromModel(items[0]), ItemsFromModel(items[1..]);
      if first.Some? && rest.Some? then Some([first.value] + rest.value) else None
  }

  /** OrderResponse.from_model. */
  function FromModel(order: Order): Option<OrderResponse> {
    var items := ItemsFromModel(order.items);
    if FitsResponse(order.total) && items.Some? then
      Some(OrderResponse(order.id, order.customer, order.total, order.createdAt, items.value))
    else None
  }

  /** A response shows an order: its own columns, and every line with unit price times quantity. */
  ghost predicate Shows(response: OrderResponse, order: Order) {
    && response.id == order.id && response.customer == order.customer
    && response.total == order.total && response.createdAt == order.createdAt
    && |response.items| == |order.items|
    && forall i :: 0 <= i < |order.items| ==>
                     response.items[i] == ItemResponse(
                       order.items[i].product, order.items[i].quantity, order.items[i].unitPrice,
                       order.items[i].unitPrice * order.items[i].quantity)
  }

  lemma {:induction false} LineWithinTotal(lines: seq<OrderItem>, i: nat)
    requires i < |lines|
    ensures lines[i].unitPrice * lines[i].quantity <= LinesTotal(lines)
  {
    if i < |lines| - 1 {
      LineWithinTotal(lines[..|lines| - 1], i);
    }
  }

  lemma PriceWithinLine(line: OrderItem)
    requires line.quantity > 0
    ensures line.unitPrice <= line.unitPrice * line.quantity
  {
    assert line.unitPrice * (line.quantity - 1) >= 0;
  }

  /** The sum of unit price times quantity over the lines of an order. */
  function SumOfLines(lines: seq<OrderItem>): nat {
    if lines == [] then 0 else lines[0].unitPrice * lines[0].quantity + SumOfLines(lines[1..])
  }

  lemma {:induction false} SumAdds(lines: seq<OrderItem>, line: OrderItem)
    ensures SumOfLines([]) == 0
    ensures SumOfLines(lines + [line]) == SumOfLines(lines) + line.unitPrice * line.quantity
  {
    var longer := lines + [line];
    if lines == [] {
      assert longer[1..] == [];
    } else {
      assert longer[1..] == lines[1..] + [line];
      SumAdds(lines[1..], line);
    }
  }

  lemma {:induction false} TotalIsSum(lines: seq<OrderItem>)
    ensures LinesTotal(lines) == SumOfLines(lines)
  {
    if lines != [] {
      var front, last := lines[..|lines| - 1], lines[|lines| - 1];
      assert lines == front + [last];
      TotalIsSum(front);
      SumAdds(front, last);
    }
  }

  lemma {:induction false} ItemsShown(items: seq<OrderItem>)
    requires forall i :: 0 <= i < |items| ==> FitsResponse(items[i].unitPrice) && FitsResponse(items[i].unitPrice * items[i].quantity)
    ensures ItemsFromModel(items).Some? && |ItemsFromModel(items).value| == |items|
    ensures forall i :: 0 <= i < |items| ==>
                          ItemsFromModel(items).value[i] == ItemResponse(
                            items[i].product, items[i].quantity, items[i].unitPrice, items[i].unitPrice * items[i].quantity)
  {
    if items != [] {
      assert forall i :: 0 <= i < |items[1..]| ==> items[1..][i] == items[i + 1];
      ItemsShown(items[1..]);
    }
  }

  /** Every sound order can be shown, each price and line total within 9,999,999,999.99. */
  lemma SoundOrdersRender(order: Order)
    requires SoundOrder(order)
    ensures FromModel(order).Some? && Shows(FromModel(order).value, order)
    ensures order.total <= 999_999_999_999
    ensures forall i :: 0 <= i < |order.items| ==>
                          order.items[i].unitPrice <= order.items[i].unitPrice * order.items[i].quantity <= order.total
  {
    forall i | 0 <= i < |order.items|
      ensures order.items[i].unitPrice <= order.items[i].unitPrice * order.items[i].quantity <= order.total
    {
      LineWithinTotal(order.items, i);
      PriceWithinLine(order.items[i]);
    }
    ItemsShown(order.items);
  }

  /** Orders, their events and their money agree in every committed state. */
  lemma OrdersEventsAndMoneyAgree(log: seq<Entry>, i: nat)
    requires LegalLog(log) && i < |Replay(log).orders|
    ensures
      var db := Replay(log);
      && |db.outbox| == |db.orders|
      && db.outbox[i].aggregateId == db.orders[i].id
      && db.orders[i].total == SumOfLines(db.orders[i].items) <= 999_999_999_999
      && db.outbox[i].payload.Obj?
      && TextField(db.outbox[i].payload.fields, "total_amount") == Some(FormatAmount(SumOfLines(db.orders[i].items)))
      && FromModel(db.orders[i]).Some? && Shows(FromModel(db.orders[i]).value, db.orders[i])
  {
    HistoryKeepsBooks(log);
    var order := Replay(log).orders[i];
    SoundOrdersRender(order);
    TotalIsSum(order.items);
    PayloadLookups(order);
    LookupFinds(PayloadFields(order), 2);
  }

  /* ---- committed orders stay ---- */

  lemma {:induction false} OrdersStay(log: seq<Entry>, n: nat)
    requires n <= |log|
    ensures Replay(log[..n]).orders <= Replay(log).orders
    decreases |log|
  {
    if n == |log| {
      assert log[..n] == log;
    } else {
      OrdersStay(log[..|log| - 1], n);
      assert log[..|log| - 1][..n] == log[..n];
    }
  }

  lemma FindUnique(orders: seq<Order>, i: nat)
    requires UniqueOrders(orders) && i < |orders|
    ensures Find(orders, orders[i].customer, orders[i].key) == Some(orders[i])
  {
    var found := Find(orders, orders[i].customer, orders[i].key).value;
    var j :| 0 <= j < |orders| && orders[j] == found;
    assert i == j;
  }

  lemma FoundAmong(before: seq<Order>, after: seq<Order>, order: Order)
    requires before <= after && order in before && UniqueOrders(after)
    ensures Find(after, order.customer, order.key) == Some(order)
  {
    var i :| 0 <= i < |before| && before[i] == order;
    assert after[i] == order;
    FindUnique(after, i);
  }

  /** An order once committed under a key is what the key finds ever after. */
  lemma FoundForGood(log: seq<Entry>, n: nat, order: Order)
    requires LegalLog(log) && n <= |log| && order in Replay(log[..n]).orders
    ensures Find(Replay(log).orders, order.customer, order.key) == Some(order)
  {
    OrdersStay(log, n);
    HistoryKeepsBooks(log);
    FoundAmong(Replay(log[..n]).orders, Replay(log).orders, order);
  }
}
