/** What the sequential specification answers and writes, in the columns of the tables. */
module OrderMeaning {
  import opened Prelude
  import opened Models
  import opened Events
  import opened Orders

  /** A validated request is one with items, none of a repeated product, each quantity in 1 .. 1,000,000. */
  lemma ValidIff(request: Request)
    ensures Valid(request)
       <==> && request.items != []
            && !RejectsRepeatedProducts(request.items)
            && forall i :: 0 <= i < |request.items| ==> 1 <= request.items[i].quantity <= 1_000_000
  {
    RejectsExactlyRepeats(request.items);
  }

  ghost predicate Uses(order: Order, request: Request) {
    order.customer == request.customer && order.key == request.key
  }

  ghost predicate KeyUnused(db: Db, request: Request) {
    forall i :: 0 <= i < |db.orders| ==> !Uses(db.orders[i], request)
  }

  /**
   * Which answer a call running alone gets, for all databases and requests: an order under its customer and key
   * decides first, then missing products, then stock line by line, then the limit of 9,999,999,999.99.
   */
  lemma SpecIff(db: Db, request: Request, stamp: Stamp)
    ensures
      var items, rows, outcome := request.items, db.products, Spec(db, request, stamp);
      var known := forall i :: 0 <= i < |items| ==> items[i].product in rows;
      var enough := known && forall i :: 0 <= i < |items| ==> items[i].quantity <= rows[items[i].product].stock;
      if KeyUnused(db, request) then
        && (outcome.ProductsNotFound? <==> !known)
        && (outcome.InsufficientStock? <==> known && !enough)
        && (outcome.AmountTooLarge? <==> enough && Cost(items, rows) > 999_999_999_999)
        && (outcome.Created? <==> enough && Cost(items, rows) <= 999_999_999_999)
      else
        exists order :: order in db.orders && Uses(order, request)
                        && outcome == if order.hash == request.hash then Replayed(order) else KeyConflict
  {
    var found := Find(db.orders, request.customer, request.key);
    DecideIff(request, stamp, db.products);
    if found.Some? {
      var i :| 0 <= i < |db.orders| && db.orders[i] == found.value;
      assert Uses(db.orders[i], request);
      assert FindReplay(db.orders, request)
          == Some(if found.value.hash == request.hash then Replayed(found.value) else KeyConflict);
    }
  }

  /** The lines an order keeps: product and quantity of the request, price of the row. */
  ghost predicate LinesOf(lines: seq<OrderItem>, request: Request, rows: Rows) {
    && |lines| == |request.items|
    && forall i :: 0 <= i < |lines| ==>
                     && request.items[i].product in rows
                     && lines[i] == OrderItem(
                          request.items[i].product, request.items[i].quantity, rows[request.items[i].product].price)
  }

  /** Every price stays; the stock of a requested product falls by its quantity, any other stock stays. */
  ghost predicate Reduced(before: Rows, after: Rows, items: seq<Item>) {
    && after.Keys == before.Keys
    && (forall p :: p in before ==> after[p].price == before[p].price)
    && (forall i :: 0 <= i < |items| && items[i].product in before ==>
                      after[items[i].product].stock == before[items[i].product].stock - items[i].quantity)
    && (forall p :: p in before && (forall i :: 0 <= i < |items| ==> items[i].product != p) ==> after[p] == before[p])
  }

  lemma TakesOnce(rows: Rows, items: seq<Item>)
    requires Distinct(items)
    ensures Reduced(rows, TakeStock(rows, items), items)
  {
    forall i | 0 <= i < |items| && items[i].product in rows
      ensures TakeStock(rows, items)[items[i].product].stock == rows[items[i].product].stock - items[i].quantity
    {
      OrderedOnce(items, i);
    }
    forall p | p in rows && (forall i :: 0 <= i < |items| ==> items[i].product != p)
      ensures TakeStock(rows, items)[p] == rows[p]
    {
      OrderedNothing(items, p);
    }
  }

  /** What an accepted call writes, column by column; any other call writes nothing. */
  lemma ExecuteWrites(db: Db, request: Request, stamp: Stamp)
    requires Valid(request)
    ensures
      var outcome, after := Spec(db, request, stamp), Execute(db, request, stamp);
      if outcome.Created? then
        && outcome.order == Order(
             stamp.orderId, request.customer, request.key, request.hash, outcome.order.items, outcome.order.total,
             stamp.createdAt)
        && LinesOf(outcome.order.items, request, db.products)
        && Known(request.items, db.products) && outcome.order.total == Cost(request.items, db.products)
        && after.orders == db.orders + [outcome.order]
        && after.outbox == db.outbox + [OutboxMessage(
             stamp.eventId, "order", stamp.orderId, "order.created", 1, Json.Obj(PayloadFields(outcome.order)), stamp.createdAt)]
        && Reduced(db.products, after.products, request.items)
      else after == db
  {
    var outcome := Spec(db, request, stamp);
    if outcome.Created? {
      CreatedOrderOf(request, stamp, db.products, outcome.order);
      TotalIsCost(request.items, db.products);
      TakesOnce(db.products, request.items);
    }
  }
}
