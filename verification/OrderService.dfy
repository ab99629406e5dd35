/** create_order as the service runs it: look up, reserve the key, place, commit; replay after a unique violation. */
module OrderService {
  import opened Prelude
  import opened Texts
  import opened Models
  import opened Orders

  /** The transactions of other sessions that commit meanwhile. */
  function AfterAll(db: Db, entries: seq<Entry>): Db { Fold(Apply, db, entries) }

  lemma {:induction false} ReplayIsFold(log: seq<Entry>)
    ensures Replay(log) == Fold(Apply, EMPTY, log)
  {
    if log != [] {
      ReplayIsFold(log[..|log| - 1]);
    }
  }

  /** They continue the history, one after the other and none left out. */
  lemma AfterAllContinues(log: seq<Entry>, more: seq<Entry>)
    ensures AfterAll(Replay(log), more) == Replay(log + more)
  {
    ReplayIsFold(log);
    ReplayIsFold(log + more);
    FoldGoesOn(Apply, EMPTY, log, more);
  }

  function Among(rows: Rows, ids: set<Uuid>): Rows {
    map p | p in rows && p in ids :: rows[p]
  }

  lemma AmongNext(rows: Rows, items: seq<Item>, i: nat)
    requires i < |items|
    ensures Among(rows, Products(items[..i + 1]))
         == if items[i].product in rows then
              Among(rows, Products(items[..i]))[items[i].product := rows[items[i].product]]
            else Among(rows, Products(items[..i]))
  {
    assert items[..i + 1] == items[..i] + [items[i]];
    assert Products(items[..i + 1]) == Products(items[..i]) + {items[i].product} by {
      assert forall item :: item in items[..i + 1] <==> item in items[..i] || item == items[i];
    }
  }

  lemma AmongAgrees(rows: Rows, items: seq<Item>)
    ensures Agree(items, Among(rows, Products(items)), rows)
  {
    assert forall i :: 0 <= i < |items| ==> items[i] in items && items[i].product in Products(items);
  }

  /** Placing on the rows of the request's own products is placing on the whole table. */
  lemma PlacedLocally(db: Db, request: Request, stamp: Stamp)
    ensures
      var view := Among(db.products, Products(request.items));
      && Decide(request, stamp, view) == Decide(request, stamp, db.products)
      && (Decide(request, stamp, view).Created? ==>
            db.products + TakeStock(view, request.items) == TakeStock(db.products, request.items))
  {
    var view := Among(db.products, Products(request.items));
    AmongAgrees(db.products, request.items);
    DecideIsLocal(request, stamp, view, db.products);
    if Decide(request, stamp, view).Created? {
      TakeStockIsLocal(db.products, view, request.items);
    }
  }

  class OrderService {
    var db: Db // the committed database

    constructor (db: Db)
      ensures this.db == db
    {
      this.db := db;
    }

    /** lock_by_ids: the rows that exist, keyed by id, as objects of this session. */
    method LockByIds(items: seq<Item>) returns (products: map<Uuid, ProductRow>)
      ensures forall p :: p in products ==> products[p].id == p && fresh(products[p])
      ensures View(products) == Among(db.products, Products(items))
    {
      products := map[];
      for i := 0 to |items|
        invariant forall p :: p in products ==> products[p].id == p && fresh(products[p])
        invariant View(products) == Among(db.products, Products(items[..i]))
      {
        var id := items[i].product;
        AmongNext(db.products, items, i);
        if id in db.products {
          var row := new ProductRow(id, db.products[id].price, db.products[id].stock);
          products := products[id := row];
        }
      }
      assert items[..|items|] == items;
    }

    /** One transaction of _place_order. None: the flush met a committed twin and everything was rolled back. */
    method PlaceAndCommit(request: Request, stamp: Stamp) returns (outcome: Option<Outcome>)
      modifies this`db
      ensures outcome.None? <==> Find(old(db).orders, request.customer, request.key).Some?
      ensures outcome.None? ==> db == old(db)
      ensures outcome.Some? ==> outcome.value == Spec(old(db), request, stamp) && db == Execute(old(db), request, stamp)
    {
      if Find(db.orders, request.customer, request.key).Some? {
        return None;
      }
      var order := new PendingOrder();
      var products := LockByIds(request.items);
      PlacedLocally(db, request, stamp);
      var placed := PlaceOrder(request, stamp, products, order);
      if placed.Created? {
        db := Db(db.products + View(products), db.orders + [placed.order], db.outbox + order.outbox);
      }
      return Some(placed);
    }

    /**
     * create_order. What other sessions commit between the first lookup and the reservation of the key decides
     * whether this call places its order or replays theirs; either way it is the specification on one database.
     */
    method CreateOrder(request: Request, stamp: Stamp, meanwhile: seq<Entry>) returns (outcome: Outcome)
      modifies this`db
      ensures
        var early := FindReplay(old(db).orders, request);
        var met := AfterAll(old(db), meanwhile);
        if early.Some? then outcome == early.value && db == old(db)
        else outcome == Spec(met, request, stamp) && db == Execute(met, request, stamp)
    {
      var replay := FindReplay(db.orders, request);
      if replay.Some? {
        return replay.value;
      }
      db := AfterAll(db, meanwhile);
      var placed := PlaceAndCommit(request, stamp);
      if placed.Some? {
        return placed.value;
      }
      replay := FindReplay(db.orders, request);
      return replay.value;
    }
  }
}
