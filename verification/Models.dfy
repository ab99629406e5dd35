/** The entities of app/models and the request that creates an order. */
module Models {
  import opened Texts
  import opened Json

  const MAX_ITEM_QUANTITY: nat := 1_000_000

  datatype Item = Item(product: Uuid, quantity: nat)

  datatype Request = Request(customer: Uuid, key: string, hash: string, items: seq<Item>)

  datatype Product = Product(price: nat, stock: int)

  datatype OrderItem = OrderItem(product: Uuid, quantity: nat, unitPrice: nat)

  datatype Order = Order(
    id: Uuid,
    customer: Uuid,
    key: string,
    hash: string,
    items: seq<OrderItem>,
    total: nat,
    createdAt: string
  )

  /** The columns of an outbox row that never change after it is written. */
  datatype OutboxMessage = OutboxMessage(
    eventId: Uuid,
    aggregateType: string,
    aggregateId: Uuid,
    eventType: string,
    schemaVersion: int,
    payload: Json,
    createdAt: string
  )

  predicate Distinct(items: seq<Item>) {
    forall i, j :: 0 <= i < j < |items| ==> items[i].product != items[j].product
  }

  function Products(items: seq<Item>): set<Uuid> {
    set item | item in items :: item.product
  }

  /** What the request schema lets through. */
  predicate Valid(request: Request) {
    && request.items != []
    && Distinct(request.items)
    && (forall i :: 0 <= i < |request.items| ==> 0 < request.items[i].quantity <= MAX_ITEM_QUANTITY)
  }

  lemma ProductsStep(items: seq<Item>)
    requires items != []
    ensures Products(items) == {items[0].product} + Products(items[1..])
  {
    assert items == [items[0]] + items[1..];
    assert forall item :: item in items <==> item == items[0] || item in items[1..];
  }

  lemma DistinctStep(items: seq<Item>)
    requires items != []
    ensures Distinct(items) <==> items[0].product !in Products(items[1..]) && Distinct(items[1..])
  {
    var rest := items[1..];
    assert forall i :: 0 < i < |items| ==> items[i] == rest[i - 1];
    if items[0].product in Products(rest) {
      var item :| item in rest && item.product == items[0].product;
      var i :| 0 <= i < |rest| && rest[i] == item;
      assert items[i + 1].product == items[0].product;
    } else {
      assert forall i :: 0 <= i < |rest| ==> rest[i] in rest && rest[i].product in Products(rest);
    }
    assert forall i :: 0 <= i < |rest| ==> rest[i] == items[i + 1];
  }

  lemma {:induction false} ProductsSize(items: seq<Item>)
    ensures |Products(items)| <= |items|
    ensures |Products(items)| == |items| <==> Distinct(items)
  {
    if items != [] {
      ProductsSize(items[1..]);
      ProductsStep(items);
      DistinctStep(items);
      if items[0].product in Products(items[1..]) {
        assert Products(items) == Products(items[1..]);
      }
    }
  }

  /** reject_repeated_products compares the size of a set with the length of the list. */
  predicate RejectsRepeatedProducts(items: seq<Item>) {
    |Products(items)| != |items|
  }

  /** That comparison rejects exactly the lists in which some product appears twice. */
  lemma RejectsExactlyRepeats(items: seq<Item>)
    ensures RejectsRepeatedProducts(items)
       <==> exists i, j :: 0 <= i < j < |items| && items[i].product == items[j].product
  {
    ProductsSize(items);
  }
}
