/** The order.created event: how it is built, put on the topic and read back. */
module Events {
  import opened Prelude
  import opened Texts
  import opened Json
  import opened Models
  import opened Money

  const ORDER_AGGREGATE := "order"
  const ORDER_CREATED := "order.created"
  const ORDER_CREATED_SCHEMA_VERSION := 1

  /* ---- building ---- */

  function ItemPayload(item: OrderItem): Json {
    Obj([
      Field("product_id", Str(UuidText(item.product))),
      Field("quantity", Int(item.quantity)),
      Field("unit_price", Str(FormatAmount(item.unitPrice)))
    ])
  }

  function ItemPayloads(items: seq<OrderItem>): seq<Json> {
    if items == [] then [] else [ItemPayload(items[0])] + ItemPayloads(items[1..])
  }

  function PayloadFields(order: Order): seq<Field> {
    [
      Field("order_id", Str(UuidText(order.id))),
      Field("customer_id", Str(UuidText(order.customer))),
      Field("total_amount", Str(FormatAmount(order.total))),
      Field("created_at", Str(order.createdAt)),
      Field("items", Arr(ItemPayloads(order.items)))
    ]
  }

  /** The row is written in the transaction of its order, so both carry that transaction's timestamp. */
  function BuildOrderCreatedMessage(order: Order, eventId: Uuid): OutboxMessage {
    OutboxMessage(
      eventId, ORDER_AGGREGATE, order.id, ORDER_CREATED, ORDER_CREATED_SCHEMA_VERSION,
      Obj(PayloadFields(order)), order.createdAt)
  }

  datatype Envelope = Envelope(key: string, value: string, headers: seq<(string, string)>)

  function EnvelopeBody(message: OutboxMessage): Json {
    Obj([
      Field("event_id", Str(UuidText(message.eventId))),
      Field("event_type", Str(message.eventType)),
      Field("aggregate_type", Str(message.aggregateType)),
      Field("aggregate_id", Str(UuidText(message.aggregateId))),
      Field("occurred_at", Str(message.createdAt)),
      Field("version", Int(message.schemaVersion)),
      Field("data", message.payload)
    ])
  }

  function BuildEnvelope(message: OutboxMessage): Envelope {
    Envelope(
      UuidText(message.aggregateId),
      Print(EnvelopeBody(message)),
      [
        ("event_id", UuidText(message.eventId)),
        ("event_type", message.eventType),
        ("schema_version", IntText(message.schemaVersion))
      ])
  }

  /* ---- reading ---- */

  datatype IncomingEvent = IncomingEvent(
    eventId: Uuid,
    eventType: string,
    aggregateType: string,
    aggregateId: Uuid,
    version: int,
    data: seq<Field>
  )

  datatype OrderCreatedData = OrderCreatedData(orderId: Uuid, customerId: Uuid)

  datatype Reason = EmptyBody | EnvelopeMismatch | UnsupportedVersion(version: int) | PayloadInvalid

  datatype Reading<+T> = Ok(value: T) | Malformed(reason: Reason)

  function UuidField(fields: seq<Field>, name: string): Option<Uuid> {
    var j := Lookup(fields, name);
    if j.Some? && j.value.Str? then ParseUuid(j.value.s) else None
  }

  function TextField(fields: seq<Field>, name: string): Option<string> {
    var j := Lookup(fields, name);
    if j.Some? && j.value.Str? then Some(j.value.s) else None
  }

  function EventOf(fields: seq<Field>): Option<IncomingEvent> {
    var eventId := UuidField(fields, "event_id");
    var eventType := TextField(fields, "event_type");
    var aggregateType := TextField(fields, "aggregate_type");
    var aggregateId := UuidField(fields, "aggregate_id");
    var version := Lookup(fields, "version");
    var data := Lookup(fields, "data");
    if eventId.Some? && eventType.Some? && aggregateType.Some? && aggregateId.Some?
       && version.Some? && version.value.Int? && data.Some? && data.value.Obj? then
      Some(IncomingEvent(
             eventId.value, eventType.value, aggregateType.value, aggregateId.value,
             version.value.n, data.value.fields))
    else None
  }

  function ParseEvent(value: Option<string>): Reading<IncomingEvent> {
    if value.None? || value.value == "" then Malformed(EmptyBody)
    else
      var document := Parse(value.value);
      if document.None? || !document.value.Obj? then Malformed(EnvelopeMismatch)
      else
        var event := EventOf(document.value.fields);
        if event.None? then Malformed(EnvelopeMismatch) else Ok(event.value)
  }

  function ParseOrderCreated(event: IncomingEvent): Reading<OrderCreatedData> {
    if event.version != ORDER_CREATED_SCHEMA_VERSION then Malformed(UnsupportedVersion(event.version))
    else
      var orderId := UuidField(event.data, "order_id");
      var customerId := UuidField(event.data, "customer_id");
      if orderId.Some? && customerId.Some? then Ok(OrderCreatedData(orderId.value, customerId.value))
      else Malformed(PayloadInvalid)
  }

  /** What the consumer makes of a message body before it touches the database. */
  datatype Reception =
    | Unreadable(reason: Reason)
    | Unhandled
    | Deliverable(eventId: Uuid, orderId: Uuid, customerId: Uuid, payload: seq<Field>)

  function Receive(value: Option<string>): Reception {
    match ParseEvent(value)
    case Malformed(reason) => Unreadable(reason)
    case Ok(event) =>
      if event.eventType != ORDER_CREATED then Unhandled
      else
        match ParseOrderCreated(event)
        case Malformed(reason) => Unreadable(reason)
        case Ok(data) => Deliverable(event.eventId, data.orderId, data.customerId, event.data)
  }

  /* ---- a field list is a dict: its order does not matter ---- */

  ghost predicate DistinctNames(fields: seq<Field>) {
    forall i, j :: 0 <= i < j < |fields| ==> fields[i].name != fields[j].name
  }

  lemma {:induction false} LookupFinds(fields: seq<Field>, i: nat)
    requires DistinctNames(fields) && i < |fields|
    ensures Lookup(fields, fields[i].name) == Some(fields[i].value)
  {
    if i < |fields| - 1 {
      var front := fields[..|fields| - 1];
      assert front[i] == fields[i];
      LookupFinds(front, i);
    }
  }

  lemma {:induction false} LookupMisses(fields: seq<Field>, name: string)
    requires forall i :: 0 <= i < |fields| ==> fields[i].name != name
    ensures Lookup(fields, name) == None
  {
    if fields != [] {
      LookupMisses(fields[..|fields| - 1], name);
    }
  }

  ghost predicate LastAt(fields: seq<Field>, name: string, i: nat) {
    i < |fields| && fields[i].name == name && forall j :: i < j < |fields| ==> fields[j].name != name
  }

  /** A name that occurs is read as its last value. */
  lemma {:induction false} LookupIsLast(fields: seq<Field>, name: string, i: nat)
    requires LastAt(fields, name, i)
    ensures Lookup(fields, name) == Some(fields[i].value)
  {
    if i < |fields| - 1 {
      assert LastAt(fields[..|fields| - 1], name, i);
      LookupIsLast(fields[..|fields| - 1], name, i);
    }
  }

  /** A name has a value exactly when it occurs. */
  lemma {:induction false} LookupIff(fields: seq<Field>, name: string)
    ensures Lookup(fields, name).Some? <==> exists i: nat :: LastAt(fields, name, i)
  {
    if i: nat :| LastAt(fields, name, i) {
      LookupIsLast(fields, name, i);
    }
    if Lookup(fields, name).Some? {
      var last := |fields| - 1;
      if fields[last].name == name {
        assert LastAt(fields, name, last);
      } else {
        LookupIff(fields[..last], name);
        var i: nat :| LastAt(fields[..last], name, i);
        assert LastAt(fields, name, i);
      }
    }
  }

  lemma Without(fields: seq<Field>, k: nat)
    requires k < |fields|
    ensures multiset(fields) == multiset(fields[..k] + fields[k + 1..]) + multiset{fields[k]}
  {
    assert fields == fields[..k] + [fields[k]] + fields[k + 1..];
  }

  lemma TakeOut(fields: seq<Field>, x: Field, y: Field) returns (k: nat, m: nat)
    requires multiset{x, y} <= multiset(fields)
    ensures k < |fields| && m < |fields| && k != m && fields[k] == x && fields[m] == y
  {
    assert x in multiset(fields);
    k :| 0 <= k < |fields| && fields[k] == x;
    var rest := fields[..k] + fields[k + 1..];
    Without(fields, k);
    assert multiset(rest)[y] >= 1;
    assert y in rest;
    var at :| 0 <= at < |rest| && rest[at] == y;
    m := if at < k then at else at + 1;
  }

  lemma NamesApart(fields: seq<Field>, x: Field, y: Field)
    requires DistinctNames(fields) && multiset{x, y} <= multiset(fields)
    ensures x.name != y.name
  {
    var k, m := TakeOut(fields, x, y);
    assert fields[if k < m then k else m].name != fields[if k < m then m else k].name;
  }

  lemma NoTwins(a: seq<Field>, b: seq<Field>)
    requires multiset(a) == multiset(b) && DistinctNames(a)
    ensures DistinctNames(b)
  {
    forall i, j | 0 <= i < j < |b|
      ensures b[i].name != b[j].name
    {
      assert b == b[..i] + [b[i]] + b[i + 1..j] + [b[j]] + b[j + 1..];
      NamesApart(a, b[i], b[j]);
    }
  }

  lemma LookupIgnoresOrder(a: seq<Field>, b: seq<Field>, name: string)
    requires multiset(a) == multiset(b) && DistinctNames(a)
    ensures Lookup(a, name) == Lookup(b, name)
  {
    NoTwins(a, b);
    if i :| 0 <= i < |a| && a[i].name == name {
      assert a[i] in multiset(b);
      var j :| 0 <= j < |b| && b[j] == a[i];
      LookupFinds(a, i);
      LookupFinds(b, j);
    } else {
      LookupMisses(a, name);
      forall j | 0 <= j < |b|
        ensures b[j].name != name
      {
        assert b[j] in multiset(a);
      }
      LookupMisses(b, name);
    }
  }

  /* ---- round trips ---- */

  lemma EnvelopeLookups(message: OutboxMessage)
    ensures
      var fields := EnvelopeBody(message).fields;
      && Lookup(fields, "event_id") == Some(Str(UuidText(message.eventId)))
      && Lookup(fields, "event_type") == Some(Str(message.eventType))
      && Lookup(fields, "aggregate_type") == Some(Str(message.aggregateType))
      && Lookup(fields, "aggregate_id") == Some(Str(UuidText(message.aggregateId)))
      && Lookup(fields, "version") == Some(Int(message.schemaVersion))
      && Lookup(fields, "data") == Some(message.payload)
  {
    var fields := EnvelopeBody(message).fields;
    LookupFinds(fields, 0);
    LookupFinds(fields, 1);
    LookupFinds(fields, 2);
    LookupFinds(fields, 3);
    LookupFinds(fields, 5);
    LookupFinds(fields, 6);
  }

  lemma UuidFieldReadsBack(fields: seq<Field>, name: string, u: Uuid)
    requires Lookup(fields, name) == Some(Str(UuidText(u)))
    ensures UuidField(fields, name) == Some(u)
  {
    UuidTextReadsBack(u);
  }

  lemma LookupsMakeEvent(fields: seq<Field>, message: OutboxMessage)
    requires message.payload.Obj?
    requires Lookup(fields, "event_id") == Some(Str(UuidText(message.eventId)))
    requires Lookup(fields, "event_type") == Some(Str(message.eventType))
    requires Lookup(fields, "aggregate_type") == Some(Str(message.aggregateType))
    requires Lookup(fields, "aggregate_id") == Some(Str(UuidText(message.aggregateId)))
    requires Lookup(fields, "version") == Some(Int(message.schemaVersion))
    requires Lookup(fields, "data") == Some(message.payload)
    ensures EventOf(fields)
         == Some(IncomingEvent(
                   message.eventId, message.eventType, message.aggregateType, message.aggregateId,
                   message.schemaVersion, message.payload.fields))
  {
    UuidFieldReadsBack(fields, "event_id", message.eventId);
    UuidFieldReadsBack(fields, "aggregate_id", message.aggregateId);
  }

  lemma DocumentIsEvent(text: string, fields: seq<Field>, event: IncomingEvent)
    requires text != "" && Parse(text) == Some(Obj(fields)) && EventOf(fields) == Some(event)
    ensures ParseEvent(Some(text)) == Ok(event)
  {
  }

  /** Reading the envelope of any message gives back its event id, type, aggregate, version and data. */
  lemma EnvelopeReadsBack(message: OutboxMessage)
    requires message.payload.Obj?
    ensures ParseEvent(Some(BuildEnvelope(message).value))
         == Ok(IncomingEvent(
                 message.eventId, message.eventType, message.aggregateType, message.aggregateId,
                 message.schemaVersion, message.payload.fields))
  {
    var body := EnvelopeBody(message);
    var text := Print(body);
    ParsePrint(body);
    EnvelopeLookups(message);
    LookupsMakeEvent(body.fields, message);
    DocumentIsEvent(text, body.fields, EventOf(body.fields).value);
  }

  lemma PayloadLookups(order: Order)
    ensures DistinctNames(PayloadFields(order))
    ensures Lookup(PayloadFields(order), "order_id") == Some(Str(UuidText(order.id)))
    ensures Lookup(PayloadFields(order), "customer_id") == Some(Str(UuidText(order.customer)))
  {
    LookupFinds(PayloadFields(order), 0);
    LookupFinds(PayloadFields(order), 1);
  }

  /** Key and headers identify the same message as the body. */
  lemma EnvelopeIsLabelled(message: OutboxMessage)
    ensures
      var envelope := BuildEnvelope(message);
      && ParseUuid(envelope.key) == Some(message.aggregateId)
      && |envelope.headers| == 3
      && envelope.headers[0].0 == "event_id" && ParseUuid(envelope.headers[0].1) == Some(message.eventId)
      && envelope.headers[1] == ("event_type", message.eventType)
      && envelope.headers[2].0 == "schema_version" && Parse(envelope.headers[2].1) == Some(Int(message.schemaVersion))
      && envelope.key == UuidText(message.aggregateId) && envelope.headers[0].1 == UuidText(message.eventId)
  {
    UuidTextReadsBack(message.aggregateId);
    UuidTextReadsBack(message.eventId);
    ParsePrint(Int(message.schemaVersion));
  }

  /* ---- the payload carries the whole order ---- */

  function ReadItem(j: Json): Option<OrderItem> {
    if !j.Obj? then None
    else
      var product := UuidField(j.fields, "product_id");
      var quantity := Lookup(j.fields, "quantity");
      var price := TextField(j.fields, "unit_price");
      if product.Some? && quantity.Some? && quantity.value.Int? && quantity.value.n >= 0
         && price.Some? && ParseAmount(price.value).Some? then
        Some(OrderItem(product.value, quantity.value.n, ParseAmount(price.value).value))
      else None
  }

  function ReadLines(js: seq<Json>): Option<seq<OrderItem>> {
    if js == [] then Some([])
    else
      var first, rest := ReadItem(js[0]), ReadLines(js[1..]);
      if first.Some? && rest.Some? then Some([first.value] + rest.value) else None
  }

  datatype PayloadOrder = PayloadOrder(id: Uuid, customer: Uuid, total: nat, createdAt: string, items: seq<OrderItem>)

  function ReadPayload(fields: seq<Field>): Option<PayloadOrder> {
    var id, customer := UuidField(fields, "order_id"), UuidField(fields, "customer_id");
    var total, createdAt := TextField(fields, "total_amount"), TextField(fields, "created_at");
    var items := Lookup(fields, "items");
    if id.Some? && customer.Some? && createdAt.Some? && total.Some? && ParseAmount(total.value).Some?
       && items.Some? && items.value.Arr? && ReadLines(items.value.items).Some? then
      Some(PayloadOrder(
             id.value, customer.value, ParseAmount(total.value).value, createdAt.value, ReadLines(items.value.items).value))
    else None
  }

  lemma ItemReadsBack(item: OrderItem)
    ensures ReadItem(ItemPayload(item)) == Some(item)
  {
    var fields := ItemPayload(item).fields;
    LookupFinds(fields, 0);
    LookupFinds(fields, 1);
    LookupFinds(fields, 2);
    UuidFieldReadsBack(fields, "product_id", item.product);
    AmountReadsBack(item.unitPrice);
  }

  lemma {:induction false} LinesReadBack(items: seq<OrderItem>)
    ensures ReadLines(ItemPayloads(items)) == Some(items)
  {
    if items != [] {
      ItemReadsBack(items[0]);
      LinesReadBack(items[1..]);
      var js := ItemPayloads(items);
      assert js[0] == ItemPayload(items[0]) && js[1..] == ItemPayloads(items[1..]);
      assert items == [items[0]] + items[1..];
    }
  }

  lemma LookupsMakePayload(fields: seq<Field>, order: Order, total: string, lines: seq<Json>)
    requires Lookup(fields, "order_id") == Some(Str(UuidText(order.id)))
    requires Lookup(fields, "customer_id") == Some(Str(UuidText(order.customer)))
    requires Lookup(fields, "total_amount") == Some(Str(total)) && ParseAmount(total) == Some(order.total)
    requires Lookup(fields, "created_at") == Some(Str(order.createdAt))
    requires Lookup(fields, "items") == Some(Arr(lines)) && ReadLines(lines) == Some(order.items)
    ensures ReadPayload(fields)
         == Some(PayloadOrder(order.id, order.customer, order.total, order.createdAt, order.items))
  {
    UuidFieldReadsBack(fields, "order_id", order.id);
    UuidFieldReadsBack(fields, "customer_id", order.customer);
  }

  /** Everything a reader could want of the order is in the payload, to the cent. */
  lemma PayloadReadsBack(order: Order)
    ensures ReadPayload(PayloadFields(order))
         == Some(PayloadOrder(order.id, order.customer, order.total, order.createdAt, order.items))
  {
    var fields := PayloadFields(order);
    PayloadLookups(order);
    LookupFinds(fields, 2);
    LookupFinds(fields, 3);
    LookupFinds(fields, 4);
    AmountReadsBack(order.total);
    LinesReadBack(order.items);
    LookupsMakePayload(fields, order, FormatAmount(order.total), ItemPayloads(order.items));
  }

  /** The service's own events are always delivered, with their own ids, whatever order the stored payload keeps its keys in. */
  lemma OwnEventIsDeliverable(order: Order, eventId: Uuid, stored: seq<Field>)
    requires multiset(stored) == multiset(PayloadFields(order))
    ensures
      var message := BuildOrderCreatedMessage(order, eventId).(payload := Obj(stored));
      Receive(Some(BuildEnvelope(message).value)) == Deliverable(eventId, order.id, order.customer, stored)
  {
    EnvelopeReadsBack(BuildOrderCreatedMessage(order, eventId).(payload := Obj(stored)));
    PayloadLookups(order);
    LookupIgnoresOrder(PayloadFields(order), stored, "order_id");
    LookupIgnoresOrder(PayloadFields(order), stored, "customer_id");
    UuidFieldReadsBack(stored, "order_id", order.id);
    UuidFieldReadsBack(stored, "customer_id", order.customer);
  }

  /* ---- the wire format, field by field ---- */

  /** The body of an envelope is an object of exactly these seven fields. */
  lemma BodyOnTheWire(message: OutboxMessage)
    ensures Parse(BuildEnvelope(message).value)
         == Some(Obj([
              Field("event_id", Str(UuidText(message.eventId))),
              Field("event_type", Str(message.eventType)),
              Field("aggregate_type", Str(message.aggregateType)),
              Field("aggregate_id", Str(UuidText(message.aggregateId))),
              Field("occurred_at", Str(message.createdAt)),
              Field("version", Int(message.schemaVersion)),
              Field("data", message.payload)]))
  {
    ParsePrint(EnvelopeBody(message));
  }

  /** The event of an order names it and its customer, its exact total, its timestamp and its lines. */
  lemma OrderOnTheWire(order: Order, eventId: Uuid)
    ensures
      var message := BuildOrderCreatedMessage(order, eventId);
      && message.eventId == eventId && message.aggregateId == order.id && message.createdAt == order.createdAt
      && message.aggregateType == "order" && message.eventType == "order.created" && message.schemaVersion == 1
      && message.payload == Obj([
           Field("order_id", Str(UuidText(order.id))),
           Field("customer_id", Str(UuidText(order.customer))),
           Field("total_amount", Str(FormatAmount(order.total))),
           Field("created_at", Str(order.createdAt)),
           Field("items", Arr(ItemPayloads(order.items)))])
    ensures |ItemPayloads(order.items)| == |order.items|
    ensures forall i :: 0 <= i < |order.items| ==>
                          ItemPayloads(order.items)[i] == Obj([
                            Field("product_id", Str(UuidText(order.items[i].product))),
                            Field("quantity", Int(order.items[i].quantity)),
                            Field("unit_price", Str(FormatAmount(order.items[i].unitPrice)))])
  {
    ItemsOnTheWire(order.items);
  }

  lemma {:induction false} ItemsOnTheWire(items: seq<OrderItem>)
    ensures |ItemPayloads(items)| == |items|
    ensures forall i :: 0 <= i < |items| ==> ItemPayloads(items)[i] == ItemPayload(items[i])
  {
    if items != [] {
      ItemsOnTheWire(items[1..]);
    }
  }

  /* ---- which bodies are what ---- */

  ghost predicate HasUuid(fields: seq<Field>, name: string, u: Uuid) {
    exists text :: Lookup(fields, name) == Some(Str(text)) && ParseUuid(text) == Some(u)
  }

  /** The body is a JSON object with the six fields of an event, of their types. */
  ghost predicate IsEvent(body: string, event: IncomingEvent) {
    exists fields ::
      && Parse(body) == Some(Obj(fields))
      && HasUuid(fields, "event_id", event.eventId)
      && Lookup(fields, "event_type") == Some(Str(event.eventType))
      && Lookup(fields, "aggregate_type") == Some(Str(event.aggregateType))
      && HasUuid(fields, "aggregate_id", event.aggregateId)
      && Lookup(fields, "version") == Some(Int(event.version))
      && Lookup(fields, "data") == Some(Obj(event.data))
  }

  lemma EventIff(body: string, event: IncomingEvent)
    requires body != ""
    ensures ParseEvent(Some(body)) == Ok(event) <==> IsEvent(body, event)
  {
    var document := Parse(body);
    if document.Some? && document.value.Obj? {
      var fields := document.value.fields;
      UuidFieldIff(fields, "event_id", event.eventId);
      UuidFieldIff(fields, "aggregate_id", event.aggregateId);
    }
  }

  lemma UuidFieldIff(fields: seq<Field>, name: string, u: Uuid)
    ensures UuidField(fields, name) == Some(u) <==> HasUuid(fields, name, u)
  {
    if UuidField(fields, name) == Some(u) {
      var text := Lookup(fields, name).value.s;
      assert Lookup(fields, name) == Some(Str(text)) && ParseUuid(text) == Some(u);
    }
  }

  /** An empty body and anything that is not an event are unreadable. */
  lemma NotAnEvent(value: Option<string>)
    ensures Receive(value) == Unreadable(EmptyBody) <==> value.None? || value.value == ""
    ensures Receive(value) == Unreadable(EnvelopeMismatch)
       <==> value.Some? && value.value != "" && forall event :: !IsEvent(value.value, event)
  {
    if value.Some? && value.value != "" {
      forall event
        ensures ParseEvent(value) == Ok(event) <==> IsEvent(value.value, event)
      {
        EventIff(value.value, event);
      }
    }
  }

  /** What an event is taken for: another type is passed over, another version or a payload without the two ids is
      unreadable, and everything else is delivered as it is. */
  lemma ReceptionIff(body: string, event: IncomingEvent)
    requires body != "" && IsEvent(body, event)
    ensures
      var reception := Receive(Some(body));
      var ids := exists o, c :: HasUuid(event.data, "order_id", o) && HasUuid(event.data, "customer_id", c);
      && (event.eventType != "order.created" <==> reception == Unhandled)
      && (event.eventType == "order.created" && event.version != 1 <==> reception == Unreadable(UnsupportedVersion(event.version)))
      && (event.eventType == "order.created" && event.version == 1 && !ids <==> reception == Unreadable(PayloadInvalid))
      && (event.eventType == "order.created" && event.version == 1 && ids <==> reception.Deliverable?)
      && (reception.Deliverable? ==>
            && reception.eventId == event.eventId && reception.payload == event.data
            && HasUuid(event.data, "order_id", reception.orderId)
            && HasUuid(event.data, "customer_id", reception.customerId))
  {
    EventIff(body, event);
    var orderId, customerId := UuidField(event.data, "order_id"), UuidField(event.data, "customer_id");
    if orderId.Some? {
      UuidFieldIff(event.data, "order_id", orderId.value);
    }
    if customerId.Some? {
      UuidFieldIff(event.data, "customer_id", customerId.value);
    }
    if o, c :| HasUuid(event.data, "order_id", o) && HasUuid(event.data, "customer_id", c) {
      UuidFieldIff(event.data, "order_id", o);
      UuidFieldIff(event.data, "customer_id", c);
    }
  }
}
