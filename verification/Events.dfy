/**
 The events of the two topics and the JSON payloads they carry.

 A payload is encoded with the field tags of the struct that was published and decoded with those of
 the struct the reader declares.  As in encoding/json, a missing field or null gives the zero value,
 a field of another type is an error, and unknown fields are ignored.
 */
module Events {
  import opened Basics
  import Inventory

  /** The object keys in use.  `OrderIDName` is the key "OrderID" of a field without a tag. */
  datatype Field = OrderIdTag | OrderIDName | UserIdTag | ItemsTag | ReasonTag | IdTag | ProductIdTag | QuantityTag | PriceTag

  datatype Json = Null | Num(n: int) | Dec(d: real) | Str(s: string) | Arr(elements: seq<Json>) | Obj(fields: map<Field, Json>)

  datatype EventType =
    | OrderCreated | OrderConfirmed | OrderProcessing | OrderShipped | OrderDelivered | OrderCancelled
    | InventoryReserved | InventoryReservationFailed

  datatype Event = Event(id: EventId, kind: EventType, payload: Json)

  /** The type as it is written on the wire. */
  function EventName(kind: EventType): string {
    match kind
    case OrderCreated => "OrderCreated"
    case OrderConfirmed => "OrderConfirmed"
    case OrderProcessing => "OrderProcessing"
    case OrderShipped => "OrderShipped"
    case OrderDelivered => "OrderDelivered"
    case OrderCancelled => "OrderCancelled"
    case InventoryReserved => "InventoryReserved"
    case InventoryReservationFailed => "InventoryReservationFailed"
  }

  /** A line of an order as the order service stores and publishes it. */
  datatype OrderItem = OrderItem(id: int, product: ProductId, quantity: int, price: real)

  /******* What is published *******/

  function EncodeItem(item: OrderItem): Json {
    Obj(map[IdTag := Num(item.id), ProductIdTag := Num(item.product), QuantityTag := Num(item.quantity), PriceTag := Dec(item.price)])
  }

  /** OrderCreatedPayload. */
  function EncodeCreated(o: OrderId, u: UserId, items: seq<OrderItem>): Json {
    Obj(map[OrderIdTag := Num(o), UserIdTag := Num(u),
            ItemsTag := Arr(seq(|items|, i requires 0 <= i < |items| => EncodeItem(items[i])))])
  }

  /** InventoryResultPayload of both services: the tag "order_id" stands on the user id. */
  function EncodeResult(o: OrderId, u: UserId, reason: string): Json {
    var fields := map[OrderIDName := Num(o), OrderIdTag := Num(u)];
    Obj(if reason == "" then fields else fields[ReasonTag := Str(reason)])
  }

  /******* What the readers decode *******/

  datatype OrderPayload = OrderPayload(order: OrderId, user: UserId, items: seq<Inventory.Item>)

  datatype ResultPayload = ResultPayload(order: OrderId, user: UserId, reason: string)

  function IntField(fields: map<Field, Json>, f: Field): Option<int> {
    if f !in fields || fields[f].Null? then Some(0)
    else if fields[f].Num? then Some(fields[f].n)
    else None
  }

  function TextField(fields: map<Field, Json>, f: Field): Option<string> {
    if f !in fields || fields[f].Null? then Some("")
    else if fields[f].Str? then Some(fields[f].s)
    else None
  }

  function DecodeItem(j: Json): Option<Inventory.Item> {
    match j
    case Null => Some(Inventory.Item(0, 0))
    case Obj(fields) =>
      var p, q := IntField(fields, ProductIdTag), IntField(fields, QuantityTag);
      if p.None? || q.None? then None else Some(Inventory.Item(p.value, q.value))
    case _ => None
  }

  function DecodeItems(elements: seq<Json>): Option<seq<Inventory.Item>> {
    if elements == [] then Some([])
    else
      var first, rest := DecodeItem(elements[0]), DecodeItems(elements[1..]);
      if first.None? || rest.None? then None else Some([first.value] + rest.value)
  }

  function ItemsField(fields: map<Field, Json>): Option<seq<Inventory.Item>> {
    if ItemsTag !in fields || fields[ItemsTag].Null? then Some([])
    else if fields[ItemsTag].Arr? then DecodeItems(fields[ItemsTag].elements)
    else None
  }

  /** The inventory service's InventoryOrderPayload. */
  function DecodeOrder(j: Json): Option<OrderPayload> {
    match j
    case Null => Some(OrderPayload(0, 0, []))
    case Obj(fields) =>
      var o, u, items := IntField(fields, OrderIdTag), IntField(fields, UserIdTag), ItemsField(fields);
      if o.None? || u.None? || items.None? then None else Some(OrderPayload(o.value, u.value, items.value))
    case _ => None
  }

  /** The order service's InventoryResultPayload. */
  function DecodeResult(j: Json): Option<ResultPayload> {
    DecodeFields(j, OrderIDName, OrderIdTag)
  }

  /** The notification service's OrderEventPayload. */
  function DecodeNotice(j: Json): Option<ResultPayload> {
    DecodeFields(j, OrderIdTag, UserIdTag)
  }

  function DecodeFields(j: Json, orderKey: Field, userKey: Field): Option<ResultPayload> {
    match j
    case Null => Some(ResultPayload(0, 0, ""))
    case Obj(fields) =>
      var o, u, reason := IntField(fields, orderKey), IntField(fields, userKey), TextField(fields, ReasonTag);
      if o.None? || u.None? || reason.None? then None else Some(ResultPayload(o.value, u.value, reason.value))
    case _ => None
  }

  /******* What can be read *******/

  /** A field that is missing, null, or a number. */
  predicate IntOrAbsent(fields: map<Field, Json>, f: Field) {
    f in fields ==> fields[f].Null? || fields[f].Num?
  }

  predicate TextOrAbsent(fields: map<Field, Json>, f: Field) {
    f in fields ==> fields[f].Null? || fields[f].Str?
  }

  predicate ItemReadable(j: Json) {
    j.Null? || (j.Obj? && IntOrAbsent(j.fields, ProductIdTag) && IntOrAbsent(j.fields, QuantityTag))
  }

  /** A result is unreadable exactly if it is no object or one of its fields has another type; a missing
      field counts as zero. */
  lemma ResultReadable(j: Json)
    ensures DecodeResult(j).Some? <==>
            j.Null? || (j.Obj? && IntOrAbsent(j.fields, OrderIDName) && IntOrAbsent(j.fields, OrderIdTag) && TextOrAbsent(j.fields, ReasonTag))
    ensures DecodeNotice(j).Some? <==>
            j.Null? || (j.Obj? && IntOrAbsent(j.fields, OrderIdTag) && IntOrAbsent(j.fields, UserIdTag) && TextOrAbsent(j.fields, ReasonTag))
    ensures j.Obj? && OrderIDName !in j.fields && DecodeResult(j).Some? ==> DecodeResult(j).value.order == 0
    ensures j.Obj? && UserIdTag !in j.fields && DecodeNotice(j).Some? ==> DecodeNotice(j).value.user == 0
  {
  }

  lemma {:induction false} ItemsReadable(elements: seq<Json>)
    ensures DecodeItems(elements).Some? <==> forall i | 0 <= i < |elements| :: ItemReadable(elements[i])
    ensures DecodeItems(elements).Some? ==> |DecodeItems(elements).value| == |elements|
  {
    if elements != [] {
      ItemsReadable(elements[1..]);
      assert elements == [elements[0]] + elements[1..];
    }
  }

  /** The same for a new order, whose lines must all be readable. */
  lemma OrderReadable(j: Json)
    ensures DecodeOrder(j).Some? <==>
            || j.Null?
            || (j.Obj? && IntOrAbsent(j.fields, OrderIdTag) && IntOrAbsent(j.fields, UserIdTag)
                && (ItemsTag !in j.fields || j.fields[ItemsTag].Null? ||
                    (j.fields[ItemsTag].Arr? && forall i | 0 <= i < |j.fields[ItemsTag].elements| :: ItemReadable(j.fields[ItemsTag].elements[i]))))
    ensures j.Obj? && ItemsTag !in j.fields && DecodeOrder(j).Some? ==> DecodeOrder(j).value.items == []
  {
    if j.Obj? && ItemsTag in j.fields && j.fields[ItemsTag].Arr? {
      ItemsReadable(j.fields[ItemsTag].elements);
    }
  }

  /******* What survives each hop *******/

  function Lines(items: seq<OrderItem>): seq<Inventory.Item> {
    seq(|items|, i requires 0 <= i < |items| => Inventory.Item(items[i].product, items[i].quantity))
  }

  lemma {:induction false} ItemsRoundTrip(items: seq<OrderItem>)
    ensures DecodeItems(seq(|items|, i requires 0 <= i < |items| => EncodeItem(items[i]))) == Some(Lines(items))
  {
    var encoded := seq(|items|, i requires 0 <= i < |items| => EncodeItem(items[i]));
    if items != [] {
      var rest := items[1..];
      ItemsRoundTrip(rest);
      assert encoded[1..] == seq(|rest|, i requires 0 <= i < |rest| => EncodeItem(rest[i]));
      assert DecodeItem(encoded[0]) == Some(Lines(items)[0]);
      assert Lines(items) == [Lines(items)[0]] + Lines(rest);
    }
  }

  /** Order service to inventory service: order, user and every line arrive. */
  lemma CreatedRoundTrip(o: OrderId, u: UserId, items: seq<OrderItem>)
    ensures DecodeOrder(EncodeCreated(o, u, items)) == Some(OrderPayload(o, u, Lines(items)))
    ensures var read := DecodeOrder(EncodeCreated(o, u, items)).value;
            && read.order == o && read.user == u && |read.items| == |items|
            && forall i | 0 <= i < |items| :: read.items[i].product == items[i].product && read.items[i].quantity == items[i].quantity
  {
    ItemsRoundTrip(items);
  }

  /** Inventory service to order service: both sides share the misplaced tag, so it cancels out. */
  lemma ResultRoundTrip(o: OrderId, u: UserId, reason: string)
    ensures DecodeResult(EncodeResult(o, u, reason)) == Some(ResultPayload(o, u, reason))
    ensures var read := DecodeResult(EncodeResult(o, u, reason)).value; read.order == o && read.user == u && read.reason == reason
  {
  }

  /** Order service to notification service: a new order arrives intact, but a status event shows the
      user id as the order number and no user, so it names the right order only by coincidence. */
  lemma NoticeOfStatus(o: OrderId, u: UserId, items: seq<OrderItem>, reason: string)
    ensures DecodeNotice(EncodeCreated(o, u, items)) == Some(ResultPayload(o, u, ""))
    ensures DecodeNotice(EncodeResult(o, u, reason)) == Some(ResultPayload(u, 0, reason))
    ensures DecodeNotice(EncodeResult(o, u, reason)).value.order == o <==> o == u
  {
  }

  /** A result payload read as a new order: the user id is taken for the order id, with no lines. */
  lemma ResultReadAsOrder(o: OrderId, u: UserId, reason: string)
    ensures DecodeOrder(EncodeResult(o, u, reason)) == Some(OrderPayload(u, 0, []))
  {
  }
}
