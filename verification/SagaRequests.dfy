/**
 The API calls of the order service are requests of the saga: what the service object leaves behind when a call
 succeeds is what placing, or an admin's status change, and sending the event leave behind.
 */
module SagaRequests {
  import opened Basics
  import opened Events
  import opened Services
  import opened Saga
  import O = OrderService

  /** The world after the call, which stores `orders` and appends one event. */
  function After(w: World, orders: map<OrderId, Order>, q: nat, kind: EventType, payload: Json): World
    requires q < |w.orderLog|
  {
    w.(orders := orders, orderLog := Append(w.orderLog, q, Event(w.nextId, kind, payload)), nextId := w.nextId + 1)
  }

  lemma WithAndWithout(requests: map<nat, Event>, r: nat, e: Event)
    requires r !in requests
    ensures requests[r := e] - {r} == requests
  {
  }

  lemma LinesAreValid(items: seq<OrderItem>, requested: seq<O.Request>, lookup: ProductId -> Option<real>)
    requires O.Acceptable(requested, lookup) && O.AsRequested(items, requested, lookup)
    ensures ValidLines(items)
  {
    forall i | 0 <= i < |items| ensures items[i].product > 0 && items[i].quantity > 0 {
      assert O.Good(requested[i], lookup);
    }
  }

  /** A successful Create is Place and Send. */
  lemma CreateIsPlaceAndSend(s: State, r: nat, q: nat, o: OrderId, user: UserId, requested: seq<O.Request>,
                             lookup: ProductId -> Option<real>, orders': map<OrderId, Order>)
    requires r !in s.requests && q < |s.w.orderLog| && O.Acceptable(requested, lookup)
    requires O.Placed(s.w.orders, orders', o, user, requested, lookup)
    ensures var items := orders'[o].items;
            Step(Step(s, Place(r, o, user, items)), Send(r, q)) ==
            s.(w := After(s.w, orders', q, OrderCreated, EncodeCreated(o, user, items)))
  {
    var items := orders'[o].items;
    var e := Event(s.w.nextId, OrderCreated, EncodeCreated(o, user, items));
    LinesAreValid(items, requested, lookup);
    assert orders'[o] == Order(user, CREATED, items);
    var s1 := Step(s, Place(r, o, user, items));
    assert s1 == s.(w := s.w.(orders := orders', nextId := s.w.nextId + 1), requests := s.requests[r := e]);
    WithAndWithout(s.requests, r, e);
  }

  /** A successful UpdateStatus is Admin and Send. */
  lemma UpdateIsAdminAndSend(s: State, r: nat, q: nat, o: OrderId, status: Status)
    requires r !in s.requests && q < |s.w.orderLog| && o in s.w.orders
    ensures Step(Step(s, Admin(r, o, status)), Send(r, q)) ==
            s.(w := After(s.w, SetStatus(s.w.orders, o, status), q, StatusEvent(status), EncodeResult(o, s.w.orders[o].user, "")))
  {
    var e := Event(s.w.nextId, StatusEvent(status), EncodeResult(o, s.w.orders[o].user, ""));
    var s1 := Step(s, Admin(r, o, status));
    assert s1 == s.(w := s.w.(orders := SetStatus(s.w.orders, o, status), nextId := s.w.nextId + 1), requests := s.requests[r := e]);
    WithAndWithout(s.requests, r, e);
  }
}
