/**
 What the saga is for: when nothing fails, an order is decided by the stock.  It ends CONFIRMED with its lines
 reserved if the reservation succeeds, and CANCELLED with the stock untouched if not, and its user's topic says so.
 */
module SagaOutcome {
  import opened Basics
  import opened Inventory
  import opened Events
  import opened Delivery
  import opened Services
  import opened Saga
  import opened SagaPaths

  /** Both topics are empty, nobody is at work, and the order number is free. */
  ghost predicate Open(s: State, r: nat, o: OrderId) {
    && s.workers == map[] && s.consumers == map[] && s.w.orderLog == [[]] && s.w.inventoryLog == [[]]
    && s.w.orderOffsets == [0] && s.w.inventoryOffsets == [0] && s.w.orderSeen == {}
    && o !in s.w.orders && r !in s.requests
  }

  function CreatedEvent(id: EventId, o: OrderId, u: UserId, items: seq<OrderItem>): Event {
    Event(id, OrderCreated, EncodeCreated(o, u, items))
  }

  /** The order has been placed and published. */
  ghost predicate Placed(s: State, t: State, o: OrderId, u: UserId, items: seq<OrderItem>) {
    && t.w == s.w.(orders := s.w.orders[o := Order(u, CREATED, items)], nextId := s.w.nextId + 1,
                   orderLog := [[CreatedEvent(s.w.nextId, o, u, items)]])
    && t.workers == map[] && t.consumers == map[]
  }

  lemma PlaceAndSend(before: seq<Action>, r: nat, o: OrderId, u: UserId, items: seq<OrderItem>)
    requires Open(Run(1, 1, before), r, o) && ValidLines(items)
    ensures Placed(Run(1, 1, before), Run(1, 1, before + [Place(r, o, u, items)] + [Send(r, 0)]), o, u, items)
  {
    var s, e := Run(1, 1, before), CreatedEvent(Run(1, 1, before).w.nextId, o, u, items);
    Then(1, 1, before, Place(r, o, u, items));
    Then(1, 1, before + [Place(r, o, u, items)], Send(r, 0));
    assert Append([[]], 0, e)[0] == [e];
    assert Append([[]], 0, e) == [[e]];
  }

  /** A worker has handled the message: what it published, and the tables it left. */
  ghost predicate Reported(s: State, t: State, result: Event, tables: Tables) {
    && t.w == s.w.(tables := tables, inventorySeen := t.w.inventorySeen, orderOffsets := [1],
                   inventoryLog := [[result]], nextId := s.w.nextId + 1)
    && t.consumers == map[]
  }

  lemma RefusedReports(s: State, i: nat, e: Event, order: OrderPayload, error: Error)
    requires i in s.workers && s.workers[i].pc == Received(Msg(0, 0, e)) && e.kind == OrderCreated
    requires DecodeOrder(e.payload) == Some(order) && ReserveItems(s.w.tables, order.order, order.items) == Failure(error)
    requires s.w.orderOffsets == [0] && s.w.inventoryLog == [[]] && s.consumers == map[]
    ensures var s1 := Step(s, Work(i, Done(0)));
            var s2 := Step(s1, Work(i, Done(0)));
            Reported(s, Step(s2, Work(i, Done(0))), ResultEvent(s.w, InventoryReservationFailed, order, ErrorText(error)), s.w.tables)
  {
    var msg, text := Msg(0, 0, e), ErrorText(error);
    var result := ResultEvent(s.w, InventoryReservationFailed, order, text);
    var s1 := Step(s, Work(i, Done(0)));
    assert s1.w == s.w && s1.workers[i].pc == Refused(msg, order, text);
    var s2 := Step(s1, Work(i, Done(0)));
    assert s2.workers[i].pc == WorkerPc.Reported(msg, order);
    assert Append([[]], 0, result)[0] == [result];
    assert Append([[]], 0, result) == [[result]];
  }

  lemma RefusalReported(received: seq<Action>, e: Event, order: OrderPayload, error: Error) returns (schedule: seq<Action>)
    requires var s := Run(1, 1, received);
             && 0 in s.workers && s.workers[0].pc == Received(Msg(0, 0, e)) && e.kind == OrderCreated
             && DecodeOrder(e.payload) == Some(order) && ReserveItems(s.w.tables, order.order, order.items) == Failure(error)
             && s.w.orderOffsets == [0] && s.w.inventoryLog == [[]] && s.consumers == map[]
    ensures var s := Run(1, 1, received);
            Reported(s, Run(1, 1, schedule), ResultEvent(s.w, InventoryReservationFailed, order, ErrorText(error)), s.w.tables)
  {
    var a := Work(0, Done(0));
    RefusedReports(Run(1, 1, received), 0, e, order, error);
    Then(1, 1, received, a);
    Then(1, 1, received + [a], a);
    Then(1, 1, received + [a] + [a], a);
    schedule := received + [a] + [a] + [a];
  }

  lemma SuccessReported(received: seq<Action>, e: Event, order: OrderPayload, tables: Tables) returns (schedule: seq<Action>)
    requires var s := Run(1, 1, received);
             && 0 in s.workers && s.workers[0].pc == Received(Msg(0, 0, e)) && e.kind == OrderCreated
             && DecodeOrder(e.payload) == Some(order) && ReserveItems(s.w.tables, order.order, order.items) == Success(tables)
             && s.w.orderOffsets == [0] && s.w.inventoryLog == [[]] && s.consumers == map[]
    ensures var s := Run(1, 1, received);
            Reported(s, Run(1, 1, schedule), ResultEvent(s.w, InventoryReserved, order, ""), tables)
  {
    var result := ResultEvent(Run(1, 1, received).w, InventoryReserved, order, "");
    schedule := Process(1, 1, received, 0, Msg(0, 0, e), order, tables);
    assert Append([[]], 0, result)[0] == [result];
    assert Append([[]], 0, result) == [[result]];
  }

  /** The order is decided and its status event published. */
  ghost predicate Announced(s: State, t: State, o: OrderId, status: Status, notice: Event) {
    && o in s.w.orders && t.w.orders == SetStatus(s.w.orders, o, status) && t.w.tables == s.w.tables
    && |s.w.orderLog| == 1 && t.w.orderLog == [s.w.orderLog[0] + [notice]]
  }

  function Announcement(id: EventId, kind: EventType, result: ResultPayload): Event {
    Event(id, if kind == InventoryReserved then OrderConfirmed else OrderCancelled, EncodeResult(result.order, result.user, result.reason))
  }

  lemma NoticeStep(s: State, i: nat, k: Consumer, msg: Msg, result: ResultPayload)
    requires i in s.consumers && s.consumers[i] == k && k.pc == Written(msg, result) && |s.w.orderLog| == 1
    requires msg.event.kind == InventoryReserved || msg.event.kind == InventoryReservationFailed
    ensures var t := Step(s, WorkC(i, Done(0)));
            && t.w.orders == s.w.orders && t.w.tables == s.w.tables
            && t.w.orderLog == [s.w.orderLog[0] + [Announcement(s.w.nextId, msg.event.kind, result)]]
  {
    assert StatusNotice(s.w, msg, result) == Announcement(s.w.nextId, msg.event.kind, result);
  }

  lemma ResultAnnounced(reported: seq<Action>, e: Event, result: ResultPayload) returns (schedule: seq<Action>)
    requires var s := Run(1, 1, reported);
             && s.consumers == map[] && s.w.inventoryOffsets == [0] && s.w.inventoryLog == [[e]] && |s.w.orderLog| == 1
             && (e.kind == InventoryReserved || e.kind == InventoryReservationFailed)
             && DecodeResult(e.payload) == Some(result) && s.w.orderSeen == {} && result.order in s.w.orders
    ensures var s := Run(1, 1, reported);
            Announced(s, Run(1, 1, schedule), result.order, Decided(e.kind), Announcement(s.w.nextId, e.kind, result))
  {
    var decided := Decide(1, 1, reported, 0, e, result);
    NoticeStep(Run(1, 1, decided), 0, Consumer(map[0 := 1], Written(Msg(0, 0, e), result)), Msg(0, 0, e), result);
    Then(1, 1, decided, WorkC(0, Done(0)));
    schedule := decided + [WorkC(0, Done(0))];
  }

  /** What has become of the order, whatever the inventory had. */
  ghost predicate Outcome(w: World, w': World, o: OrderId, u: UserId, items: seq<OrderItem>) {
    var r := ReserveItems(w.tables, o, Lines(items));
    && o in w'.orders && w'.orders[o].user == u && w'.orders[o].items == items
    && |w'.orderLog| == 1 && |w'.orderLog[0]| == 2
    && var notice := w'.orderLog[0][1];
       && (r.Success? ==> w'.orders[o].status == CONFIRMED && w'.tables == r.value
                          && notice.kind == OrderConfirmed && notice.payload == EncodeResult(o, u, ""))
       && (r.Failure? ==> w'.orders[o].status == CANCELLED && w'.tables == w.tables
                          && notice.kind == OrderCancelled && notice.payload == EncodeResult(o, u, ErrorText(r.error)))
  }

  lemma Decides(reported: seq<Action>, s: State, o: OrderId, u: UserId, items: seq<OrderItem>, kind: EventType, reason: string, tables: Tables)
    returns (schedule: seq<Action>)
    requires Reported(s, Run(1, 1, reported), Event(s.w.nextId, kind, EncodeResult(o, u, reason)), tables)
    requires kind == InventoryReserved || kind == InventoryReservationFailed
    requires s.w.inventoryOffsets == [0] && s.w.orderSeen == {} && |s.w.orderLog| == 1 && |s.w.orderLog[0]| == 1
    requires o in s.w.orders && s.w.orders[o] == Order(u, CREATED, items)
    ensures var w' := Run(1, 1, schedule).w;
            && o in w'.orders && w'.orders[o] == Order(u, Decided(kind), items) && w'.tables == tables
            && |w'.orderLog| == 1 && |w'.orderLog[0]| == 2
            && w'.orderLog[0][1].kind == (if kind == InventoryReserved then OrderConfirmed else OrderCancelled)
            && w'.orderLog[0][1].payload == EncodeResult(o, u, reason)
  {
    ResultRoundTrip(o, u, reason);
    schedule := ResultAnnounced(reported, Event(s.w.nextId, kind, EncodeResult(o, u, reason)), ResultPayload(o, u, reason));
  }

  lemma Reports(received: seq<Action>, s: State, e: Event, o: OrderId, u: UserId, items: seq<OrderItem>)
    returns (reported: seq<Action>, kind: EventType, reason: string, tables: Tables)
    requires s == Run(1, 1, received) && e.kind == OrderCreated && e.payload == EncodeCreated(o, u, items)
    requires 0 in s.workers && s.workers[0].pc == Received(Msg(0, 0, e))
    requires s.w.orderOffsets == [0] && s.w.inventoryLog == [[]] && s.consumers == map[]
    ensures Reported(s, Run(1, 1, reported), Event(s.w.nextId, kind, EncodeResult(o, u, reason)), tables)
    ensures var r := ReserveItems(s.w.tables, o, Lines(items));
            if r.Success? then kind == InventoryReserved && reason == "" && tables == r.value
            else kind == InventoryReservationFailed && reason == ErrorText(r.error) && tables == s.w.tables
  {
    CreatedRoundTrip(o, u, items);
    var r := ReserveItems(s.w.tables, o, Lines(items));
    if r.Success? {
      kind, reason, tables := InventoryReserved, "", r.value;
      reported := SuccessReported(received, e, OrderPayload(o, u, Lines(items)), tables);
    } else {
      kind, reason, tables := InventoryReservationFailed, ErrorText(r.error), s.w.tables;
      reported := RefusalReported(received, e, OrderPayload(o, u, Lines(items)), r.error);
    }
  }

  /** From any reachable state with empty topics and any stock: placing an order, without faults, leads to its
      decision by the stock alone. */
  lemma StockDecides(before: seq<Action>, r: nat, o: OrderId, u: UserId, items: seq<OrderItem>) returns (schedule: seq<Action>)
    requires Open(Run(1, 1, before), r, o) && ValidLines(items)
    ensures Outcome(Run(1, 1, before).w, Run(1, 1, schedule).w, o, u, items)
  {
    var placed := before + [Place(r, o, u, items)] + [Send(r, 0)];
    var e := CreatedEvent(Run(1, 1, before).w.nextId, o, u, items);
    PlaceAndSend(before, r, o, u, items);
    var received := Receive(1, 1, placed, 0, e);
    var reported, kind, reason, tables := Reports(received, Run(1, 1, received), e, o, u, items);
    schedule := Decides(reported, Run(1, 1, received), o, u, items, kind, reason, tables);
  }
}
