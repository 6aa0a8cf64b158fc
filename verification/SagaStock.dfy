/**
 End-to-end safety of the saga: an order that reads CONFIRMED has all its stock reserved, in every run
 in which no admin sets CREATED or CONFIRMED by hand.  These are exactly the statuses that must be
 excluded: with either of them some run confirms an order with nothing reserved.
 */
module SagaStock {
  import opened Basics
  import opened Inventory
  import opened Events
  import opened Delivery
  import opened Services
  import opened Saga
  import opened SagaPaths
  import D = SagaDelivery

  /** What a stored order asks of the inventory. */
  function Wanted(w: World, o: OrderId): map<ProductId, int>
    requires o in w.orders
  {
    Demand(Lines(w.orders[o].items))
  }

  /** For each product of the order, a reservation with the quantity of its first line. */
  ghost predicate FullyReserved(w: World, o: OrderId)
    requires o in w.orders
  {
    forall p | p in Wanted(w, o) ::
      Key(o, p) in w.tables.reservations && w.tables.reservations[Key(o, p)] == Wanted(w, o)[p]
  }

  ghost predicate NamesOrder(w: World, order: OrderPayload) {
    order.order in w.orders && order.items == Lines(w.orders[order.order].items)
  }

  ghost predicate CreatedOk(w: World, e: Event) {
    e.kind == OrderCreated ==> DecodeOrder(e.payload).Some? && NamesOrder(w, DecodeOrder(e.payload).value)
  }

  ghost predicate ReservedOk(w: World, e: Event) {
    e.kind == InventoryReserved ==>
      DecodeResult(e.payload).Some? && var o := DecodeResult(e.payload).value.order; o in w.orders && FullyReserved(w, o)
  }

  /** Every reservation belongs to a stored order and has the quantity of the product's first line. */
  ghost predicate RowsOk(w: World, t: Tables) {
    forall k | k in t.reservations ::
      k.order in w.orders && k.product in Wanted(w, k.order) && t.reservations[k] == Wanted(w, k.order)[k.product]
  }

  ghost predicate AllCreatedOk(w: World, log: Log) {
    forall x: Slot | D.InLog(log, x) :: CreatedOk(w, log[x.partition][x.offset])
  }

  ghost predicate AllReservedOk(w: World, log: Log) {
    forall x: Slot | D.InLog(log, x) :: ReservedOk(w, log[x.partition][x.offset])
  }

  ghost predicate RequestsOk(w: World, requests: map<nat, Event>) {
    forall r | r in requests :: CreatedOk(w, requests[r])
  }

  ghost predicate ConfirmedOk(w: World) {
    forall o | o in w.orders && w.orders[o].status == CONFIRMED :: FullyReserved(w, o)
  }

  ghost predicate WorldOk(w: World) {
    && ChecksHold(w.tables)
    && RowsOk(w, w.tables)
    && AllCreatedOk(w, w.orderLog)
    && AllReservedOk(w, w.inventoryLog)
    && ConfirmedOk(w)
  }

  ghost predicate Inv(s: State) {
    WorldOk(s.w) && RequestsOk(s.w, s.requests)
  }

  /** The environment of the theorem. */
  predicate Allowed(a: Action) {
    a.Admin? ==> a.status != CREATED && a.status != CONFIRMED
  }

  /******* Stability *******/

  lemma ReservedStays(w: World, w': World, o: OrderId)
    requires OrdersKept(w.orders, w'.orders) && Grows(w.tables, w'.tables) && o in w.orders && FullyReserved(w, o)
    ensures FullyReserved(w', o)
  {
    assert Wanted(w', o) == Wanted(w, o);
  }

  lemma CreatedLogStays(w: World, w': World, log: Log)
    requires OrdersKept(w.orders, w'.orders) && AllCreatedOk(w, log)
    ensures AllCreatedOk(w', log)
  {
  }

  lemma ReservedLogStays(w: World, w': World, log: Log)
    requires OrdersKept(w.orders, w'.orders) && Grows(w.tables, w'.tables) && AllReservedOk(w, log)
    ensures AllReservedOk(w', log)
  {
    forall x: Slot | D.InLog(log, x) ensures ReservedOk(w', log[x.partition][x.offset]) {
      var e := log[x.partition][x.offset];
      if e.kind == InventoryReserved {
        ReservedStays(w, w', DecodeResult(e.payload).value.order);
      }
    }
  }

  lemma RowsStay(w: World, w': World, t: Tables)
    requires OrdersKept(w.orders, w'.orders) && RowsOk(w, t)
    ensures RowsOk(w', t)
  {
    forall k | k in t.reservations
      ensures k.order in w'.orders && k.product in Wanted(w', k.order) && t.reservations[k] == Wanted(w', k.order)[k.product]
    {
      assert Wanted(w', k.order) == Wanted(w, k.order);
    }
  }

  lemma RequestsStay(w: World, w': World, requests: map<nat, Event>)
    requires OrdersKept(w.orders, w'.orders) && RequestsOk(w, requests)
    ensures RequestsOk(w', requests)
  {
  }

  lemma AppendCreated(w: World, log: Log, p: nat, e: Event)
    requires p < |log| && AllCreatedOk(w, log) && CreatedOk(w, e)
    ensures AllCreatedOk(w, Append(log, p, e))
  {
    var log' := Append(log, p, e);
    forall x: Slot | D.InLog(log', x) ensures CreatedOk(w, log'[x.partition][x.offset]) {
      if x != Slot(p, |log[p]|) {
        assert D.InLog(log, x) && log'[x.partition][x.offset] == log[x.partition][x.offset];
      }
    }
  }

  lemma AppendReserved(w: World, log: Log, p: nat, e: Event)
    requires p < |log| && AllReservedOk(w, log) && ReservedOk(w, e)
    ensures AllReservedOk(w, Append(log, p, e))
  {
    var log' := Append(log, p, e);
    forall x: Slot | D.InLog(log', x) ensures ReservedOk(w, log'[x.partition][x.offset]) {
      if x != Slot(p, |log[p]|) {
        assert D.InLog(log, x) && log'[x.partition][x.offset] == log[x.partition][x.offset];
      }
    }
  }

  /** Everything but the confirmed orders, when orders and tables evolve and the logs stay. */
  lemma WorldStays(w: World, w': World)
    requires WorldOk(w) && OrdersKept(w.orders, w'.orders) && Grows(w.tables, w'.tables)
    requires w'.orderLog == w.orderLog && w'.inventoryLog == w.inventoryLog
    requires ChecksHold(w'.tables) && RowsOk(w', w'.tables)
    requires forall o | o in w'.orders && w'.orders[o].status == CONFIRMED :: o in w.orders && w.orders[o].status == CONFIRMED
    ensures WorldOk(w')
  {
    CreatedLogStays(w, w', w.orderLog);
    ReservedLogStays(w, w', w.inventoryLog);
    forall o | o in w'.orders && w'.orders[o].status == CONFIRMED ensures FullyReserved(w', o) {
      ReservedStays(w, w', o);
    }
  }

  /******* API calls *******/

  lemma PlaceKeeps(s: State, r: nat, o: OrderId, u: UserId, items: seq<OrderItem>)
    requires Inv(s)
    ensures Inv(PlaceStep(s, r, o, u, items))
  {
    var s' := PlaceStep(s, r, o, u, items);
    if s' != s {
      RowsStay(s.w, s'.w, s.w.tables);
      WorldStays(s.w, s'.w);
      RequestsStay(s.w, s'.w, s.requests);
      CreatedRoundTrip(o, u, items);
      assert CreatedOk(s'.w, s'.requests[r]);
    }
  }

  lemma AdminKeeps(s: State, r: nat, o: OrderId, status: Status)
    requires Inv(s) && status != CREATED && status != CONFIRMED
    ensures Inv(AdminStep(s, r, o, status))
  {
    var s' := AdminStep(s, r, o, status);
    if s' != s {
      RowsStay(s.w, s'.w, s.w.tables);
      WorldStays(s.w, s'.w);
      RequestsStay(s.w, s'.w, s.requests);
      assert CreatedOk(s'.w, s'.requests[r]);
    }
  }

  /** Publishing on either topic. */
  lemma PublishOrderEvent(w: World, w': World, p: nat, e: Event)
    requires WorldOk(w) && p < |w.orderLog| && CreatedOk(w, e)
    requires w' == w.(orderLog := Append(w.orderLog, p, e), nextId := w'.nextId)
    ensures WorldOk(w')
  {
    AppendCreated(w, w.orderLog, p, e);
    CreatedLogStays(w, w', w'.orderLog);
    ReservedLogStays(w, w', w.inventoryLog);
    RowsStay(w, w', w.tables);
  }

  lemma PublishInventoryEvent(w: World, w': World, p: nat, e: Event)
    requires WorldOk(w) && p < |w.inventoryLog| && ReservedOk(w, e)
    requires w' == w.(inventoryLog := Append(w.inventoryLog, p, e), nextId := w'.nextId)
    ensures WorldOk(w')
  {
    AppendReserved(w, w.inventoryLog, p, e);
    CreatedLogStays(w, w', w.orderLog);
    ReservedLogStays(w, w', w'.inventoryLog);
    RowsStay(w, w', w.tables);
  }

  lemma SendKeeps(s: State, r: nat, p: nat)
    requires Inv(s)
    ensures Inv(SendStep(s, r, p))
  {
    var s' := SendStep(s, r, p);
    if s' != s {
      PublishOrderEvent(s.w, s'.w, p, s.requests[r]);
      RequestsStay(s.w, s'.w, s'.requests);
    }
  }

  lemma StockKeeps(s: State, p: ProductId, q: int)
    requires Inv(s)
    ensures Inv(StockStep(s, p, q))
  {
    var s' := StockStep(s, p, q);
    if s' != s {
      ApplyGrows(s.w.tables, AddStock(p, q));
      RowsStay(s.w, s'.w, s'.w.tables);
      WorldStays(s.w, s'.w);
      RequestsStay(s.w, s'.w, s.requests);
    }
  }

  /******* Inventory workers *******/

  /** A successful reservation only adds rows of the order, with the quantities it asks for. */
  lemma ReserveRows(t: Tables, o: OrderId, items: seq<Item>, k: Key)
    requires ChecksHold(t) && ReserveItems(t, o, items).Success?
    requires k in ReserveItems(t, o, items).value.reservations && k !in t.reservations
    ensures k.order == o && k.product in Demand(items)
    ensures ReserveItems(t, o, items).value.reservations[k] == Demand(items)[k.product]
  {
    ExactOutcome(t, o, items);
  }

  lemma ReserveKeeps(w: World, order: OrderPayload)
    requires WorldOk(w) && NamesOrder(w, order) && ReserveItems(w.tables, order.order, order.items).Success?
    ensures WorldOk(w.(tables := ReserveItems(w.tables, order.order, order.items).value))
  {
    var t' := ReserveItems(w.tables, order.order, order.items).value;
    var w' := w.(tables := t');
    ReserveGrows(w.tables, order.order, order.items);
    forall k | k in t'.reservations
      ensures k.order in w.orders && k.product in Wanted(w, k.order) && t'.reservations[k] == Wanted(w, k.order)[k.product]
    {
      if k !in w.tables.reservations {
        ReserveRows(w.tables, order.order, order.items, k);
      }
    }
    RowsStay(w, w', t');
    WorldStays(w, w');
  }

  lemma HeldIsReserved(w: World, order: OrderPayload)
    requires RowsOk(w, w.tables) && NamesOrder(w, order) && AllHeld(w.tables, order.order, order.items)
    ensures FullyReserved(w, order.order)
  {
    forall p | p in Wanted(w, order.order)
      ensures Key(order.order, p) in w.tables.reservations
      ensures w.tables.reservations[Key(order.order, p)] == Wanted(w, order.order)[p]
    {
      assert order.items[FirstLine(order.items, p)].product == p;
    }
  }

  lemma MessageNamesOrder(w: World, m: Msg)
    requires AllCreatedOk(w, w.orderLog) && D.MsgOk(w.orderLog, m)
    ensures CreatedOk(w, m.event)
  {
    assert D.InLog(w.orderLog, D.SlotOf(m));
  }

  lemma WorkerCallKeeps(w: World, k: Worker, call: Outcome)
    requires WorldOk(w) && D.WorkerOk(w, k)
    ensures WorldOk(CallWorker(w, k.pc, call).0)
  {
    var (w', pc') := CallWorker(w, k.pc, call);
    if k.pc.Received? {
      assert D.MsgOk(w.orderLog, (D.Current(k.pc) + k.queue)[0]);
      MessageNamesOrder(w, k.pc.m);
      ReceivedKeeps(w, k.pc.m, call);
    } else if k.pc.Refused? {
      if w' != w {
        PublishInventoryEvent(w, w', call.partition, ResultEvent(w, InventoryReservationFailed, k.pc.order, k.pc.reason));
      }
    } else if k.pc.Acknowledged? {
      AcknowledgedKeeps(w, k.pc, call);
    } else {
      Bookkeeping(w, w');
    }
  }

  /** Offsets and processed ids carry no promise about stock. */
  lemma Bookkeeping(w: World, w': World)
    requires WorldOk(w)
    requires w' == w.(orderOffsets := w'.orderOffsets, inventoryOffsets := w'.inventoryOffsets,
                      orderSeen := w'.orderSeen, inventorySeen := w'.inventorySeen)
    ensures WorldOk(w')
  {
    RowsStay(w, w', w.tables);
    WorldStays(w, w');
  }

  lemma ReceivedKeeps(w: World, m: Msg, call: Outcome)
    requires WorldOk(w) && CreatedOk(w, m.event)
    ensures WorldOk(CallWorker(w, Received(m), call).0)
  {
    var w' := CallWorker(w, Received(m), call).0;
    if w'.tables == w.tables {
      Bookkeeping(w, w');
    } else {
      ReserveKeeps(w, DecodeOrder(m.event.payload).value);
    }
  }

  lemma AcknowledgedKeeps(w: World, pc: WorkerPc, call: Outcome)
    requires WorldOk(w) && D.PcOk(w, pc) && pc.Acknowledged?
    ensures WorldOk(CallWorker(w, pc, call).0)
  {
    var w' := CallWorker(w, pc, call).0;
    MessageNamesOrder(w, pc.m);
    HeldIsReserved(w, pc.order);
    ResultRoundTrip(pc.order.order, pc.order.user, "");
    if w' != w {
      PublishInventoryEvent(w, w', call.partition, ResultEvent(w, InventoryReserved, pc.order, ""));
    }
  }

  /******* Order-status consumers *******/

  lemma StatusKeeps(w: World, m: Msg, result: ResultPayload)
    requires WorldOk(w) && D.PcCOk(w, Claimed(m, result)) && result.order in w.orders
    ensures WorldOk(w.(orders := SetStatus(w.orders, result.order, ResultStatus(m.event.kind))))
  {
    var w' := w.(orders := SetStatus(w.orders, result.order, ResultStatus(m.event.kind)));
    assert D.MsgOk(w.inventoryLog, m) && D.InLog(w.inventoryLog, D.SlotOf(m));
    RowsStay(w, w', w.tables);
    CreatedLogStays(w, w', w.orderLog);
    ReservedLogStays(w, w', w.inventoryLog);
    forall o | o in w'.orders && w'.orders[o].status == CONFIRMED ensures FullyReserved(w', o) {
      assert ReservedOk(w, m.event);
      assert FullyReserved(w, o);
      ReservedStays(w, w', o);
    }
  }

  lemma ConsumerCallKeeps(w: World, c: Consumer, call: Outcome)
    requires WorldOk(w) && D.ConsumerOk(w, c)
    ensures WorldOk(CallConsumer(w, c.pc, call).0)
  {
    var w' := CallConsumer(w, c.pc, call).0;
    if w' != w {
      match c.pc
      case Claimed(m, result) => StatusKeeps(w, m, result);
      case Written(m, result) => PublishOrderEvent(w, w', call.partition, StatusNotice(w, m, result));
      case _ => Bookkeeping(w, w');
    }
  }

  /******* Every run *******/

  lemma WorkKeeps(s: State, i: nat, call: Outcome)
    requires Inv(s) && D.Inv(s)
    ensures Inv(WorkStep(s, i, call))
  {
    var s' := WorkStep(s, i, call);
    if i in s.workers && !s.workers[i].pc.Idle? {
      WorkerCallKeeps(s.w, s.workers[i], call);
      WorkEvolves(s, i, call);
      RequestsStay(s.w, s'.w, s.requests);
    }
  }

  lemma WorkCKeeps(s: State, i: nat, call: Outcome)
    requires Inv(s) && D.Inv(s)
    ensures Inv(WorkCStep(s, i, call))
  {
    var s' := WorkCStep(s, i, call);
    if i in s.consumers {
      ConsumerCallKeeps(s.w, s.consumers[i], call);
      WorkCEvolves(s, i, call);
      RequestsStay(s.w, s'.w, s.requests);
    }
  }

  lemma StepKeeps(s: State, a: Action)
    requires Inv(s) && D.Inv(s) && Allowed(a)
    ensures Inv(Step(s, a))
  {
    match a
    case Place(r, o, u, items) => PlaceKeeps(s, r, o, u, items);
    case Admin(r, o, status) => AdminKeeps(s, r, o, status);
    case Send(r, p) => SendKeeps(s, r, p);
    case Stock(p, q) => StockKeeps(s, p, q);
    case Work(i, call) => WorkKeeps(s, i, call);
    case WorkC(i, call) => WorkCKeeps(s, i, call);
    case _ =>
  }

  lemma {:induction false} RunKeeps(m: nat, n: nat, schedule: seq<Action>)
    requires forall k | 0 <= k < |schedule| :: Allowed(schedule[k])
    ensures Inv(Run(m, n, schedule))
  {
    if schedule != [] {
      var before := schedule[..|schedule| - 1];
      RunKeeps(m, n, before);
      D.RunKeeps(m, n, before);
      StepKeeps(Run(m, n, before), schedule[|schedule| - 1]);
    }
  }

  /** An order that reads CONFIRMED has, for each of its products, a committed reservation with the
      quantity of that product's first line. */
  lemma ConfirmedIsReserved(m: nat, n: nat, schedule: seq<Action>, w: World, o: OrderId)
    requires w == Run(m, n, schedule).w && forall k | 0 <= k < |schedule| :: Allowed(schedule[k])
    requires o in w.orders && w.orders[o].status == CONFIRMED
    ensures forall p | p in Wanted(w, o) ::
              Key(o, p) in w.tables.reservations && w.tables.reservations[Key(o, p)] == Wanted(w, o)[p]
  {
    RunKeeps(m, n, schedule);
  }

  /** Reservations are made for stored orders only, and never for more than the first line asks. */
  lemma ReservationsAreWanted(m: nat, n: nat, schedule: seq<Action>, w: World, k: Key)
    requires w == Run(m, n, schedule).w && forall i | 0 <= i < |schedule| :: Allowed(schedule[i])
    requires k in w.tables.reservations
    ensures k.order in w.orders && k.product in Wanted(w, k.order)
            && w.tables.reservations[k] == Wanted(w, k.order)[k.product]
  {
    RunKeeps(m, n, schedule);
  }

  /******* Which statuses an admin may set *******/

  ghost predicate OnlySets(schedule: seq<Action>, allowed: set<Status>) {
    forall a | a in schedule && a.Admin? :: a.status in allowed
  }

  /** Order 1 of user 1 loses its event; then an admin sets the order to CREATED. */
  lemma Mislead() returns (schedule: seq<Action>)
    ensures var s := Run(1, 1, schedule);
            && s.w.orders == map[1 := Order(1, CREATED, LINES)]
            && s.w.tables == EMPTY && s.w.orderLog == [[EMPTY_ORDER]]
            && s.w.orderOffsets == [0] && s.w.inventoryLog == [[]] && s.w.inventoryOffsets == [0]
            && s.w.orderSeen == {} && s.w.nextId == 2 && s.workers == map[] && s.consumers == map[] && s.requests == map[]
    ensures OnlySets(schedule, {CREATED}) && forall k | 0 <= k < |schedule| :: !schedule[k].Assign?
  {
    schedule := [Place(0, 1, 1, LINES)];
    Then(1, 1, [], schedule[0]);
    assert [] + [schedule[0]] == schedule;
    var placed := Run(1, 1, schedule);
    assert placed == PlaceStep(Init(1, 1), 0, 1, 1, LINES);
    Then(1, 1, schedule, Drop(0));
    schedule := schedule + [Drop(0)];
    var dropped := Run(1, 1, schedule);
    assert dropped == placed.(requests := map[]);
    Then(1, 1, schedule, Admin(0, 1, CREATED));
    schedule := schedule + [Admin(0, 1, CREATED)];
    AdminWrites(dropped);
    Then(1, 1, schedule, Send(0, 0));
    schedule := schedule + [Send(0, 0)];
  }

  const LINES := [OrderItem(0, 5, 3, 1.0)]

  lemma AdminWrites(s: State)
    requires s.w.orders == map[1 := Order(1, CREATED, LINES)] && s.requests == map[] && s.w.nextId == 1
    requires s.w.orderLog == [[]]
    ensures var s2 := Step(Step(s, Admin(0, 1, CREATED)), Send(0, 0));
            && s2.w.orders == s.w.orders && s2.w.nextId == 2 && s2.requests == map[]
            && s2.w.orderLog == [[EMPTY_ORDER]]
  {
    var s1 := Step(s, Admin(0, 1, CREATED));
    assert s1.w.orders == s.w.orders;
    assert s1.requests == map[0 := EMPTY_ORDER] && s1.w.orderLog == [[]];
    assert Append([[]], 0, EMPTY_ORDER)[0] == [EMPTY_ORDER];
  }

  const EMPTY_ORDER := Event(1, OrderCreated, EncodeResult(1, 1, ""))

  lemma EmptyOrderReceived() returns (schedule: seq<Action>)
    ensures var s := Run(1, 1, schedule);
            && s.w.orders == map[1 := Order(1, CREATED, LINES)] && s.w.tables == EMPTY && s.w.nextId == 2
            && s.w.orderOffsets == [0] && s.w.inventoryLog == [[]] && s.w.inventoryOffsets == [0]
            && s.w.orderSeen == {} && s.consumers == map[]
            && 0 in s.workers && s.workers[0].pc == Received(Msg(0, 0, EMPTY_ORDER))
    ensures OnlySets(schedule, {CREATED})
  {
    var misled := Mislead();
    schedule := Receive(1, 1, misled, 0, EMPTY_ORDER);
  }

  const EMPTY_RESULT := Event(2, InventoryReserved, EncodeResult(1, 0, ""))

  /** The status event is read as a new order without lines for the order numbered like the user, and
      reported as reserved. */
  lemma EmptyOrderReported() returns (schedule: seq<Action>)
    ensures var s := Run(1, 1, schedule);
            && s.w.orders == map[1 := Order(1, CREATED, LINES)] && s.w.tables == EMPTY
            && s.w.inventoryLog == [[EMPTY_RESULT]] && s.w.inventoryOffsets == [0] && s.w.orderSeen == {} && s.consumers == map[]
    ensures OnlySets(schedule, {CREATED})
  {
    ResultReadAsOrder(1, 1, "");
    var received := EmptyOrderReceived();
    schedule := Process(1, 1, received, 0, Msg(0, 0, EMPTY_ORDER), OrderPayload(1, 0, []), EMPTY);
    assert Append([[]], 0, EMPTY_RESULT)[0] == [EMPTY_RESULT];
  }

  /** So that order is confirmed with nothing reserved. */
  lemma AdminCreatedConfirmsUnreserved() returns (schedule: seq<Action>)
    ensures var w := Run(1, 1, schedule).w;
            1 in w.orders && w.orders[1].status == CONFIRMED && !FullyReserved(w, 1)
    ensures OnlySets(schedule, {CREATED})
  {
    ResultRoundTrip(1, 0, "");
    var reported := EmptyOrderReported();
    schedule := Decide(1, 1, reported, 0, EMPTY_RESULT, ResultPayload(1, 0, ""));
    NothingReserved(Run(1, 1, schedule).w);
  }

  lemma NothingReserved(w: World)
    requires 1 in w.orders && w.orders[1].items == LINES && w.tables == EMPTY
    ensures !FullyReserved(w, 1)
  {
    assert Lines(LINES)[0].product == 5;
    assert 5 in Wanted(w, 1);
  }

  /** CONFIRMED set by hand needs no reservation at all. */
  lemma AdminConfirmsUnreserved() returns (schedule: seq<Action>)
    ensures var w := Run(1, 1, schedule).w;
            1 in w.orders && w.orders[1].status == CONFIRMED && !FullyReserved(w, 1)
    ensures OnlySets(schedule, {CONFIRMED})
  {
    var first := [Place(0, 1, 1, LINES)];
    Then(1, 1, [], first[0]);
    assert [] + [first[0]] == first;
    Then(1, 1, first, Admin(1, 1, CONFIRMED));
    schedule := first + [Admin(1, 1, CONFIRMED)];
    NothingReserved(Run(1, 1, schedule).w);
  }

  /** Every confirmed order is reserved in every run if and only if admins set neither CREATED nor
      CONFIRMED; the other four statuses are harmless. */
  lemma ConfirmedReservedExactly(allowed: set<Status>)
    ensures (forall m: nat, n: nat, schedule | OnlySets(schedule, allowed) :: ConfirmedOk(Run(m, n, schedule).w)) <==>
            CREATED !in allowed && CONFIRMED !in allowed
  {
    if CREATED in allowed {
      var schedule := AdminCreatedConfirmsUnreserved();
      assert OnlySets(schedule, allowed) && !ConfirmedOk(Run(1, 1, schedule).w);
    } else if CONFIRMED in allowed {
      var schedule := AdminConfirmsUnreserved();
      assert OnlySets(schedule, allowed) && !ConfirmedOk(Run(1, 1, schedule).w);
    } else {
      forall m: nat, n: nat, schedule | OnlySets(schedule, allowed) ensures ConfirmedOk(Run(m, n, schedule).w) {
        HarmlessStatuses(m, n, schedule, allowed);
      }
    }
  }

  lemma HarmlessStatuses(m: nat, n: nat, schedule: seq<Action>, allowed: set<Status>)
    requires OnlySets(schedule, allowed) && CREATED !in allowed && CONFIRMED !in allowed
    ensures ConfirmedOk(Run(m, n, schedule).w)
  {
    forall k | 0 <= k < |schedule| ensures Allowed(schedule[k]) {
      assert schedule[k] in schedule;
    }
    RunKeeps(m, n, schedule);
  }
}
