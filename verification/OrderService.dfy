/**
 The order service over its repository and the two topics: placing an order, an admin's status change,
 and the loop that turns inventory results into order statuses.
 */
module OrderService {
  import opened Basics
  import opened Events
  import opened Services
  import opened OrderTotals
  import Inventory
  import OrderRepository

  datatype Error = EmptyItems | UnknownUser | InvalidQuantity | UnknownProduct | InvalidStatus | NotFound | StoreFailed | PublishFailed

  datatype Request = Request(product: ProductId, quantity: int)

  function ParseStatus(status: string): Option<Status> {
    match status
    case "CREATED" => Some(CREATED)
    case "CONFIRMED" => Some(CONFIRMED)
    case "PROCESSING" => Some(PROCESSING)
    case "SHIPPED" => Some(SHIPPED)
    case "DELIVERED" => Some(DELIVERED)
    case "CANCELLED" => Some(CANCELLED)
    case _ => None
  }

  function StatusText(status: Status): string {
    match status
    case CREATED => "CREATED"
    case CONFIRMED => "CONFIRMED"
    case PROCESSING => "PROCESSING"
    case SHIPPED => "SHIPPED"
    case DELIVERED => "DELIVERED"
    case CANCELLED => "CANCELLED"
  }

  function Lower(c: char): char {
    if 'A' <= c <= 'Z' then c + ('a' - 'A') else c
  }

  /** The first letter as it is, the others lower-case. */
  function Title(text: string): string {
    seq(|text|, i requires 0 <= i < |text| => if i == 0 then text[i] else Lower(text[i]))
  }

  lemma TitleIs(text: string, title: string)
    requires |text| == |title| && forall i | 0 <= i < |text| :: title[i] == if i == 0 then text[i] else Lower(text[i])
    ensures Title(text) == title
  {
  }

  /** An accepted status text is exactly the name of its status. */
  lemma ParsesItsName(text: string, status: Status)
    ensures ParseStatus(text) == Some(status) <==> text == StatusText(status)
  {
  }

  /** The event published for a status is named "Order" and the status in title case. */
  lemma EventNamedAfterStatus(status: Status)
    ensures EventName(StatusEvent(status)) == "Order" + Title(StatusText(status))
  {
    match status
    case CREATED => TitleIs("CREATED", "Created");
    case CONFIRMED => TitleIs("CONFIRMED", "Confirmed");
    case CANCELLED => TitleIs("CANCELLED", "Cancelled");
    case _ => FurtherEventNamed(status);
  }

  lemma FurtherEventNamed(status: Status)
    requires status == PROCESSING || status == SHIPPED || status == DELIVERED
    ensures EventName(StatusEvent(status)) == "Order" + Title(StatusText(status))
  {
    match status
    case PROCESSING => TitleIs("PROCESSING", "Processing");
    case SHIPPED => TitleIs("SHIPPED", "Shipped");
    case DELIVERED => TitleIs("DELIVERED", "Delivered");
  }

  predicate Good(r: Request, lookup: ProductId -> Option<real>) {
    r.product > 0 && r.quantity > 0 && lookup(r.product).Some?
  }

  /** The line at which a request is refused. */
  ghost predicate FirstBad(requested: seq<Request>, lookup: ProductId -> Option<real>, i: int) {
    0 <= i < |requested| && !Good(requested[i], lookup) && forall j | 0 <= j < i :: Good(requested[j], lookup)
  }

  predicate Acceptable(requested: seq<Request>, lookup: ProductId -> Option<real>) {
    && requested != []
    && forall i | 0 <= i < |requested| :: Good(requested[i], lookup)
  }

  /** The lines of a request at the prices the product service gives. */
  function Priced(requested: seq<Request>, lookup: ProductId -> Option<real>): seq<OrderItem>
    requires Acceptable(requested, lookup)
  {
    seq(|requested|, i requires 0 <= i < |requested| =>
      OrderItem(0, requested[i].product, requested[i].quantity, lookup(requested[i].product).value))
  }

  /** The stored lines are the requested ones, at the prices looked up. */
  ghost predicate AsRequested(items: seq<OrderItem>, requested: seq<Request>, lookup: ProductId -> Option<real>) {
    && |items| == |requested|
    && forall i | 0 <= i < |items| ::
         items[i].product == requested[i].product && items[i].quantity == requested[i].quantity
         && lookup(requested[i].product) == Some(items[i].price)
  }

  /** And these are the lines the inventory service reads. */
  ghost predicate ReadAsRequested(items: seq<Inventory.Item>, requested: seq<Request>) {
    && |items| == |requested|
    && forall i | 0 <= i < |items| :: items[i].product == requested[i].product && items[i].quantity == requested[i].quantity
  }

  /******* The consumer's calls, message by message *******/

  function MakeCalls(w: World, pc: ConsumerPc, calls: seq<Outcome>): (World, ConsumerPc)
    decreases |calls|
  {
    if calls == [] then (w, pc)
    else
      var (w', pc') := CallConsumer(w, pc, calls[0]);
      MakeCalls(w', pc', calls[1..])
  }

  lemma NextCall(w: World, pc: ConsumerPc, call: Outcome, calls: seq<Outcome>)
    ensures var r := CallConsumer(w, pc, call); MakeCalls(w, pc, [call] + calls) == MakeCalls(r.0, r.1, calls)
  {
    assert ([call] + calls)[1..] == calls;
  }

  /** The world after the first messages of an input, handled one after another. */
  function HandleAll(w: World, input: seq<Msg>, traces: seq<seq<Outcome>>): World
    requires |traces| <= |input|
  {
    if traces == [] then w
    else
      var n := |traces| - 1;
      MakeCalls(HandleAll(w, input, traces[..n]), Fetched(input[n]), traces[n]).0
  }

  /** Message `k` was handled to the end, in the world its predecessors left. */
  ghost predicate EndsAt(w: World, input: seq<Msg>, traces: seq<seq<Outcome>>, k: nat)
    requires k < |traces| <= |input|
  {
    MakeCalls(HandleAll(w, input, traces[..k]), Fetched(input[k]), traces[k]).1 == Waiting
  }

  ghost predicate HandledToTheEnd(w: World, input: seq<Msg>, traces: seq<seq<Outcome>>, n: nat)
    requires n <= |traces| <= |input|
  {
    forall k | 0 <= k < n :: EndsAt(w, input, traces, k)
  }

  lemma SameEnd(w: World, input: seq<Msg>, traces: seq<seq<Outcome>>, trace: seq<Outcome>, k: nat)
    requires k < |traces| < |input|
    ensures EndsAt(w, input, traces + [trace], k) == EndsAt(w, input, traces, k)
  {
    assert (traces + [trace])[..k] == traces[..k];
  }

  lemma OneMoreMessage(w: World, input: seq<Msg>, traces: seq<seq<Outcome>>, trace: seq<Outcome>)
    requires |traces| < |input| && HandledToTheEnd(w, input, traces, |traces|)
    ensures var r := MakeCalls(HandleAll(w, input, traces), Fetched(input[|traces|]), trace);
            && HandleAll(w, input, traces + [trace]) == r.0
            && HandledToTheEnd(w, input, traces + [trace], |traces|)
            && (r.1 == Waiting ==> HandledToTheEnd(w, input, traces + [trace], |traces| + 1))
  {
    assert (traces + [trace])[..|traces|] == traces;
    forall k | 0 <= k < |traces| ensures EndsAt(w, input, traces + [trace], k) {
      SameEnd(w, input, traces, trace, k);
    }
  }

  /** A message handled to its end leaves the consumer waiting; otherwise it has stopped, at an error or after
      a call whose answer was lost. */
  ghost predicate EndsAs(pc: ConsumerPc, ok: bool, calls: nat -> CallResult) {
    if ok then pc == Waiting else pc == Halted || exists n :: calls(n).LostAck?
  }

  /** Without faults the loop gets past this message. */
  ghost predicate Passable(w: World, m: Msg, q: nat) {
    !IsResult(m.event.kind) ||
    (DecodeResult(m.event.payload).Some? &&
      (m.event.id in w.orderSeen || (DecodeResult(m.event.payload).value.order in w.orders && q < |w.orderLog|)))
  }

  lemma {:induction false} NegativeTotal(items: seq<OrderItem>) returns (i: nat)
    requires Total(items) < 0.0 && forall i | 0 <= i < |items| :: items[i].quantity > 0
    ensures i < |items| && items[i].price < 0.0
  {
    var n := |items| - 1;
    if items[n].price < 0.0 {
      i := n;
    } else {
      assert Cost(items[n]) >= 0.0;
      i := NegativeTotal(items[..n]);
    }
  }

  /** The database refuses only a negative price: the quantities have been checked. */
  lemma NegativePrice(requested: seq<Request>, lookup: ProductId -> Option<real>) returns (i: nat)
    requires Acceptable(requested, lookup)
    requires var items := Priced(requested, lookup);
             Total(items) < 0.0 || exists i | 0 <= i < |items| :: items[i].quantity <= 0 || items[i].price < 0.0
    ensures i < |requested| && lookup(requested[i].product).value < 0.0
  {
    var items := Priced(requested, lookup);
    if Total(items) < 0.0 {
      i := NegativeTotal(items);
    } else {
      i :| i < |items| && items[i].price < 0.0;
    }
  }

  /** A new order holds the requested lines. */
  ghost predicate Placed(orders: map<OrderId, Order>, orders': map<OrderId, Order>, o: OrderId, user: UserId,
                         requested: seq<Request>, lookup: ProductId -> Option<real>) {
    && o !in orders && o in orders' && orders' == orders[o := orders'[o]]
    && orders'[o].user == user && orders'[o].status == CREATED && AsRequested(orders'[o].items, requested, lookup)
  }

  ghost predicate SomePlaced(orders: map<OrderId, Order>, orders': map<OrderId, Order>, user: UserId,
                             requested: seq<Request>, lookup: ProductId -> Option<real>) {
    exists o :: Placed(orders, orders', o, user, requested, lookup)
  }

  ghost predicate NoNegativePrice(requested: seq<Request>, lookup: ProductId -> Option<real>) {
    forall i | 0 <= i < |requested| && lookup(requested[i].product).Some? :: lookup(requested[i].product).value >= 0.0
  }

  /** What the lines cost unit by unit is what is stored. */
  lemma StoredTotal(items: seq<OrderItem>, stored: seq<OrderItem>, requested: seq<Request>, lookup: ProductId -> Option<real>)
    requires Acceptable(requested, lookup) && items == Priced(requested, lookup) && AsRequested(stored, requested, lookup)
    ensures Total(items) == Sum(UnitPrices(stored))
  {
    SameCost(items, stored);
    TotalIsUnitSum(stored);
  }

  class Service {
    const repository: OrderRepository.Repository
    var log: Log
    var offsets: seq<nat>
    var nextId: EventId

    constructor (repository: OrderRepository.Repository, log: Log, offsets: seq<nat>)
      ensures this.repository == repository && this.log == log && this.offsets == offsets && nextId == 0
    {
      this.repository, this.log, this.offsets, nextId := repository, log, offsets, 0;
    }

    function World(rest: World): World
      reads this, repository
    {
      rest.(orders := repository.Orders(), orderSeen := repository.processed,
            orderLog := log, inventoryOffsets := offsets, nextId := nextId)
    }

    method Publish(kind: EventType, payload: Json, q: nat, call: CallResult) returns (ok: bool)
      modifies this`log, this`nextId
      ensures ok == (call.Works? && q < |old(log)|)
      ensures if call.Fails? || q >= |old(log)| then log == old(log) && nextId == old(nextId)
              else log == Append(old(log), q, Event(old(nextId), kind, payload)) && nextId == old(nextId) + 1
    {
      if call.Fails? || q >= |log| { return false; }
      log, nextId := log[q := log[q] + [Event(nextId, kind, payload)]], nextId + 1;
      return call.Works?;
    }

    /** `lookup` is the product service and `userKnown` the answer of the user service. */
    method Create(user: UserId, requested: seq<Request>, userKnown: bool, lookup: ProductId -> Option<real>,
                  dbFault: nat -> bool, commit: CallResult, q: nat, publish: CallResult)
      returns (r: Result<OrderId, Error>)
      requires repository.Valid()
      modifies this`log, this`nextId, repository
      ensures repository.Valid()
      ensures r.Success? ==>
                && userKnown && Acceptable(requested, lookup) && q < |old(log)|
                && Placed(old(repository.Orders()), repository.Orders(), r.value, user, requested, lookup)
                && r.value in repository.orders
                && repository.orders[r.value].total == Sum(UnitPrices(repository.Orders()[r.value].items))
                && var created := EncodeCreated(r.value, user, repository.Orders()[r.value].items);
                   && log == Append(old(log), q, Event(old(nextId), OrderCreated, created)) && nextId == old(nextId) + 1
                   && DecodeOrder(created).Some? && DecodeOrder(created).value.order == r.value && DecodeOrder(created).value.user == user
                   && ReadAsRequested(DecodeOrder(created).value.items, requested)
      ensures r.Failure? && repository.Orders() != old(repository.Orders()) ==>
                && (r.error == PublishFailed || (r.error == StoreFailed && commit.LostAck?))
                && SomePlaced(old(repository.Orders()), repository.Orders(), user, requested, lookup)
      ensures r.Failure? && log != old(log) ==> r.error == PublishFailed && publish.LostAck?
      ensures r == Failure(PublishFailed) ==> !publish.Works? || q >= |old(log)|
      ensures r == Failure(StoreFailed) && NoFaults(dbFault) && commit.Works? ==> !NoNegativePrice(requested, lookup)
      ensures r == Failure(EmptyItems) <==> requested == []
      ensures r == Failure(UnknownUser) <==> requested != [] && !userKnown
      ensures requested != [] && userKnown && !Acceptable(requested, lookup) <==> r == Failure(InvalidQuantity) || r == Failure(UnknownProduct)
      ensures r == Failure(InvalidQuantity) ==>
                exists i :: FirstBad(requested, lookup, i) && (requested[i].product <= 0 || requested[i].quantity <= 0)
      ensures r == Failure(UnknownProduct) ==>
                exists i :: FirstBad(requested, lookup, i) && requested[i].product > 0 && requested[i].quantity > 0
      ensures r.Failure? ==> r.error != InvalidStatus && r.error != NotFound
    {
      if |requested| == 0 { return Failure(EmptyItems); }
      if !userKnown { return Failure(UnknownUser); }
      var priced, total := Price(requested, lookup);
      if priced.Failure? { return Failure(priced.error); }
      var o := Store(user, requested, lookup, priced.value, total, dbFault, commit);
      if o.None? { return Failure(StoreFailed); }
      ghost var items := repository.Orders()[o.value].items;
      StoredTotal(priced.value, items, requested, lookup);
      CreatedRoundTrip(o.value, user, items);
      var order := repository.Orders()[o.value];
      var published := Publish(OrderCreated, EncodeCreated(o.value, user, order.items), q, publish);
      if !published { return Failure(PublishFailed); }
      return Success(o.value);
    }

    /** The repository's transaction on a slice of the priced lines. */
    method Store(user: UserId, requested: seq<Request>, lookup: ProductId -> Option<real>, items: seq<OrderItem>, total: real,
                 dbFault: nat -> bool, commit: CallResult)
      returns (r: Option<OrderId>)
      requires repository.Valid() && Acceptable(requested, lookup) && items == Priced(requested, lookup) && total == Total(items)
      modifies repository
      ensures repository.Valid()
      ensures r.Some? ==>
                && Placed(old(repository.Orders()), repository.Orders(), r.value, user, requested, lookup)
                && r.value in repository.orders && repository.orders[r.value].total == total
      ensures r.None? ==>
                || repository.Orders() == old(repository.Orders())
                || (commit.LostAck? && SomePlaced(old(repository.Orders()), repository.Orders(), user, requested, lookup))
      ensures r.None? && NoFaults(dbFault) && commit.Works? ==> !NoNegativePrice(requested, lookup)
    {
      var slice := new OrderItem[|items|](i requires 0 <= i < |items| => items[i]);
      assert slice[..] == items;
      ghost var next := repository.nextOrder;
      r := repository.Create(user, slice, total, dbFault, commit);
      if r.None? && NoFaults(dbFault) && commit.Works? {
        ghost var i := NegativePrice(requested, lookup);
      }
      if repository.Orders() != old(repository.Orders()) {
        assert Placed(old(repository.Orders()), repository.Orders(), if r.Some? then r.value else next, user, requested, lookup);
      }
    }

    /** The loop that looks up each product and adds up the total. */
    method Price(requested: seq<Request>, lookup: ProductId -> Option<real>) returns (r: Result<seq<OrderItem>, Error>, total: real)
      requires requested != []
      ensures r.Success? ==> Acceptable(requested, lookup) && r.value == Priced(requested, lookup) && total == Total(r.value)
      ensures r.Failure? ==> !Acceptable(requested, lookup) && (r.error == InvalidQuantity || r.error == UnknownProduct)
      ensures r == Failure(InvalidQuantity) ==>
                exists i :: FirstBad(requested, lookup, i) && (requested[i].product <= 0 || requested[i].quantity <= 0)
      ensures r == Failure(UnknownProduct) ==>
                exists i :: FirstBad(requested, lookup, i) && requested[i].product > 0 && requested[i].quantity > 0
    {
      var items: seq<OrderItem>;
      items, total := [], 0.0;
      for i := 0 to |requested|
        invariant |items| == i && total == Total(items)
        invariant forall k | 0 <= k < i :: Good(requested[k], lookup)
        invariant forall k | 0 <= k < i :: items[k] == OrderItem(0, requested[k].product, requested[k].quantity, lookup(requested[k].product).value)
      {
        assert !Good(requested[i], lookup) ==> FirstBad(requested, lookup, i);
        if requested[i].product <= 0 || requested[i].quantity <= 0 { return Failure(InvalidQuantity), total; }
        var price := lookup(requested[i].product);
        if price.None? { return Failure(UnknownProduct), total; }
        var item := OrderItem(0, requested[i].product, requested[i].quantity, price.value);
        assert (items + [item])[..i] == items;
        items := items + [item];
        total := total + price.value * requested[i].quantity as real;
      }
      assert items == Priced(requested, lookup);
      return Success(items), total;
    }

    /** An admin's status change.  When a later call fails, or only its answer is lost, the new status stays. */
    method UpdateStatus(o: OrderId, status: string, calls: nat -> CallResult, q: nat) returns (r: Result<Order, Error>)
      requires repository.Valid()
      modifies this`log, this`nextId, repository`orders
      ensures repository.Valid()
      ensures ParseStatus(status).None? <==> r == Failure(InvalidStatus)
      ensures r == Failure(NotFound) <==> ParseStatus(status).Some? && calls(0).Works? && o !in old(repository.Orders())
      ensures r.Success? ==>
                && ParseStatus(status).Some? && o in old(repository.Orders()) && q < |old(log)|
                && repository.Orders() == SetStatus(old(repository.Orders()), o, ParseStatus(status).value)
                && r.value == repository.Orders()[o]
                && log == Append(old(log), q, Event(old(nextId), StatusEvent(ParseStatus(status).value), EncodeResult(o, r.value.user, "")))
      ensures r.Failure? ==>
                || repository.Orders() == old(repository.Orders())
                || (o in old(repository.Orders()) && ParseStatus(status).Some?
                    && repository.Orders() == SetStatus(old(repository.Orders()), o, ParseStatus(status).value))
      ensures r.Failure? && log != old(log) ==>
                && o in old(repository.Orders()) && ParseStatus(status).Some? && q < |old(log)|
                && repository.Orders() == SetStatus(old(repository.Orders()), o, ParseStatus(status).value)
                && log == Append(old(log), q, Event(old(nextId), StatusEvent(ParseStatus(status).value),
                                                    EncodeResult(o, old(repository.Orders())[o].user, "")))
      ensures r.Failure? && AllWork(calls) ==> ParseStatus(status).None? || o !in old(repository.Orders()) || q >= |old(log)|
      ensures r.Failure? && (r.error == InvalidStatus || r.error == NotFound) ==>
                repository.Orders() == old(repository.Orders()) && log == old(log)
    {
      var parsed := ParseStatus(status);
      if parsed.None? { return Failure(InvalidStatus); }
      if !calls(0).Works? { return Failure(StoreFailed); }
      if o !in repository.orders { return Failure(NotFound); }
      var user := repository.orders[o].user;
      var err := repository.UpdateStatus(o, parsed.value, calls(1));
      if err.Some? { return Failure(StoreFailed); }
      var published := Publish(StatusEvent(parsed.value), EncodeResult(o, user, ""), q, calls(2));
      if !published { return Failure(PublishFailed); }
      if !calls(3).Works? { return Failure(StoreFailed); }
      return Success(repository.Orders()[o]);
    }

    method Commit(m: Msg, call: CallResult) returns (ok: bool)
      modifies this`offsets
      ensures ok == call.Works?
      ensures offsets == if call.Fails? then old(offsets) else CommitTo(old(offsets), m)
    {
      if !call.Fails? && m.partition < |offsets| {
        offsets := offsets[m.partition := m.offset + 1];
      }
      return call.Works?;
    }

    /** The order of a result has its new status and nothing else has changed in any order; one event says so. */
    twostate predicate Answered(result: ResultPayload, status: Status, kind: EventType, q: nat)
      reads this, repository
    {
      && q < |old(log)| && result.order in old(repository.Orders())
      && repository.Orders() == old(repository.Orders())[result.order := old(repository.Orders())[result.order].(status := status)]
      && log == Append(old(log), q, Event(old(nextId), kind, EncodeResult(result.order, result.user, result.reason)))
      && nextId == old(nextId) + 1
    }

    /** What the loop does with one fetched message; `calls(0..3)` are its calls in order, and `trace` is what
        the saga's consumer would do. */
    method Handle(m: Msg, calls: nat -> CallResult, q: nat, ghost rest: World) returns (ok: bool, ghost trace: seq<Outcome>)
      requires repository.Valid()
      modifies this, repository
      ensures repository.Valid()
      ensures var r := MakeCalls(old(World(rest)), Fetched(m), trace); r.0 == World(rest) && EndsAs(r.1, ok, calls)
      ensures !ok ==> !AllWork(calls) || !Passable(old(World(rest)), m, q)
      ensures ok ==> offsets == if m.partition < |old(offsets)| then old(offsets)[m.partition := m.offset + 1] else old(offsets)
      ensures ok && m.event.id !in old(repository.processed) && m.event.kind == InventoryReservationFailed ==>
                && m.event.id in repository.processed && DecodeResult(m.event.payload).Some?
                && Answered(DecodeResult(m.event.payload).value, CANCELLED, OrderCancelled, q)
      ensures ok && m.event.id !in old(repository.processed) && m.event.kind == InventoryReserved ==>
                && m.event.id in repository.processed && DecodeResult(m.event.payload).Some?
                && Answered(DecodeResult(m.event.payload).value, CONFIRMED, OrderConfirmed, q)
      ensures m.event.id in old(repository.processed) || (m.event.kind != InventoryReservationFailed && m.event.kind != InventoryReserved) ==>
                repository.Orders() == old(repository.Orders()) && log == old(log) && nextId == old(nextId)
    {
      ghost var w := World(rest);
      if !IsResult(m.event.kind) {
        ok := Commit(m, calls(0));
        trace := [Answer(calls(0), q)];
        NextCall(w, Fetched(m), trace[0], []);
        return;
      }
      var payload := DecodeResult(m.event.payload);
      if payload.None? {
        NextCall(w, Fetched(m), Failed, []);
        return false, [Failed];
      }
      var processed := repository.MarkEventProcessed(m.event.id, calls(0));
      ghost var first := Answer(calls(0), q);
      if processed.Failure? {
        NextCall(w, Fetched(m), first, []);
        return false, [first] + [];
      }
      ghost var w1, tail := World(rest), [];
      if !processed.value {
        assert w1 == w;
        assert CallConsumer(w, Fetched(m), first) == (w1, Finished(m));
        ok := Commit(m, calls(1));
        tail := [Answer(calls(1), q)] + [];
        NextCall(w1, Finished(m), Answer(calls(1), q), []);
      } else {
        assert CallConsumer(w, Fetched(m), first) == (w1, Claimed(m, payload.value));
        ok, tail := Apply(m, payload.value, calls, q, rest);
      }
      trace := [first] + tail;
      NextCall(w, Fetched(m), first, tail);
    }

    /** The calls after a claimed event: status write, status event, offset. */
    method Apply(m: Msg, result: ResultPayload, calls: nat -> CallResult, q: nat, ghost rest: World) returns (ok: bool, ghost trace: seq<Outcome>)
      requires repository.Valid()
      modifies this, repository`orders
      ensures repository.Valid()
      ensures var r := MakeCalls(old(World(rest)), Claimed(m, result), trace); r.0 == World(rest) && EndsAs(r.1, ok, calls)
      ensures !ok ==> !AllWork(calls) || result.order !in old(repository.Orders()) || q >= |old(log)|
      ensures repository.processed == old(repository.processed)
      ensures ok ==> offsets == CommitTo(old(offsets), m)
      ensures ok && m.event.kind == InventoryReservationFailed ==> Answered(result, CANCELLED, OrderCancelled, q)
      ensures ok && m.event.kind != InventoryReservationFailed ==> Answered(result, CONFIRMED, OrderConfirmed, q)
    {
      ghost var w := World(rest);
      var status := if m.event.kind == InventoryReservationFailed then CANCELLED else CONFIRMED;
      var err := repository.UpdateStatus(result.order, status, calls(1));
      ghost var w1, first, tail := World(rest), Answer(calls(1), q), [];
      if err.Some? {
        NextCall(w, Claimed(m, result), first, []);
        return false, [first] + [];
      }
      assert CallConsumer(w, Claimed(m, result), first) == (w1, Written(m, result));
      ok, tail := Announce(m, result, if status == CANCELLED then OrderCancelled else OrderConfirmed, calls, q, rest);
      trace := [first] + tail;
      NextCall(w, Claimed(m, result), first, tail);
    }

    /** publishStatusEvent and the commit. */
    method Announce(m: Msg, result: ResultPayload, kind: EventType, calls: nat -> CallResult, q: nat, ghost rest: World)
      returns (ok: bool, ghost trace: seq<Outcome>)
      requires kind == StatusEvent(ResultStatus(m.event.kind))
      modifies this
      ensures var r := MakeCalls(old(World(rest)), Written(m, result), trace); r.0 == World(rest) && EndsAs(r.1, ok, calls)
      ensures !ok ==> !AllWork(calls) || q >= |old(log)|
      ensures ok ==> offsets == CommitTo(old(offsets), m) && q < |old(log)| && nextId == old(nextId) + 1
                     && log == Append(old(log), q, Event(old(nextId), kind, EncodeResult(result.order, result.user, result.reason)))
    {
      ghost var w := World(rest);
      ok := Publish(kind, EncodeResult(result.order, result.user, result.reason), q, calls(2));
      ghost var w1, first := World(rest), Answer(calls(2), q);
      if !ok {
        NextCall(w, Written(m, result), first, []);
        return false, [first] + [];
      }
      assert CallConsumer(w, Written(m, result), first) == (w1, Finished(m));
      ok := Commit(m, calls(3));
      trace := [first] + ([Answer(calls(3), q)] + []);
      NextCall(w, Written(m, result), first, [Answer(calls(3), q)] + []);
      NextCall(w1, Finished(m), Answer(calls(3), q), []);
    }

    /** The loop over whatever Fetch returns before it fails; it ends at the first error.  The world it
        leaves is that of handling the messages one after another, each to the end but the last. */
    method ConsumeInventoryEvents(input: seq<Msg>, calls: (nat, nat) -> CallResult, q: nat, ghost rest: World)
      returns (ok: bool, ghost traces: seq<seq<Outcome>>)
      requires repository.Valid()
      modifies this, repository
      ensures repository.Valid()
      ensures |traces| <= |input| && World(rest) == HandleAll(old(World(rest)), input, traces)
      ensures ok ==> |traces| == |input| && HandledToTheEnd(old(World(rest)), input, traces, |input|)
      ensures !ok ==> |traces| > 0 && HandledToTheEnd(old(World(rest)), input, traces, |traces| - 1)
    {
      ghost var start := World(rest);
      traces := [];
      var i := 0;
      while i < |input|
        invariant 0 <= i <= |input| && |traces| == i && repository.Valid()
        invariant World(rest) == HandleAll(start, input, traces) && HandledToTheEnd(start, input, traces, i)
      {
        ghost var trace;
        ok, trace := Handle(input[i], (n: nat) => calls(i, n), q, rest);
        OneMoreMessage(start, input, traces, trace);
        traces := traces + [trace];
        if !ok { return; }
        i := i + 1;
      }
      ok := true;
    }
  }
}
