/**
 The order and inventory services call by call.

 A `World` is everything that survives a crash: both databases, both topics with the committed
 offsets of their consumer group.  `CallWorker` and `CallConsumer` make the next call of the message
 handlers; a crash between two calls is a handler that is never resumed.  The classes `InventoryService.Service`
 and `OrderService.Service` are proved to make exactly these calls, and the saga interleaves them.
 */
module Services {
  import opened Basics
  import opened Inventory
  import opened Events

  datatype Status = CREATED | CONFIRMED | PROCESSING | SHIPPED | DELIVERED | CANCELLED

  datatype Order = Order(user: UserId, status: Status, items: seq<OrderItem>)

  type Log = seq<seq<Event>>

  datatype World = World(
    orders: map<OrderId, Order>, orderSeen: set<EventId>,
    tables: Tables, inventorySeen: set<EventId>,
    orderLog: Log, orderOffsets: seq<nat>,
    inventoryLog: Log, inventoryOffsets: seq<nat>,
    nextId: EventId)

  /** A fetched message. */
  datatype Msg = Msg(partition: nat, offset: nat, event: Event)

  /** How a call ends.  `Done` carries the partition a publish lands in; a lost acknowledgement is a
      commit of ReserveOrder that took effect although the caller sees an error. */
  datatype Outcome = Done(partition: nat) | Failed | LostAck

  /** The outcome of a call that takes effect or does not; `q` is where a publish lands.  When only the answer
      is lost the caller stops, which the saga has as the call and a crash. */
  function Answer(call: CallResult, q: nat): Outcome {
    if call.Fails? then Failed else Done(q)
  }

  function StatusEvent(status: Status): EventType {
    match status
    case CREATED => OrderCreated
    case CONFIRMED => OrderConfirmed
    case PROCESSING => OrderProcessing
    case SHIPPED => OrderShipped
    case DELIVERED => OrderDelivered
    case CANCELLED => OrderCancelled
  }

  function ErrorText(e: Error): string {
    match e
    case NotFound => "inventory not found"
    case InsufficientStock => "insufficient stock"
    case _ => "database error"
  }

  function Append(log: Log, p: nat, e: Event): Log
    requires p < |log|
  {
    log[p := log[p] + [e]]
  }

  function CommitTo(offsets: seq<nat>, m: Msg): seq<nat> {
    if m.partition < |offsets| then offsets[m.partition := m.offset + 1] else offsets
  }

  /******* Inventory service: processOrderEvent *******/

  datatype WorkerPc =
    | Idle
    | Received(m: Msg)
    | Refused(m: Msg, order: OrderPayload, reason: string)
    | Reported(m: Msg, order: OrderPayload)
    | Reserved(m: Msg, order: OrderPayload)
    | Marked(m: Msg, order: OrderPayload)
    | Acknowledged(m: Msg, order: OrderPayload)
    | Stopped

  function CallWorker(w: World, pc: WorkerPc, call: Outcome): (World, WorkerPc) {
    match pc
    case Idle => (w, pc)
    case Stopped => (w, pc)
    case Received(m) =>
      if m.event.kind != OrderCreated then CommitOffset(w, m, Idle, call)
      else if DecodeOrder(m.event.payload).None? then (w, Stopped)
      else ReserveCall(w, m, DecodeOrder(m.event.payload).value, call)
    case Refused(m, order, reason) =>
      PublishResult(w, InventoryReservationFailed, order, reason, Reported(m, order), call)
    case Reported(m, _) => CommitOffset(w, m, Idle, call)
    case Reserved(m, order) =>
      if call.Done? then (w.(inventorySeen := w.inventorySeen + {m.event.id}), Marked(m, order)) else (w, Stopped)
    case Marked(m, order) => CommitOffset(w, m, Acknowledged(m, order), call)
    case Acknowledged(_, order) => PublishResult(w, InventoryReserved, order, "", Idle, call)
  }

  function CommitOffset(w: World, m: Msg, next: WorkerPc, call: Outcome): (World, WorkerPc) {
    if call.Done? then (w.(orderOffsets := CommitTo(w.orderOffsets, m)), next) else (w, Stopped)
  }

  /** The whole reservation transaction, atomic by `Interleaving.Serializability`; any error refuses. */
  function ReserveCall(w: World, m: Msg, order: OrderPayload, call: Outcome): (World, WorkerPc) {
    var r := ReserveItems(w.tables, order.order, order.items);
    if call.Failed? then (w, Refused(m, order, ErrorText(Fault)))
    else if r.Failure? then (w, Refused(m, order, ErrorText(r.error)))
    else if call.LostAck? then (w.(tables := r.value), Refused(m, order, ErrorText(Fault)))
    else (w.(tables := r.value), Reserved(m, order))
  }

  function ResultEvent(w: World, kind: EventType, order: OrderPayload, reason: string): Event {
    Event(w.nextId, kind, EncodeResult(order.order, order.user, reason))
  }

  function PublishResult(w: World, kind: EventType, order: OrderPayload, reason: string, next: WorkerPc, call: Outcome): (World, WorkerPc) {
    if call.Done? && call.partition < |w.inventoryLog| then
      (w.(inventoryLog := Append(w.inventoryLog, call.partition, ResultEvent(w, kind, order, reason)), nextId := w.nextId + 1), next)
    else (w, Stopped)
  }

  /******* Order service: ConsumeInventoryEvents *******/

  datatype ConsumerPc =
    | Waiting
    | Fetched(m: Msg)
    | Claimed(m: Msg, result: ResultPayload)
    | Written(m: Msg, result: ResultPayload)
    | Finished(m: Msg)
    | Halted

  predicate IsResult(kind: EventType) {
    kind == InventoryReserved || kind == InventoryReservationFailed
  }

  function ResultStatus(kind: EventType): Status {
    if kind == InventoryReservationFailed then CANCELLED else CONFIRMED
  }

  function CallConsumer(w: World, pc: ConsumerPc, call: Outcome): (World, ConsumerPc) {
    match pc
    case Waiting => (w, pc)
    case Halted => (w, pc)
    case Fetched(m) =>
      if !IsResult(m.event.kind) then CommitResult(w, m, call)
      else if DecodeResult(m.event.payload).None? then (w, Halted)
      else ClaimEvent(w, m, DecodeResult(m.event.payload).value, call)
    case Claimed(m, result) =>
      if call.Done? && result.order in w.orders then
        (w.(orders := SetStatus(w.orders, result.order, ResultStatus(m.event.kind))), Written(m, result))
      else (w, Halted)
    case Written(m, result) =>
      if call.Done? && call.partition < |w.orderLog| then
        (w.(orderLog := Append(w.orderLog, call.partition, StatusNotice(w, m, result)), nextId := w.nextId + 1), Finished(m))
      else (w, Halted)
    case Finished(m) => CommitResult(w, m, call)
  }

  function CommitResult(w: World, m: Msg, call: Outcome): (World, ConsumerPc) {
    if call.Done? then (w.(inventoryOffsets := CommitTo(w.inventoryOffsets, m)), Waiting) else (w, Halted)
  }

  /** MarkEventProcessed: only the call that inserts the id goes on to the status write. */
  function ClaimEvent(w: World, m: Msg, result: ResultPayload, call: Outcome): (World, ConsumerPc) {
    if !call.Done? then (w, Halted)
    else if m.event.id in w.orderSeen then (w, Finished(m))
    else (w.(orderSeen := w.orderSeen + {m.event.id}), Claimed(m, result))
  }

  function SetStatus(orders: map<OrderId, Order>, o: OrderId, status: Status): map<OrderId, Order>
    requires o in orders
  {
    orders[o := orders[o].(status := status)]
  }

  function StatusNotice(w: World, m: Msg, result: ResultPayload): Event {
    Event(w.nextId, StatusEvent(ResultStatus(m.event.kind)), EncodeResult(result.order, result.user, result.reason))
  }

  /******* What never changes back *******/

  ghost predicate LogGrows(log: Log, log': Log) {
    && |log| == |log'|
    && (forall p | 0 <= p < |log| :: log[p] <= log'[p])
  }

  ghost predicate OrdersKept(orders: map<OrderId, Order>, orders': map<OrderId, Order>) {
    forall o | o in orders :: o in orders' && orders'[o].items == orders[o].items && orders'[o].user == orders[o].user
  }

  /** Logs are append-only, reservations and processed ids are never deleted, and an order keeps its
      user and lines. */
  ghost predicate Evolves(w: World, w': World) {
    && LogGrows(w.orderLog, w'.orderLog)
    && LogGrows(w.inventoryLog, w'.inventoryLog)
    && OrdersKept(w.orders, w'.orders)
    && Grows(w.tables, w'.tables)
    && w.orderSeen <= w'.orderSeen
    && w.nextId <= w'.nextId
    && |w'.orderOffsets| == |w.orderOffsets| && |w'.inventoryOffsets| == |w.inventoryOffsets|
  }

  lemma CallWorkerEvolves(w: World, pc: WorkerPc, call: Outcome)
    ensures Evolves(w, CallWorker(w, pc, call).0)
  {
    if pc.Received? && DecodeOrder(pc.m.event.payload).Some? {
      var order := DecodeOrder(pc.m.event.payload).value;
      if ReserveItems(w.tables, order.order, order.items).Success? {
        ReserveGrows(w.tables, order.order, order.items);
      }
    }
  }

  lemma CallConsumerEvolves(w: World, pc: ConsumerPc, call: Outcome)
    ensures Evolves(w, CallConsumer(w, pc, call).0)
  {
  }
}
