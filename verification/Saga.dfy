/**
 The order saga: any number of inventory workers and order-status consumers, admins and shoppers,
 interleaved call by call over the shared `World`, with crashes between any two calls, redeliveries,
 partition hand-over (also while the previous owner still works) and lost messages of dying requests.

 A schedule is any sequence of actions; an action that cannot be taken leaves the state as it is.
 */
module Saga {
  import opened Basics
  import opened Inventory
  import opened Events
  import opened Delivery
  import opened Services

  /** One worker of ConsumeOrders: its fetch positions, the messages between fetcher and processor, and
      the handler of the message it is working on. */
  datatype Worker = Worker(positions: map<nat, nat>, queue: seq<Msg>, pc: WorkerPc)

  datatype Consumer = Consumer(positions: map<nat, nat>, pc: ConsumerPc)

  /** A status write caused by an inventory event. */
  datatype Effect = Effect(event: EventId, order: OrderId, status: Status)

  /** A status event published because of an inventory event. */
  datatype Notice = Notice(event: EventId, published: Event)

  /** `requests` are API calls that have written the order and not yet published their event.  The last
      three fields record history for the theorems: the message behind each InventoryReserved event, and
      the consumer's status writes and status events. */
  datatype State = State(
    w: World, workers: map<nat, Worker>, consumers: map<nat, Consumer>, requests: map<nat, Event>,
    origins: map<EventId, Slot>, writes: seq<Effect>, notices: seq<Notice>)

  datatype Action =
    | Place(r: nat, order: OrderId, user: UserId, items: seq<OrderItem>)
    | Admin(r: nat, order: OrderId, status: Status)
    | Send(r: nat, partition: nat)
    | Drop(r: nat)
    | Stock(product: ProductId, quantity: int)
    | Assign(i: nat, partition: nat)
    | Revoke(i: nat, partition: nat)
    | Fetch(i: nat, partition: nat)
    | Work(i: nat, call: Outcome)
    | Crash(i: nat)
    | AssignC(i: nat, partition: nat)
    | RevokeC(i: nat, partition: nat)
    | FetchC(i: nat, partition: nat)
    | WorkC(i: nat, call: Outcome)
    | CrashC(i: nat)

  function Empty(partitions: nat): Log {
    seq(partitions, _ => [])
  }

  function Zeros(partitions: nat): seq<nat> {
    seq(partitions, _ => 0)
  }

  /** Both topics start empty, with any number of partitions each. */
  function Init(m: nat, n: nat): State {
    State(World(map[], {}, EMPTY, {}, Empty(m), Zeros(m), Empty(n), Zeros(n), 0), map[], map[], map[], map[], [], [])
  }

  predicate ValidLines(items: seq<OrderItem>) {
    |items| > 0 && forall i | 0 <= i < |items| :: items[i].product > 0 && items[i].quantity > 0
  }

  function WorkerAt(s: State, i: nat): Worker {
    if i in s.workers then s.workers[i] else Worker(map[], [], Idle)
  }

  function ConsumerAt(s: State, i: nat): Consumer {
    if i in s.consumers then s.consumers[i] else Consumer(map[], Waiting)
  }

  /** Order service Create, up to the commit of its transaction. */
  function PlaceStep(s: State, r: nat, o: OrderId, u: UserId, items: seq<OrderItem>): State {
    if o in s.w.orders || r in s.requests || !ValidLines(items) then s
    else s.(w := s.w.(orders := s.w.orders[o := Order(u, CREATED, items)], nextId := s.w.nextId + 1),
            requests := s.requests[r := Event(s.w.nextId, OrderCreated, EncodeCreated(o, u, items))])
  }

  /** Order service UpdateStatus, up to the status write. */
  function AdminStep(s: State, r: nat, o: OrderId, status: Status): State {
    if o !in s.w.orders || r in s.requests then s
    else s.(w := s.w.(orders := SetStatus(s.w.orders, o, status), nextId := s.w.nextId + 1),
            requests := s.requests[r := Event(s.w.nextId, StatusEvent(status), EncodeResult(o, s.w.orders[o].user, ""))])
  }

  function SendStep(s: State, r: nat, p: nat): State {
    if r !in s.requests || p >= |s.w.orderLog| then s
    else s.(w := s.w.(orderLog := Append(s.w.orderLog, p, s.requests[r])), requests := s.requests - {r})
  }

  function StockStep(s: State, p: ProductId, q: int): State {
    var r := Restock(s.w.tables, p, q);
    if r.Failure? then s else s.(w := s.w.(tables := r.value))
  }

  function AssignStep(s: State, i: nat, p: nat): State {
    if p >= |s.w.orderOffsets| then s
    else
      var k := WorkerAt(s, i);
      s.(workers := s.workers[i := k.(positions := k.positions[p := s.w.orderOffsets[p]])])
  }

  function FetchStep(s: State, i: nat, p: nat): State {
    var k := WorkerAt(s, i);
    if p in k.positions && p < |s.w.orderLog| && k.positions[p] < |s.w.orderLog[p]| then
      var m := Msg(p, k.positions[p], s.w.orderLog[p][k.positions[p]]);
      s.(workers := s.workers[i := Worker(k.positions[p := k.positions[p] + 1], k.queue + [m], k.pc)])
    else s
  }

  /** The next call of a worker; an idle worker takes the head of its queue, a stopped one is gone. */
  function WorkStep(s: State, i: nat, call: Outcome): State {
    if i !in s.workers then s
    else
      var k := s.workers[i];
      if k.pc.Idle? then
        if k.queue == [] then s
        else s.(workers := s.workers[i := k.(queue := k.queue[1..], pc := Received(k.queue[0]))])
      else
        var (w', pc') := CallWorker(s.w, k.pc, call);
        s.(w := w',
           workers := if pc'.Stopped? then s.workers - {i} else s.workers[i := k.(pc := pc')],
           origins := if k.pc.Acknowledged? && pc'.Idle? then s.origins[s.w.nextId := Slot(k.pc.m.partition, k.pc.m.offset)]
                      else s.origins)
  }

  function AssignCStep(s: State, i: nat, p: nat): State {
    if p >= |s.w.inventoryOffsets| then s
    else
      var c := ConsumerAt(s, i);
      s.(consumers := s.consumers[i := c.(positions := c.positions[p := s.w.inventoryOffsets[p]])])
  }

  function FetchCStep(s: State, i: nat, p: nat): State {
    var c := ConsumerAt(s, i);
    if c.pc.Waiting? && p in c.positions && p < |s.w.inventoryLog| && c.positions[p] < |s.w.inventoryLog[p]| then
      var m := Msg(p, c.positions[p], s.w.inventoryLog[p][c.positions[p]]);
      s.(consumers := s.consumers[i := Consumer(c.positions[p := c.positions[p] + 1], Fetched(m))])
    else s
  }

  function WorkCStep(s: State, i: nat, call: Outcome): State {
    if i !in s.consumers then s
    else
      var c := s.consumers[i];
      var (w', pc') := CallConsumer(s.w, c.pc, call);
      s.(w := w',
         consumers := if pc'.Halted? then s.consumers - {i} else s.consumers[i := c.(pc := pc')],
         writes := if pc'.Written? && c.pc.Claimed? then s.writes + [EffectOf(c.pc)] else s.writes,
         notices := if pc'.Finished? && c.pc.Written? then s.notices + [NoticeOf(s.w, c.pc)] else s.notices)
  }

  function EffectOf(pc: ConsumerPc): Effect
    requires pc.Claimed? || pc.Written?
  {
    Effect(pc.m.event.id, pc.result.order, ResultStatus(pc.m.event.kind))
  }

  function NoticeOf(w: World, pc: ConsumerPc): Notice
    requires pc.Written?
  {
    Notice(pc.m.event.id, StatusNotice(w, pc.m, pc.result))
  }

  function Step(s: State, a: Action): State {
    match a
    case Place(r, o, u, items) => PlaceStep(s, r, o, u, items)
    case Admin(r, o, status) => AdminStep(s, r, o, status)
    case Send(r, p) => SendStep(s, r, p)
    case Drop(r) => s.(requests := s.requests - {r})
    case Stock(p, q) => StockStep(s, p, q)
    case Assign(i, p) => AssignStep(s, i, p)
    case Revoke(i, p) => if i in s.workers then s.(workers := s.workers[i := s.workers[i].(positions := s.workers[i].positions - {p})]) else s
    case Fetch(i, p) => FetchStep(s, i, p)
    case Work(i, call) => WorkStep(s, i, call)
    case Crash(i) => s.(workers := s.workers - {i})
    case AssignC(i, p) => AssignCStep(s, i, p)
    case RevokeC(i, p) => if i in s.consumers then s.(consumers := s.consumers[i := s.consumers[i].(positions := s.consumers[i].positions - {p})]) else s
    case FetchC(i, p) => FetchCStep(s, i, p)
    case WorkC(i, call) => WorkCStep(s, i, call)
    case CrashC(i) => s.(consumers := s.consumers - {i})
  }

  function Run(m: nat, n: nat, schedule: seq<Action>): State {
    if schedule == [] then Init(m, n)
    else Step(Run(m, n, schedule[..|schedule| - 1]), schedule[|schedule| - 1])
  }

  lemma WorkEvolves(s: State, i: nat, call: Outcome)
    ensures Evolves(s.w, WorkStep(s, i, call).w)
  {
    if i in s.workers {
      CallWorkerEvolves(s.w, s.workers[i].pc, call);
    }
  }

  lemma WorkCEvolves(s: State, i: nat, call: Outcome)
    ensures Evolves(s.w, WorkCStep(s, i, call).w)
  {
    if i in s.consumers {
      CallConsumerEvolves(s.w, s.consumers[i].pc, call);
    }
  }

  lemma PlaceEvolves(s: State, r: nat, o: OrderId, u: UserId, items: seq<OrderItem>)
    ensures Evolves(s.w, PlaceStep(s, r, o, u, items).w)
  {
  }

  lemma AdminEvolves(s: State, r: nat, o: OrderId, status: Status)
    ensures Evolves(s.w, AdminStep(s, r, o, status).w)
  {
  }

  lemma SendEvolves(s: State, r: nat, p: nat)
    ensures Evolves(s.w, SendStep(s, r, p).w)
  {
  }

  lemma StockEvolves(s: State, p: ProductId, q: int)
    ensures Evolves(s.w, StockStep(s, p, q).w)
  {
  }

  /** Every step only appends to logs, reservations and processed ids. */
  lemma StepEvolves(s: State, a: Action)
    ensures Evolves(s.w, Step(s, a).w)
  {
    match a
    case Work(i, call) => WorkEvolves(s, i, call);
    case WorkC(i, call) => WorkCEvolves(s, i, call);
    case Place(r, o, u, items) => PlaceEvolves(s, r, o, u, items);
    case Admin(r, o, status) => AdminEvolves(s, r, o, status);
    case Send(r, p) => SendEvolves(s, r, p);
    case Stock(p, q) => StockEvolves(s, p, q);
    case _ => QuietStep(s, a);
  }

  /** Hand-over, fetches, crashes and dropped requests leave the world as it is. */
  lemma QuietStep(s: State, a: Action)
    requires !a.Work? && !a.WorkC? && !a.Place? && !a.Admin? && !a.Send? && !a.Stock?
    ensures Step(s, a).w == s.w && Evolves(s.w, s.w)
  {
  }
}
