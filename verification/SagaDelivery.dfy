/**
 No message of either topic is skipped, in every run of the saga: whatever lies below a committed
 offset has been dealt with.  Partitions may be handed over at any time, even while the previous
 owner still holds fetched messages.
 */
module SagaDelivery {
  import opened Basics
  import opened Inventory
  import opened Events
  import opened Delivery
  import opened Services
  import opened Saga

  function SlotOf(m: Msg): Slot {
    Slot(m.partition, m.offset)
  }

  function Slots(queue: seq<Msg>): seq<Slot> {
    seq(|queue|, i requires 0 <= i < |queue| => SlotOf(queue[i]))
  }

  ghost predicate InLog(log: Log, x: Slot) {
    x.partition < |log| && x.offset < |log[x.partition]|
  }

  ghost predicate MsgOk(log: Log, m: Msg) {
    InLog(log, SlotOf(m)) && log[m.partition][m.offset] == m.event
  }

  ghost predicate IsFailureOf(e: Event, o: OrderId) {
    e.kind == InventoryReservationFailed && DecodeResult(e.payload).Some? && DecodeResult(e.payload).value.order == o
  }

  ghost predicate HasFailure(log: Log, o: OrderId) {
    exists x: Slot :: InLog(log, x) && IsFailureOf(log[x.partition][x.offset], o)
  }

  /** An event that needs nothing, or whose lines are all reserved, or whose order has been refused. */
  ghost predicate EventHandled(w: World, e: Event) {
    || e.kind != OrderCreated
    || (DecodeOrder(e.payload).Some? &&
          var order := DecodeOrder(e.payload).value;
          AllHeld(w.tables, order.order, order.items) || HasFailure(w.inventoryLog, order.order))
  }

  ghost function HandledSlots(w: World): iset<Slot> {
    iset x: Slot | InLog(w.orderLog, x) && EventHandled(w, w.orderLog[x.partition][x.offset])
  }

  /** A result event whose id is in the order database's `processed_events`. */
  ghost predicate EventSeen(w: World, e: Event) {
    IsResult(e.kind) ==> e.id in w.orderSeen
  }

  ghost function SeenSlots(w: World): iset<Slot> {
    iset x: Slot | InLog(w.inventoryLog, x) && EventSeen(w, w.inventoryLog[x.partition][x.offset])
  }

  /******* Workers *******/

  /** The message a handler works on and has not committed yet. */
  function Current(pc: WorkerPc): seq<Msg> {
    if pc.Received? || pc.Refused? || pc.Reported? || pc.Reserved? || pc.Marked? then [pc.m] else []
  }

  function WorkerPipe(k: Worker): Pipe {
    Pipe(k.positions, Slots(Current(k.pc) + k.queue))
  }

  ghost predicate PcOk(w: World, pc: WorkerPc) {
    && (pc.Refused? || pc.Reported? || pc.Reserved? || pc.Marked? || pc.Acknowledged? ==>
          MsgOk(w.orderLog, pc.m) && pc.m.event.kind == OrderCreated && DecodeOrder(pc.m.event.payload) == Some(pc.order))
    && (pc.Reported? ==> HasFailure(w.inventoryLog, pc.order.order))
    && (pc.Reserved? || pc.Marked? || pc.Acknowledged? ==> AllHeld(w.tables, pc.order.order, pc.order.items))
  }

  ghost predicate WorkerOk(w: World, k: Worker) {
    && PcOk(w, k.pc)
    && (forall j | 0 <= j < |Current(k.pc) + k.queue| :: MsgOk(w.orderLog, (Current(k.pc) + k.queue)[j]))
    && PipeOk(HandledSlots(w), WorkerPipe(k))
  }

  /******* Consumers *******/

  function CurrentC(pc: ConsumerPc): seq<Msg> {
    if pc.Fetched? || pc.Claimed? || pc.Written? || pc.Finished? then [pc.m] else []
  }

  function ConsumerPipe(c: Consumer): Pipe {
    Pipe(c.positions, Slots(CurrentC(c.pc)))
  }

  ghost predicate PcCOk(w: World, pc: ConsumerPc) {
    && (CurrentC(pc) != [] ==> MsgOk(w.inventoryLog, CurrentC(pc)[0]))
    && (pc.Claimed? || pc.Written? || pc.Finished? ==> EventSeen(w, pc.m.event))
    && (pc.Claimed? || pc.Written? ==>
          IsResult(pc.m.event.kind) && DecodeResult(pc.m.event.payload) == Some(pc.result))
  }

  ghost predicate ConsumerOk(w: World, c: Consumer) {
    PcCOk(w, c.pc) && PipeOk(SeenSlots(w), ConsumerPipe(c))
  }

  ghost predicate CommittedOk(w: World) {
    && |w.orderLog| == |w.orderOffsets| && |w.inventoryLog| == |w.inventoryOffsets|
    && OffsetsOk(HandledSlots(w), w.orderOffsets)
    && OffsetsOk(SeenSlots(w), w.inventoryOffsets)
  }

  ghost predicate WorkersOk(w: World, workers: map<nat, Worker>) {
    forall i | i in workers :: WorkerOk(w, workers[i])
  }

  ghost predicate ConsumersOk(w: World, consumers: map<nat, Consumer>) {
    forall i | i in consumers :: ConsumerOk(w, consumers[i])
  }

  ghost predicate Inv(s: State) {
    CommittedOk(s.w) && WorkersOk(s.w, s.workers) && ConsumersOk(s.w, s.consumers)
  }

  /******* Stability *******/

  lemma MsgStays(log: Log, log': Log, m: Msg)
    requires LogGrows(log, log') && MsgOk(log, m)
    ensures MsgOk(log', m)
  {
    assert log[m.partition] <= log'[m.partition];
  }

  lemma SlotStays(log: Log, log': Log, x: Slot)
    requires LogGrows(log, log') && InLog(log, x)
    ensures InLog(log', x) && log'[x.partition][x.offset] == log[x.partition][x.offset]
  {
    assert log[x.partition] <= log'[x.partition];
  }

  lemma FailureStays(log: Log, log': Log, o: OrderId)
    requires LogGrows(log, log') && HasFailure(log, o)
    ensures HasFailure(log', o)
  {
    var x: Slot :| InLog(log, x) && IsFailureOf(log[x.partition][x.offset], o);
    SlotStays(log, log', x);
  }

  lemma HandledStays(w: World, w': World)
    requires Evolves(w, w')
    ensures HandledSlots(w) <= HandledSlots(w')
  {
    forall x | x in HandledSlots(w) ensures x in HandledSlots(w') {
      SlotStays(w.orderLog, w'.orderLog, x);
      var e := w.orderLog[x.partition][x.offset];
      if e.kind == OrderCreated && HasFailure(w.inventoryLog, DecodeOrder(e.payload).value.order) {
        FailureStays(w.inventoryLog, w'.inventoryLog, DecodeOrder(e.payload).value.order);
      }
    }
  }

  lemma SeenStays(w: World, w': World)
    requires Evolves(w, w')
    ensures SeenSlots(w) <= SeenSlots(w')
  {
    forall x | x in SeenSlots(w) ensures x in SeenSlots(w') {
      SlotStays(w.inventoryLog, w'.inventoryLog, x);
    }
  }

  lemma PcStays(w: World, w': World, pc: WorkerPc)
    requires Evolves(w, w') && PcOk(w, pc)
    ensures PcOk(w', pc)
  {
    if pc.Refused? || pc.Reported? || pc.Reserved? || pc.Marked? || pc.Acknowledged? {
      MsgStays(w.orderLog, w'.orderLog, pc.m);
    }
    if pc.Reported? {
      FailureStays(w.inventoryLog, w'.inventoryLog, pc.order.order);
    }
  }

  lemma WorkerStays(w: World, w': World, k: Worker)
    requires Evolves(w, w') && WorkerOk(w, k)
    ensures WorkerOk(w', k)
  {
    PcStays(w, w', k.pc);
    HandledStays(w, w');
    MoreDone(HandledSlots(w), HandledSlots(w'), WorkerPipe(k));
    forall j | 0 <= j < |Current(k.pc) + k.queue| ensures MsgOk(w'.orderLog, (Current(k.pc) + k.queue)[j]) {
      MsgStays(w.orderLog, w'.orderLog, (Current(k.pc) + k.queue)[j]);
    }
  }

  lemma ConsumerStays(w: World, w': World, c: Consumer)
    requires Evolves(w, w') && ConsumerOk(w, c)
    ensures ConsumerOk(w', c)
  {
    SeenStays(w, w');
    MoreDone(SeenSlots(w), SeenSlots(w'), ConsumerPipe(c));
    if CurrentC(c.pc) != [] {
      MsgStays(w.inventoryLog, w'.inventoryLog, CurrentC(c.pc)[0]);
    }
  }

  lemma CommittedStays(w: World, w': World)
    requires CommittedOk(w) && Evolves(w, w')
    requires w'.orderOffsets == w.orderOffsets || OffsetsOk(HandledSlots(w'), w'.orderOffsets)
    requires w'.inventoryOffsets == w.inventoryOffsets || OffsetsOk(SeenSlots(w'), w'.inventoryOffsets)
    ensures CommittedOk(w')
  {
    HandledStays(w, w');
    SeenStays(w, w');
  }

  /** At most worker `i` changed. */
  lemma WorkersStay(w: World, w': World, workers: map<nat, Worker>, workers': map<nat, Worker>, i: nat)
    requires WorkersOk(w, workers) && Evolves(w, w')
    requires forall x | x in workers' && x != i :: x in workers && workers'[x] == workers[x]
    requires i in workers' ==> WorkerOk(w', workers'[i])
    ensures WorkersOk(w', workers')
  {
    forall x | x in workers' ensures WorkerOk(w', workers'[x]) {
      if x != i { WorkerStays(w, w', workers'[x]); }
    }
  }

  lemma AllWorkersStay(w: World, w': World, workers: map<nat, Worker>)
    requires WorkersOk(w, workers) && Evolves(w, w')
    ensures WorkersOk(w', workers)
  {
    forall x | x in workers ensures WorkerOk(w', workers[x]) {
      WorkerStays(w, w', workers[x]);
    }
  }

  /** At most consumer `i` changed. */
  lemma ConsumersStay(w: World, w': World, consumers: map<nat, Consumer>, consumers': map<nat, Consumer>, i: nat)
    requires ConsumersOk(w, consumers) && Evolves(w, w')
    requires forall x | x in consumers' && x != i :: x in consumers && consumers'[x] == consumers[x]
    requires i in consumers' ==> ConsumerOk(w', consumers'[i])
    ensures ConsumersOk(w', consumers')
  {
    forall x | x in consumers' ensures ConsumerOk(w', consumers'[x]) {
      if x != i { ConsumerStays(w, w', consumers'[x]); }
    }
  }

  lemma AllConsumersStay(w: World, w': World, consumers: map<nat, Consumer>)
    requires ConsumersOk(w, consumers) && Evolves(w, w')
    ensures ConsumersOk(w', consumers)
  {
    forall x | x in consumers ensures ConsumerOk(w', consumers[x]) {
      ConsumerStays(w, w', consumers[x]);
    }
  }

  lemma SameWorld(w: World)
    ensures Evolves(w, w)
  {
  }

  /******* Worker steps *******/

  lemma AssignWorker(s: State, i: nat, p: nat)
    requires Inv(s) && p < |s.w.orderOffsets|
    ensures Inv(AssignStep(s, i, p))
  {
    var k := WorkerAt(s, i);
    var k' := k.(positions := k.positions[p := s.w.orderOffsets[p]]);
    assert WorkerOk(s.w, k);
    AssignKeeps(HandledSlots(s.w), WorkerPipe(k), p, s.w.orderOffsets[p]);
    assert WorkerPipe(k') == WorkerPipe(k).(positions := WorkerPipe(k).positions[p := s.w.orderOffsets[p]]);
    SameWorld(s.w);
    WorkersStay(s.w, s.w, s.workers, s.workers[i := k'], i);
  }

  lemma FetchWorker(s: State, i: nat, p: nat)
    requires Inv(s)
    ensures Inv(FetchStep(s, i, p))
  {
    var k, s' := WorkerAt(s, i), FetchStep(s, i, p);
    if s' != s {
      var k' := s'.workers[i];
      FetchKeeps(HandledSlots(s.w), WorkerPipe(k), p);
      var held, held' := Current(k.pc) + k.queue, Current(k'.pc) + k'.queue;
      assert held' == held + [k'.queue[|k.queue|]];
      assert Slots(held') == Slots(held) + [Slot(p, k.positions[p])];
      SameWorld(s.w);
      WorkersStay(s.w, s.w, s.workers, s.workers[i := k'], i);
    }
  }

  lemma TakeKeeps(w: World, k: Worker)
    requires WorkerOk(w, k) && k.pc.Idle? && k.queue != []
    ensures WorkerOk(w, k.(queue := k.queue[1..], pc := Received(k.queue[0])))
  {
    var k' := k.(queue := k.queue[1..], pc := Received(k.queue[0]));
    assert Current(k'.pc) + k'.queue == Current(k.pc) + k.queue;
  }

  /** A call that keeps the handler on the same message. */
  lemma SameMessage(w: World, w': World, k: Worker, k': Worker)
    requires WorkerOk(w, k) && Evolves(w, w') && k' == k.(pc := k'.pc)
    requires Current(k'.pc) == Current(k.pc) && PcOk(w', k'.pc)
    ensures WorkerOk(w', k')
  {
    WorkerStays(w, w', k);
  }

  /** Committing the offset of a message that has been dealt with. */
  lemma CommitOfWorker(w: World, k: Worker, next: WorkerPc)
    requires WorkerOk(w, k) && Current(k.pc) != [] && EventHandled(w, Current(k.pc)[0].event)
    requires OffsetsOk(HandledSlots(w), w.orderOffsets) && |w.orderOffsets| == |w.orderLog|
    requires Current(next) == [] && PcOk(w, next)
    ensures WorkerOk(w, k.(pc := next))
    ensures OffsetsOk(HandledSlots(w), CommitTo(w.orderOffsets, Current(k.pc)[0]))
  {
    var held, k' := Current(k.pc) + k.queue, k.(pc := next);
    var m := Current(k.pc)[0];
    assert held[0] == m;
    assert SlotOf(m) in HandledSlots(w);
    assert Slots(held)[0] == SlotOf(m);
    CommitKeeps(HandledSlots(w), WorkerPipe(k), w.orderOffsets);
    FinishKeeps(HandledSlots(w), WorkerPipe(k));
    assert Current(k'.pc) + k'.queue == held[1..];
    assert Slots(held)[1..] == Slots(held[1..]);
  }

  lemma ReserveOk(w: World, m: Msg, order: OrderPayload, call: Outcome)
    requires MsgOk(w.orderLog, m) && m.event.kind == OrderCreated && DecodeOrder(m.event.payload) == Some(order)
    ensures PcOk(ReserveCall(w, m, order, call).0, ReserveCall(w, m, order, call).1)
  {
    if ReserveItems(w.tables, order.order, order.items).Success? {
      ReserveGrows(w.tables, order.order, order.items);
    }
  }

  lemma ReportOk(w: World, m: Msg, order: OrderPayload, reason: string, call: Outcome)
    requires PcOk(w, Refused(m, order, reason))
    ensures PcOk(CallWorker(w, Refused(m, order, reason), call).0, CallWorker(w, Refused(m, order, reason), call).1)
  {
    var (w', pc') := CallWorker(w, Refused(m, order, reason), call);
    if pc'.Reported? {
      var e := ResultEvent(w, InventoryReservationFailed, order, reason);
      ResultRoundTrip(order.order, order.user, reason);
      var x := Slot(call.partition, |w.inventoryLog[call.partition]|);
      assert InLog(w'.inventoryLog, x) && w'.inventoryLog[x.partition][x.offset] == e;
    }
  }

  lemma TakeWorker(s: State, i: nat, call: Outcome)
    requires Inv(s) && i in s.workers && s.workers[i].pc.Idle? && s.workers[i].queue != []
    ensures Inv(WorkStep(s, i, call))
  {
    TakeKeeps(s.w, s.workers[i]);
    SameWorld(s.w);
    WorkersStay(s.w, s.w, s.workers, WorkStep(s, i, call).workers, i);
  }

  lemma WorkWorker(s: State, i: nat, call: Outcome)
    requires Inv(s) && i in s.workers && !s.workers[i].pc.Idle?
    ensures Inv(WorkStep(s, i, call))
  {
    var w', workers' := WorkStep(s, i, call).w, WorkStep(s, i, call).workers;
    WorkEvolves(s, i, call);
    CallKeeps(s.w, s.workers[i], call);
    CommittedStays(s.w, w');
    AllConsumersStay(s.w, w', s.consumers);
    WorkersStay(s.w, w', s.workers, workers', i);
  }

  /** The calls that deal with the message, before its offset is committed. */
  lemma HandleCall(w: World, pc: WorkerPc, call: Outcome)
    requires PcOk(w, pc) && (pc.Received? ==> MsgOk(w.orderLog, pc.m) && pc.m.event.kind == OrderCreated)
    requires pc.Received? || pc.Refused? || pc.Reserved?
    requires !CallWorker(w, pc, call).1.Stopped?
    ensures PcOk(CallWorker(w, pc, call).0, CallWorker(w, pc, call).1)
    ensures Current(CallWorker(w, pc, call).1) == Current(pc)
  {
    match pc
    case Received(m) => ReserveOk(w, m, DecodeOrder(m.event.payload).value, call);
    case Refused(m, order, reason) => ReportOk(w, m, order, reason, call);
    case Reserved(m, order) =>
      CallWorkerEvolves(w, pc, call);
      PcStays(w, CallWorker(w, pc, call).0, pc);
  }

  lemma CallKeeps(w: World, k: Worker, call: Outcome)
    requires WorkerOk(w, k) && !k.pc.Idle?
    requires OffsetsOk(HandledSlots(w), w.orderOffsets) && |w.orderOffsets| == |w.orderLog|
    ensures var (w', pc') := CallWorker(w, k.pc, call);
            && (!pc'.Stopped? ==> WorkerOk(w', k.(pc := pc')))
            && (w'.orderOffsets == w.orderOffsets || OffsetsOk(HandledSlots(w'), w'.orderOffsets))
            && w'.inventoryOffsets == w.inventoryOffsets
  {
    var (w', pc') := CallWorker(w, k.pc, call);
    if Current(k.pc) != [] {
      assert MsgOk(w.orderLog, (Current(k.pc) + k.queue)[0]);
    }
    if !pc'.Stopped? {
      CallWorkerEvolves(w, k.pc, call);
      if k.pc.Received? && k.pc.m.event.kind != OrderCreated {
        CommitCall(w, k, Idle, call);
      } else if k.pc.Received? || k.pc.Refused? || k.pc.Reserved? {
        HandleCall(w, k.pc, call);
        SameMessage(w, w', k, k.(pc := pc'));
      } else if k.pc.Reported? {
        CommitCall(w, k, Idle, call);
      } else if k.pc.Marked? {
        CommitCall(w, k, Acknowledged(k.pc.m, k.pc.order), call);
      } else if k.pc.Acknowledged? {
        SameMessage(w, w', k, k.(pc := pc'));
      }
    }
  }

  lemma CommitCall(w: World, k: Worker, next: WorkerPc, call: Outcome)
    requires WorkerOk(w, k) && Current(k.pc) != [] && EventHandled(w, Current(k.pc)[0].event) && call.Done?
    requires OffsetsOk(HandledSlots(w), w.orderOffsets) && |w.orderOffsets| == |w.orderLog|
    requires Current(next) == [] && PcOk(w, next)
    ensures var w' := CommitOffset(w, Current(k.pc)[0], next, call).0;
            WorkerOk(w', k.(pc := next)) && OffsetsOk(HandledSlots(w'), w'.orderOffsets)
  {
    CommitOfWorker(w, k, next);
    var w' := CommitOffset(w, Current(k.pc)[0], next, call).0;
    assert Evolves(w, w');
    WorkerStays(w, w', k.(pc := next));
    HandledStays(w, w');
  }

  /******* Consumer steps *******/

  lemma AssignConsumer(s: State, i: nat, p: nat)
    requires Inv(s) && p < |s.w.inventoryOffsets|
    ensures Inv(AssignCStep(s, i, p))
  {
    var c := ConsumerAt(s, i);
    assert ConsumerOk(s.w, c);
    AssignKeeps(SeenSlots(s.w), ConsumerPipe(c), p, s.w.inventoryOffsets[p]);
    SameWorld(s.w);
    ConsumersStay(s.w, s.w, s.consumers, AssignCStep(s, i, p).consumers, i);
  }

  lemma FetchConsumer(s: State, i: nat, p: nat)
    requires Inv(s)
    ensures Inv(FetchCStep(s, i, p))
  {
    var c, s' := ConsumerAt(s, i), FetchCStep(s, i, p);
    if s' != s {
      FetchKeeps(SeenSlots(s.w), ConsumerPipe(c), p);
      assert Slots(CurrentC(c.pc)) == [];
      assert ConsumerPipe(s'.consumers[i]).pending == [] + [Slot(p, c.positions[p])];
      SameWorld(s.w);
      ConsumersStay(s.w, s.w, s.consumers, s'.consumers, i);
    }
  }

  lemma CommitOfConsumer(w: World, c: Consumer, call: Outcome)
    requires ConsumerOk(w, c) && CurrentC(c.pc) != [] && EventSeen(w, CurrentC(c.pc)[0].event) && call.Done?
    requires OffsetsOk(SeenSlots(w), w.inventoryOffsets) && |w.inventoryOffsets| == |w.inventoryLog|
    ensures var w' := CommitResult(w, CurrentC(c.pc)[0], call).0;
            ConsumerOk(w', c.(pc := Waiting)) && OffsetsOk(SeenSlots(w'), w'.inventoryOffsets)
  {
    var m := CurrentC(c.pc)[0];
    var w' := CommitResult(w, m, call).0;
    assert SlotOf(m) in SeenSlots(w) && Slots(CurrentC(c.pc))[0] == SlotOf(m);
    CommitKeeps(SeenSlots(w), ConsumerPipe(c), w.inventoryOffsets);
    FinishKeeps(SeenSlots(w), ConsumerPipe(c));
    assert Slots(CurrentC(c.pc))[1..] == Slots([]);
    assert Evolves(w, w');
    SeenStays(w, w');
    MoreDone(SeenSlots(w), SeenSlots(w'), ConsumerPipe(c.(pc := Waiting)));
  }

  lemma CallCKeeps(w: World, c: Consumer, call: Outcome)
    requires ConsumerOk(w, c)
    requires OffsetsOk(SeenSlots(w), w.inventoryOffsets) && |w.inventoryOffsets| == |w.inventoryLog|
    ensures var (w', pc') := CallConsumer(w, c.pc, call);
            && (!pc'.Halted? ==> ConsumerOk(w', c.(pc := pc')))
            && (w'.inventoryOffsets == w.inventoryOffsets || OffsetsOk(SeenSlots(w'), w'.inventoryOffsets))
            && w'.orderOffsets == w.orderOffsets
  {
    var (w', pc') := CallConsumer(w, c.pc, call);
    CallConsumerEvolves(w, c.pc, call);
    ConsumerStays(w, w', c);
    if !pc'.Halted? && CurrentC(c.pc) != [] && CurrentC(pc') == [] {
      CommitOfConsumer(w, c, call);
    }
  }

  lemma WorkConsumer(s: State, i: nat, call: Outcome)
    requires Inv(s) && i in s.consumers
    ensures Inv(WorkCStep(s, i, call))
  {
    var w', consumers' := WorkCStep(s, i, call).w, WorkCStep(s, i, call).consumers;
    WorkCEvolves(s, i, call);
    CallCKeeps(s.w, s.consumers[i], call);
    CommittedStays(s.w, w');
    AllWorkersStay(s.w, w', s.workers);
    ConsumersStay(s.w, w', s.consumers, consumers', i);
  }

  /******* Every run *******/

  lemma RevokeWorker(s: State, i: nat, p: nat)
    requires Inv(s)
    ensures Inv(Step(s, Revoke(i, p)))
  {
    if i in s.workers {
      var k := s.workers[i];
      RevokeKeeps(HandledSlots(s.w), WorkerPipe(k), p);
      assert WorkerPipe(k.(positions := k.positions - {p})) == WorkerPipe(k).(positions := WorkerPipe(k).positions - {p});
      SameWorld(s.w);
      WorkersStay(s.w, s.w, s.workers, s.workers[i := k.(positions := k.positions - {p})], i);
    }
  }

  lemma RevokeConsumer(s: State, i: nat, p: nat)
    requires Inv(s)
    ensures Inv(Step(s, RevokeC(i, p)))
  {
    if i in s.consumers {
      RevokeKeeps(SeenSlots(s.w), ConsumerPipe(s.consumers[i]), p);
      SameWorld(s.w);
      ConsumersStay(s.w, s.w, s.consumers, Step(s, RevokeC(i, p)).consumers, i);
    }
  }

  /** A step that only changes the world, without touching the offsets. */
  lemma WorldStep(s: State, s': State)
    requires Inv(s) && Evolves(s.w, s'.w) && s'.workers == s.workers && s'.consumers == s.consumers
    requires s'.w.orderOffsets == s.w.orderOffsets && s'.w.inventoryOffsets == s.w.inventoryOffsets
    ensures Inv(s')
  {
    CommittedStays(s.w, s'.w);
    AllWorkersStay(s.w, s'.w, s.workers);
    AllConsumersStay(s.w, s'.w, s.consumers);
  }

  lemma CrashKeeps(s: State, i: nat)
    requires Inv(s)
    ensures Inv(Step(s, Crash(i))) && Inv(Step(s, CrashC(i)))
  {
    SameWorld(s.w);
    WorkersStay(s.w, s.w, s.workers, s.workers - {i}, i);
    ConsumersStay(s.w, s.w, s.consumers, s.consumers - {i}, i);
  }

  predicate WorkerAction(a: Action) {
    a.Assign? || a.Revoke? || a.Fetch? || a.Work? || a.Crash?
  }

  predicate ConsumerAction(a: Action) {
    a.AssignC? || a.RevokeC? || a.FetchC? || a.WorkC? || a.CrashC?
  }

  lemma WorkerActionKeeps(s: State, a: Action)
    requires Inv(s) && WorkerAction(a)
    ensures Inv(Step(s, a))
  {
    match a
    case Assign(i, p) => if p < |s.w.orderOffsets| { AssignWorker(s, i, p); }
    case Revoke(i, p) => RevokeWorker(s, i, p);
    case Fetch(i, p) => FetchWorker(s, i, p);
    case Work(i, call) =>
      if i in s.workers {
        if !s.workers[i].pc.Idle? { WorkWorker(s, i, call); }
        else if s.workers[i].queue != [] { TakeWorker(s, i, call); }
      }
    case Crash(i) => CrashKeeps(s, i);
  }

  lemma ConsumerActionKeeps(s: State, a: Action)
    requires Inv(s) && ConsumerAction(a)
    ensures Inv(Step(s, a))
  {
    match a
    case AssignC(i, p) => if p < |s.w.inventoryOffsets| { AssignConsumer(s, i, p); }
    case RevokeC(i, p) => RevokeConsumer(s, i, p);
    case FetchC(i, p) => FetchConsumer(s, i, p);
    case WorkC(i, call) => if i in s.consumers { WorkConsumer(s, i, call); }
    case CrashC(i) => CrashKeeps(s, i);
  }

  lemma RequestActionKeeps(s: State, a: Action)
    requires Inv(s) && !WorkerAction(a) && !ConsumerAction(a)
    ensures Inv(Step(s, a))
  {
    match a
    case Place(r, o, u, items) => PlaceKeeps(s, r, o, u, items);
    case Admin(r, o, status) => AdminKeeps(s, r, o, status);
    case Send(r, p) => SendKeeps(s, r, p);
    case Drop(r) =>
    case Stock(p, q) => StockKeeps(s, p, q);
  }

  lemma PlaceKeeps(s: State, r: nat, o: OrderId, u: UserId, items: seq<OrderItem>)
    requires Inv(s)
    ensures Inv(PlaceStep(s, r, o, u, items))
  {
    PlaceEvolves(s, r, o, u, items);
    WorldStep(s, PlaceStep(s, r, o, u, items));
  }

  lemma AdminKeeps(s: State, r: nat, o: OrderId, status: Status)
    requires Inv(s)
    ensures Inv(AdminStep(s, r, o, status))
  {
    AdminEvolves(s, r, o, status);
    WorldStep(s, AdminStep(s, r, o, status));
  }

  lemma SendKeeps(s: State, r: nat, p: nat)
    requires Inv(s)
    ensures Inv(SendStep(s, r, p))
  {
    SendEvolves(s, r, p);
    WorldStep(s, SendStep(s, r, p));
  }

  lemma StockKeeps(s: State, p: ProductId, q: int)
    requires Inv(s)
    ensures Inv(StockStep(s, p, q))
  {
    StockEvolves(s, p, q);
    WorldStep(s, StockStep(s, p, q));
  }

  lemma StepKeeps(s: State, a: Action)
    requires Inv(s)
    ensures Inv(Step(s, a))
  {
    if WorkerAction(a) { WorkerActionKeeps(s, a); }
    else if ConsumerAction(a) { ConsumerActionKeeps(s, a); }
    else { RequestActionKeeps(s, a); }
  }

  lemma {:induction false} RunKeeps(m: nat, n: nat, schedule: seq<Action>)
    ensures Inv(Run(m, n, schedule))
  {
    if schedule != [] {
      RunKeeps(m, n, schedule[..|schedule| - 1]);
      StepKeeps(Run(m, n, schedule[..|schedule| - 1]), schedule[|schedule| - 1]);
    }
  }

  /** Order events: every message below a committed offset asked for nothing, or all its lines are
      reserved, or a failure event for its order is in the inventory topic. */
  lemma NoOrderSkipped(m: nat, n: nat, schedule: seq<Action>, w: World, p: nat, k: nat)
    requires w == Run(m, n, schedule).w && p < |w.orderOffsets| && k < w.orderOffsets[p]
    ensures p < |w.orderLog| && k < |w.orderLog[p]|
            && EventHandled(w, w.orderLog[p][k])
  {
    RunKeeps(m, n, schedule);
    assert Slot(p, k) in HandledSlots(w);
  }

  /** Inventory events: the id of a result event below a committed offset is in `processed_events`. */
  lemma NoResultSkipped(m: nat, n: nat, schedule: seq<Action>, w: World, p: nat, k: nat)
    requires w == Run(m, n, schedule).w && p < |w.inventoryOffsets| && k < w.inventoryOffsets[p]
    ensures p < |w.inventoryLog| && k < |w.inventoryLog[p]|
            && (IsResult(w.inventoryLog[p][k].kind) ==> w.inventoryLog[p][k].id in w.orderSeen)
  {
    RunKeeps(m, n, schedule);
    assert Slot(p, k) in SeenSlots(w);
  }
}
