/** Uninterrupted pieces of a saga run, for building concrete schedules one action at a time. */
module SagaPaths {
  import opened Basics
  import opened Inventory
  import opened Events
  import opened Delivery
  import opened Services
  import opened Saga

  /** One more action. */
  lemma Then(m: nat, n: nat, schedule: seq<Action>, a: Action)
    ensures Run(m, n, schedule + [a]) == Step(Run(m, n, schedule), a)
  {
    assert (schedule + [a])[..|schedule|] == schedule;
  }

  /******* A handler that is not interrupted *******/

  function WorldCommitted(w: World, m: Msg, t: Tables): World
    requires m.partition < |w.orderOffsets|
  {
    w.(tables := t, inventorySeen := w.inventorySeen + {m.event.id},
       orderOffsets := w.orderOffsets[m.partition := m.offset + 1])
  }

  /** Three calls of a reservation that succeeds: reserve, mark, commit. */
  lemma WorkerCommits(s: State, i: nat, q: nat, m: Msg, order: OrderPayload, t: Tables)
    requires i in s.workers && s.workers[i].pc == Received(m) && m.event.kind == OrderCreated
    requires DecodeOrder(m.event.payload) == Some(order) && ReserveItems(s.w.tables, order.order, order.items) == Success(t)
    requires m.partition < |s.w.orderOffsets|
    ensures var s1 := Step(s, Work(i, Done(q)));
            var s2 := Step(s1, Work(i, Done(q)));
            Step(s2, Work(i, Done(q))) ==
              s.(w := WorldCommitted(s.w, m, t), workers := s.workers[i := s.workers[i].(pc := Acknowledged(m, order))])
  {
    var k := s.workers[i];
    var s1 := Step(s, Work(i, Done(q)));
    assert s1 == s.(w := s.w.(tables := t), workers := s.workers[i := k.(pc := Reserved(m, order))]);
    var s2 := Step(s1, Work(i, Done(q)));
    assert s2.w == s1.w.(inventorySeen := s.w.inventorySeen + {m.event.id});
    assert s2.workers == s.workers[i := k.(pc := Marked(m, order))];
    var s3 := Step(s2, Work(i, Done(q)));
    assert s3.w == s2.w.(orderOffsets := s.w.orderOffsets[m.partition := m.offset + 1]);
    assert s3.workers == s.workers[i := k.(pc := Acknowledged(m, order))];
  }

  /** And the fourth: publish. */
  lemma WorkerSucceeds(s: State, i: nat, q: nat, m: Msg, order: OrderPayload, t: Tables)
    requires i in s.workers && s.workers[i].pc == Received(m) && m.event.kind == OrderCreated
    requires DecodeOrder(m.event.payload) == Some(order) && ReserveItems(s.w.tables, order.order, order.items) == Success(t)
    requires m.partition < |s.w.orderOffsets| && q < |s.w.inventoryLog|
    ensures var s1 := Step(s, Work(i, Done(q)));
            var s2 := Step(s1, Work(i, Done(q)));
            var s3 := Step(s2, Work(i, Done(q)));
            var s4 := Step(s3, Work(i, Done(q)));
            && s4.w == WorldAfter(s.w, q, m, order, t)
            && s4.workers == s.workers[i := s.workers[i].(pc := Idle)]
            && s4.origins == s.origins[s.w.nextId := Slot(m.partition, m.offset)]
            && s4.consumers == s.consumers && s4.requests == s.requests
  {
    WorkerCommits(s, i, q, m, order, t);
    var k := s.workers[i];
    var s3 := s.(w := WorldCommitted(s.w, m, t), workers := s.workers[i := k.(pc := Acknowledged(m, order))]);
    assert Step(s3, Work(i, Done(q))).workers == s.workers[i := k.(pc := Idle)];
  }

  function WorldAfter(w: World, q: nat, m: Msg, order: OrderPayload, t: Tables): World
    requires m.partition < |w.orderOffsets| && q < |w.inventoryLog|
  {
    w.(tables := t, inventorySeen := w.inventorySeen + {m.event.id},
       orderOffsets := w.orderOffsets[m.partition := m.offset + 1],
       inventoryLog := Append(w.inventoryLog, q, ResultEvent(w, InventoryReserved, order, "")), nextId := w.nextId + 1)
  }

  /** A worker without partitions or messages takes over partition 0 and receives its first message. */
  lemma ReceiveSteps(s: State, i: nat, e: Event)
    requires i !in s.workers && |s.w.orderOffsets| > 0 && |s.w.orderLog| > 0
    requires s.w.orderOffsets[0] == 0 && |s.w.orderLog[0]| > 0 && s.w.orderLog[0][0] == e
    ensures Step(Step(Step(s, Assign(i, 0)), Fetch(i, 0)), Work(i, Failed)) ==
            s.(workers := s.workers[i := Worker(map[0 := 1], [], Received(Msg(0, 0, e)))])
  {
    var s1 := Step(s, Assign(i, 0));
    AssignNew(s, i);
    var s2 := Step(s1, Fetch(i, 0));
    assert [] + [Msg(0, 0, e)] == [Msg(0, 0, e)];
    assert map[0 := 0][0 := 1] == map[0 := 1];
    assert s2.workers == s.workers[i := Worker(map[0 := 1], [Msg(0, 0, e)], Idle)];
    var s3 := Step(s2, Work(i, Failed));
    assert [Msg(0, 0, e)][1..] == [];
    assert s3.workers == s.workers[i := Worker(map[0 := 1], [], Received(Msg(0, 0, e)))];
  }

  lemma AssignNew(s: State, i: nat)
    requires i !in s.workers && |s.w.orderOffsets| > 0 && s.w.orderOffsets[0] == 0
    ensures Step(s, Assign(i, 0)) == s.(workers := s.workers[i := Worker(map[0 := 0], [], Idle)])
  {
  }

  lemma Receive(m: nat, n: nat, schedule: seq<Action>, i: nat, e: Event) returns (longer: seq<Action>)
    requires var s := Run(m, n, schedule);
             && i !in s.workers && |s.w.orderOffsets| > 0 && |s.w.orderLog| > 0
             && s.w.orderOffsets[0] == 0 && |s.w.orderLog[0]| > 0 && s.w.orderLog[0][0] == e
    ensures var s := Run(m, n, schedule);
            Run(m, n, longer) == s.(workers := s.workers[i := Worker(map[0 := 1], [], Received(Msg(0, 0, e)))])
    ensures longer == schedule + [Assign(i, 0)] + [Fetch(i, 0)] + [Work(i, Failed)]
  {
    ReceiveSteps(Run(m, n, schedule), i, e);
    Then(m, n, schedule, Assign(i, 0));
    Then(m, n, schedule + [Assign(i, 0)], Fetch(i, 0));
    Then(m, n, schedule + [Assign(i, 0)] + [Fetch(i, 0)], Work(i, Failed));
    longer := schedule + [Assign(i, 0)] + [Fetch(i, 0)] + [Work(i, Failed)];
  }

  /** The worker goes through without interruption. */
  lemma Process(m: nat, n: nat, schedule: seq<Action>, i: nat, msg: Msg, order: OrderPayload, t: Tables) returns (longer: seq<Action>)
    requires var s := Run(m, n, schedule);
             && i in s.workers && s.workers[i].pc == Received(msg) && msg.event.kind == OrderCreated
             && DecodeOrder(msg.event.payload) == Some(order) && ReserveItems(s.w.tables, order.order, order.items) == Success(t)
             && msg.partition < |s.w.orderOffsets| && |s.w.inventoryLog| > 0
    ensures var s, s' := Run(m, n, schedule), Run(m, n, longer);
            && s'.w == WorldAfter(s.w, 0, msg, order, t)
            && s'.workers == s.workers[i := s.workers[i].(pc := Idle)]
            && s'.origins == s.origins[s.w.nextId := Slot(msg.partition, msg.offset)]
            && s'.consumers == s.consumers && s'.requests == s.requests
    ensures var a := Work(i, Done(0)); longer == schedule + [a] + [a] + [a] + [a]
  {
    var a := Work(i, Done(0));
    WorkerSucceeds(Run(m, n, schedule), i, 0, msg, order, t);
    Then(m, n, schedule, a);
    Then(m, n, schedule + [a], a);
    Then(m, n, schedule + [a] + [a], a);
    Then(m, n, schedule + [a] + [a] + [a], a);
    longer := schedule + [a] + [a] + [a] + [a];
  }

  /** A consumer takes over partition 0, fetches its first message and claims it. */
  lemma AssignNewC(s: State, i: nat)
    requires i !in s.consumers && |s.w.inventoryOffsets| > 0 && s.w.inventoryOffsets[0] == 0
    ensures Step(s, AssignC(i, 0)) == s.(consumers := s.consumers[i := Consumer(map[0 := 0], Waiting)])
  {
  }

  lemma FetchFirstC(s: State, i: nat, e: Event)
    requires i in s.consumers && s.consumers[i] == Consumer(map[0 := 0], Waiting)
    requires |s.w.inventoryLog| > 0 && s.w.inventoryLog[0] != [] && s.w.inventoryLog[0][0] == e
    ensures Step(s, FetchC(i, 0)) == s.(consumers := s.consumers[i := Consumer(map[0 := 1], Fetched(Msg(0, 0, e)))])
  {
    assert map[0 := 0][0 := 1] == map[0 := 1];
  }

  lemma ClaimFirstC(s: State, i: nat, positions: map<nat, nat>, e: Event, result: ResultPayload)
    requires i in s.consumers && s.consumers[i] == Consumer(positions, Fetched(Msg(0, 0, e)))
    requires e.kind == InventoryReserved || e.kind == InventoryReservationFailed
    requires DecodeResult(e.payload) == Some(result) && e.id !in s.w.orderSeen
    ensures Step(s, WorkC(i, Done(0))) ==
            s.(w := s.w.(orderSeen := s.w.orderSeen + {e.id}),
               consumers := s.consumers[i := Consumer(positions, Claimed(Msg(0, 0, e), result))])
  {
  }

  lemma Claim(m: nat, n: nat, schedule: seq<Action>, i: nat, e: Event, result: ResultPayload) returns (longer: seq<Action>)
    requires var s := Run(m, n, schedule);
             && i !in s.consumers && |s.w.inventoryOffsets| > 0 && |s.w.inventoryLog| > 0
             && s.w.inventoryOffsets[0] == 0 && s.w.inventoryLog[0] != [] && s.w.inventoryLog[0][0] == e && (e.kind == InventoryReserved || e.kind == InventoryReservationFailed)
             && DecodeResult(e.payload) == Some(result) && e.id !in s.w.orderSeen
    ensures var s := Run(m, n, schedule);
            Run(m, n, longer) == s.(w := s.w.(orderSeen := s.w.orderSeen + {e.id}),
                                    consumers := s.consumers[i := Consumer(map[0 := 1], Claimed(Msg(0, 0, e), result))])
    ensures longer == schedule + [AssignC(i, 0)] + [FetchC(i, 0)] + [WorkC(i, Done(0))]
  {
    var s := Run(m, n, schedule);
    AssignNewC(s, i);
    Then(m, n, schedule, AssignC(i, 0));
    var s1 := s.(consumers := s.consumers[i := Consumer(map[0 := 0], Waiting)]);
    FetchFirstC(s1, i, e);
    Then(m, n, schedule + [AssignC(i, 0)], FetchC(i, 0));
    var s2 := s1.(consumers := s1.consumers[i := Consumer(map[0 := 1], Fetched(Msg(0, 0, e)))]);
    ClaimFirstC(s2, i, map[0 := 1], e, result);
    Then(m, n, schedule + [AssignC(i, 0)] + [FetchC(i, 0)], WorkC(i, Done(0)));
    longer := schedule + [AssignC(i, 0)] + [FetchC(i, 0)] + [WorkC(i, Done(0))];
    LastUpdate(s.consumers, i, Consumer(map[0 := 0], Waiting), Consumer(map[0 := 1], Fetched(Msg(0, 0, e))), Consumer(map[0 := 1], Claimed(Msg(0, 0, e), result)));
  }

  lemma LastUpdate<K, V>(m: map<K, V>, k: K, u: V, v: V, w: V)
    ensures m[k := u][k := v][k := w] == m[k := w]
  {
  }

  /** What an event makes of its order. */
  function Decided(kind: EventType): Status {
    if kind == InventoryReserved then CONFIRMED else CANCELLED
  }

  /** And decides its order. */
  lemma Decide(m: nat, n: nat, schedule: seq<Action>, i: nat, e: Event, result: ResultPayload) returns (longer: seq<Action>)
    requires var s := Run(m, n, schedule);
             && i !in s.consumers && |s.w.inventoryOffsets| > 0 && |s.w.inventoryLog| > 0
             && s.w.inventoryOffsets[0] == 0 && s.w.inventoryLog[0] != [] && s.w.inventoryLog[0][0] == e && (e.kind == InventoryReserved || e.kind == InventoryReservationFailed)
             && DecodeResult(e.payload) == Some(result) && e.id !in s.w.orderSeen && result.order in s.w.orders
    ensures var s, s' := Run(m, n, schedule), Run(m, n, longer);
            && s'.w == s.w.(orderSeen := s.w.orderSeen + {e.id}, orders := SetStatus(s.w.orders, result.order, Decided(e.kind)))
            && s'.consumers == s.consumers[i := Consumer(map[0 := 1], Written(Msg(0, 0, e), result))]
            && s'.writes == s.writes + [Effect(e.id, result.order, Decided(e.kind))]
    ensures longer == schedule + [AssignC(i, 0)] + [FetchC(i, 0)] + [WorkC(i, Done(0))] + [WorkC(i, Done(0))]
  {
    var s := Run(m, n, schedule);
    longer := Claim(m, n, schedule, i, e, result);
    var k := Consumer(map[0 := 1], Claimed(Msg(0, 0, e), result));
    DecideStep(Run(m, n, longer), i, k, Msg(0, 0, e), result);
    assert s.consumers[i := k][i := k.(pc := Written(Msg(0, 0, e), result))] == s.consumers[i := k.(pc := Written(Msg(0, 0, e), result))];
    Then(m, n, longer, WorkC(i, Done(0)));
    longer := longer + [WorkC(i, Done(0))];
  }

  lemma DecideStep(s: State, i: nat, k: Consumer, msg: Msg, result: ResultPayload)
    requires i in s.consumers && s.consumers[i] == k && k.pc == Claimed(msg, result)
    requires (msg.event.kind == InventoryReserved || msg.event.kind == InventoryReservationFailed) && result.order in s.w.orders
    ensures Step(s, WorkC(i, Done(0))) ==
            s.(w := s.w.(orders := SetStatus(s.w.orders, result.order, Decided(msg.event.kind))),
               consumers := s.consumers[i := k.(pc := Written(msg, result))],
               writes := s.writes + [Effect(msg.event.id, result.order, Decided(msg.event.kind))])
  {
  }
}
