/**
 When an order can be confirmed twice.  Without a second InventoryReserved event it cannot; and both an
 admin's CREATED and an overlapping hand-over make one.
 */
module SagaTwice {
  import opened Basics
  import opened Inventory
  import opened Events
  import opened Services
  import opened Saga
  import opened SagaPaths
  import C = SagaConfirms
  import K = SagaStock
  import L = SagaLoss
  import X = SagaExclusive

  ghost predicate ConfirmsOnce(writes: seq<Effect>) {
    forall a, b | 0 <= a < b < |writes| && writes[a].status == CONFIRMED && writes[b].status == CONFIRMED ::
      writes[a].order != writes[b].order
  }

  /** What may happen in a run: the statuses that admins set, and whether hand-over waits. */
  ghost predicate Confined(m: nat, n: nat, schedule: seq<Action>, allowed: set<Status>, exclusive: bool) {
    K.OnlySets(schedule, allowed) && (exclusive ==> X.Exclusive(m, n, schedule))
  }

  /******* Two results of one order are both consumed *******/

  /** A consumer that has written the first status publishes it, commits, and waits for the next event. */
  lemma WritesSettle(s: State, i: nat, msg: Msg, result: ResultPayload)
    requires i in s.consumers && s.consumers[i] == Consumer(map[0 := 1], Written(msg, result))
    requires |s.w.orderLog| > 0
    ensures var t := Step(Step(s, WorkC(i, Done(0))), WorkC(i, Done(0)));
            && i in t.consumers && t.consumers[i] == Consumer(map[0 := 1], Waiting)
            && t.w.orderSeen == s.w.orderSeen && t.w.orders == s.w.orders && t.w.inventoryLog == s.w.inventoryLog && t.writes == s.writes
  {
    var s1 := Step(s, WorkC(i, Done(0)));
    assert i in s1.consumers && s1.consumers[i] == Consumer(map[0 := 1], Finished(msg));
  }

  /** And confirms the order of the second event in the partition. */
  lemma SecondConfirmed(s: State, i: nat, e: Event, result: ResultPayload)
    requires i in s.consumers && s.consumers[i] == Consumer(map[0 := 1], Waiting)
    requires |s.w.inventoryLog| > 0 && |s.w.inventoryLog[0]| > 1 && s.w.inventoryLog[0][1] == e && e.kind == InventoryReserved
    requires DecodeResult(e.payload) == Some(result) && e.id !in s.w.orderSeen && result.order in s.w.orders
    ensures var t := Step(Step(Step(s, FetchC(i, 0)), WorkC(i, Done(0))), WorkC(i, Done(0)));
            t.writes == s.writes + [Effect(e.id, result.order, CONFIRMED)]
  {
    var msg := Msg(0, 1, e);
    var s1 := Step(s, FetchC(i, 0));
    assert s1.w == s.w && s1.consumers[i].pc == Fetched(msg);
    var s2 := Step(s1, WorkC(i, Done(0)));
    assert s2.w.orders == s.w.orders && s2.consumers[i].pc == Claimed(msg, result) && s2.writes == s.writes;
    DecideStep(s2, i, s2.consumers[i], msg, result);
  }

  const FIRST := [AssignC(0, 0), FetchC(0, 0), WorkC(0, Done(0)), WorkC(0, Done(0))]

  const SECOND := [WorkC(0, Done(0)), WorkC(0, Done(0)), FetchC(0, 0), WorkC(0, Done(0)), WorkC(0, Done(0))]

  lemma AlsoConfirmed(m: nat, n: nat, schedule: seq<Action>, msg: Msg, f: Event, r: ResultPayload)
    requires var s := Run(m, n, schedule);
             && 0 in s.consumers && s.consumers[0] == Consumer(map[0 := 1], Written(msg, r)) && |s.w.orderLog| > 0
             && |s.w.inventoryLog| > 0 && |s.w.inventoryLog[0]| > 1 && s.w.inventoryLog[0][1] == f && f.kind == InventoryReserved
             && DecodeResult(f.payload) == Some(r) && f.id !in s.w.orderSeen && r.order in s.w.orders
    ensures Run(m, n, schedule + SECOND).writes == Run(m, n, schedule).writes + [Effect(f.id, r.order, CONFIRMED)]
  {
    var done := WorkC(0, Done(0));
    WritesSettle(Run(m, n, schedule), 0, msg, r);
    Then(m, n, schedule, done);
    Then(m, n, schedule + [done], done);
    var settled := schedule + [done] + [done];
    SecondConfirmed(Run(m, n, settled), 0, f, r);
    Then(m, n, settled, FetchC(0, 0));
    Then(m, n, settled + [FetchC(0, 0)], done);
    Then(m, n, settled + [FetchC(0, 0)] + [done], done);
    assert settled + [FetchC(0, 0)] + [done] + [done] == schedule + SECOND;
  }

  const CONSUMING := FIRST + SECOND

  lemma BothConfirmed(m: nat, n: nat, schedule: seq<Action>, e: Event, f: Event, r: ResultPayload)
    requires var s := Run(m, n, schedule);
             && s.consumers == map[] && s.w.inventoryOffsets == [0] && s.w.inventoryLog == [[e, f]]
             && |s.w.orderLog| > 0 && s.w.orderSeen == {} && r.order in s.w.orders
    requires e.kind == InventoryReserved && f.kind == InventoryReserved && e.id != f.id
    requires DecodeResult(e.payload) == Some(r) && DecodeResult(f.payload) == Some(r)
    ensures Run(m, n, schedule + CONSUMING).writes ==
            Run(m, n, schedule).writes + [Effect(e.id, r.order, CONFIRMED)] + [Effect(f.id, r.order, CONFIRMED)]
  {
    var first := Decide(m, n, schedule, 0, e, r);
    assert first == schedule + FIRST;
    AlsoConfirmed(m, n, first, Msg(0, 0, e), f, r);
    assert first + SECOND == schedule + CONSUMING;
  }

  lemma TwoWrites(writes: seq<Effect>, e: EventId, f: EventId, o: OrderId)
    ensures !ConfirmsOnce(writes + [Effect(e, o, CONFIRMED)] + [Effect(f, o, CONFIRMED)])
  {
    var all := writes + [Effect(e, o, CONFIRMED)] + [Effect(f, o, CONFIRMED)];
    assert all[|writes|].order == o && all[|writes| + 1].order == o;
  }

  /******* Overlapping hand-over *******/

  lemma OverlapConfirmsTwice() returns (schedule: seq<Action>)
    ensures K.OnlySets(schedule, {}) && !ConfirmsOnce(Run(1, 1, schedule).writes)
  {
    var reported := C.OverlapReportsTwice();
    ResultRoundTrip(1, 1, "");
    BothConfirmed(1, 1, reported, C.Reserved1(1), C.Reserved1(2), ResultPayload(1, 1, ""));
    TwoWrites(Run(1, 1, reported).writes, 1, 2, 1);
    schedule := reported + CONSUMING;
  }

  /******* An admin sets CREATED twice *******/

  function EmptyOrder(id: EventId): Event {
    Event(id, OrderCreated, EncodeResult(1, 1, ""))
  }

  function EmptyResult(id: EventId): Event {
    Event(id, InventoryReserved, EncodeResult(1, 0, ""))
  }

  lemma MisleadAgain(s: State)
    requires s.w.orders == map[1 := Order(1, CREATED, K.LINES)] && s.requests == map[] && s.w.nextId == 2
    requires s.w.orderLog == [[EmptyOrder(1)]]
    ensures Step(Step(s, Admin(0, 1, CREATED)), Send(0, 0)) ==
            s.(w := s.w.(orderLog := [[EmptyOrder(1), EmptyOrder(2)]], nextId := 3))
  {
    var s1 := Step(s, Admin(0, 1, CREATED));
    assert s1.w.orders == s.w.orders && s1.requests == map[0 := EmptyOrder(2)];
    assert s1.requests - {0} == map[];
    assert Append([[EmptyOrder(1)]], 0, EmptyOrder(2))[0] == [EmptyOrder(1), EmptyOrder(2)];
  }

  /** Two status events in the topic, both of which read as new orders without lines. */
  lemma TwoEmptyOrders() returns (schedule: seq<Action>)
    ensures var s := Run(1, 1, schedule);
            && s.w.orderLog == [[EmptyOrder(1), EmptyOrder(2)]] && s.w.tables == EMPTY && s.w.nextId == 3
            && s.w.orderOffsets == [0] && s.w.inventoryLog == [[]] && s.workers == map[] && C.NothingConsumed(s)
    ensures K.OnlySets(schedule, {CREATED}) && forall k | 0 <= k < |schedule| :: !schedule[k].Assign?
  {
    var misled := K.Mislead();
    MisleadAgain(Run(1, 1, misled));
    Then(1, 1, misled, Admin(0, 1, CREATED));
    Then(1, 1, misled + [Admin(0, 1, CREATED)], Send(0, 0));
    schedule := misled + [Admin(0, 1, CREATED)] + [Send(0, 0)];
  }

  /** An idle worker receives the second message of the partition. */
  lemma ReceiveNext(s: State, i: nat, e: Event)
    requires i in s.workers && s.workers[i] == Worker(map[0 := 1], [], Idle)
    requires |s.w.orderLog| > 0 && |s.w.orderLog[0]| > 1 && s.w.orderLog[0][1] == e
    ensures Step(Step(s, Fetch(i, 0)), Work(i, Failed)) ==
            s.(workers := s.workers[i := Worker(map[0 := 2], [], Received(Msg(0, 1, e)))])
  {
    var s1 := Step(s, Fetch(i, 0));
    assert [] + [Msg(0, 1, e)] == [Msg(0, 1, e)] && map[0 := 1][0 := 2] == map[0 := 2];
    assert s1.workers == s.workers[i := Worker(map[0 := 2], [Msg(0, 1, e)], Idle)];
    assert [Msg(0, 1, e)][1..] == [];
  }

  const HANDLING := [Fetch(0, 0), Work(0, Failed), Work(0, Done(0)), Work(0, Done(0)), Work(0, Done(0)), Work(0, Done(0))]

  lemma FirstReported(schedule: seq<Action>)
    requires var s := Run(1, 1, schedule);
             && s.w.orderLog == [[EmptyOrder(1), EmptyOrder(2)]] && s.w.tables == EMPTY && s.w.nextId == 3
             && s.w.orderOffsets == [0] && s.w.inventoryLog == [[]] && s.workers == map[] && C.NothingConsumed(s)
    ensures var s := Run(1, 1, schedule + [Assign(0, 0)] + HANDLING);
            && s.w.orderLog == [[EmptyOrder(1), EmptyOrder(2)]] && s.w.tables == EMPTY && s.w.nextId == 4
            && |s.w.orderOffsets| == 1 && s.w.inventoryLog == [[EmptyResult(3)]] && C.NothingConsumed(s)
            && 0 in s.workers && s.workers[0] == Worker(map[0 := 1], [], Idle)
  {
    ResultReadAsOrder(1, 1, "");
    var received := Receive(1, 1, schedule, 0, EmptyOrder(1));
    var handled := Process(1, 1, received, 0, Msg(0, 0, EmptyOrder(1)), OrderPayload(1, 0, []), EMPTY);
    assert Append([[]], 0, EmptyResult(3))[0] == [EmptyResult(3)];
    assert handled == schedule + [Assign(0, 0)] + HANDLING;
  }

  lemma SecondReported(schedule: seq<Action>)
    requires var s := Run(1, 1, schedule);
             && s.w.orderLog == [[EmptyOrder(1), EmptyOrder(2)]] && s.w.tables == EMPTY && s.w.nextId == 4
             && |s.w.orderOffsets| == 1 && s.w.inventoryLog == [[EmptyResult(3)]] && C.NothingConsumed(s)
             && 0 in s.workers && s.workers[0] == Worker(map[0 := 1], [], Idle)
    ensures var s := Run(1, 1, schedule + HANDLING);
            s.w.inventoryLog == [[EmptyResult(3), EmptyResult(4)]] && C.NothingConsumed(s)
  {
    ResultReadAsOrder(1, 1, "");
    ReceiveNext(Run(1, 1, schedule), 0, EmptyOrder(2));
    Then(1, 1, schedule, Fetch(0, 0));
    Then(1, 1, schedule + [Fetch(0, 0)], Work(0, Failed));
    var received := schedule + [Fetch(0, 0)] + [Work(0, Failed)];
    var handled := Process(1, 1, received, 0, Msg(0, 1, EmptyOrder(2)), OrderPayload(1, 0, []), EMPTY);
    assert Append([[EmptyResult(3)]], 0, EmptyResult(4))[0] == [EmptyResult(3), EmptyResult(4)];
    assert handled == schedule + HANDLING;
  }

  const ALL := HANDLING + HANDLING + CONSUMING

  lemma BothHandled(start: seq<Action>)
    requires var s := Run(1, 1, start);
             && s.w.orderLog == [[EmptyOrder(1), EmptyOrder(2)]] && s.w.tables == EMPTY && s.w.nextId == 3
             && s.w.orderOffsets == [0] && s.w.inventoryLog == [[]] && s.workers == map[] && C.NothingConsumed(s)
    ensures !ConfirmsOnce(Run(1, 1, start + [Assign(0, 0)] + ALL).writes)
  {
    FirstReported(start);
    var first := start + [Assign(0, 0)] + HANDLING;
    SecondReported(first);
    var reported := first + HANDLING;
    ResultRoundTrip(1, 0, "");
    BothConfirmed(1, 1, reported, EmptyResult(3), EmptyResult(4), ResultPayload(1, 0, ""));
    TwoWrites(Run(1, 1, reported).writes, 3, 4, 1);
    assert start + [Assign(0, 0)] + ALL == reported + CONSUMING;
  }

  lemma NoAdminsInAll()
    ensures forall a | a in ALL :: !a.Admin? && !a.Assign?
  {
  }

  /** One worker, one consumer, one partition each, no crash: two writes confirm order 1. */
  lemma AdminConfirmsTwice() returns (schedule: seq<Action>)
    ensures K.OnlySets(schedule, {CREATED}) && X.Exclusive(1, 1, schedule) && !ConfirmsOnce(Run(1, 1, schedule).writes)
  {
    var start := TwoEmptyOrders();
    BothHandled(start);
    NoAdminsInAll();
    schedule := start + [Assign(0, 0)] + ALL;
    L.OneAssign(1, 1, start, schedule, ALL);
  }

  /******* The exact condition *******/

  lemma ConfirmsOnceWhen(m: nat, n: nat, schedule: seq<Action>, allowed: set<Status>)
    requires CREATED !in allowed && Confined(m, n, schedule, allowed, true)
    ensures ConfirmsOnce(Run(m, n, schedule).writes)
  {
    forall k | 0 <= k < |schedule| ensures C.NoAdminCreated(schedule[k]) {
      assert schedule[k] in schedule;
    }
    var s := Run(m, n, schedule);
    forall a, b | 0 <= a < b < |s.writes| && s.writes[a].status == CONFIRMED && s.writes[b].status == CONFIRMED
      ensures s.writes[a].order != s.writes[b].order
    {
      C.ConfirmedAtMostOnce(m, n, schedule, s, a, b);
    }
  }

  /** No order is confirmed twice in any run if and only if admins may not set CREATED and partitions of the
      order topic are handed over only when free; the other five statuses are harmless. */
  lemma ConfirmedOnceExactly(allowed: set<Status>, exclusive: bool)
    ensures (forall m: nat, n: nat, schedule | Confined(m, n, schedule, allowed, exclusive) :: ConfirmsOnce(Run(m, n, schedule).writes)) <==>
            CREATED !in allowed && exclusive
  {
    if CREATED in allowed {
      var schedule := AdminConfirmsTwice();
      assert Confined(1, 1, schedule, allowed, exclusive) && !ConfirmsOnce(Run(1, 1, schedule).writes);
    } else if !exclusive {
      var schedule := OverlapConfirmsTwice();
      assert Confined(1, 1, schedule, allowed, exclusive) && !ConfirmsOnce(Run(1, 1, schedule).writes);
    } else {
      forall m: nat, n: nat, schedule | Confined(m, n, schedule, allowed, exclusive) ensures ConfirmsOnce(Run(m, n, schedule).writes) {
        ConfirmsOnceWhen(m, n, schedule, allowed);
      }
    }
  }
}
