/**
 Each order is confirmed at most once, when no admin sets CREATED and partitions of the order topic are
 handed over only when free; and a hand-over that overlaps reports one message twice.
 */
module SagaConfirms {
  import opened Basics
  import opened Inventory
  import opened Events
  import opened Delivery
  import opened Services
  import opened Saga
  import opened SagaPaths
  import opened SagaOrigins
  import D = SagaDelivery
  import E = SagaEffects
  import N = SagaCounts
  import X = SagaExclusive

  predicate NoAdminCreated(a: Action) {
    a.Admin? ==> a.status != CREATED
  }

  ghost predicate LogUnique(log: Log) {
    forall x: Slot, y: Slot, o: OrderId | D.InLog(log, x) && D.InLog(log, y) && x != y && Creates(At(log, x), o) ::
      !Creates(At(log, y), o)
  }

  ghost predicate InLogCreated(log: Log, o: OrderId) {
    exists x: Slot :: D.InLog(log, x) && Creates(At(log, x), o)
  }

  /** An order has one OrderCreated event, in the topic or still with its request. */
  ghost predicate Unique(s: State) {
    && LogUnique(s.w.orderLog)
    && (forall r, o | r in s.requests && Creates(s.requests[r], o) :: !InLogCreated(s.w.orderLog, o) && o in s.w.orders)
    && (forall r, q, o | r in s.requests && q in s.requests && r != q && Creates(s.requests[r], o) :: !Creates(s.requests[q], o))
    && (forall o | InLogCreated(s.w.orderLog, o) :: o in s.w.orders)
  }

  lemma AppendOther(log: Log, p: nat, e: Event)
    requires p < |log| && LogUnique(log) && forall o :: Creates(e, o) ==> !InLogCreated(log, o)
    ensures LogUnique(Append(log, p, e))
    ensures forall o | InLogCreated(Append(log, p, e), o) :: InLogCreated(log, o) || Creates(e, o)
  {
    var log' := Append(log, p, e);
    forall x: Slot | D.InLog(log', x) ensures x == Slot(p, |log[p]|) || (D.InLog(log, x) && At(log', x) == At(log, x)) {}
  }

  lemma PlaceKeeps(s: State, r: nat, o: OrderId, u: UserId, items: seq<OrderItem>)
    requires Unique(s)
    ensures Unique(PlaceStep(s, r, o, u, items))
  {
    CreatedRoundTrip(o, u, items);
  }

  lemma AdminKeeps(s: State, r: nat, o: OrderId, status: Status)
    requires Unique(s) && status != CREATED
    ensures Unique(AdminStep(s, r, o, status))
  {
  }

  lemma SendKeeps(s: State, r: nat, p: nat)
    requires Unique(s)
    ensures Unique(SendStep(s, r, p))
  {
    if r in s.requests && p < |s.w.orderLog| {
      AppendOther(s.w.orderLog, p, s.requests[r]);
    }
  }

  lemma SameLog(s: State, s': State)
    requires Unique(s) && s'.w.orderLog == s.w.orderLog && OrdersKept(s.w.orders, s'.w.orders)
    requires forall r | r in s'.requests :: r in s.requests && s'.requests[r] == s.requests[r]
    ensures Unique(s')
  {
  }

  /** A consumer publishes confirmations and cancellations only. */
  lemma WorkCKeeps(s: State, i: nat, call: Outcome)
    requires Unique(s) && i in s.consumers
    ensures Unique(WorkCStep(s, i, call))
  {
    WorkCEvolves(s, i, call);
    var pc, s' := s.consumers[i].pc, WorkCStep(s, i, call);
    if s'.w.orderLog != s.w.orderLog {
      var e := StatusNotice(s.w, pc.m, pc.result);
      assert forall o :: !Creates(e, o);
      AppendOther(s.w.orderLog, call.partition, e);
      assert s'.requests == s.requests && s'.w.orders == s.w.orders;
    } else {
      SameLog(s, s');
    }
  }

  lemma OtherFields(s: State, a: Action)
    requires D.WorkerAction(a) || a.Drop? || a.Stock? || (D.ConsumerAction(a) && !a.WorkC?)
    ensures var s' := Step(s, a);
            s'.w.orderLog == s.w.orderLog && s'.w.orders == s.w.orders && s'.requests == if a.Drop? then s.requests - {a.r} else s.requests
  {
    if a.Work? { WorkFields(s, a.i, a.call); }
  }

  lemma WorkFields(s: State, i: nat, call: Outcome)
    ensures var s' := WorkStep(s, i, call);
            s'.w.orderLog == s.w.orderLog && s'.w.orders == s.w.orders && s'.requests == s.requests
  {
  }

  lemma StepKeeps(s: State, a: Action)
    requires Unique(s) && NoAdminCreated(a)
    ensures Unique(Step(s, a))
  {
    match a
    case Place(r, o, u, items) => PlaceKeeps(s, r, o, u, items);
    case Admin(r, o, status) => AdminKeeps(s, r, o, status);
    case Send(r, p) => SendKeeps(s, r, p);
    case WorkC(i, call) => if i in s.consumers { WorkCKeeps(s, i, call); }
    case _ => OtherFields(s, a); SameLog(s, Step(s, a));
  }

  lemma {:induction false} RunKeeps(m: nat, n: nat, schedule: seq<Action>)
    requires forall k | 0 <= k < |schedule| :: NoAdminCreated(schedule[k])
    ensures Unique(Run(m, n, schedule))
  {
    if schedule != [] {
      RunKeeps(m, n, schedule[..|schedule| - 1]);
      StepKeeps(Run(m, n, schedule[..|schedule| - 1]), schedule[|schedule| - 1]);
    }
  }

  /** No two status writes of the consumers confirm the same order. */
  lemma ConfirmedAtMostOnce(m: nat, n: nat, schedule: seq<Action>, s: State, a: nat, b: nat)
    requires s == Run(m, n, schedule) && X.Exclusive(m, n, schedule)
    requires forall k | 0 <= k < |schedule| :: NoAdminCreated(schedule[k])
    requires a < b < |s.writes| && s.writes[a].status == CONFIRMED && s.writes[b].status == CONFIRMED
    ensures s.writes[a].order != s.writes[b].order
  {
    RunKeeps(m, n, schedule);
    SagaOrigins.RunKeeps(m, n, schedule);
    E.EffectsAtMostOnce(m, n, schedule, s);
    var v, w := s.writes[a], s.writes[b];
    assert Traced(s.w.orderLog, s.origins, v.event, v.order) && Traced(s.w.orderLog, s.origins, w.event, w.order);
    if v.order == w.order {
      assert s.origins[v.event] == s.origins[w.event];
      N.ReservedAtMostOnce(m, n, schedule, v.event, w.event);
    }
  }

  /** Two OrderCreated messages name the order. */
  ghost predicate TwoMessages(log: Log, o: OrderId) {
    exists x: Slot, y: Slot :: D.InLog(log, x) && D.InLog(log, y) && x != y && Creates(At(log, x), o) && Creates(At(log, y), o)
  }

  /** A message of the order is committed again although it was reported, or is about to be. */
  ghost predicate Repeated(m: nat, n: nat, schedule: seq<Action>, log: Log, o: OrderId) {
    exists x: Slot :: D.InLog(log, x) && Creates(At(log, x), o) && !N.NeverRepeats(m, n, schedule, x)
  }

  /** In every run, whatever admins and hand-overs do: an order is confirmed twice only if two messages name
      it, or a commit for one of its messages repeats one that was not lost. */
  lemma ConfirmedTwiceNeeds(m: nat, n: nat, schedule: seq<Action>, s: State, a: nat, b: nat)
    requires s == Run(m, n, schedule)
    requires a < b < |s.writes| && s.writes[a].status == CONFIRMED && s.writes[b].status == CONFIRMED
    requires s.writes[a].order == s.writes[b].order
    ensures TwoMessages(s.w.orderLog, s.writes[a].order) || Repeated(m, n, schedule, s.w.orderLog, s.writes[a].order)
  {
    SagaOrigins.RunKeeps(m, n, schedule);
    E.EffectsAtMostOnce(m, n, schedule, s);
    var v, w := s.writes[a], s.writes[b];
    assert Traced(s.w.orderLog, s.origins, v.event, v.order) && Traced(s.w.orderLog, s.origins, w.event, w.order);
    if s.origins[v.event] == s.origins[w.event] {
      N.TwoResultsRepeat(m, n, schedule, v.event, w.event);
    }
  }

  /******* Overlapping hand-over *******/

  const LINES := [OrderItem(0, 5, 1, 1.0)]

  lemma Ordered() returns (schedule: seq<Action>)
    ensures var s := Run(1, 1, schedule);
            && s == PlaceStep(Init(1, 1), 0, 1, 1, LINES)
            && s.requests == map[0 := Event(0, OrderCreated, EncodeCreated(1, 1, LINES))]
            && s.w.orderLog == [[]] && s.w.orderOffsets == [0] && s.w.inventoryLog == [[]]
    ensures forall k | 0 <= k < |schedule| :: !schedule[k].Assign? && !schedule[k].Admin?
  {
    schedule := [Place(0, 1, 1, LINES)];
    Then(1, 1, [], schedule[0]);
    assert [] + [schedule[0]] == schedule;
    assert Empty(1) == [[]] && Zeros(1) == [0];
  }

  lemma Placed() returns (schedule: seq<Action>)
    ensures var s := Run(1, 1, schedule);
            && s.w.tables == Tables(map[5 := Row(1, 0)], map[]) && s.w.orderOffsets == [0] && s.w.inventoryLog == [[]]
            && s.w.orderLog == [[Event(0, OrderCreated, EncodeCreated(1, 1, LINES))]]
            && s.workers == map[] && s.origins == map[] && s.w.nextId == 1
            && 1 in s.w.orders && s.w.orders[1] == Order(1, CREATED, LINES)
            && s.w.inventoryOffsets == [0] && s.w.orderSeen == {} && s.consumers == map[]
    ensures forall k | 0 <= k < |schedule| :: !schedule[k].Assign? && !schedule[k].Admin?
  {
    var e := Event(0, OrderCreated, EncodeCreated(1, 1, LINES));
    schedule := Ordered();
    var s := Run(1, 1, schedule);
    Then(1, 1, schedule, Send(0, 0));
    schedule := schedule + [Send(0, 0)];
    assert Append([[]], 0, e)[0] == [e];
    assert Run(1, 1, schedule).w == s.w.(orderLog := [[e]]);
    Then(1, 1, schedule, Stock(5, 1));
    schedule := schedule + [Stock(5, 1)];
    assert EMPTY.inventory[5 := Row(1, 0)] == map[5 := Row(1, 0)];
  }

  const CREATED_EVENT := Event(0, OrderCreated, EncodeCreated(1, 1, LINES))

  /** Both workers are about to reserve for the same message. */
  lemma BothReceived() returns (schedule: seq<Action>)
    ensures var s := Run(1, 1, schedule);
            && s.w.tables == Tables(map[5 := Row(1, 0)], map[]) && |s.w.orderOffsets| == 1 && s.w.inventoryLog == [[]]
            && 0 in s.workers && s.workers[0].pc == Received(Msg(0, 0, CREATED_EVENT))
            && 1 in s.workers && s.workers[1].pc == Received(Msg(0, 0, CREATED_EVENT))
            && s.origins == map[] && s.w.nextId == 1
            && NothingConsumed(s)
    ensures forall k | 0 <= k < |schedule| :: !schedule[k].Admin?
  {
    schedule := Placed();
    schedule := Receive(1, 1, schedule, 0, CREATED_EVENT);
    schedule := Receive(1, 1, schedule, 1, CREATED_EVENT);
  }

  /** Order 1 is stored, and no consumer has started. */
  predicate NothingConsumed(s: State) {
    1 in s.w.orders && |s.w.orderLog| == 1 && s.w.inventoryOffsets == [0] && s.w.orderSeen == {} && s.consumers == map[]
  }

  /** The first reservation moves the stock, the second finds it held. */
  lemma ReservedTwice() returns (t: Tables)
    ensures ReserveItems(Tables(map[5 := Row(1, 0)], map[]), 1, Lines(LINES)) == Success(t)
    ensures ReserveItems(t, 1, Lines(LINES)) == Success(t) && Key(1, 5) in t.reservations
  {
    var start := Tables(map[5 := Row(1, 0)], map[]);
    assert Lines(LINES) == [Item(5, 1)];
    assert [Item(5, 1)][..0] == [];
    assert ReserveItems(start, 1, []) == Success(start);
    t := Transfer(start, 1, 5, 1);
    assert ReserveItems(start, 1, Lines(LINES)) == Success(t);
    HeldIsSkipped(t, 1, Lines(LINES));
  }

  function Reserved1(id: EventId): Event {
    Event(id, InventoryReserved, EncodeResult(1, 1, ""))
  }

  /** Worker 0 has reported the message while worker 1 has yet to reserve for it. */
  lemma OneReports(t: Tables) returns (schedule: seq<Action>)
    requires ReserveItems(Tables(map[5 := Row(1, 0)], map[]), 1, Lines(LINES)) == Success(t)
    ensures var s := Run(1, 1, schedule);
            && s.w.tables == t && |s.w.orderOffsets| == 1 && s.w.inventoryLog == [[Reserved1(1)]]
            && 1 in s.workers && s.workers[1].pc == Received(Msg(0, 0, CREATED_EVENT))
            && s.origins == map[1 := Slot(0, 0)] && s.w.nextId == 2 && NothingConsumed(s)
    ensures forall k | 0 <= k < |schedule| :: !schedule[k].Admin?
  {
    CreatedRoundTrip(1, 1, LINES);
    schedule := BothReceived();
    schedule := Process(1, 1, schedule, 0, Msg(0, 0, CREATED_EVENT), OrderPayload(1, 1, Lines(LINES)), t);
    assert Append([[]], 0, Reserved1(1))[0] == [Reserved1(1)];
  }

  /** Worker 1 takes over the partition while worker 0 still works on its message: both reserve, the
      second without effect, and both report the same message as reserved. */
  lemma OverlapReportsTwice() returns (schedule: seq<Action>)
    ensures var s := Run(1, 1, schedule);
            && 1 in s.origins && 2 in s.origins && s.origins[1] == s.origins[2]
            && s.w.inventoryLog == [[Reserved1(1), Reserved1(2)]] && NothingConsumed(s)
    ensures !X.Exclusive(1, 1, schedule)
    ensures forall k | 0 <= k < |schedule| :: !schedule[k].Admin?
  {
    CreatedRoundTrip(1, 1, LINES);
    var t := ReservedTwice();
    schedule := OneReports(t);
    schedule := Process(1, 1, schedule, 1, Msg(0, 0, CREATED_EVENT), OrderPayload(1, 1, Lines(LINES)), t);
    assert Append([[Reserved1(1)]], 0, Reserved1(2))[0] == [Reserved1(1), Reserved1(2)];
    OverlapIsNotExclusive(schedule);
  }

  lemma OverlapIsNotExclusive(schedule: seq<Action>)
    requires var s := Run(1, 1, schedule); 1 in s.origins && 2 in s.origins && s.origins[1] == s.origins[2]
    ensures !X.Exclusive(1, 1, schedule)
  {
    if X.Exclusive(1, 1, schedule) {
      N.ReservedAtMostOnce(1, 1, schedule, 1, 2);
    }
  }
}
