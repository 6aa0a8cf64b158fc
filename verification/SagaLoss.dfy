/**
 What the order of the last two calls costs.  The offset of an order message is committed before its
 InventoryReserved event is published.  A worker that dies in between, or whose publish fails, leaves the
 stock reserved, and with partitions handed over only when free nobody ever publishes that result: the
 order is never confirmed.  Nothing but such a step loses a result.
 */
module SagaLoss {
  import opened Basics
  import opened Inventory
  import opened Events
  import opened Delivery
  import opened Services
  import opened Saga
  import opened SagaPaths
  import opened SagaOrigins
  import opened SagaReports
  import D = SagaDelivery
  import X = SagaExclusive
  import C = SagaConfirms

  /** The message has been committed, no worker is about to report it, and no result came from it. */
  ghost predicate Lost(offsets: seq<nat>, workers: map<nat, Worker>, origins: map<EventId, Slot>, x: Slot) {
    && X.Below(offsets, x)
    && (forall i | i in workers && workers[i].pc.Acknowledged? :: D.SlotOf(workers[i].pc.m) != x)
    && (forall e | e in origins :: origins[e] != x)
  }

  ghost predicate LostIn(s: State, x: Slot) {
    Lost(s.w.orderOffsets, s.workers, s.origins, x)
  }

  /** A worker with the same or no message to report. */
  lemma SameReports(offsets: seq<nat>, workers: map<nat, Worker>, origins: map<EventId, Slot>, x: Slot, i: nat, k: Worker)
    requires Lost(offsets, workers, origins, x)
    requires k.pc.Acknowledged? ==> D.SlotOf(k.pc.m) != x
    ensures Lost(offsets, workers[i := k], origins, x) && Lost(offsets, workers - {i}, origins, x)
  {
  }

  /** The offset that moves is that of a message still held, so not of a lost one. */
  lemma CommitStaysLost(s: State, i: nat, call: Outcome, x: Slot)
    requires X.Inv(s) && LostIn(s, x) && i in s.workers && X.Commits(s.workers[i].pc)
    ensures LostIn(WorkStep(s, i, call), x)
  {
    var k := s.workers[i];
    var (w', pc') := CallWorker(s.w, k.pc, call);
    X.HeldAfterCommit(k, Idle);
    assert X.HeldOk(s.w.orderOffsets, k.positions, X.Held(k)) && X.Held(k)[0] == D.SlotOf(k.pc.m);
    X.CommitCall(s.w, k.pc, call);
    SameReports(s.w.orderOffsets, s.workers, s.origins, x, i, k.(pc := pc'));
  }

  lemma PublishStaysLost(s: State, i: nat, call: Outcome, x: Slot)
    requires LostIn(s, x) && i in s.workers && s.workers[i].pc.Acknowledged?
    ensures LostIn(WorkStep(s, i, call), x)
  {
    X.PublishFields(s, i, call);
    SameReports(s.w.orderOffsets, s.workers, s.origins, x, i, s.workers[i].(pc := Idle));
  }

  lemma CallStaysLost(s: State, i: nat, call: Outcome, x: Slot)
    requires LostIn(s, x) && i in s.workers && !s.workers[i].pc.Acknowledged? && !X.Commits(s.workers[i].pc)
    ensures LostIn(WorkStep(s, i, call), x)
  {
    var k := s.workers[i];
    if k.pc.Idle? {
      if k.queue != [] {
        SameReports(s.w.orderOffsets, s.workers, s.origins, x, i, k.(queue := k.queue[1..], pc := Received(k.queue[0])));
      }
    } else {
      var (w', pc') := CallWorker(s.w, k.pc, call);
      assert w'.orderOffsets == s.w.orderOffsets && !pc'.Acknowledged?;
      SameReports(s.w.orderOffsets, s.workers, s.origins, x, i, k.(pc := pc'));
    }
  }

  lemma StepStaysLost(s: State, a: Action, x: Slot)
    requires X.Inv(s) && LostIn(s, x)
    ensures LostIn(Step(s, a), x)
  {
    if D.WorkerAction(a) {
      match a
      case Assign(i, p) =>
        if p < |s.w.orderOffsets| {
          SameReports(s.w.orderOffsets, s.workers, s.origins, x, i, AssignStep(s, i, p).workers[i]);
        }
      case Revoke(i, p) =>
        if i in s.workers {
          SameReports(s.w.orderOffsets, s.workers, s.origins, x, i, s.workers[i].(positions := s.workers[i].positions - {p}));
        }
      case Fetch(i, p) =>
        if FetchStep(s, i, p) != s {
          SameReports(s.w.orderOffsets, s.workers, s.origins, x, i, FetchStep(s, i, p).workers[i]);
        }
      case Work(i, call) =>
        if i in s.workers {
          if s.workers[i].pc.Acknowledged? { PublishStaysLost(s, i, call, x); }
          else if X.Commits(s.workers[i].pc) { CommitStaysLost(s, i, call, x); }
          else { CallStaysLost(s, i, call, x); }
        }
      case Crash(i) => SameReports(s.w.orderOffsets, s.workers, s.origins, x, i, Worker(map[], [], Idle));
    } else {
      X.OtherFields(s, a);
    }
  }

  /** A crash between the commit and the publish, or a publish that fails, loses the result. */
  lemma LosingStep(s: State, a: Action, x: Slot)
    requires X.Inv(s) && Loses(s, a, x)
    ensures LostIn(Step(s, a), x)
  {
    if a.Work? {
      var k := s.workers[a.i];
      assert CallWorker(s.w, k.pc, a.call) == (s.w, Stopped);
      assert Step(s, a).workers == s.workers - {a.i};
    }
  }

  lemma InvBefore(m: nat, n: nat, schedule: seq<Action>, k: nat)
    requires X.Exclusive(m, n, schedule) && k <= |schedule|
    ensures X.Exclusive(m, n, schedule[..k]) && X.Inv(Run(m, n, schedule[..k]))
  {
    X.ExclusivePrefix(m, n, schedule, k);
    X.RunKeeps(m, n, schedule[..k]);
  }

  lemma LastStaysLost(m: nat, n: nat, before: seq<Action>, a: Action, x: Slot)
    requires X.Inv(Run(m, n, before)) && LostIn(Run(m, n, before), x)
    ensures LostIn(Run(m, n, before + [a]), x)
  {
    Then(m, n, before, a);
    StepStaysLost(Run(m, n, before), a, x);
  }

  /** What is lost stays lost. */
  lemma {:induction false} LossIsFinal(m: nat, n: nat, schedule: seq<Action>, k: nat, x: Slot)
    requires X.Exclusive(m, n, schedule) && k <= |schedule| && LostIn(Run(m, n, schedule[..k]), x)
    ensures LostIn(Run(m, n, schedule), x)
    decreases |schedule|
  {
    if k == |schedule| {
      assert schedule[..k] == schedule;
    } else {
      var before, a := schedule[..|schedule| - 1], schedule[|schedule| - 1];
      assert before[..k] == schedule[..k] && before + [a] == schedule;
      InvBefore(m, n, schedule, |schedule| - 1);
      LossIsFinal(m, n, before, k, x);
      LastStaysLost(m, n, before, a, x);
    }
  }

  /** Exactly these steps lose results: a message that is due a report and below its committed offset
      never gets one, in this state and every later one, if and only if such a step has happened to it. */
  lemma LostExactly(m: nat, n: nat, schedule: seq<Action>, s: State, x: Slot)
    requires s == Run(m, n, schedule) && X.Exclusive(m, n, schedule)
    requires X.Below(s.w.orderOffsets, x) && D.InLog(s.w.orderLog, x) && !NoReportDue(s.w, At(s.w.orderLog, x))
    ensures LostIn(s, x) <==> LosesDuring(m, n, schedule, x)
  {
    if LosesDuring(m, n, schedule, x) {
      LostForGood(m, n, schedule, x);
    }
    if LostIn(s, x) {
      NothingElseIsLost(m, n, schedule, s, x);
      assert !HasResult(s.origins, x) && !AboutToReport(s.workers, x);
    }
  }

  /** However the run goes on, also with redeliveries and other workers, no InventoryReserved event comes
      from a message whose result was lost. */
  lemma LostForGood(m: nat, n: nat, schedule: seq<Action>, x: Slot)
    requires X.Exclusive(m, n, schedule) && LosesDuring(m, n, schedule, x)
    ensures LostIn(Run(m, n, schedule), x)
  {
    var k: nat :| k < |schedule| && LosesAt(m, n, schedule, k, x);
    LostFrom(m, n, schedule, k, x);
  }

  lemma LostFrom(m: nat, n: nat, schedule: seq<Action>, k: nat, x: Slot)
    requires X.Exclusive(m, n, schedule) && k < |schedule| && LosesAt(m, n, schedule, k, x)
    ensures LostIn(Run(m, n, schedule), x)
  {
    LostNext(m, n, schedule, k, x);
    LossIsFinal(m, n, schedule, k + 1, x);
  }

  lemma LostNext(m: nat, n: nat, schedule: seq<Action>, k: nat, x: Slot)
    requires X.Exclusive(m, n, schedule) && k < |schedule| && LosesAt(m, n, schedule, k, x)
    ensures LostIn(Run(m, n, schedule[..k + 1]), x)
  {
    InvBefore(m, n, schedule, k);
    LosingStep(Run(m, n, schedule[..k]), schedule[k], x);
    assert schedule[..k + 1] == schedule[..k] + [schedule[k]];
    Then(m, n, schedule[..k], schedule[k]);
  }

  /** The message is an OrderCreated event, and all lines of its order are reserved. */
  ghost predicate ReservedMessage(w: World, x: Slot) {
    && D.InLog(w.orderLog, x) && At(w.orderLog, x).kind == OrderCreated && DecodeOrder(At(w.orderLog, x).payload).Some?
    && var order := DecodeOrder(At(w.orderLog, x).payload).value; AllHeld(w.tables, order.order, order.items)
  }

  lemma ReportedIsReserved(s: State, i: nat)
    requires D.Inv(s) && i in s.workers && s.workers[i].pc.Acknowledged?
    ensures ReservedMessage(s.w, D.SlotOf(s.workers[i].pc.m))
  {
    assert D.WorkerOk(s.w, s.workers[i]);
  }

  lemma ReservedMessageStays(w: World, w': World, x: Slot)
    requires ReservedMessage(w, x) && LogGrows(w.orderLog, w'.orderLog) && Grows(w.tables, w'.tables)
    ensures ReservedMessage(w', x)
  {
    D.SlotStays(w.orderLog, w'.orderLog, x);
  }

  /** The stock of a lost message stays reserved. */
  lemma LostStaysReserved(m: nat, n: nat, schedule: seq<Action>, w: World, x: Slot)
    requires LosesDuring(m, n, schedule, x) && w == Run(m, n, schedule).w
    ensures ReservedMessage(w, x)
  {
    var k: nat :| k < |schedule| && LosesAt(m, n, schedule, k, x);
    D.RunKeeps(m, n, schedule[..k]);
    ReportedIsReserved(Run(m, n, schedule[..k]), schedule[k].i);
    LogStays(m, n, schedule, k);
    ReservedMessageStays(Run(m, n, schedule[..k]).w, w, x);
  }

  /** And the consumers never confirm its order. */
  lemma LossLeavesUnconfirmed(m: nat, n: nat, schedule: seq<Action>, s: State, x: Slot, a: nat)
    requires s == Run(m, n, schedule) && X.Exclusive(m, n, schedule) && LosesDuring(m, n, schedule, x)
    requires forall j | 0 <= j < |schedule| :: C.NoAdminCreated(schedule[j])
    requires a < |s.writes| && s.writes[a].status == CONFIRMED && D.InLog(s.w.orderLog, x)
    ensures !Creates(At(s.w.orderLog, x), s.writes[a].order)
  {
    LostForGood(m, n, schedule, x);
    C.RunKeeps(m, n, schedule);
    SagaOrigins.RunKeeps(m, n, schedule);
    var v := s.writes[a];
    assert Traced(s.w.orderLog, s.origins, v.event, v.order);
    assert s.origins[v.event] != x;
  }

  /******* A run that loses a result *******/

  lemma OneAssign(m: nat, n: nat, before: seq<Action>, schedule: seq<Action>, rest: seq<Action>)
    requires forall k | 0 <= k < |before| :: !before[k].Assign?
    requires Run(m, n, before).workers == map[] && schedule == before + [Assign(0, 0)] + rest
    requires forall k | 0 <= k < |rest| :: !rest[k].Assign?
    ensures X.Exclusive(m, n, schedule)
  {
    forall k | 0 <= k < |schedule| && schedule[k].Assign? ensures X.Free(Run(m, n, schedule[..k]), schedule[k].partition) {
      assert k == |before| && schedule[..k] == before;
    }
  }

  const LOSING := [Fetch(0, 0), Work(0, Failed), Work(0, Done(0)), Work(0, Done(0)), Work(0, Done(0)), Work(0, Failed)]

  /** Committed, and the publish fails. */
  lemma CommitThenFail(received: seq<Action>, order: OrderPayload, t: Tables)
    requires var s := Run(1, 1, received);
             && 0 in s.workers && s.workers[0].pc == Received(Msg(0, 0, C.CREATED_EVENT)) && |s.w.orderOffsets| == 1
             && DecodeOrder(C.CREATED_EVENT.payload) == Some(order) && ReserveItems(s.w.tables, order.order, order.items) == Success(t)
    ensures var s, done := Run(1, 1, received), Work(0, Done(0));
            var s' := Run(1, 1, received + [done] + [done] + [done] + [Work(0, Failed)]);
            s' == s.(w := WorldCommitted(s.w, Msg(0, 0, C.CREATED_EVENT), t), workers := s.workers - {0})
  {
    var done := Work(0, Done(0));
    WorkerCommits(Run(1, 1, received), 0, 0, Msg(0, 0, C.CREATED_EVENT), order, t);
    Then(1, 1, received, done);
    Then(1, 1, received + [done], done);
    Then(1, 1, received + [done] + [done], done);
    var committed := received + [done] + [done] + [done];
    Then(1, 1, committed, Work(0, Failed));
    FailedPublish(Run(1, 1, committed), 0);
    PutThenRemove(Run(1, 1, received).workers, 0, Run(1, 1, committed).workers[0]);
  }

  lemma PutThenRemove<K, V>(m: map<K, V>, k: K, v: V)
    ensures m[k := v] - {k} == m - {k}
  {
  }

  /** Without any crash or hand-over: the order is stored, its stock is reserved, its message is committed,
      the publish fails, and the inventory topic stays empty. */
  lemma FailedPublishLoses() returns (schedule: seq<Action>)
    ensures var s := Run(1, 1, schedule);
            && X.Exclusive(1, 1, schedule) && LostIn(s, Slot(0, 0))
            && s.w.orderOffsets == [1] && s.w.inventoryLog == [[]]
            && 1 in s.w.orders && s.w.orders[1].status == CREATED && Key(1, 5) in s.w.tables.reservations
  {
    var e, order, done := C.CREATED_EVENT, OrderPayload(1, 1, Lines(C.LINES)), Work(0, Done(0));
    CreatedRoundTrip(1, 1, C.LINES);
    var t := C.ReservedTwice();
    var placed := C.Placed();
    var received := Receive(1, 1, placed, 0, e);
    CommitThenFail(received, order, t);
    schedule := received + [done] + [done] + [done] + [Work(0, Failed)];
    assert schedule == placed + [Assign(0, 0)] + LOSING;
    OneAssign(1, 1, placed, schedule, LOSING);
  }

  lemma FailedPublish(s: State, i: nat)
    requires i in s.workers && s.workers[i].pc.Acknowledged?
    ensures Step(s, Work(i, Failed)) == s.(workers := s.workers - {i})
  {
  }

  lemma {:induction false} LogStays(m: nat, n: nat, schedule: seq<Action>, k: nat)
    requires k <= |schedule|
    ensures LogGrows(Run(m, n, schedule[..k]).w.orderLog, Run(m, n, schedule).w.orderLog)
    ensures Grows(Run(m, n, schedule[..k]).w.tables, Run(m, n, schedule).w.tables)
    decreases |schedule|
  {
    if k == |schedule| {
      assert schedule[..k] == schedule;
    } else {
      var before, a := schedule[..|schedule| - 1], schedule[|schedule| - 1];
      assert before[..k] == schedule[..k] && before + [a] == schedule;
      LogStays(m, n, before, k);
      Then(m, n, before, a);
      StepEvolves(Run(m, n, before), a);
    }
  }
}
