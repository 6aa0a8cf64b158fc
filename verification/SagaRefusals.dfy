/**
 What the inventory workers acknowledge without a reservation.  The failure notes want a message to stay
 unacknowledged until its reservation is made; the code reports any error as a refusal and commits the offset.
 In every run, with any hand-over, an order that is not reserved lies below a committed offset at some moment
 exactly when a worker has committed it after its own reservation was refused, failed, or lost its answer.
 */
module SagaRefusals {
  import opened Basics
  import opened Inventory
  import opened Events
  import opened Delivery
  import opened Services
  import opened Saga
  import opened SagaOrigins
  import opened SagaPaths
  import C = SagaConfirms
  import D = SagaDelivery
  import R = SagaReports
  import X = SagaExclusive

  ghost predicate IsReserved(t: Tables, e: Event) {
    && DecodeOrder(e.payload).Some?
    && var order := DecodeOrder(e.payload).value; AllHeld(t, order.order, order.items)
  }

  /** Lines are asked for at `x`, and not all of them are reserved. */
  ghost predicate Unreserved(w: World, x: Slot) {
    D.InLog(w.orderLog, x) && At(w.orderLog, x).kind == OrderCreated && !IsReserved(w.tables, At(w.orderLog, x))
  }

  ghost predicate PassedUnreserved(w: World, x: Slot) {
    X.Below(w.orderOffsets, x) && Unreserved(w, x)
  }

  /** The step commits the message at `x` after its refusal. */
  predicate GivesUp(s: State, a: Action, x: Slot) {
    a.Work? && a.call.Done? && a.i in s.workers && s.workers[a.i].pc.Reported? && D.SlotOf(s.workers[a.i].pc.m) == x
  }

  /** The reservation of the message at `x` is refused: its transaction fails or is not known to have committed. */
  predicate Refuses(s: State, a: Action, x: Slot) {
    && a.Work? && a.i in s.workers && s.workers[a.i].pc.Received? && D.SlotOf(s.workers[a.i].pc.m) == x
    && var e := s.workers[a.i].pc.m.event;
       e.kind == OrderCreated && DecodeOrder(e.payload).Some?
       && var order := DecodeOrder(e.payload).value;
          !a.call.Done? || ReserveItems(s.w.tables, order.order, order.items).Failure?
  }

  ghost predicate GivesUpDuring(m: nat, n: nat, schedule: seq<Action>, x: Slot) {
    exists k: nat :: k < |schedule| && GivesUp(Run(m, n, schedule[..k]), schedule[k], x)
  }

  ghost predicate RefusedDuring(m: nat, n: nat, schedule: seq<Action>, x: Slot) {
    exists k: nat :: k < |schedule| && Refuses(Run(m, n, schedule[..k]), schedule[k], x)
  }

  lemma GivenUpNext(m: nat, n: nat, before: seq<Action>, a: Action, x: Slot)
    ensures GivesUpDuring(m, n, before + [a], x) <==> GivesUpDuring(m, n, before, x) || GivesUp(Run(m, n, before), a, x)
  {
    var schedule := before + [a];
    assert schedule[..|before|] == before && schedule[|before|] == a;
    forall k: nat | k < |before| ensures schedule[..k] == before[..k] && schedule[k] == before[k] {}
    if GivesUpDuring(m, n, before, x) {
      var k: nat :| k < |before| && GivesUp(Run(m, n, before[..k]), before[k], x);
      assert GivesUp(Run(m, n, schedule[..k]), schedule[k], x);
    }
  }

  lemma RefusedNext(m: nat, n: nat, before: seq<Action>, a: Action, x: Slot)
    ensures RefusedDuring(m, n, before + [a], x) <==> RefusedDuring(m, n, before, x) || Refuses(Run(m, n, before), a, x)
  {
    var schedule := before + [a];
    assert schedule[..|before|] == before && schedule[|before|] == a;
    forall k: nat | k < |before| ensures schedule[..k] == before[..k] && schedule[k] == before[k] {}
    if RefusedDuring(m, n, before, x) {
      var k: nat :| k < |before| && Refuses(Run(m, n, before[..k]), before[k], x);
      assert Refuses(Run(m, n, schedule[..k]), schedule[k], x);
    }
  }

  /******* One step *******/

  lemma ReservedStays(w: World, w': World, x: Slot)
    requires Evolves(w, w') && D.InLog(w.orderLog, x) && Unreserved(w', x)
    ensures Unreserved(w, x)
  {
    D.SlotStays(w.orderLog, w'.orderLog, x);
  }

  /** A worker that commits the message at `x` has reserved it, unless it gives up or nothing was asked for. */
  lemma CommittedIsReserved(s: State, a: Action, x: Slot)
    requires D.Inv(s) && R.CommitsSlot(s, a, x)
    ensures D.InLog(s.w.orderLog, x) && a.call.Done?
    ensures GivesUp(s, a, x) <==> s.workers[a.i].pc.Reported?
    ensures Unreserved(s.w, x) ==> GivesUp(s, a, x)
  {
    var k := s.workers[a.i];
    assert D.WorkerOk(s.w, k) && (D.Current(k.pc) + k.queue)[0] == k.pc.m;
  }

  /** A step acknowledges an order that is not reserved if and only if its worker gives up on it. */
  lemma PassesExactly(s: State, a: Action, x: Slot)
    requires D.Inv(s)
    ensures R.CommitsSlot(s, a, x) && Unreserved(s.w, x) <==> GivesUp(s, a, x) && Unreserved(s.w, x)
    ensures GivesUp(s, a, x) && Unreserved(s.w, x) ==> PassedUnreserved(Step(s, a).w, x)
  {
    if R.CommitsSlot(s, a, x) {
      CommittedIsReserved(s, a, x);
    }
    if GivesUp(s, a, x) {
      R.HeldInRange(s, a.i);
      X.CommitCall(s.w, s.workers[a.i].pc, a.call);
      GivingUpFields(s, a.i, a.call);
    }
  }

  lemma GivingUpFields(s: State, i: nat, call: Outcome)
    requires i in s.workers && s.workers[i].pc.Reported? && call.Done?
    ensures var s' := WorkStep(s, i, call);
            i in s'.workers && s'.w == s.w.(orderOffsets := CommitTo(s.w.orderOffsets, s.workers[i].pc.m))
  {
  }

  /******* Every run *******/

  /** Messages that no longer wait for a reservation. */
  ghost function Settled(w: World, given: iset<Slot>): iset<Slot> {
    iset x: Slot | D.InLog(w.orderLog, x) && (x in given || !Unreserved(w, x))
  }

  lemma SettledGrows(w: World, w': World, given: iset<Slot>, given': iset<Slot>)
    requires Evolves(w, w') && given <= given'
    ensures Settled(w, given) <= Settled(w', given')
  {
    forall x | x in Settled(w, given) ensures x in Settled(w', given') {
      D.SlotStays(w.orderLog, w'.orderLog, x);
      if Unreserved(w', x) { ReservedStays(w, w', x); }
    }
  }

  ghost function GivenSlots(m: nat, n: nat, schedule: seq<Action>): iset<Slot> {
    iset x: Slot | GivesUpDuring(m, n, schedule, x)
  }

  lemma StepKeeps(s: State, a: Action, given: iset<Slot>, given': iset<Slot>)
    requires D.Inv(s) && R.AllIn(s, Settled(s.w, given))
    requires given <= given' && forall x | GivesUp(s, a, x) :: x in given'
    ensures R.AllIn(Step(s, a), Settled(Step(s, a).w, given'))
  {
    var done := Settled(Step(s, a).w, given');
    StepEvolves(s, a);
    SettledGrows(s.w, Step(s, a).w, given, given');
    R.MoreIn(s, Settled(s.w, given), done);
    forall x | R.CommitsSlot(s, a, x) ensures x in done {
      CommittedIsReserved(s, a, x);
      D.SlotStays(s.w.orderLog, Step(s, a).w.orderLog, x);
      if Unreserved(Step(s, a).w, x) { ReservedStays(s.w, Step(s, a).w, x); }
    }
    R.StepKeepsIn(s, a, done);
  }

  lemma {:induction false} RunKeeps(m: nat, n: nat, schedule: seq<Action>)
    ensures R.AllIn(Run(m, n, schedule), Settled(Run(m, n, schedule).w, GivenSlots(m, n, schedule)))
  {
    if schedule != [] {
      var before, a := schedule[..|schedule| - 1], schedule[|schedule| - 1];
      RunKeeps(m, n, before);
      D.RunKeeps(m, n, before);
      assert before + [a] == schedule;
      forall x ensures GivesUpDuring(m, n, schedule, x) <==> GivesUpDuring(m, n, before, x) || GivesUp(Run(m, n, before), a, x) {
        GivenUpNext(m, n, before, a, x);
      }
      StepKeeps(Run(m, n, before), a, GivenSlots(m, n, before), GivenSlots(m, n, schedule));
    }
  }

  /** Every order below a committed offset is reserved, or a worker has given up on it. */
  lemma ReservedOrGivenUp(m: nat, n: nat, schedule: seq<Action>, x: Slot)
    requires PassedUnreserved(Run(m, n, schedule).w, x)
    ensures GivesUpDuring(m, n, schedule, x)
  {
    RunKeeps(m, n, schedule);
    assert x in Settled(Run(m, n, schedule).w, GivenSlots(m, n, schedule));
  }

  /** At some moment of the run, an unreserved order is below a committed offset. */
  ghost predicate PassedDuring(m: nat, n: nat, schedule: seq<Action>, x: Slot) {
    exists k: nat :: k <= |schedule| && PassedUnreserved(Run(m, n, schedule[..k]).w, x)
  }

  /** At some step of the run, a worker gives up on an order that is not reserved. */
  ghost predicate GivenUpUnreserved(m: nat, n: nat, schedule: seq<Action>, x: Slot) {
    exists k: nat :: k < |schedule| && GivesUp(Run(m, n, schedule[..k]), schedule[k], x) && Unreserved(Run(m, n, schedule[..k]).w, x)
  }

  lemma {:induction false} UnreservedBefore(m: nat, n: nat, first: seq<Action>, schedule: seq<Action>, x: Slot)
    requires first <= schedule && D.InLog(Run(m, n, first).w.orderLog, x) && Unreserved(Run(m, n, schedule).w, x)
    ensures Unreserved(Run(m, n, first).w, x)
    decreases |schedule|
  {
    if |first| == |schedule| {
      assert first == schedule;
    } else {
      var before := schedule[..|schedule| - 1];
      InLogStays(m, n, first, before, x);
      StepEvolves(Run(m, n, before), schedule[|schedule| - 1]);
      ReservedStays(Run(m, n, before).w, Run(m, n, schedule).w, x);
      UnreservedBefore(m, n, first, before, x);
    }
  }

  lemma {:induction false} InLogStays(m: nat, n: nat, first: seq<Action>, schedule: seq<Action>, x: Slot)
    requires first <= schedule && D.InLog(Run(m, n, first).w.orderLog, x)
    ensures D.InLog(Run(m, n, schedule).w.orderLog, x)
    decreases |schedule|
  {
    if |first| == |schedule| {
      assert first == schedule;
    } else {
      var before := schedule[..|schedule| - 1];
      InLogStays(m, n, first, before, x);
      StepEvolves(Run(m, n, before), schedule[|schedule| - 1]);
      D.SlotStays(Run(m, n, before).w.orderLog, Run(m, n, schedule).w.orderLog, x);
    }
  }

  lemma GivingUpPasses(m: nat, n: nat, before: seq<Action>, a: Action, x: Slot)
    requires GivesUp(Run(m, n, before), a, x) && Unreserved(Run(m, n, before).w, x)
    ensures PassedUnreserved(Run(m, n, before + [a]).w, x)
  {
    D.RunKeeps(m, n, before);
    PassesExactly(Run(m, n, before), a, x);
    Then(m, n, before, a);
  }

  lemma GivenUpPassed(m: nat, n: nat, schedule: seq<Action>, k: nat, x: Slot)
    requires k < |schedule| && GivesUp(Run(m, n, schedule[..k]), schedule[k], x) && Unreserved(Run(m, n, schedule[..k]).w, x)
    ensures PassedDuring(m, n, schedule, x)
  {
    GivingUpPasses(m, n, schedule[..k], schedule[k], x);
    assert schedule[..k + 1] == schedule[..k] + [schedule[k]];
  }

  /** The step that gave up on it found the order unreserved, too. */
  lemma PassingWasGivenUp(m: nat, n: nat, schedule: seq<Action>, first: seq<Action>, x: Slot)
    requires first <= schedule && PassedUnreserved(Run(m, n, first).w, x)
    ensures GivenUpUnreserved(m, n, schedule, x)
  {
    ReservedOrGivenUp(m, n, first, x);
    var j: nat :| j < |first| && GivesUp(Run(m, n, first[..j]), first[j], x);
    GivenUpInLog(m, n, first[..j], first[j], x);
    UnreservedBefore(m, n, first[..j], first, x);
    assert first[..j] == schedule[..j] && first[j] == schedule[j];
  }

  /** In every run, with any hand-over: a message whose order is not reserved is below a committed offset
      at some moment if and only if a worker gives up on it at some step while it is not reserved. */
  lemma AcknowledgedUnreservedExactly(m: nat, n: nat, schedule: seq<Action>, x: Slot)
    ensures PassedDuring(m, n, schedule, x) <==> GivenUpUnreserved(m, n, schedule, x)
  {
    if PassedDuring(m, n, schedule, x) {
      var k: nat :| k <= |schedule| && PassedUnreserved(Run(m, n, schedule[..k]).w, x);
      PassingWasGivenUp(m, n, schedule, schedule[..k], x);
    }
    if GivenUpUnreserved(m, n, schedule, x) {
      var k: nat :| k < |schedule| && GivesUp(Run(m, n, schedule[..k]), schedule[k], x) && Unreserved(Run(m, n, schedule[..k]).w, x);
      GivenUpPassed(m, n, schedule, k, x);
    }
  }

  lemma GivenUpInLog(m: nat, n: nat, before: seq<Action>, a: Action, x: Slot)
    requires GivesUp(Run(m, n, before), a, x)
    ensures D.InLog(Run(m, n, before).w.orderLog, x)
  {
    D.RunKeeps(m, n, before);
    assert D.WorkerOk(Run(m, n, before).w, Run(m, n, before).workers[a.i]);
  }

  /******* Where refusals come from *******/

  /** A worker on its way to giving up. */
  predicate Refusing(pc: WorkerPc, x: Slot) {
    (pc.Refused? || pc.Reported?) && D.SlotOf(pc.m) == x
  }

  /** What makes a reservation refused, whatever the reason. */
  lemma RefusesExactly(s: State, i: nat, call: Outcome)
    requires i in s.workers && s.workers[i].pc.Received?
    ensures var s' := WorkStep(s, i, call);
            Refuses(s, Work(i, call), D.SlotOf(s.workers[i].pc.m)) <==> i in s'.workers && Refusing(s'.workers[i].pc, D.SlotOf(s.workers[i].pc.m))
  {
  }

  lemma RefusingStep(s: State, a: Action, i: nat, x: Slot)
    requires i in Step(s, a).workers && Refusing(Step(s, a).workers[i].pc, x)
    ensures (i in s.workers && Refusing(s.workers[i].pc, x)) || Refuses(s, a, x)
  {
    if a.WorkC? { X.WorkCFields(s, a.i, a.call); }
    if a.Work? && a.i in s.workers { RefusingCall(s, a.i, a.call, i, x); }
  }

  lemma RefusingCall(s: State, j: nat, call: Outcome, i: nat, x: Slot)
    requires j in s.workers && i in WorkStep(s, j, call).workers && Refusing(WorkStep(s, j, call).workers[i].pc, x)
    ensures (i in s.workers && Refusing(s.workers[i].pc, x)) || Refuses(s, Work(j, call), x)
  {
  }

  lemma {:induction false} RefusingWasRefused(m: nat, n: nat, schedule: seq<Action>, i: nat, x: Slot)
    requires i in Run(m, n, schedule).workers && Refusing(Run(m, n, schedule).workers[i].pc, x)
    ensures RefusedDuring(m, n, schedule, x)
  {
    if schedule != [] {
      var before, a := schedule[..|schedule| - 1], schedule[|schedule| - 1];
      assert before + [a] == schedule;
      RefusingStep(Run(m, n, before), a, i, x);
      RefusedNext(m, n, before, a, x);
      if !Refuses(Run(m, n, before), a, x) {
        RefusingWasRefused(m, n, before, i, x);
      }
    }
  }

  /** A worker gives up only on a message whose reservation it saw refused, failing, or losing its answer. */
  lemma GivenUpWasRefused(m: nat, n: nat, schedule: seq<Action>, x: Slot)
    requires GivesUpDuring(m, n, schedule, x)
    ensures RefusedDuring(m, n, schedule, x)
  {
    var k: nat :| k < |schedule| && GivesUp(Run(m, n, schedule[..k]), schedule[k], x);
    RefusingWasRefused(m, n, schedule[..k], schedule[k].i, x);
    RefusedBefore(m, n, schedule, schedule[..k], x);
  }

  lemma RefusedBefore(m: nat, n: nat, schedule: seq<Action>, first: seq<Action>, x: Slot)
    requires first <= schedule && RefusedDuring(m, n, first, x)
    ensures RefusedDuring(m, n, schedule, x)
  {
    var j: nat :| j < |first| && Refuses(Run(m, n, first[..j]), first[j], x);
    assert first[..j] == schedule[..j] && first[j] == schedule[j];
  }

  /******* The database is down for one call *******/

  const FAILURE_EVENT := Event(1, InventoryReservationFailed, EncodeResult(1, 1, ErrorText(Fault)))

  /** The reservation fails, the failure is published and the offset committed. */
  lemma RefusalSteps(s: State, i: nat, e: Event, order: OrderPayload)
    requires i in s.workers && s.workers[i].pc == Received(Msg(0, 0, e)) && e.kind == OrderCreated
    requires DecodeOrder(e.payload) == Some(order) && |s.w.orderOffsets| > 0 && |s.w.inventoryLog| > 0
    ensures var s1 := Step(s, Work(i, Failed));
            var s2 := Step(s1, Work(i, Done(0)));
            var s3 := Step(s2, Work(i, Done(0)));
            s3.w == s.w.(inventoryLog := Append(s.w.inventoryLog, 0, ResultEvent(s.w, InventoryReservationFailed, order, ErrorText(Fault))),
                         nextId := s.w.nextId + 1, orderOffsets := s.w.orderOffsets[0 := 1])
  {
    var k, msg, text := s.workers[i], Msg(0, 0, e), ErrorText(Fault);
    var s1 := Step(s, Work(i, Failed));
    assert s1 == s.(workers := s.workers[i := k.(pc := Refused(msg, order, text))]);
    var s2 := Step(s1, Work(i, Done(0)));
    assert s2.workers[i].pc == Reported(msg, order);
  }

  /** A single failure of the database, although the stock is there: the message is acknowledged, its
      failure published, and nothing reserved. */
  lemma RefusalAcknowledged() returns (schedule: seq<Action>)
    ensures var w := Run(1, 1, schedule).w;
            && w.orderOffsets == [1] && w.inventoryLog == [[FAILURE_EVENT]]
            && w.tables == Tables(map[5 := Row(1, 0)], map[]) && PassedUnreserved(w, Slot(0, 0))
  {
    var e, order := C.CREATED_EVENT, OrderPayload(1, 1, Lines(C.LINES));
    CreatedRoundTrip(1, 1, C.LINES);
    var placed := C.Placed();
    schedule := Receive(1, 1, placed, 0, e);
    RefusalSteps(Run(1, 1, schedule), 0, e, order);
    Then(1, 1, schedule, Work(0, Failed));
    Then(1, 1, schedule + [Work(0, Failed)], Work(0, Done(0)));
    Then(1, 1, schedule + [Work(0, Failed)] + [Work(0, Done(0))], Work(0, Done(0)));
    schedule := schedule + [Work(0, Failed)] + [Work(0, Done(0))] + [Work(0, Done(0))];
    assert Append([[]], 0, FAILURE_EVENT)[0] == [FAILURE_EVENT];
    assert order.items[0] == Item(5, 1);
  }
}
