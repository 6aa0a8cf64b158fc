/**
 Where results come from: every InventoryReserved event, and every CONFIRMED a consumer writes, goes
 back to an OrderCreated message of the same order.  `SagaCounts` counts the results of a message, and
 `SagaConfirms` bounds the confirmations of an order.
 */
module SagaOrigins {
  import opened Basics
  import opened Events
  import opened Delivery
  import opened Services
  import opened Saga
  import D = SagaDelivery

  ghost predicate Creates(e: Event, o: OrderId) {
    e.kind == OrderCreated && DecodeOrder(e.payload).Some? && DecodeOrder(e.payload).value.order == o
  }

  function At(log: Log, x: Slot): Event
    requires x.partition < |log| && x.offset < |log[x.partition]|
  {
    log[x.partition][x.offset]
  }

  /** Event `e` was caused by an OrderCreated message of order `o`. */
  ghost predicate Traced(log: Log, origins: map<EventId, Slot>, e: EventId, o: OrderId) {
    e in origins && D.InLog(log, origins[e]) && Creates(At(log, origins[e]), o)
  }

  ghost predicate FreshIds(log: Log, nextId: EventId) {
    && (forall x: Slot | D.InLog(log, x) :: At(log, x).id < nextId)
    && (forall x: Slot, y: Slot | D.InLog(log, x) && D.InLog(log, y) && x != y :: At(log, x).id != At(log, y).id)
  }

  ghost predicate ResultTraced(log: Log, origins: map<EventId, Slot>, e: Event) {
    e.kind == InventoryReserved ==>
      DecodeResult(e.payload).Some? && Traced(log, origins, e.id, DecodeResult(e.payload).value.order)
  }

  ghost predicate LogTraced(log: Log, origins: map<EventId, Slot>, results: Log) {
    forall x: Slot | D.InLog(results, x) :: ResultTraced(log, origins, At(results, x))
  }

  ghost predicate WritesTraced(log: Log, origins: map<EventId, Slot>, writes: seq<Effect>) {
    forall a | 0 <= a < |writes| && writes[a].status == CONFIRMED :: Traced(log, origins, writes[a].event, writes[a].order)
  }

  ghost predicate Inv(s: State) {
    && FreshIds(s.w.inventoryLog, s.w.nextId)
    && (forall e | e in s.origins :: e < s.w.nextId)
    && LogTraced(s.w.orderLog, s.origins, s.w.inventoryLog)
    && WritesTraced(s.w.orderLog, s.origins, s.writes)
  }

  /******* Steps *******/

  ghost predicate OriginsGrow(origins: map<EventId, Slot>, origins': map<EventId, Slot>) {
    forall e | e in origins :: e in origins' && origins'[e] == origins[e]
  }

  lemma TracedStays(log: Log, log': Log, origins: map<EventId, Slot>, origins': map<EventId, Slot>)
    requires LogGrows(log, log') && OriginsGrow(origins, origins')
    ensures forall e, o | Traced(log, origins, e, o) :: Traced(log', origins', e, o)
    ensures forall results | LogTraced(log, origins, results) :: LogTraced(log', origins', results)
    ensures forall writes | WritesTraced(log, origins, writes) :: WritesTraced(log', origins', writes)
  {
    forall e, o | Traced(log, origins, e, o) ensures Traced(log', origins', e, o) {
      D.SlotStays(log, log', origins[e]);
    }
    forall results | LogTraced(log, origins, results) ensures LogTraced(log', origins', results) {
      forall x: Slot | D.InLog(results, x) ensures ResultTraced(log', origins', At(results, x)) {
        assert ResultTraced(log, origins, At(results, x));
      }
    }
  }

  /** A step that leaves the inventory topic and the writes alone. */
  lemma Quiet(s: State, s': State)
    requires Inv(s) && LogGrows(s.w.orderLog, s'.w.orderLog)
    requires s'.w.inventoryLog == s.w.inventoryLog && s'.origins == s.origins && s'.writes == s.writes && s.w.nextId <= s'.w.nextId
    ensures Inv(s')
  {
    TracedStays(s.w.orderLog, s'.w.orderLog, s.origins, s.origins);
  }

  lemma AppendResult(log: Log, origins: map<EventId, Slot>, results: Log, p: nat, e: Event)
    requires p < |results| && LogTraced(log, origins, results) && ResultTraced(log, origins, e)
    requires FreshIds(results, e.id)
    ensures LogTraced(log, origins, Append(results, p, e))
    ensures FreshIds(Append(results, p, e), e.id + 1)
  {
    var results' := Append(results, p, e);
    forall x: Slot | D.InLog(results', x) ensures x == Slot(p, |results[p]|) || (D.InLog(results, x) && At(results', x) == At(results, x)) {}
  }

  /** Publishing a result of either kind. */
  lemma Publish(s: State, s': State, p: nat, e: Event)
    requires Inv(s) && p < |s.w.inventoryLog| && e.id == s.w.nextId
    requires s'.w.inventoryLog == Append(s.w.inventoryLog, p, e) && s'.w.nextId == s.w.nextId + 1
    requires s'.w.orderLog == s.w.orderLog && s'.writes == s.writes && OriginsGrow(s.origins, s'.origins)
    requires forall f | f in s'.origins :: f < s'.w.nextId
    requires ResultTraced(s.w.orderLog, s'.origins, e)
    ensures Inv(s')
  {
    TracedStays(s.w.orderLog, s.w.orderLog, s.origins, s'.origins);
    AppendResult(s.w.orderLog, s'.origins, s.w.inventoryLog, p, e);
  }

  lemma PublishSuccess(s: State, i: nat, call: Outcome)
    requires Inv(s) && D.Inv(s) && i in s.workers && s.workers[i].pc.Acknowledged?
    ensures Inv(WorkStep(s, i, call))
  {
    var pc, s' := s.workers[i].pc, WorkStep(s, i, call);
    if call.Done? && call.partition < |s.w.inventoryLog| {
      var e := ResultEvent(s.w, InventoryReserved, pc.order, "");
      ResultRoundTrip(pc.order.order, pc.order.user, "");
      assert D.WorkerOk(s.w, s.workers[i]);
      assert D.InLog(s.w.orderLog, D.SlotOf(pc.m)) && Creates(At(s.w.orderLog, D.SlotOf(pc.m)), pc.order.order);
      assert s'.origins == s.origins[e.id := D.SlotOf(pc.m)];
      Publish(s, s', call.partition, e);
    } else {
      Quiet(s, s');
    }
  }

  lemma PublishFailure(s: State, i: nat, call: Outcome)
    requires Inv(s) && i in s.workers && s.workers[i].pc.Refused?
    ensures Inv(WorkStep(s, i, call))
  {
    var pc, s' := s.workers[i].pc, WorkStep(s, i, call);
    if call.Done? && call.partition < |s.w.inventoryLog| {
      Publish(s, s', call.partition, ResultEvent(s.w, InventoryReservationFailed, pc.order, pc.reason));
    } else {
      Quiet(s, s');
    }
  }

  lemma QuietCall(s: State, i: nat, call: Outcome)
    requires Inv(s) && (i in s.workers ==> !s.workers[i].pc.Acknowledged? && !s.workers[i].pc.Refused?)
    ensures Inv(WorkStep(s, i, call))
  {
    var s' := WorkStep(s, i, call);
    assert s'.w.inventoryLog == s.w.inventoryLog && s'.w.orderLog == s.w.orderLog && s'.w.nextId == s.w.nextId;
    Quiet(s, s');
  }

  lemma WorkKeeps(s: State, i: nat, call: Outcome)
    requires Inv(s) && D.Inv(s)
    ensures Inv(WorkStep(s, i, call))
  {
    if i in s.workers && s.workers[i].pc.Acknowledged? { PublishSuccess(s, i, call); }
    else if i in s.workers && s.workers[i].pc.Refused? { PublishFailure(s, i, call); }
    else { QuietCall(s, i, call); }
  }

  /** The status write of a consumer. */
  lemma WriteKeeps(s: State, i: nat, call: Outcome)
    requires Inv(s) && D.Inv(s) && i in s.consumers && s.consumers[i].pc.Claimed?
    ensures Inv(WorkCStep(s, i, call))
  {
    var pc, s' := s.consumers[i].pc, WorkCStep(s, i, call);
    if s'.writes != s.writes {
      var m := pc.m;
      assert D.ConsumerOk(s.w, s.consumers[i]);
      assert D.MsgOk(s.w.inventoryLog, m) && D.InLog(s.w.inventoryLog, D.SlotOf(m));
      assert ResultTraced(s.w.orderLog, s.origins, At(s.w.inventoryLog, D.SlotOf(m)));
      assert s'.writes == s.writes + [EffectOf(pc)];
      assert WritesTraced(s.w.orderLog, s.origins, s'.writes);
      assert s'.w.inventoryLog == s.w.inventoryLog && s'.w.orderLog == s.w.orderLog && s'.w.nextId == s.w.nextId;
    } else {
      Quiet(s, s');
    }
  }

  lemma WorkCKeeps(s: State, i: nat, call: Outcome)
    requires Inv(s) && D.Inv(s) && i in s.consumers
    ensures Inv(WorkCStep(s, i, call))
  {
    if s.consumers[i].pc.Claimed? {
      WriteKeeps(s, i, call);
    } else {
      WorkCEvolves(s, i, call);
      var s' := WorkCStep(s, i, call);
      assert s'.w.inventoryLog == s.w.inventoryLog && s'.writes == s.writes && s'.origins == s.origins;
      Quiet(s, s');
    }
  }

  lemma OtherFields(s: State, a: Action)
    requires !a.Work? && !a.WorkC?
    ensures var s' := Step(s, a);
            s'.w.inventoryLog == s.w.inventoryLog && s'.origins == s.origins && s'.writes == s.writes
  {
  }

  lemma OtherKeeps(s: State, a: Action)
    requires Inv(s) && !a.Work? && !a.WorkC?
    ensures Inv(Step(s, a))
  {
    OtherFields(s, a);
    StepEvolves(s, a);
    Quiet(s, Step(s, a));
  }

  lemma StepKeeps(s: State, a: Action)
    requires Inv(s) && D.Inv(s)
    ensures Inv(Step(s, a))
  {
    if a.Work? {
      WorkKeeps(s, a.i, a.call);
    } else if a.WorkC? {
      if a.i in s.consumers { WorkCKeeps(s, a.i, a.call); }
    } else {
      OtherKeeps(s, a);
    }
  }

  lemma {:induction false} RunKeeps(m: nat, n: nat, schedule: seq<Action>)
    ensures Inv(Run(m, n, schedule))
  {
    if schedule != [] {
      var before := schedule[..|schedule| - 1];
      RunKeeps(m, n, before);
      D.RunKeeps(m, n, before);
      StepKeeps(Run(m, n, before), schedule[|schedule| - 1]);
    }
  }

  /******* The origins are the topic *******/

  ghost predicate InTopic(results: Log, e: EventId) {
    exists y: Slot :: D.InLog(results, y) && At(results, y).id == e && At(results, y).kind == InventoryReserved
  }

  lemma InTopicStays(results: Log, results': Log, e: EventId)
    requires LogGrows(results, results') && InTopic(results, e)
    ensures InTopic(results', e)
  {
    var y: Slot :| D.InLog(results, y) && At(results, y).id == e && At(results, y).kind == InventoryReserved;
    D.SlotStays(results, results', y);
  }

  lemma PublishedInTopic(s: State, i: nat, call: Outcome)
    requires i in s.workers && s.workers[i].pc.Acknowledged? && call.Done? && call.partition < |s.w.inventoryLog|
    ensures WorkStep(s, i, call).origins == s.origins[s.w.nextId := D.SlotOf(s.workers[i].pc.m)]
    ensures InTopic(WorkStep(s, i, call).w.inventoryLog, s.w.nextId)
  {
    var results' := WorkStep(s, i, call).w.inventoryLog;
    var y := Slot(call.partition, |s.w.inventoryLog[call.partition]|);
    assert D.InLog(results', y) && At(results', y) == ResultEvent(s.w, InventoryReserved, s.workers[i].pc.order, "");
  }

  lemma NoNewOrigin(s: State, a: Action)
    requires !(a.Work? && a.i in s.workers && s.workers[a.i].pc.Acknowledged? && a.call.Done? && a.call.partition < |s.w.inventoryLog|)
    ensures Step(s, a).origins == s.origins
  {
  }

  lemma StepInTopic(s: State, a: Action, e: EventId)
    requires e in s.origins ==> InTopic(s.w.inventoryLog, e)
    ensures e in Step(s, a).origins ==> InTopic(Step(s, a).w.inventoryLog, e)
  {
    StepEvolves(s, a);
    if e in s.origins {
      InTopicStays(s.w.inventoryLog, Step(s, a).w.inventoryLog, e);
    } else if a.Work? && a.i in s.workers && s.workers[a.i].pc.Acknowledged? && a.call.Done? && a.call.partition < |s.w.inventoryLog| {
      PublishedInTopic(s, a.i, a.call);
    } else {
      NoNewOrigin(s, a);
    }
  }

  /** The ids with an origin are exactly those of the InventoryReserved events in the topic. */
  lemma {:induction false} OriginsAreTopic(m: nat, n: nat, schedule: seq<Action>, e: EventId)
    ensures e in Run(m, n, schedule).origins <==> InTopic(Run(m, n, schedule).w.inventoryLog, e)
  {
    RunKeeps(m, n, schedule);
    if schedule != [] {
      var before := schedule[..|schedule| - 1];
      OriginsAreTopic(m, n, before, e);
      StepInTopic(Run(m, n, before), schedule[|schedule| - 1], e);
    }
    if InTopic(Run(m, n, schedule).w.inventoryLog, e) {
      TopicHasOrigins(Run(m, n, schedule), e);
    }
  }

  lemma TopicHasOrigins(s: State, e: EventId)
    requires Inv(s) && InTopic(s.w.inventoryLog, e)
    ensures e in s.origins
  {
    var y: Slot :| D.InLog(s.w.inventoryLog, y) && At(s.w.inventoryLog, y).id == e && At(s.w.inventoryLog, y).kind == InventoryReserved;
    assert ResultTraced(s.w.orderLog, s.origins, At(s.w.inventoryLog, y));
  }
}
