/**
 How the order service answers results, over every run: whatever a consumer writes or announces goes back to
 a result event in the inventory topic.  A failed reservation cancels its order, a made one confirms it, and
 nothing else is ever written or announced by a consumer.
 */
module SagaAnswers {
  import opened Basics
  import opened Inventory
  import opened Events
  import opened Delivery
  import opened Services
  import opened Saga
  import opened SagaOrigins
  import opened SagaPaths
  import D = SagaDelivery
  import E = SagaEffects

  /** The write answers the result event at `x`. */
  ghost predicate Answers(w: World, e: Effect, x: Slot) {
    && D.InLog(w.inventoryLog, x)
    && var result := At(w.inventoryLog, x);
       && result.id == e.event
       && (result.kind == InventoryReservationFailed || result.kind == InventoryReserved)
       && (e.status == CANCELLED <==> result.kind == InventoryReservationFailed)
       && (e.status == CONFIRMED <==> result.kind == InventoryReserved)
       && DecodeResult(result.payload).Some? && DecodeResult(result.payload).value.order == e.order
  }

  ghost predicate Answered(w: World, e: Effect) {
    exists x: Slot :: Answers(w, e, x)
  }

  ghost predicate AllAnswered(w: World, writes: seq<Effect>) {
    forall n | 0 <= n < |writes| :: Answered(w, writes[n])
  }

  lemma AnsweredStays(w: World, w': World, e: Effect)
    requires Evolves(w, w') && Answered(w, e)
    ensures Answered(w', e)
  {
    var x: Slot :| Answers(w, e, x);
    D.SlotStays(w.inventoryLog, w'.inventoryLog, x);
    assert Answers(w', e, x);
  }

  lemma AllStay(w: World, w': World, writes: seq<Effect>)
    requires Evolves(w, w') && AllAnswered(w, writes)
    ensures AllAnswered(w', writes)
  {
    forall n | 0 <= n < |writes| ensures Answered(w', writes[n]) {
      AnsweredStays(w, w', writes[n]);
    }
  }

  /** A claimed event is in the topic, and the write it leads to answers it. */
  lemma ClaimAnswers(s: State, i: nat)
    requires D.Inv(s) && i in s.consumers && s.consumers[i].pc.Claimed?
    ensures Answered(s.w, EffectOf(s.consumers[i].pc))
  {
    var pc := s.consumers[i].pc;
    assert D.ConsumerOk(s.w, s.consumers[i]);
    assert D.CurrentC(pc)[0] == pc.m;
    assert Answers(s.w, EffectOf(pc), D.SlotOf(pc.m));
  }

  lemma MoreAnswered(w: World, writes: seq<Effect>, e: Effect)
    requires AllAnswered(w, writes) && Answered(w, e)
    ensures AllAnswered(w, writes + [e])
  {
  }

  lemma WorkCKeeps(s: State, i: nat, call: Outcome)
    requires D.Inv(s) && AllAnswered(s.w, s.writes) && i in s.consumers
    ensures AllAnswered(WorkCStep(s, i, call).w, WorkCStep(s, i, call).writes)
  {
    var s' := WorkCStep(s, i, call);
    WorkCEvolves(s, i, call);
    if s.consumers[i].pc.Claimed? {
      ClaimAnswers(s, i);
      MoreAnswered(s.w, s.writes, EffectOf(s.consumers[i].pc));
    }
    AllStay(s.w, s'.w, s'.writes);
  }

  lemma OtherWrites(s: State, a: Action)
    requires !a.WorkC?
    ensures Step(s, a).writes == s.writes
  {
  }

  lemma StepKeeps(s: State, a: Action)
    requires D.Inv(s) && AllAnswered(s.w, s.writes)
    ensures AllAnswered(Step(s, a).w, Step(s, a).writes)
  {
    if a.WorkC? {
      if a.i in s.consumers { WorkCKeeps(s, a.i, a.call); }
    } else {
      StepEvolves(s, a);
      OtherWrites(s, a);
      AllStay(s.w, Step(s, a).w, s.writes);
    }
  }

  lemma {:induction false} RunKeeps(m: nat, n: nat, schedule: seq<Action>)
    ensures AllAnswered(Run(m, n, schedule).w, Run(m, n, schedule).writes)
  {
    if schedule != [] {
      RunKeeps(m, n, schedule[..|schedule| - 1]);
      D.RunKeeps(m, n, schedule[..|schedule| - 1]);
      StepKeeps(Run(m, n, schedule[..|schedule| - 1]), schedule[|schedule| - 1]);
    }
  }

  /** In every run each status write of a consumer has its result event in the inventory topic; it cancels
      the event's order exactly when the reservation failed and confirms it exactly when it was made. */
  lemma WritesAnswerResults(m: nat, n: nat, schedule: seq<Action>, s: State, k: nat) returns (x: Slot)
    requires s == Run(m, n, schedule) && k < |s.writes|
    ensures D.InLog(s.w.inventoryLog, x)
    ensures var e, result := s.writes[k], At(s.w.inventoryLog, x);
            && result.id == e.event && (result.kind == InventoryReservationFailed || result.kind == InventoryReserved)
            && (e.status == CANCELLED <==> result.kind == InventoryReservationFailed)
            && (e.status == CONFIRMED <==> result.kind == InventoryReserved)
            && DecodeResult(result.payload).Some? && DecodeResult(result.payload).value.order == e.order
  {
    RunKeeps(m, n, schedule);
    assert Answered(s.w, s.writes[k]);
    x :| Answers(s.w, s.writes[k], x);
  }

  /** And each status event they publish is OrderCancelled exactly for a failed reservation, OrderConfirmed
      exactly for one that was made, and names the order of the result. */
  lemma NoticesAnswerResults(m: nat, n: nat, schedule: seq<Action>, s: State, k: nat) returns (x: Slot)
    requires s == Run(m, n, schedule) && k < |s.notices|
    ensures D.InLog(s.w.inventoryLog, x)
    ensures var e, result := s.notices[k], At(s.w.inventoryLog, x);
            && result.id == e.event && (result.kind == InventoryReservationFailed || result.kind == InventoryReserved)
            && (e.published.kind == OrderCancelled <==> result.kind == InventoryReservationFailed)
            && (e.published.kind == OrderConfirmed <==> result.kind == InventoryReserved)
            && DecodeResult(result.payload).Some? && DecodeResult(e.published.payload).Some?
            && DecodeResult(e.published.payload).value.order == DecodeResult(result.payload).value.order
  {
    E.EffectsAtMostOnce(m, n, schedule, s);
    assert E.HasWrite(s.writes, s.notices[k]);
    var b :| 0 <= b < |s.writes| && E.Announces(s.notices[k], s.writes[b]);
    x := WritesAnswerResults(m, n, schedule, s, b);
  }

  /******* The next result gets its answer *******/

  lemma TakesNext(s: State, i: nat, p: nat)
    requires i !in s.consumers && p < |s.w.inventoryOffsets| && p < |s.w.inventoryLog| && s.w.inventoryOffsets[p] < |s.w.inventoryLog[p]|
    ensures var k := s.w.inventoryOffsets[p];
            var t := Step(Step(s, AssignC(i, p)), FetchC(i, p));
            t == s.(consumers := s.consumers[i := Consumer(map[p := k + 1], Fetched(Msg(p, k, s.w.inventoryLog[p][k])))])
  {
    var k := s.w.inventoryOffsets[p];
    var s1 := Step(s, AssignC(i, p));
    assert s1 == s.(consumers := s.consumers[i := Consumer(map[p := k], Waiting)]);
    assert map[p := k][p := k + 1] == map[p := k + 1];
    LastUpdate(s.consumers, i, Consumer(map[p := k], Waiting), Consumer(map[p := k + 1], Fetched(Msg(p, k, s.w.inventoryLog[p][k]))));
  }

  lemma LastUpdate<K, V>(m: map<K, V>, k: K, u: V, v: V)
    ensures m[k := u][k := v] == m[k := v]
  {
  }

  function FourCalls(s: State, i: nat, q: nat): State {
    WorkCStep(WorkCStep(WorkCStep(WorkCStep(s, i, Done(q)), i, Done(q)), i, Done(q)), i, Done(q))
  }

  /** Four calls answer a new result: mark, write, announce, commit. */
  lemma ResultIsAnswered(s: State, i: nat, q: nat, msg: Msg, result: ResultPayload)
    requires i in s.consumers && s.consumers[i].pc == Fetched(msg)
    requires msg.event.kind == InventoryReserved || msg.event.kind == InventoryReservationFailed
    requires DecodeResult(msg.event.payload) == Some(result) && msg.event.id !in s.w.orderSeen && result.order in s.w.orders
    requires q < |s.w.orderLog| && msg.partition < |s.w.inventoryOffsets|
    ensures var w, w' := s.w, FourCalls(s, i, q).w;
            var reserved := msg.event.kind == InventoryReserved;
            && w'.orders == SetStatus(w.orders, result.order, if reserved then CONFIRMED else CANCELLED)
            && w'.orderSeen == w.orderSeen + {msg.event.id}
            && w'.orderLog == Append(w.orderLog, q, Event(w.nextId, if reserved then OrderConfirmed else OrderCancelled,
                                                          EncodeResult(result.order, result.user, result.reason)))
            && w'.inventoryOffsets == w.inventoryOffsets[msg.partition := msg.offset + 1]
  {
    var s1 := WorkCStep(s, i, Done(q));
    assert s1.consumers[i].pc == Claimed(msg, result) && s1.w == s.w.(orderSeen := s.w.orderSeen + {msg.event.id});
    var s2 := WorkCStep(s1, i, Done(q));
    assert s2.consumers[i].pc == Written(msg, result) && s2.w.orderLog == s.w.orderLog;
    var s3 := WorkCStep(s2, i, Done(q));
    assert s3.consumers[i].pc == Finished(msg) && s3.w.orders == s2.w.orders;
  }

  lemma TwoMore(m: nat, n: nat, schedule: seq<Action>, a: Action, b: Action, t: State)
    requires Step(Step(Run(m, n, schedule), a), b) == t
    ensures Run(m, n, schedule + [a] + [b]) == t
  {
    Then(m, n, schedule, a);
    Then(m, n, schedule + [a], b);
  }

  /** In every reachable state a new consumer that is assigned a partition of results answers the first one after
      the committed offset, if it is new, can be read and names an order, and moves the offset past it. */
  lemma NextResultIsAnswered(m: nat, n: nat, schedule: seq<Action>, s: State, i: nat, p: nat, q: nat, result: ResultPayload)
    requires s == Run(m, n, schedule)
    requires i !in s.consumers && p < |s.w.inventoryOffsets| && p < |s.w.inventoryLog| && s.w.inventoryOffsets[p] < |s.w.inventoryLog[p]|
    requires var e := s.w.inventoryLog[p][s.w.inventoryOffsets[p]];
             && (e.kind == InventoryReserved || e.kind == InventoryReservationFailed)
             && DecodeResult(e.payload) == Some(result) && e.id !in s.w.orderSeen
    requires result.order in s.w.orders && q < |s.w.orderLog|
    ensures var e := s.w.inventoryLog[p][s.w.inventoryOffsets[p]];
            var w' := FourCalls(Run(m, n, schedule + [AssignC(i, p)] + [FetchC(i, p)]), i, q).w;
            && result.order in w'.orders
            && w'.orders[result.order].status == (if e.kind == InventoryReserved then CONFIRMED else CANCELLED)
            && e.id in w'.orderSeen && w'.inventoryOffsets == s.w.inventoryOffsets[p := s.w.inventoryOffsets[p] + 1]
  {
    var k := s.w.inventoryOffsets[p];
    var msg := Msg(p, k, s.w.inventoryLog[p][k]);
    var t := s.(consumers := s.consumers[i := Consumer(map[p := k + 1], Fetched(msg))]);
    TakesNext(s, i, p);
    TwoMore(m, n, schedule, AssignC(i, p), FetchC(i, p), t);
    ResultIsAnswered(t, i, q, msg, result);
  }
}
