/**
 What the order consumer loses.  It marks a result event as processed first, writes the order's status next
 and publishes the status event last.  A consumer that stops in between leaves the event marked, so nobody
 takes it up again: the write, or the status event, is lost for good.  Nothing else loses either of them.
 */
module SagaClaims {
  import opened Basics
  import opened Inventory
  import opened Events
  import opened Services
  import opened Saga
  import opened SagaPaths
  import C = SagaConfirms
  import E = SagaEffects

  /** The consumer of the step stops: it crashes, or its call does not succeed. */
  predicate Stops(s: State, a: Action) {
    && (a.CrashC? || a.WorkC?) && a.i in s.consumers
    && (a.WorkC? ==> CallConsumer(s.w, s.consumers[a.i].pc, a.call).1.Halted?)
  }

  /** The step loses the status write of a claimed event. */
  predicate DropsWrite(s: State, a: Action, id: EventId) {
    Stops(s, a) && s.consumers[a.i].pc.Claimed? && s.consumers[a.i].pc.m.event.id == id
  }

  /** The step loses the status event of a written one. */
  predicate DropsNotice(s: State, a: Action, id: EventId) {
    Stops(s, a) && s.consumers[a.i].pc.Written? && s.consumers[a.i].pc.m.event.id == id
  }

  /** The guards behind a stop: the calls that can fail, and an order that does not exist. */
  lemma StopsExactly(s: State, i: nat, call: Outcome)
    requires i in s.consumers
    ensures var pc := s.consumers[i].pc;
            && (pc.Claimed? ==> (Stops(s, WorkC(i, call)) <==> !call.Done? || pc.result.order !in s.w.orders))
            && (pc.Written? ==> (Stops(s, WorkC(i, call)) <==> !call.Done? || call.partition >= |s.w.orderLog|))
  {
  }

  ghost predicate DropsWriteDuring(m: nat, n: nat, schedule: seq<Action>, id: EventId) {
    exists k: nat :: k < |schedule| && DropsWrite(Run(m, n, schedule[..k]), schedule[k], id)
  }

  ghost predicate DropsNoticeDuring(m: nat, n: nat, schedule: seq<Action>, id: EventId) {
    exists k: nat :: k < |schedule| && DropsNotice(Run(m, n, schedule[..k]), schedule[k], id)
  }

  ghost predicate AboutToWrite(consumers: map<nat, Consumer>, id: EventId) {
    exists i :: i in consumers && consumers[i].pc.Claimed? && consumers[i].pc.m.event.id == id
  }

  ghost predicate AboutToAnnounce(consumers: map<nat, Consumer>, id: EventId) {
    exists i :: i in consumers && consumers[i].pc.Written? && consumers[i].pc.m.event.id == id
  }

  ghost predicate WriteLost(s: State, id: EventId) {
    id in s.w.orderSeen && !E.IsWritten(s.writes, id) && !AboutToWrite(s.consumers, id)
  }

  ghost predicate NoticeLost(s: State, id: EventId) {
    E.IsWritten(s.writes, id) && !E.IsAnnounced(s.notices, id) && !AboutToAnnounce(s.consumers, id)
  }

  /******* One step, one event *******/

  /** No busy consumer appears, disappears or changes. */
  ghost predicate SameBusy(consumers: map<nat, Consumer>, consumers': map<nat, Consumer>) {
    && (forall i | i in consumers && E.Busy(consumers[i].pc) :: i in consumers' && consumers'[i].pc == consumers[i].pc)
    && (forall i | i in consumers' && E.Busy(consumers'[i].pc) :: i in consumers && consumers'[i].pc == consumers[i].pc)
  }

  lemma QuietSteps(s: State, a: Action)
    requires !a.WorkC? && !a.CrashC?
    ensures SameBusy(s.consumers, Step(s, a).consumers)
  {
    E.OtherSteps(s, a);
    if a.Work? { E.WorkerSteps(s, a.i, a.call); }
  }

  lemma SameBusySame(s: State, s': State, id: EventId)
    requires SameBusy(s.consumers, s'.consumers)
    requires s'.writes == s.writes && s'.notices == s.notices && s'.w.orderSeen == s.w.orderSeen
    ensures WriteLost(s', id) <==> WriteLost(s, id)
    ensures NoticeLost(s', id) <==> NoticeLost(s, id)
  {
    if AboutToWrite(s.consumers, id) {
      var i :| i in s.consumers && s.consumers[i].pc.Claimed? && s.consumers[i].pc.m.event.id == id;
      assert s'.consumers[i].pc == s.consumers[i].pc;
    }
    if AboutToAnnounce(s.consumers, id) {
      var i :| i in s.consumers && s.consumers[i].pc.Written? && s.consumers[i].pc.m.event.id == id;
      assert s'.consumers[i].pc == s.consumers[i].pc;
    }
  }

  /** Only consumer `i` was at work on `id`, and it is gone. */
  lemma GoneIsLost(s: State, s': State, i: nat, id: EventId)
    requires E.Inv(s) && i in s.consumers && s' == s.(consumers := s.consumers - {i})
    ensures WriteLost(s', id) <==> WriteLost(s, id) || (s.consumers[i].pc.Claimed? && s.consumers[i].pc.m.event.id == id)
    ensures NoticeLost(s', id) <==> NoticeLost(s, id) || (s.consumers[i].pc.Written? && s.consumers[i].pc.m.event.id == id)
  {
    var pc := s.consumers[i].pc;
    assert E.PcOk(s, pc);
    if AboutToWrite(s.consumers, id) && !(pc.Claimed? && pc.m.event.id == id) {
      var j :| j in s.consumers && s.consumers[j].pc.Claimed? && s.consumers[j].pc.m.event.id == id;
      assert j in s'.consumers;
    }
    if AboutToAnnounce(s.consumers, id) && !(pc.Written? && pc.m.event.id == id) {
      var j :| j in s.consumers && s.consumers[j].pc.Written? && s.consumers[j].pc.m.event.id == id;
      assert j in s'.consumers;
    }
    if pc.Written? {
      WrittenIsWritten(s.writes, EffectOf(pc));
    }
  }

  lemma WrittenIsWritten(writes: seq<Effect>, e: Effect)
    requires e in writes
    ensures E.IsWritten(writes, e.event)
  {
    var n :| 0 <= n < |writes| && writes[n] == e;
  }

  lemma StopStep(s: State, a: Action)
    requires Stops(s, a) && E.Busy(s.consumers[a.i].pc)
    ensures Step(s, a) == s.(consumers := s.consumers - {a.i})
  {
  }

  /** A call that succeeds loses nothing. */
  lemma ClaimLosesNothing(s: State, i: nat, call: Outcome, id: EventId)
    requires E.Inv(s) && i in s.consumers && s.consumers[i].pc.Fetched?
    ensures var s' := WorkCStep(s, i, call);
            (WriteLost(s', id) <==> WriteLost(s, id)) && (NoticeLost(s', id) <==> NoticeLost(s, id))
  {
    var s' := WorkCStep(s, i, call);
    if i in s'.consumers && s'.consumers[i].pc.Claimed? {
      var claimed := s.consumers[i].pc.m.event.id;
      assert s'.w.orderSeen == s.w.orderSeen + {claimed} && s'.writes == s.writes && s'.notices == s.notices;
      assert s'.consumers == s.consumers[i := s'.consumers[i]];
      OneClaimMore(s.consumers, s'.consumers, i, id);
    } else {
      SameBusySame(s, s', id);
    }
  }

  lemma OneClaimMore(consumers: map<nat, Consumer>, consumers': map<nat, Consumer>, i: nat, id: EventId)
    requires i in consumers && !E.Busy(consumers[i].pc) && i in consumers' && consumers'[i].pc.Claimed?
    requires consumers' == consumers[i := consumers'[i]]
    ensures AboutToWrite(consumers', id) <==> AboutToWrite(consumers, id) || consumers'[i].pc.m.event.id == id
    ensures AboutToAnnounce(consumers', id) <==> AboutToAnnounce(consumers, id)
  {
    if AboutToWrite(consumers, id) {
      var j :| j in consumers && consumers[j].pc.Claimed? && consumers[j].pc.m.event.id == id;
      assert consumers'[j] == consumers[j];
    }
    if AboutToAnnounce(consumers, id) {
      var j :| j in consumers && consumers[j].pc.Written? && consumers[j].pc.m.event.id == id;
      assert consumers'[j] == consumers[j];
    }
  }

  lemma WriteLosesNothing(s: State, i: nat, call: Outcome, id: EventId)
    requires E.Inv(s) && i in s.consumers && s.consumers[i].pc.Claimed? && !Stops(s, WorkC(i, call))
    ensures var s' := WorkCStep(s, i, call);
            (WriteLost(s', id) <==> WriteLost(s, id)) && (NoticeLost(s', id) <==> NoticeLost(s, id))
  {
    var s', pc := WorkCStep(s, i, call), s.consumers[i].pc;
    assert E.PcOk(s, pc);
    assert s'.consumers == s.consumers[i := s.consumers[i].(pc := Written(pc.m, pc.result))];
    assert s'.writes == s.writes + [EffectOf(pc)] && s'.notices == s.notices && s'.w.orderSeen == s.w.orderSeen;
    if pc.m.event.id == id {
      assert s'.writes[|s.writes|].event == id && s'.consumers[i].pc.Written?;
    } else {
      OtherWritten(s.writes, EffectOf(pc), id);
      OthersAtWork(s.consumers, s'.consumers, i, id);
    }
  }

  lemma OtherWritten(writes: seq<Effect>, e: Effect, id: EventId)
    requires e.event != id
    ensures E.IsWritten(writes + [e], id) <==> E.IsWritten(writes, id)
  {
    if E.IsWritten(writes, id) {
      var n :| 0 <= n < |writes| && writes[n].event == id;
      assert (writes + [e])[n] == writes[n];
    }
  }

  lemma OtherAnnounced(notices: seq<Notice>, e: Notice, id: EventId)
    requires e.event != id
    ensures E.IsAnnounced(notices + [e], id) <==> E.IsAnnounced(notices, id)
  {
    if E.IsAnnounced(notices, id) {
      var n :| 0 <= n < |notices| && notices[n].event == id;
      assert (notices + [e])[n] == notices[n];
    }
  }

  /** Consumer `i` works on another event before and after. */
  lemma OthersAtWork(consumers: map<nat, Consumer>, consumers': map<nat, Consumer>, i: nat, id: EventId)
    requires i in consumers && i in consumers' && consumers' == consumers[i := consumers'[i]]
    requires E.Busy(consumers[i].pc) ==> consumers[i].pc.m.event.id != id
    requires E.Busy(consumers'[i].pc) ==> consumers'[i].pc.m.event.id != id
    ensures AboutToWrite(consumers', id) <==> AboutToWrite(consumers, id)
    ensures AboutToAnnounce(consumers', id) <==> AboutToAnnounce(consumers, id)
  {
    if AboutToWrite(consumers, id) {
      var j :| j in consumers && consumers[j].pc.Claimed? && consumers[j].pc.m.event.id == id;
      assert consumers'[j] == consumers[j];
    }
    if AboutToAnnounce(consumers, id) {
      var j :| j in consumers && consumers[j].pc.Written? && consumers[j].pc.m.event.id == id;
      assert consumers'[j] == consumers[j];
    }
  }

  lemma AnnounceLosesNothing(s: State, i: nat, call: Outcome, id: EventId)
    requires E.Inv(s) && i in s.consumers && s.consumers[i].pc.Written? && !Stops(s, WorkC(i, call))
    ensures var s' := WorkCStep(s, i, call);
            (WriteLost(s', id) <==> WriteLost(s, id)) && (NoticeLost(s', id) <==> NoticeLost(s, id))
  {
    var s', pc := WorkCStep(s, i, call), s.consumers[i].pc;
    assert E.PcOk(s, pc);
    WrittenIsWritten(s.writes, EffectOf(pc));
    assert s'.consumers == s.consumers[i := s.consumers[i].(pc := Finished(pc.m))];
    assert s'.notices == s.notices + [NoticeOf(s.w, pc)] && s'.writes == s.writes && s'.w.orderSeen == s.w.orderSeen;
    if pc.m.event.id == id {
      assert s'.notices[|s.notices|].event == id && s.consumers[i].pc.Written?;
    } else {
      OtherAnnounced(s.notices, NoticeOf(s.w, pc), id);
      OthersAtWork(s.consumers, s'.consumers, i, id);
    }
  }

  lemma WorkCLoses(s: State, i: nat, call: Outcome, id: EventId)
    requires E.Inv(s) && i in s.consumers
    ensures var a, s' := WorkC(i, call), WorkCStep(s, i, call);
            && (WriteLost(s', id) <==> WriteLost(s, id) || DropsWrite(s, a, id))
            && (NoticeLost(s', id) <==> NoticeLost(s, id) || DropsNotice(s, a, id))
  {
    var pc, a := s.consumers[i].pc, WorkC(i, call);
    if E.Busy(pc) && Stops(s, a) {
      StopStep(s, a);
      GoneIsLost(s, Step(s, a), i, id);
    } else if pc.Fetched? {
      ClaimLosesNothing(s, i, call, id);
    } else if pc.Claimed? {
      WriteLosesNothing(s, i, call, id);
    } else if pc.Written? {
      AnnounceLosesNothing(s, i, call, id);
    } else {
      SameBusySame(s, WorkCStep(s, i, call), id);
    }
  }

  lemma StepLoses(s: State, a: Action, id: EventId)
    requires E.Inv(s)
    ensures WriteLost(Step(s, a), id) <==> WriteLost(s, id) || DropsWrite(s, a, id)
    ensures NoticeLost(Step(s, a), id) <==> NoticeLost(s, id) || DropsNotice(s, a, id)
  {
    if a.WorkC? {
      if a.i in s.consumers { WorkCLoses(s, a.i, a.call, id); }
    } else if a.CrashC? {
      if a.i in s.consumers {
        GoneIsLost(s, Step(s, a), a.i, id);
      } else {
        SameBusySame(s, Step(s, a), id);
      }
    } else {
      QuietSteps(s, a);
      E.OtherSteps(s, a);
      SameBusySame(s, Step(s, a), id);
    }
  }

  /******* Every run *******/

  lemma DropsNext(m: nat, n: nat, before: seq<Action>, a: Action, id: EventId)
    ensures DropsWriteDuring(m, n, before + [a], id) <==> DropsWriteDuring(m, n, before, id) || DropsWrite(Run(m, n, before), a, id)
    ensures DropsNoticeDuring(m, n, before + [a], id) <==> DropsNoticeDuring(m, n, before, id) || DropsNotice(Run(m, n, before), a, id)
  {
    var schedule := before + [a];
    assert schedule[..|before|] == before && schedule[|before|] == a;
    forall k: nat | k < |before| ensures schedule[..k] == before[..k] && schedule[k] == before[k] {}
    if DropsWriteDuring(m, n, before, id) {
      var k: nat :| k < |before| && DropsWrite(Run(m, n, before[..k]), before[k], id);
      assert DropsWrite(Run(m, n, schedule[..k]), schedule[k], id);
    }
    if DropsNoticeDuring(m, n, before, id) {
      var k: nat :| k < |before| && DropsNotice(Run(m, n, before[..k]), before[k], id);
      assert DropsNotice(Run(m, n, schedule[..k]), schedule[k], id);
    }
  }

  /** In every run, with crashes, redeliveries and any hand-over: a marked event has no status write and
      nobody about to make it if and only if a consumer stopped between marking and writing; a written one
      has no status event and nobody about to publish it if and only if a consumer stopped in between. */
  lemma {:induction false} LostExactly(m: nat, n: nat, schedule: seq<Action>, id: EventId)
    ensures WriteLost(Run(m, n, schedule), id) <==> DropsWriteDuring(m, n, schedule, id)
    ensures NoticeLost(Run(m, n, schedule), id) <==> DropsNoticeDuring(m, n, schedule, id)
  {
    if schedule != [] {
      var before, a := schedule[..|schedule| - 1], schedule[|schedule| - 1];
      LostExactly(m, n, before, id);
      E.RunKeeps(m, n, before);
      StepLoses(Run(m, n, before), a, id);
      DropsNext(m, n, before, a, id);
      assert before + [a] == schedule;
    }
  }

  /******* A run that loses a write *******/

  const RESULT_EVENT := Event(1, InventoryReserved, EncodeResult(1, 1, ""))

  lemma ResultPublished() returns (schedule: seq<Action>)
    ensures var s := Run(1, 1, schedule);
            && s.w.inventoryLog == [[RESULT_EVENT]] && s.w.inventoryOffsets == [0] && s.w.orderSeen == {} && s.consumers == map[]
            && 1 in s.w.orders && s.w.orders[1].status == CREATED && Key(1, 5) in s.w.tables.reservations
  {
    var e, order := C.CREATED_EVENT, OrderPayload(1, 1, Lines(C.LINES));
    CreatedRoundTrip(1, 1, C.LINES);
    var t := C.ReservedTwice();
    var placed := C.Placed();
    var received := Receive(1, 1, placed, 0, e);
    schedule := Process(1, 1, received, 0, Msg(0, 0, e), order, t);
    assert Append([[]], 0, RESULT_EVENT)[0] == [RESULT_EVENT];
  }

  /** The result is claimed, the status write fails, and the order stays CREATED although it is reserved. */
  lemma FailedWriteLoses() returns (schedule: seq<Action>)
    ensures var s := Run(1, 1, schedule);
            WriteLost(s, 1) && 1 in s.w.orders && s.w.orders[1].status == CREATED && Key(1, 5) in s.w.tables.reservations
  {
    ResultRoundTrip(1, 1, "");
    var published := ResultPublished();
    var claimed := Claim(1, 1, published, 0, RESULT_EVENT, ResultPayload(1, 1, ""));
    Then(1, 1, claimed, WorkC(0, Failed));
    FailedWrite(Run(1, 1, claimed), 0);
    E.RunKeeps(1, 1, claimed);
    schedule := claimed + [WorkC(0, Failed)];
    GoneIsLost(Run(1, 1, claimed), Run(1, 1, schedule), 0, 1);
  }

  lemma FailedWrite(s: State, i: nat)
    requires i in s.consumers && s.consumers[i].pc.Claimed?
    ensures Step(s, WorkC(i, Failed)) == s.(consumers := s.consumers - {i})
  {
  }
}
