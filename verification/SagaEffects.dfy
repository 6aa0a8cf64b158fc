/**
 Effects at most once: over all crashes and redeliveries an inventory event causes at most one status
 write and at most one status event of the order consumers, and the status event matches the write.
 */
module SagaEffects {
  import opened Basics
  import opened Events
  import opened Services
  import opened Saga

  /** A consumer between claiming an event and publishing its status event. */
  predicate Busy(pc: ConsumerPc) {
    pc.Claimed? || pc.Written?
  }

  ghost predicate IsWritten(writes: seq<Effect>, id: EventId) {
    exists n :: 0 <= n < |writes| && writes[n].event == id
  }

  ghost predicate IsAnnounced(notices: seq<Notice>, id: EventId) {
    exists n :: 0 <= n < |notices| && notices[n].event == id
  }

  ghost predicate WrittenOnce(writes: seq<Effect>, seen: set<EventId>) {
    && (forall a, b | 0 <= a < b < |writes| :: writes[a].event != writes[b].event)
    && (forall a | 0 <= a < |writes| :: writes[a].event in seen)
  }

  ghost predicate AnnouncedOnce(notices: seq<Notice>, seen: set<EventId>) {
    && (forall a, b | 0 <= a < b < |notices| :: notices[a].event != notices[b].event)
    && (forall a | 0 <= a < |notices| :: notices[a].event in seen)
  }

  /** The published event names the status and the order of the write. */
  ghost predicate Announces(n: Notice, e: Effect) {
    && n.event == e.event
    && n.published.kind == StatusEvent(e.status)
    && DecodeResult(n.published.payload).Some? && DecodeResult(n.published.payload).value.order == e.order
  }

  ghost predicate HasWrite(writes: seq<Effect>, n: Notice) {
    exists b :: 0 <= b < |writes| && Announces(n, writes[b])
  }

  ghost predicate Matched(notices: seq<Notice>, writes: seq<Effect>) {
    forall a | 0 <= a < |notices| :: HasWrite(writes, notices[a])
  }

  /** A claimed event is not yet written; a written one is recorded and not yet announced. */
  ghost predicate PcOk(s: State, pc: ConsumerPc) {
    && (Busy(pc) ==> pc.m.event.id in s.w.orderSeen && !IsAnnounced(s.notices, pc.m.event.id))
    && (pc.Claimed? ==> !IsWritten(s.writes, pc.m.event.id))
    && (pc.Written? ==> EffectOf(pc) in s.writes)
  }

  ghost predicate Inv(s: State) {
    && WrittenOnce(s.writes, s.w.orderSeen) && AnnouncedOnce(s.notices, s.w.orderSeen)
    && Matched(s.notices, s.writes)
    && (forall i | i in s.consumers :: PcOk(s, s.consumers[i].pc))
    && (forall i, j | i in s.consumers && j in s.consumers && i != j && Busy(s.consumers[i].pc) && Busy(s.consumers[j].pc) ::
          s.consumers[i].pc.m.event.id != s.consumers[j].pc.m.event.id)
  }

  lemma AppendWrite(writes: seq<Effect>, seen: set<EventId>, e: Effect)
    requires WrittenOnce(writes, seen) && !IsWritten(writes, e.event) && e.event in seen
    ensures WrittenOnce(writes + [e], seen) && e in writes + [e]
    ensures forall id | IsWritten(writes + [e], id) :: IsWritten(writes, id) || id == e.event
    ensures forall x | x in writes :: x in writes + [e]
  {
  }

  lemma AppendNotice(notices: seq<Notice>, seen: set<EventId>, n: Notice)
    requires AnnouncedOnce(notices, seen) && !IsAnnounced(notices, n.event) && n.event in seen
    ensures AnnouncedOnce(notices + [n], seen)
    ensures forall id | IsAnnounced(notices + [n], id) :: IsAnnounced(notices, id) || id == n.event
  {
  }

  lemma MatchedMore(notices: seq<Notice>, writes: seq<Effect>, e: Effect)
    requires Matched(notices, writes)
    ensures Matched(notices, writes + [e])
  {
    var more := writes + [e];
    forall a | 0 <= a < |notices| ensures HasWrite(more, notices[a]) {
      var b :| 0 <= b < |writes| && Announces(notices[a], writes[b]);
      assert more[b] == writes[b];
    }
  }

  lemma MatchedNotice(notices: seq<Notice>, writes: seq<Effect>, n: Notice, e: Effect)
    requires Matched(notices, writes) && e in writes && Announces(n, e)
    ensures Matched(notices + [n], writes)
  {
    var b :| 0 <= b < |writes| && writes[b] == e;
    assert Announces(n, writes[b]);
  }

  /** A step that leaves the consumers' claims, writes and notices alone. */
  lemma Unchanged(s: State, s': State)
    requires Inv(s)
    requires s'.writes == s.writes && s'.notices == s.notices && s'.w.orderSeen == s.w.orderSeen
    requires forall i | i in s'.consumers && Busy(s'.consumers[i].pc) ::
               i in s.consumers && s'.consumers[i].pc == s.consumers[i].pc
    ensures Inv(s')
  {
  }

  lemma ClaimKeeps(s: State, i: nat, call: Outcome)
    requires Inv(s) && i in s.consumers && s.consumers[i].pc.Fetched?
    ensures Inv(WorkCStep(s, i, call))
  {
    var s', id := WorkCStep(s, i, call), s.consumers[i].pc.m.event.id;
    if i in s'.consumers && s'.consumers[i].pc.Claimed? {
      assert id !in s.w.orderSeen && s'.w.orderSeen == s.w.orderSeen + {id};
      assert !IsWritten(s.writes, id) && !IsAnnounced(s.notices, id);
    } else {
      Unchanged(s, s');
    }
  }

  lemma WriteKeeps(s: State, i: nat, call: Outcome)
    requires Inv(s) && i in s.consumers && s.consumers[i].pc.Claimed?
    ensures Inv(WorkCStep(s, i, call))
  {
    var s', pc := WorkCStep(s, i, call), s.consumers[i].pc;
    if i in s'.consumers && s'.consumers[i].pc.Written? {
      AppendWrite(s.writes, s.w.orderSeen, EffectOf(pc));
      MatchedMore(s.notices, s.writes, EffectOf(pc));
    } else {
      Unchanged(s, s');
    }
  }

  lemma AnnounceKeeps(s: State, i: nat, call: Outcome)
    requires Inv(s) && i in s.consumers && s.consumers[i].pc.Written?
    ensures Inv(WorkCStep(s, i, call))
  {
    var s', pc := WorkCStep(s, i, call), s.consumers[i].pc;
    if i in s'.consumers && s'.consumers[i].pc.Finished? {
      var n := NoticeOf(s.w, pc);
      ResultRoundTrip(pc.result.order, pc.result.user, pc.result.reason);
      AppendNotice(s.notices, s.w.orderSeen, n);
      MatchedNotice(s.notices, s.writes, n, EffectOf(pc));
    } else {
      Unchanged(s, s');
    }
  }

  lemma WorkKeeps(s: State, i: nat, call: Outcome)
    requires Inv(s) && i in s.consumers
    ensures Inv(WorkCStep(s, i, call))
  {
    match s.consumers[i].pc
    case Fetched(_) => ClaimKeeps(s, i, call);
    case Claimed(_, _) => WriteKeeps(s, i, call);
    case Written(_, _) => AnnounceKeeps(s, i, call);
    case _ => Unchanged(s, WorkCStep(s, i, call));
  }

  lemma WorkerSteps(s: State, i: nat, call: Outcome)
    ensures var s' := WorkStep(s, i, call);
            s'.writes == s.writes && s'.notices == s.notices && s'.w.orderSeen == s.w.orderSeen && s'.consumers == s.consumers
  {
  }

  lemma OtherSteps(s: State, a: Action)
    requires !a.WorkC?
    ensures var s' := Step(s, a);
            && s'.writes == s.writes && s'.notices == s.notices && s'.w.orderSeen == s.w.orderSeen
            && (forall i | i in s'.consumers && Busy(s'.consumers[i].pc) ::
                  i in s.consumers && s'.consumers[i].pc == s.consumers[i].pc)
  {
    if a.Work? { WorkerSteps(s, a.i, a.call); }
  }

  lemma StepKeeps(s: State, a: Action)
    requires Inv(s)
    ensures Inv(Step(s, a))
  {
    if a.WorkC? {
      if a.i in s.consumers { WorkKeeps(s, a.i, a.call); }
    } else {
      OtherSteps(s, a);
      Unchanged(s, Step(s, a));
    }
  }

  lemma {:induction false} RunKeeps(m: nat, n: nat, schedule: seq<Action>)
    ensures Inv(Run(m, n, schedule))
  {
    if schedule != [] {
      RunKeeps(m, n, schedule[..|schedule| - 1]);
      StepKeeps(Run(m, n, schedule[..|schedule| - 1]), schedule[|schedule| - 1]);
    }
  }

  /** Each inventory event is written at most once and announced at most once, and every announcement
      carries the order and the status of a write for the same event. */
  lemma EffectsAtMostOnce(m: nat, n: nat, schedule: seq<Action>, s: State)
    requires s == Run(m, n, schedule)
    ensures (forall a, b | 0 <= a < b < |s.writes| :: s.writes[a].event != s.writes[b].event)
            && (forall a, b | 0 <= a < b < |s.notices| :: s.notices[a].event != s.notices[b].event)
            && Matched(s.notices, s.writes)
  {
    RunKeeps(m, n, schedule);
  }
}
