/**
 Several members of the notification consumer's group at the same time, interleaved call by call, with crashes
 between any two calls, redelivery, and hand-over of partitions also while the previous owner is at work.  The
 atomic insert into the processed collection is what keeps notifications single.
 */
module NotificationGroup {
  import opened Basics
  import opened Events
  import opened Delivery
  import opened Notifications

  /** Where a member is with the message at a slot. */
  datatype Pc =
    | Idle
    | Fetched(x: Slot)
    | Claimed(x: Slot)                // its insert was the first
    | Stored(x: Slot, entry: Entry)   // the notification is written and not pushed
    | Settled(x: Slot)                // nothing left but the commit

  datatype Member = Member(positions: map<nat, nat>, pc: Pc)

  /** `journal` are the notifications written and `pushed` those broadcast, each with its event. */
  datatype State = State(
    log: seq<seq<Event>>, offsets: seq<nat>, processed: set<EventId>,
    journal: seq<Entry>, pushed: seq<Entry>, members: map<nat, Member>)

  /** A crash also stands for a call that fails, and for one whose answer is lost after it took effect. */
  datatype Action =
    | Publish(partition: nat, event: Event)
    | Assign(i: nat, partition: nat)
    | Revoke(i: nat, partition: nat)
    | Fetch(i: nat, partition: nat)
    | Work(i: nat)
    | Crash(i: nat)

  function Init(partitions: nat): State {
    State(seq(partitions, _ => []), seq(partitions, _ => 0), {}, [], [], map[])
  }

  predicate InLog(log: seq<seq<Event>>, x: Slot) {
    x.partition < |log| && x.offset < |log[x.partition]|
  }

  function At(log: seq<seq<Event>>, x: Slot): Event
    requires InLog(log, x)
  {
    log[x.partition][x.offset]
  }

  function MemberAt(s: State, i: nat): Member {
    if i in s.members then s.members[i] else Member(map[], Idle)
  }

  function Put(s: State, i: nat, pc: Pc): State
    requires i in s.members
  {
    s.(members := s.members[i := s.members[i].(pc := pc)])
  }

  /** The next call of a member. */
  function WorkStep(s: State, i: nat): State {
    if i !in s.members then s
    else
      match s.members[i].pc
      case Idle => s
      case Fetched(x) =>
        if !InLog(s.log, x) then s
        else if At(s.log, x).id in s.processed then Put(s, i, Settled(x))
        else Put(s, i, Claimed(x)).(processed := s.processed + {At(s.log, x).id})
      case Claimed(x) =>
        if !InLog(s.log, x) then s
        else if DecodeNotice(At(s.log, x).payload).None? then s.(members := s.members - {i})
        else if NoticeFor(At(s.log, x)).None? then Put(s, i, Settled(x))
        else
          var entry := Entry(At(s.log, x).id, NoticeFor(At(s.log, x)).value);
          Put(s, i, Stored(x, entry)).(journal := s.journal + [entry])
      case Stored(x, entry) => Put(s, i, Settled(x)).(pushed := s.pushed + [entry])
      case Settled(x) =>
        if x.partition >= |s.offsets| then s
        else Put(s, i, Idle).(offsets := s.offsets[x.partition := x.offset + 1])
  }

  function Step(s: State, a: Action): State {
    match a
    case Publish(p, e) => if p < |s.log| then s.(log := s.log[p := s.log[p] + [e]]) else s
    case Assign(i, p) =>
      if p >= |s.offsets| then s
      else
        var member := MemberAt(s, i);
        s.(members := s.members[i := member.(positions := member.positions[p := s.offsets[p]])])
    case Revoke(i, p) =>
      if i in s.members then s.(members := s.members[i := s.members[i].(positions := s.members[i].positions - {p})]) else s
    case Fetch(i, p) =>
      var member := MemberAt(s, i);
      if member.pc.Idle? && p in member.positions && p < |s.log| && member.positions[p] < |s.log[p]| then
        s.(members := s.members[i := Member(member.positions[p := member.positions[p] + 1], Fetched(Slot(p, member.positions[p])))])
      else s
    case Work(i) => WorkStep(s, i)
    case Crash(i) => s.(members := s.members - {i})
  }

  function Run(partitions: nat, schedule: seq<Action>): State {
    if schedule == [] then Init(partitions)
    else Step(Run(partitions, schedule[..|schedule| - 1]), schedule[|schedule| - 1])
  }

  /******* Nothing is skipped *******/

  ghost function MarkedSlots(log: seq<seq<Event>>, processed: set<EventId>): iset<Slot> {
    iset x: Slot | InLog(log, x) && At(log, x).id in processed
  }

  function Pending(pc: Pc): seq<Slot> {
    if pc.Idle? then [] else [pc.x]
  }

  function PipeOf(member: Member): Pipe {
    Pipe(member.positions, Pending(member.pc))
  }

  ghost predicate PcOk(s: State, pc: Pc) {
    && (!pc.Idle? ==> InLog(s.log, pc.x))
    && (pc.Claimed? || pc.Stored? || pc.Settled? ==> At(s.log, pc.x).id in s.processed)
    && (pc.Stored? ==> pc.entry.event == At(s.log, pc.x).id)
  }

  ghost predicate Deliveries(s: State) {
    && |s.offsets| == |s.log|
    && OffsetsOk(MarkedSlots(s.log, s.processed), s.offsets)
    && forall i | i in s.members :: PcOk(s, s.members[i].pc) && PipeOk(MarkedSlots(s.log, s.processed), PipeOf(s.members[i]))
  }

  ghost predicate Grows(s: State, s': State) {
    Extends(s.log, s'.log) && s.processed <= s'.processed
  }

  lemma SlotStays(log: seq<seq<Event>>, log': seq<seq<Event>>, x: Slot)
    requires Extends(log, log') && InLog(log, x)
    ensures InLog(log', x) && At(log', x) == At(log, x)
  {
    assert log[x.partition] <= log'[x.partition];
  }

  lemma StepGrows(s: State, a: Action)
    ensures Grows(s, Step(s, a)) && |Step(s, a).offsets| == |s.offsets|
  {
  }

  lemma MarkedGrow(s: State, s': State)
    requires Grows(s, s')
    ensures MarkedSlots(s.log, s.processed) <= MarkedSlots(s'.log, s'.processed)
  {
    forall x | x in MarkedSlots(s.log, s.processed) ensures x in MarkedSlots(s'.log, s'.processed) {
      SlotStays(s.log, s'.log, x);
    }
  }

  lemma PcStays(s: State, s': State, pc: Pc)
    requires Grows(s, s') && PcOk(s, pc)
    ensures PcOk(s', pc)
  {
    if !pc.Idle? { SlotStays(s.log, s'.log, pc.x); }
  }

  /** At most member `i` and the offsets changed. */
  lemma DeliveriesStay(s: State, s': State, i: nat)
    requires Deliveries(s) && Grows(s, s') && |s'.offsets| == |s.offsets|
    requires forall j | j in s'.members && j != i :: j in s.members && s'.members[j] == s.members[j]
    requires i in s'.members ==> PcOk(s', s'.members[i].pc) && PipeOk(MarkedSlots(s'.log, s'.processed), PipeOf(s'.members[i]))
    requires s'.offsets == s.offsets || OffsetsOk(MarkedSlots(s'.log, s'.processed), s'.offsets)
    ensures Deliveries(s')
  {
    MarkedGrow(s, s');
    forall j | j in s'.members && j != i
      ensures PcOk(s', s'.members[j].pc) && PipeOk(MarkedSlots(s'.log, s'.processed), PipeOf(s'.members[j]))
    {
      PcStays(s, s', s.members[j].pc);
      MoreDone(MarkedSlots(s.log, s.processed), MarkedSlots(s'.log, s'.processed), PipeOf(s.members[j]));
    }
  }

  lemma WorkDelivers(s: State, i: nat)
    requires Deliveries(s) && i in s.members
    ensures Deliveries(WorkStep(s, i))
  {
    StepGrows(s, Work(i));
    if s.members[i].pc.Settled? {
      CommitDelivers(MarkedSlots(s.log, s.processed), s.offsets, s.members[i]);
    } else {
      CallDelivers(s, i);
    }
    DeliveriesStay(s, WorkStep(s, i), i);
  }

  /** A call before the commit keeps the member on its message. */
  lemma CallDelivers(s: State, i: nat)
    requires Deliveries(s) && i in s.members && !s.members[i].pc.Settled?
    ensures var s' := WorkStep(s, i);
            && s'.offsets == s.offsets
            && (i in s'.members ==> PcOk(s', s'.members[i].pc) && PipeOk(MarkedSlots(s'.log, s'.processed), PipeOf(s'.members[i])))
  {
    var s', member := WorkStep(s, i), s.members[i];
    StepGrows(s, Work(i));
    MarkedGrow(s, s');
    PcStays(s, s', member.pc);
    MoreDone(MarkedSlots(s.log, s.processed), MarkedSlots(s'.log, s'.processed), PipeOf(member));
    assert i in s'.members ==> PipeOf(s'.members[i]) == PipeOf(member);
  }

  lemma CommitDelivers(done: iset<Slot>, offsets: seq<nat>, member: Member)
    requires OffsetsOk(done, offsets) && PipeOk(done, PipeOf(member))
    requires member.pc.Settled? && member.pc.x in done && member.pc.x.partition < |offsets|
    ensures OffsetsOk(done, offsets[member.pc.x.partition := member.pc.x.offset + 1]) && PipeOk(done, PipeOf(member.(pc := Idle)))
  {
    assert Pending(member.pc)[0] == member.pc.x;
    CommitKeeps(done, PipeOf(member), offsets);
    FinishKeeps(done, PipeOf(member));
    assert Pending(member.pc)[1..] == [];
  }

  lemma StepDelivers(s: State, a: Action)
    requires Deliveries(s)
    ensures Deliveries(Step(s, a))
  {
    var done := MarkedSlots(s.log, s.processed);
    StepGrows(s, a);
    match a
    case Publish(p, e) => MarkedGrow(s, Step(s, a)); PublishDelivers(s, Step(s, a));
    case Assign(i, p) =>
      if p < |s.offsets| {
        assert PipeOk(done, PipeOf(MemberAt(s, i)));
        AssignKeeps(done, PipeOf(MemberAt(s, i)), p, s.offsets[p]);
        DeliveriesStay(s, Step(s, a), i);
      }
    case Revoke(i, p) =>
      if i in s.members {
        RevokeKeeps(done, PipeOf(s.members[i]), p);
        DeliveriesStay(s, Step(s, a), i);
      }
    case Fetch(i, p) => FetchDelivers(s, i, p);
    case Work(i) => if i in s.members { WorkDelivers(s, i); }
    case Crash(i) => DeliveriesStay(s, Step(s, a), i);
  }

  lemma PublishDelivers(s: State, s': State)
    requires Deliveries(s) && Grows(s, s') && s'.members == s.members && s'.offsets == s.offsets
    ensures Deliveries(s')
  {
    MarkedGrow(s, s');
    forall j | j in s.members ensures PcOk(s', s.members[j].pc) && PipeOk(MarkedSlots(s'.log, s'.processed), PipeOf(s.members[j])) {
      PcStays(s, s', s.members[j].pc);
      MoreDone(MarkedSlots(s.log, s.processed), MarkedSlots(s'.log, s'.processed), PipeOf(s.members[j]));
    }
  }

  lemma FetchDelivers(s: State, i: nat, p: nat)
    requires Deliveries(s)
    ensures Deliveries(Step(s, Fetch(i, p)))
  {
    var member, s' := MemberAt(s, i), Step(s, Fetch(i, p));
    if s' != s {
      assert PipeOk(MarkedSlots(s.log, s.processed), PipeOf(member));
      FetchKeeps(MarkedSlots(s.log, s.processed), PipeOf(member), p);
      assert [] + [Slot(p, member.positions[p])] == [Slot(p, member.positions[p])];
      DeliveriesStay(s, s', i);
    }
  }

  /******* Each event has at most one notification *******/

  ghost predicate HasEntry(entries: seq<Entry>, id: EventId) {
    exists n :: 0 <= n < |entries| && entries[n].event == id
  }

  ghost predicate DistinctEvents(entries: seq<Entry>) {
    forall a, b | 0 <= a < b < |entries| :: entries[a].event != entries[b].event
  }

  predicate Busy(pc: Pc) {
    pc.Claimed? || pc.Stored?
  }

  /** A claimed event has no notification yet; a stored one has it, and has not been pushed. */
  ghost predicate ClaimOk(s: State, pc: Pc) {
    && (Busy(pc) ==> InLog(s.log, pc.x) && At(s.log, pc.x).id in s.processed && !HasEntry(s.pushed, At(s.log, pc.x).id))
    && (pc.Claimed? ==> !HasEntry(s.journal, At(s.log, pc.x).id))
    && (pc.Stored? ==> pc.entry in s.journal && pc.entry.event == At(s.log, pc.x).id)
  }

  ghost predicate Single(s: State) {
    && DistinctEvents(s.journal) && DistinctEvents(s.pushed)
    && (forall n | 0 <= n < |s.journal| :: s.journal[n].event in s.processed && CalledFor(s.log, s.journal[n]))
    && (forall n | 0 <= n < |s.pushed| :: s.pushed[n] in s.journal)
    && (forall i | i in s.members :: ClaimOk(s, s.members[i].pc))
    && (forall i, j | i in s.members && j in s.members && i != j && Busy(s.members[i].pc) && Busy(s.members[j].pc) ::
          At(s.log, s.members[i].pc.x).id != At(s.log, s.members[j].pc.x).id)
  }

  lemma EntryMore(entries: seq<Entry>, e: Entry)
    requires DistinctEvents(entries) && !HasEntry(entries, e.event)
    ensures DistinctEvents(entries + [e]) && e in entries + [e]
    ensures forall id | HasEntry(entries + [e], id) :: HasEntry(entries, id) || id == e.event
    ensures forall x | x in entries :: x in entries + [e]
  {
  }

  /** A step that neither claims nor writes nor pushes. */
  lemma QuietKeeps(s: State, s': State)
    requires Single(s) && s'.log == s.log && s'.processed == s.processed && s'.journal == s.journal && s'.pushed == s.pushed
    requires forall i | i in s'.members && Busy(s'.members[i].pc) :: i in s.members && s'.members[i].pc == s.members[i].pc
    ensures Single(s')
  {
  }

  lemma ClaimKeeps(s: State, i: nat)
    requires Single(s) && i in s.members && s.members[i].pc.Fetched?
    ensures Single(WorkStep(s, i))
  {
    var s', x := WorkStep(s, i), s.members[i].pc.x;
    if InLog(s.log, x) && At(s.log, x).id !in s.processed {
      assert !HasEntry(s.journal, At(s.log, x).id);
      assert !HasEntry(s.pushed, At(s.log, x).id);
    } else {
      QuietKeeps(s, s');
    }
  }

  lemma StoreKeeps(s: State, i: nat)
    requires Single(s) && i in s.members && s.members[i].pc.Claimed?
    ensures Single(WorkStep(s, i))
  {
    var s', x := WorkStep(s, i), s.members[i].pc.x;
    if i in s'.members && s'.members[i].pc.Stored? {
      var entry := s'.members[i].pc.entry;
      assert CalledFor(s.log, entry) by {
        assert s.log[x.partition][x.offset] == At(s.log, x);
      }
      EntryMore(s.journal, entry);
    } else {
      QuietKeeps(s, s');
    }
  }

  lemma PushKeeps(s: State, i: nat)
    requires Single(s) && i in s.members && s.members[i].pc.Stored?
    ensures Single(WorkStep(s, i))
  {
    EntryMore(s.pushed, s.members[i].pc.entry);
  }

  lemma PublishKeeps(s: State, s': State)
    requires Single(s) && s' == s.(log := s'.log) && Extends(s.log, s'.log)
    ensures Single(s')
  {
    forall entry | CalledFor(s.log, entry) ensures CalledFor(s'.log, entry) {
      var p: int, k: int :| 0 <= p < |s.log| && 0 <= k < |s.log[p]|
                    && s.log[p][k].id == entry.event && NoticeFor(s.log[p][k]) == Some(entry.notification);
      assert s.log[p] <= s'.log[p];
      assert s'.log[p][k] == s.log[p][k];
    }
    forall i | i in s.members && Busy(s.members[i].pc)
      ensures InLog(s'.log, s.members[i].pc.x) && At(s'.log, s.members[i].pc.x) == At(s.log, s.members[i].pc.x)
    {
      SlotStays(s.log, s'.log, s.members[i].pc.x);
    }
  }

  lemma WorkSingle(s: State, i: nat)
    requires Single(s) && i in s.members
    ensures Single(WorkStep(s, i))
  {
    match s.members[i].pc
    case Fetched(_) => ClaimKeeps(s, i);
    case Claimed(_) => StoreKeeps(s, i);
    case Stored(_, _) => PushKeeps(s, i);
    case _ => QuietKeeps(s, WorkStep(s, i));
  }

  lemma StepSingle(s: State, a: Action)
    requires Single(s)
    ensures Single(Step(s, a))
  {
    StepGrows(s, a);
    match a
    case Publish(p, e) => PublishKeeps(s, Step(s, a));
    case Work(i) => if i in s.members { WorkSingle(s, i); }
    case _ => QuietKeeps(s, Step(s, a));
  }

  lemma {:induction false} RunKeeps(partitions: nat, schedule: seq<Action>)
    ensures Deliveries(Run(partitions, schedule)) && Single(Run(partitions, schedule))
  {
    if schedule != [] {
      RunKeeps(partitions, schedule[..|schedule| - 1]);
      StepDelivers(Run(partitions, schedule[..|schedule| - 1]), schedule[|schedule| - 1]);
      StepSingle(Run(partitions, schedule[..|schedule| - 1]), schedule[|schedule| - 1]);
    }
  }

  /** Over every interleaving of members, crashes, redeliveries and hand-overs: each event id has at most one
      notification, the one its event calls for, which is pushed at most once. */
  lemma OneNotification(partitions: nat, schedule: seq<Action>, s: State)
    requires s == Run(partitions, schedule)
    ensures DistinctEvents(s.journal) && DistinctEvents(s.pushed)
    ensures forall n | 0 <= n < |s.journal| :: CalledFor(s.log, s.journal[n])
    ensures forall n | 0 <= n < |s.pushed| :: s.pushed[n] in s.journal
  {
    RunKeeps(partitions, schedule);
  }

  /** And the id of every event below a committed offset is marked. */
  lemma NothingSkipped(partitions: nat, schedule: seq<Action>, s: State, x: Slot)
    requires s == Run(partitions, schedule) && x.partition < |s.offsets| && x.offset < s.offsets[x.partition]
    ensures InLog(s.log, x) && At(s.log, x).id in s.processed
  {
    RunKeeps(partitions, schedule);
    assert x in MarkedSlots(s.log, s.processed);
  }
}
