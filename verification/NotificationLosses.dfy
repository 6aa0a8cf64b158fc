/**
 What the notification consumer loses.  It marks an event as processed first, writes the notification next
 and pushes it last.  A member that stops in between leaves the event marked, so no member takes it up again:
 the notification, or its push, is lost for good.  Nothing else loses either of them.
 */
module NotificationLosses {
  import opened Basics
  import opened Events
  import opened Delivery
  import opened Notifications
  import opened NotificationGroup

  datatype Stage = Writing | Pushing

  /** The member at `pc` is about to write, or to push, the notification of the event `id`. */
  predicate On(log: seq<seq<Event>>, pc: Pc, id: EventId, stage: Stage) {
    (if stage.Writing? then pc.Claimed? else pc.Stored?) && InLog(log, pc.x) && At(log, pc.x).id == id
  }

  ghost predicate AtWork(log: seq<seq<Event>>, members: map<nat, Member>, id: EventId, stage: Stage) {
    exists i :: i in members && On(log, members[i].pc, id, stage)
  }

  /** The member of the step stops: it crashes, or cannot read the payload. */
  predicate Stops(s: State, a: Action) {
    && (a.Crash? || a.Work?) && a.i in s.members
    && (a.Work? ==> a.i !in WorkStep(s, a.i).members)
  }

  /** The step loses the notification of an event, or the push of a notification. */
  predicate Drops(s: State, a: Action, id: EventId, stage: Stage) {
    Stops(s, a) && On(s.log, s.members[a.i].pc, id, stage)
  }

  /** The event turns out to call for no notification. */
  predicate Skips(s: State, a: Action, id: EventId) {
    && a.Work? && a.i in s.members && On(s.log, s.members[a.i].pc, id, Writing)
    && var e := At(s.log, s.members[a.i].pc.x); DecodeNotice(e.payload).Some? && NoticeFor(e).None?
  }

  /** A call stops its member exactly at a claimed event whose payload cannot be read. */
  lemma StopsExactly(s: State, i: nat)
    requires i in s.members
    ensures var pc := s.members[i].pc;
            Stops(s, Work(i)) <==> pc.Claimed? && InLog(s.log, pc.x) && DecodeNotice(At(s.log, pc.x).payload).None?
  {
  }

  ghost predicate DropsDuring(partitions: nat, schedule: seq<Action>, id: EventId, stage: Stage) {
    exists k: nat :: k < |schedule| && Drops(Run(partitions, schedule[..k]), schedule[k], id, stage)
  }

  ghost predicate SkipsDuring(partitions: nat, schedule: seq<Action>, id: EventId) {
    exists k: nat :: k < |schedule| && Skips(Run(partitions, schedule[..k]), schedule[k], id)
  }

  ghost predicate Unwritten(s: State, id: EventId) {
    id in s.processed && !HasEntry(s.journal, id) && !AtWork(s.log, s.members, id, Writing)
  }

  ghost predicate Unpushed(s: State, id: EventId) {
    HasEntry(s.journal, id) && !HasEntry(s.pushed, id) && !AtWork(s.log, s.members, id, Pushing)
  }

  /******* One step, one event *******/

  lemma WithoutMember(log: seq<seq<Event>>, members: map<nat, Member>, i: nat, id: EventId, stage: Stage)
    ensures AtWork(log, members, id, stage) <==>
            (i in members && On(log, members[i].pc, id, stage)) || AtWork(log, members - {i}, id, stage)
  {
    if AtWork(log, members - {i}, id, stage) {
      var j :| j in members - {i} && On(log, (members - {i})[j].pc, id, stage);
      assert members[j] == (members - {i})[j];
    }
    if AtWork(log, members, id, stage) {
      var j :| j in members && On(log, members[j].pc, id, stage);
      assert j != i ==> j in members - {i} && (members - {i})[j] == members[j];
    }
  }

  lemma WithMember(log: seq<seq<Event>>, members: map<nat, Member>, i: nat, member: Member, id: EventId, stage: Stage)
    ensures AtWork(log, members[i := member], id, stage) <==> On(log, member.pc, id, stage) || AtWork(log, members - {i}, id, stage)
  {
    WithoutMember(log, members[i := member], i, id, stage);
    assert members[i := member] - {i} == members - {i};
  }

  /** No two members are at work on one event. */
  lemma OneAtWork(s: State, i: nat, id: EventId, stage: Stage)
    requires Single(s) && i in s.members && On(s.log, s.members[i].pc, id, stage)
    ensures !AtWork(s.log, s.members - {i}, id, Writing) && !AtWork(s.log, s.members - {i}, id, Pushing)
  {
    assert Busy(s.members[i].pc);
  }

  lemma OneEntryMore(entries: seq<Entry>, e: Entry, id: EventId)
    ensures HasEntry(entries + [e], id) <==> HasEntry(entries, id) || e.event == id
  {
    assert (entries + [e])[|entries|] == e;
    if HasEntry(entries, id) {
      var n :| 0 <= n < |entries| && entries[n].event == id;
      assert (entries + [e])[n].event == id;
    }
  }

  /** A member that is, or is not, at work as before. */
  lemma MemberSame(log: seq<seq<Event>>, members: map<nat, Member>, i: nat, member: Member, id: EventId, stage: Stage)
    requires On(log, member.pc, id, stage) <==> i in members && On(log, members[i].pc, id, stage)
    ensures AtWork(log, members[i := member], id, stage) <==> AtWork(log, members, id, stage)
  {
    WithoutMember(log, members, i, id, stage);
    WithMember(log, members, i, member, id, stage);
  }

  lemma LogMore(log: seq<seq<Event>>, log': seq<seq<Event>>, members: map<nat, Member>, id: EventId, stage: Stage)
    requires Extends(log, log') && forall i | i in members && Busy(members[i].pc) :: InLog(log, members[i].pc.x)
    ensures AtWork(log', members, id, stage) <==> AtWork(log, members, id, stage)
  {
    forall i | i in members ensures On(log', members[i].pc, id, stage) <==> On(log, members[i].pc, id, stage) {
      if Busy(members[i].pc) { SlotStays(log, log', members[i].pc.x); }
    }
    if AtWork(log, members, id, stage) {
      var i :| i in members && On(log, members[i].pc, id, stage);
      assert On(log', members[i].pc, id, stage);
    }
  }

  ghost predicate LossesAfter(s: State, a: Action, id: EventId) {
    && (Unwritten(Step(s, a), id) <==> Unwritten(s, id) || Drops(s, a, id, Writing) || Skips(s, a, id))
    && (Unpushed(Step(s, a), id) <==> Unpushed(s, id) || Drops(s, a, id, Pushing))
  }

  lemma GoneLoses(s: State, a: Action, id: EventId)
    requires Single(s) && Stops(s, a) && Step(s, a) == s.(members := s.members - {a.i})
    ensures LossesAfter(s, a, id)
  {
    var pc := s.members[a.i].pc;
    WithoutMember(s.log, s.members, a.i, id, Writing);
    WithoutMember(s.log, s.members, a.i, id, Pushing);
    assert ClaimOk(s, pc);
    if On(s.log, pc, id, Writing) { OneAtWork(s, a.i, id, Writing); }
    if On(s.log, pc, id, Pushing) {
      OneAtWork(s, a.i, id, Pushing);
      assert HasEntry(s.journal, id) by { EntryIsThere(s.journal, pc.entry); }
    }
  }

  lemma EntryIsThere(entries: seq<Entry>, e: Entry)
    requires e in entries
    ensures HasEntry(entries, e.event)
  {
    var n :| 0 <= n < |entries| && entries[n] == e;
  }

  lemma ClaimLoses(s: State, i: nat, id: EventId)
    requires Single(s) && i in s.members && s.members[i].pc.Fetched?
    ensures LossesAfter(s, Work(i), id)
  {
    var s' := WorkStep(s, i);
    if s' != s {
      WithoutMember(s.log, s.members, i, id, Writing);
      WithMember(s.log, s.members, i, s'.members[i], id, Writing);
      MemberSame(s.log, s.members, i, s'.members[i], id, Pushing);
      assert s'.members == s.members[i := s'.members[i]];
    }
  }

  lemma StoreLoses(s: State, i: nat, id: EventId)
    requires Single(s) && i in s.members && s.members[i].pc.Claimed? && i in WorkStep(s, i).members
    ensures LossesAfter(s, Work(i), id)
  {
    var s', pc := WorkStep(s, i), s.members[i].pc;
    assert ClaimOk(s, pc);
    if On(s.log, pc, id, Writing) { OneAtWork(s, i, id, Writing); }
    WithoutMember(s.log, s.members, i, id, Writing);
    WithoutMember(s.log, s.members, i, id, Pushing);
    WithMember(s.log, s.members, i, s'.members[i], id, Writing);
    WithMember(s.log, s.members, i, s'.members[i], id, Pushing);
    assert s'.members == s.members[i := s'.members[i]];
    if s'.members[i].pc.Stored? {
      OneEntryMore(s.journal, s'.members[i].pc.entry, id);
    }
  }

  lemma PushLoses(s: State, i: nat, id: EventId)
    requires Single(s) && i in s.members && s.members[i].pc.Stored?
    ensures LossesAfter(s, Work(i), id)
  {
    var s', pc := WorkStep(s, i), s.members[i].pc;
    assert ClaimOk(s, pc);
    WithoutMember(s.log, s.members, i, id, Pushing);
    WithMember(s.log, s.members, i, s'.members[i], id, Pushing);
    MemberSame(s.log, s.members, i, s'.members[i], id, Writing);
    assert s'.members == s.members[i := s'.members[i]];
    OneEntryMore(s.pushed, pc.entry, id);
  }

  lemma WorkLoses(s: State, i: nat, id: EventId)
    requires Single(s) && i in s.members
    ensures LossesAfter(s, Work(i), id)
  {
    match s.members[i].pc
    case Idle =>
    case Fetched(_) => ClaimLoses(s, i, id);
    case Claimed(_) => if i in WorkStep(s, i).members { StoreLoses(s, i, id); } else { GoneLoses(s, Work(i), id); }
    case Stored(_, _) => PushLoses(s, i, id);
    case Settled(_) => QuietLoses(s, Work(i), i, id);
  }

  /** At most member `i` changes, and it is not at work before or after. */
  lemma QuietLoses(s: State, a: Action, i: nat, id: EventId)
    requires !Stops(s, a) && !Skips(s, a, id)
    requires var s' := Step(s, a);
             && s'.log == s.log && s'.processed == s.processed && s'.journal == s.journal && s'.pushed == s.pushed
             && (s'.members == s.members || (i in s'.members && s'.members == s.members[i := s'.members[i]]))
             && (i in s'.members && Busy(s'.members[i].pc) ==> i in s.members && s'.members[i].pc == s.members[i].pc)
             && (i in s.members && Busy(s.members[i].pc) ==> i in s'.members && s'.members[i].pc == s.members[i].pc)
    ensures LossesAfter(s, a, id)
  {
    var s' := Step(s, a);
    if s'.members != s.members {
      MemberSame(s.log, s.members, i, s'.members[i], id, Writing);
      MemberSame(s.log, s.members, i, s'.members[i], id, Pushing);
    }
  }

  lemma StepLoses(s: State, a: Action, id: EventId)
    requires Single(s)
    ensures LossesAfter(s, a, id)
  {
    match a
    case Publish(p, e) =>
      StepGrows(s, a);
      LogMore(s.log, Step(s, a).log, s.members, id, Writing);
      LogMore(s.log, Step(s, a).log, s.members, id, Pushing);
    case Assign(i, p) => QuietLoses(s, a, i, id);
    case Revoke(i, p) => QuietLoses(s, a, i, id);
    case Fetch(i, p) => QuietLoses(s, a, i, id);
    case Work(i) => if i in s.members { WorkLoses(s, i, id); }
    case Crash(i) => if i in s.members { GoneLoses(s, a, id); } else { assert s.members - {i} == s.members; }
  }

  /******* Every run *******/

  lemma DropsNext(partitions: nat, before: seq<Action>, a: Action, id: EventId, stage: Stage)
    ensures DropsDuring(partitions, before + [a], id, stage) <==>
            DropsDuring(partitions, before, id, stage) || Drops(Run(partitions, before), a, id, stage)
  {
    var schedule := before + [a];
    assert schedule[..|before|] == before && schedule[|before|] == a;
    forall k: nat | k < |before| ensures schedule[..k] == before[..k] && schedule[k] == before[k] {}
    if DropsDuring(partitions, before, id, stage) {
      var k: nat :| k < |before| && Drops(Run(partitions, before[..k]), before[k], id, stage);
      assert Drops(Run(partitions, schedule[..k]), schedule[k], id, stage);
    }
  }

  lemma SkipsNext(partitions: nat, before: seq<Action>, a: Action, id: EventId)
    ensures SkipsDuring(partitions, before + [a], id) <==> SkipsDuring(partitions, before, id) || Skips(Run(partitions, before), a, id)
  {
    var schedule := before + [a];
    assert schedule[..|before|] == before && schedule[|before|] == a;
    forall k: nat | k < |before| ensures schedule[..k] == before[..k] && schedule[k] == before[k] {}
    if SkipsDuring(partitions, before, id) {
      var k: nat :| k < |before| && Skips(Run(partitions, before[..k]), before[k], id);
      assert Skips(Run(partitions, schedule[..k]), schedule[k], id);
    }
  }

  /** In every run: a marked event has no notification and no member about to write it if and only if a member
      stopped between marking and writing, or found nothing to say; a notification is neither pushed nor about
      to be if and only if a member stopped between writing and pushing. */
  lemma {:induction false} LostExactly(partitions: nat, schedule: seq<Action>, id: EventId)
    ensures Unwritten(Run(partitions, schedule), id) <==> DropsDuring(partitions, schedule, id, Writing) || SkipsDuring(partitions, schedule, id)
    ensures Unpushed(Run(partitions, schedule), id) <==> DropsDuring(partitions, schedule, id, Pushing)
  {
    if schedule != [] {
      var before, a := schedule[..|schedule| - 1], schedule[|schedule| - 1];
      LostExactly(partitions, before, id);
      NotificationGroup.RunKeeps(partitions, before);
      StepLoses(Run(partitions, before), a, id);
      DropsNext(partitions, before, a, id, Writing);
      DropsNext(partitions, before, a, id, Pushing);
      SkipsNext(partitions, before, a, id);
      assert before + [a] == schedule;
    }
  }

  /** Every event of the log with this id that can be read calls for a notification. */
  ghost predicate Due(log: seq<seq<Event>>, id: EventId) {
    forall x: Slot | InLog(log, x) && At(log, x).id == id && DecodeNotice(At(log, x).payload).Some? :: NoticeFor(At(log, x)).Some?
  }

  lemma DueBefore(log: seq<seq<Event>>, log': seq<seq<Event>>, id: EventId)
    requires Extends(log, log') && Due(log', id)
    ensures Due(log, id)
  {
    forall x: Slot | InLog(log, x) && At(log, x).id == id && DecodeNotice(At(log, x).payload).Some? ensures NoticeFor(At(log, x)).Some? {
      SlotStays(log, log', x);
    }
  }

  lemma {:induction false} DueNeverSkips(partitions: nat, schedule: seq<Action>, id: EventId)
    requires Due(Run(partitions, schedule).log, id)
    ensures !SkipsDuring(partitions, schedule, id)
  {
    if schedule != [] {
      var before, a := schedule[..|schedule| - 1], schedule[|schedule| - 1];
      StepGrows(Run(partitions, before), a);
      DueBefore(Run(partitions, before).log, Run(partitions, schedule).log, id);
      DueNeverSkips(partitions, before, id);
      SkipsNext(partitions, before, a, id);
      assert before + [a] == schedule;
    }
  }

  /** A notification that is due is lost exactly by a member that stops between marking and writing. */
  lemma DueLostExactly(partitions: nat, schedule: seq<Action>, id: EventId)
    requires Due(Run(partitions, schedule).log, id)
    ensures Unwritten(Run(partitions, schedule), id) <==> DropsDuring(partitions, schedule, id, Writing)
  {
    LostExactly(partitions, schedule, id);
    DueNeverSkips(partitions, schedule, id);
  }

  /** And it stays lost, whatever happens next. */
  lemma {:induction false} LossIsFinal(partitions: nat, first: seq<Action>, schedule: seq<Action>, id: EventId)
    requires first <= schedule
    ensures Unwritten(Run(partitions, first), id) ==> Unwritten(Run(partitions, schedule), id)
    ensures Unpushed(Run(partitions, first), id) ==> Unpushed(Run(partitions, schedule), id)
    decreases |schedule|
  {
    if |first| == |schedule| {
      assert first == schedule;
    } else {
      var before := schedule[..|schedule| - 1];
      LossIsFinal(partitions, first, before, id);
      NotificationGroup.RunKeeps(partitions, before);
      StepLoses(Run(partitions, before), schedule[|schedule| - 1], id);
    }
  }
}
