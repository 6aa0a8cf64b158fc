/**
 What the members of the notification consumer's group write, and that a member at work is the consumer object.
 In every reachable state a notification of a placed order names the order and goes to the user who placed it,
 while one of a status event goes to user 0 and shows a user's number as the order's.
 */
module NotificationContents {
  import opened Basics
  import opened Events
  import opened Delivery
  import opened Notifications
  import opened NotificationGroup

  /** What the notification says is what its event means. */
  ghost predicate Faithful(e: Event, n: Notification) {
    && (forall o, u, items | e.kind == OrderCreated && e.payload == EncodeCreated(o, u, items) :: TellsPlaced(n, o, u))
    && (forall o, u, reason | e.payload == EncodeResult(o, u, reason) :: TellsStatus(n, u, e.kind, reason))
  }

  lemma CalledForIsFaithful(e: Event, n: Notification)
    requires NoticeFor(e) == Some(n)
    ensures Faithful(e, n)
  {
    forall o, u, items | e.kind == OrderCreated && e.payload == EncodeCreated(o, u, items) ensures TellsPlaced(n, o, u) {
      PlacedNotice(e, o, u, items);
    }
    forall o, u, reason | e.payload == EncodeResult(o, u, reason) ensures TellsStatus(n, u, e.kind, reason) {
      StatusNoticeOf(e, o, u, reason);
    }
  }

  /** Every notification of a reachable state has an event in the topic that it reports faithfully; what is
      pushed is a notification. */
  lemma JournalIsFaithful(partitions: nat, schedule: seq<Action>, s: State, k: nat) returns (x: Slot)
    requires s == Run(partitions, schedule) && k < |s.journal|
    ensures InLog(s.log, x) && At(s.log, x).id == s.journal[k].event && Faithful(At(s.log, x), s.journal[k].notification)
  {
    OneNotification(partitions, schedule, s);
    var entry := s.journal[k];
    var p: int, j: int :| 0 <= p < |s.log| && 0 <= j < |s.log[p]|
                  && s.log[p][j].id == entry.event && NoticeFor(s.log[p][j]) == Some(entry.notification);
    x := Slot(p, j);
    CalledForIsFaithful(s.log[p][j], entry.notification);
  }

  lemma PushedIsFaithful(partitions: nat, schedule: seq<Action>, s: State, k: nat) returns (x: Slot)
    requires s == Run(partitions, schedule) && k < |s.pushed|
    ensures InLog(s.log, x) && At(s.log, x).id == s.pushed[k].event && Faithful(At(s.log, x), s.pushed[k].notification)
  {
    OneNotification(partitions, schedule, s);
    assert s.pushed[k] in s.journal;
    var j :| 0 <= j < |s.journal| && s.journal[j] == s.pushed[k];
    x := JournalIsFaithful(partitions, schedule, s, j);
  }

  /******* A member without interruption *******/

  /** What the group has achieved, as the books of one consumer. */
  function BooksOf(s: State): Books {
    Books(s.processed, s.journal, Notices(s.pushed), s.offsets)
  }

  /** The group after member `i` has handled the message at `x` without interruption. */
  ghost predicate Handled(s: State, s': State, i: nat, x: Slot) {
    && InLog(s.log, x) && x.partition < |s.offsets| && i in s'.members
    && s'.members[i].pc == Idle && s'.log == s.log
    && s'.processed == s.processed + {At(s.log, x).id}
    && s'.journal == s.journal + NewEntries(s.processed, At(s.log, x))
    && s'.pushed == s.pushed + NewEntries(s.processed, At(s.log, x))
    && s'.offsets == s.offsets[x.partition := x.offset + 1]
    && s'.members - {i} == s.members - {i}
  }

  /** Four calls handle a message that can be read; a shorter handler has nothing left to do. */
  lemma MemberHandles(s: State, i: nat, x: Slot)
    requires i in s.members && s.members[i].pc == Fetched(x) && InLog(s.log, x) && x.partition < |s.offsets|
    requires DecodeNotice(At(s.log, x).payload).Some?
    ensures var s1 := WorkStep(s, i);
            var s2 := WorkStep(s1, i);
            var s3 := WorkStep(s2, i);
            Handled(s, WorkStep(s3, i), i, x)
  {
    var e := At(s.log, x);
    var s1 := WorkStep(s, i);
    if e.id in s.processed {
      assert s1.members[i].pc == Settled(x);
      SettledCommits(s1, i, x);
      assert s.processed + {e.id} == s.processed;
    } else if NoticeFor(e).None? {
      assert s1.members[i].pc == Claimed(x);
      var s2 := WorkStep(s1, i);
      assert s2.members[i].pc == Settled(x);
      SettledCommits(s2, i, x);
    } else {
      var entry := Entry(e.id, NoticeFor(e).value);
      assert s1.members[i].pc == Claimed(x);
      var s2 := WorkStep(s1, i);
      assert s2.members[i].pc == Stored(x, entry);
      var s3 := WorkStep(s2, i);
      assert s3.members[i].pc == Settled(x);
      SettledCommits(s3, i, x);
    }
  }

  lemma SettledCommits(s: State, i: nat, x: Slot)
    requires i in s.members && s.members[i].pc == Settled(x) && x.partition < |s.offsets|
    ensures var t := WorkStep(s, i);
            && t == s.(offsets := s.offsets[x.partition := x.offset + 1], members := s.members[i := s.members[i].(pc := Idle)])
            && WorkStep(t, i) == t
  {
  }

  /** A member that is not interrupted does to the books what the consumer object is proved to do. */
  lemma MemberIsConsumer(s: State, i: nat, x: Slot)
    requires i in s.members && s.members[i].pc == Fetched(x) && InLog(s.log, x) && x.partition < |s.offsets|
    requires DecodeNotice(At(s.log, x).payload).Some? && s.offsets[x.partition] == x.offset
    ensures var s1 := WorkStep(s, i);
            var s2 := WorkStep(s1, i);
            var s3 := WorkStep(s2, i);
            BooksOf(WorkStep(s3, i)) == After(BooksOf(s), At(s.log, x), x.partition)
  {
    MemberHandles(s, i, x);
    var entries := NewEntries(s.processed, At(s.log, x));
    assert Notices(s.pushed + entries) == Notices(s.pushed) + Notices(entries);
  }

  lemma Then(partitions: nat, schedule: seq<Action>, a: Action)
    ensures Run(partitions, schedule + [a]) == Step(Run(partitions, schedule), a)
  {
    assert (schedule + [a])[..|schedule|] == schedule;
  }

  lemma FetchesNext(s: State, i: nat, p: nat)
    requires i !in s.members && p < |s.offsets| && p < |s.log| && s.offsets[p] < |s.log[p]|
    ensures var t := Step(Step(s, Assign(i, p)), Fetch(i, p));
            && t == s.(members := t.members) && t.members - {i} == s.members - {i}
            && i in t.members && t.members[i].pc == Fetched(Slot(p, s.offsets[p]))
  {
    var s1 := Step(s, Assign(i, p));
    assert s1.members == s.members[i := Member(map[p := s.offsets[p]], Idle)];
  }

  lemma OneCall(partitions: nat, schedule: seq<Action>, i: nat, s: State)
    requires Run(partitions, schedule) == s
    ensures Run(partitions, schedule + [Work(i)]) == WorkStep(s, i)
  {
    Then(partitions, schedule, Work(i));
  }

  lemma FourCalls(partitions: nat, schedule: seq<Action>, i: nat)
    ensures Run(partitions, schedule + [Work(i)] + [Work(i)] + [Work(i)] + [Work(i)]) ==
            WorkStep(WorkStep(WorkStep(WorkStep(Run(partitions, schedule), i), i), i), i)
  {
    var s := Run(partitions, schedule);
    OneCall(partitions, schedule, i, s);
    OneCall(partitions, schedule + [Work(i)], i, WorkStep(s, i));
    OneCall(partitions, schedule + [Work(i)] + [Work(i)], i, WorkStep(WorkStep(s, i), i));
    OneCall(partitions, schedule + [Work(i)] + [Work(i)] + [Work(i)], i, WorkStep(WorkStep(WorkStep(s, i), i), i));
  }

  /** In every reachable state a new member that is assigned a partition handles the first message after the
      committed offset, once, if it can be read. */
  lemma NextIsHandled(partitions: nat, schedule: seq<Action>, i: nat, p: nat)
    requires var s := Run(partitions, schedule);
             && i !in s.members && p < |s.offsets| && p < |s.log| && s.offsets[p] < |s.log[p]|
             && DecodeNotice(s.log[p][s.offsets[p]].payload).Some?
    ensures var s := Run(partitions, schedule);
            var t := Run(partitions, schedule + [Assign(i, p)] + [Fetch(i, p)] + [Work(i)] + [Work(i)] + [Work(i)] + [Work(i)]);
            BooksOf(t) == After(BooksOf(s), s.log[p][s.offsets[p]], p)
  {
    var s := Run(partitions, schedule);
    FetchesNext(s, i, p);
    var fetched := schedule + [Assign(i, p)] + [Fetch(i, p)];
    Then(partitions, schedule, Assign(i, p));
    Then(partitions, schedule + [Assign(i, p)], Fetch(i, p));
    MemberIsConsumer(Run(partitions, fetched), i, Slot(p, s.offsets[p]));
    FourCalls(partitions, fetched, i);
  }

  /** An event that is published behind everything committed is the next to be handled. */
  lemma PublishedIsHandled(partitions: nat, schedule: seq<Action>, i: nat, p: nat, e: Event)
    requires var s := Run(partitions, schedule);
             i !in s.members && p < |s.offsets| && p < |s.log| && s.offsets[p] == |s.log[p]| && DecodeNotice(e.payload).Some?
    ensures var s := Run(partitions, schedule);
            var t := Run(partitions, schedule + [Publish(p, e)] + [Assign(i, p)] + [Fetch(i, p)] + [Work(i)] + [Work(i)] + [Work(i)] + [Work(i)]);
            BooksOf(t) == After(BooksOf(s), e, p)
  {
    var s := Run(partitions, schedule);
    Then(partitions, schedule, Publish(p, e));
    assert Run(partitions, schedule + [Publish(p, e)]) == s.(log := s.log[p := s.log[p] + [e]]);
    NextIsHandled(partitions, schedule + [Publish(p, e)], i, p);
  }

  /** A member from which a partition has been taken fetches nothing more of it. */
  lemma RevokedFetchesNothing(s: State, i: nat, p: nat)
    ensures Step(Step(s, Revoke(i, p)), Fetch(i, p)) == Step(s, Revoke(i, p))
  {
  }
}
