/**
 A broadcast among many goroutines, when nobody interrupts it, is the broadcast of the hub object: every connection
 of the user is written once, and exactly those whose write fails are gone afterwards.
 */
module HubBroadcasts {
  import opened Basics
  import opened Hub

  lemma Then(schedule: seq<Action>, a: Action)
    ensures PlainRun(schedule + [a]) == PlainStep(PlainRun(schedule), a)
  {
    assert (schedule + [a])[..|schedule|] == schedule;
  }

  function OneWrite(b: nat, works: bool): seq<Action> {
    [Write(b, works)] + if works then [] else [Drop(b)]
  }

  /** The writes to these connections, each followed by the removal if it fails. */
  function Sending(b: nat, order: seq<Conn>, writes: Conn -> bool): seq<Action> {
    if order == [] then []
    else
      OneWrite(b, writes(order[0])) + Sending(b, order[1..], writes)
  }

  function Targets(u: UserId, order: seq<Conn>): seq<(UserId, Conn)> {
    seq(|order|, i requires 0 <= i < |order| => (u, order[i]))
  }

  /** The pairs of the user whose writes fail. */
  ghost function Broken(u: UserId, order: seq<Conn>, writes: Conn -> bool): iset<(UserId, Conn)> {
    iset c | c in order && !writes(c) :: (u, c)
  }

  lemma WriteOne(schedule: seq<Action>, b: nat, u: UserId, order: seq<Conn>, works: bool)
    requires var s := PlainRun(schedule); b in s.senders && s.senders[b] == Sender(u, order, []) && order != []
    ensures var s := PlainRun(schedule);
            var t := PlainRun(schedule + OneWrite(b, works));
            && b in t.senders && t.senders[b] == Sender(u, order[1..], [])
            && t.written == s.written + [(u, order[0])]
            && t.table == if works then s.table else s.table - iset{(u, order[0])}
  {
    Then(schedule, Write(b, works));
    if works {
      assert schedule + ([Write(b, works)] + []) == schedule + [Write(b, works)];
    } else {
      Then(schedule + [Write(b, works)], Drop(b));
      assert schedule + ([Write(b, works)] + [Drop(b)]) == schedule + [Write(b, works)] + [Drop(b)];
    }
  }

  lemma BrokenStep(u: UserId, order: seq<Conn>, writes: Conn -> bool)
    requires order != []
    ensures Broken(u, order, writes) == Broken(u, order[1..], writes) + if writes(order[0]) then iset{} else iset{(u, order[0])}
  {
    assert order == [order[0]] + order[1..];
  }

  type Plain = State<iset<(UserId, Conn)>>

  ghost predicate AllWritten(s: Plain, t: Plain, u: UserId, order: seq<Conn>, writes: Conn -> bool) {
    t.table == s.table - Broken(u, order, writes) && t.written == s.written + Targets(u, order)
  }

  lemma NoneWritten(s: Plain, u: UserId, writes: Conn -> bool)
    ensures AllWritten(s, s, u, [], writes)
  {
    assert s.written + [] == s.written;
  }

  lemma OneAndTheRest(s: Plain, mid: Plain, t: Plain, u: UserId, order: seq<Conn>, writes: Conn -> bool)
    requires order != [] && AllWritten(mid, t, u, order[1..], writes)
    requires mid.written == s.written + [(u, order[0])]
    requires mid.table == if writes(order[0]) then s.table else s.table - iset{(u, order[0])}
    ensures AllWritten(s, t, u, order, writes)
  {
    BrokenStep(u, order, writes);
    assert [(u, order[0])] + Targets(u, order[1..]) == Targets(u, order);
  }

  lemma SendingStep(schedule: seq<Action>, b: nat, order: seq<Conn>, writes: Conn -> bool)
    requires order != []
    ensures schedule + Sending(b, order, writes) == schedule + OneWrite(b, writes(order[0])) + Sending(b, order[1..], writes)
  {
  }

  lemma {:induction false} WriteAll(schedule: seq<Action>, b: nat, u: UserId, order: seq<Conn>, writes: Conn -> bool)
    requires b in PlainRun(schedule).senders && PlainRun(schedule).senders[b] == Sender(u, order, [])
    ensures AllWritten(PlainRun(schedule), PlainRun(schedule + Sending(b, order, writes)), u, order, writes)
    decreases |order|
  {
    if order == [] {
      assert schedule + [] == schedule;
      NoneWritten(PlainRun(schedule), u, writes);
    } else {
      var first := schedule + OneWrite(b, writes(order[0]));
      WriteOne(schedule, b, u, order, writes(order[0]));
      WriteAll(first, b, u, order[1..], writes);
      SendingStep(schedule, b, order, writes);
      OneAndTheRest(PlainRun(schedule), PlainRun(first), PlainRun(schedule + Sending(b, order, writes)), u, order, writes);
    }
  }

  /** From any reachable state of the hub: an uninterrupted broadcast to a user writes each of the user's
      connections once, and leaves exactly the pairs of other users and those whose write worked. */
  lemma UninterruptedBroadcast(schedule: seq<Action>, b: nat, u: UserId, order: seq<Conn>, writes: Conn -> bool)
    requires b !in Run(schedule).senders && multiset(order) == multiset(Of(Run(schedule).table, u))
    ensures var s, t := Run(schedule), Run(schedule + [Begin(b, u, order)] + Sending(b, order, writes));
            && (forall v, c :: (v, c) in Pairs(t.table) <==> (v, c) in Pairs(s.table) && (v == u ==> writes(c)))
            && t.written == s.written + Targets(u, order)
  {
    var begun := schedule + [Begin(b, u, order)];
    HubRefinesPairs(schedule);
    HubRefinesPairs(begun + Sending(b, order, writes));
    SnapshotLists(Run(schedule).table, order, u);
    Then(schedule, Begin(b, u, order));
    WriteAll(begun, b, u, order, writes);
  }
}
