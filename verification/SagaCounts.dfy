/**
 How often a message is reported.  In every run, with any hand-over of partitions, the results published of
 a message, those about to be published and those lost add up to the commits of workers that reserved it.
 A message is reported twice exactly when such a commit repeats although the earlier one was not lost; with
 exclusive hand-over no commit repeats.
 */
module SagaCounts {
  import opened Basics
  import opened Events
  import opened Delivery
  import opened Services
  import opened Saga
  import opened SagaOrigins
  import D = SagaDelivery
  import P = SagaPaths
  import R = SagaReports
  import X = SagaExclusive

  /** The worker is about to publish the result of the message at `x`. */
  predicate ReportsOn(k: Worker, x: Slot) {
    k.pc.Acknowledged? && D.SlotOf(k.pc.m) == x
  }

  ghost function DueSet(workers: map<nat, Worker>, x: Slot): set<nat> {
    set i | i in workers && ReportsOn(workers[i], x)
  }

  ghost function ResultSet(origins: map<EventId, Slot>, x: Slot): set<EventId> {
    set e | e in origins && origins[e] == x
  }

  /** Results of the message that are published, or that some worker is about to publish. */
  ghost function Claims(s: State, x: Slot): nat {
    |ResultSet(s.origins, x)| + |DueSet(s.workers, x)|
  }

  /** The commit of a worker that has reserved the message at `x` and will report it. */
  predicate CommitsReport(s: State, a: Action, x: Slot) {
    a.Work? && a.call.Done? && a.i in s.workers && s.workers[a.i].pc.Marked? && D.SlotOf(s.workers[a.i].pc.m) == x
  }

  ghost function CommitCount(m: nat, n: nat, schedule: seq<Action>, x: Slot): nat {
    if schedule == [] then 0
    else
      var before := schedule[..|schedule| - 1];
      CommitCount(m, n, before, x) + if CommitsReport(Run(m, n, before), schedule[|schedule| - 1], x) then 1 else 0
  }

  ghost function LossCount(m: nat, n: nat, schedule: seq<Action>, x: Slot): nat {
    if schedule == [] then 0
    else
      var before := schedule[..|schedule| - 1];
      LossCount(m, n, before, x) + if R.Loses(Run(m, n, before), schedule[|schedule| - 1], x) then 1 else 0
  }

  /******* One step *******/

  lemma DueRemove(workers: map<nat, Worker>, i: nat, x: Slot)
    ensures |DueSet(workers, x)| == |DueSet(workers - {i}, x)| + if i in workers && ReportsOn(workers[i], x) then 1 else 0
  {
    var rest := DueSet(workers - {i}, x);
    if i in workers && ReportsOn(workers[i], x) {
      assert DueSet(workers, x) == rest + {i};
    } else {
      assert DueSet(workers, x) == rest;
    }
  }

  lemma DuePut(workers: map<nat, Worker>, i: nat, k: Worker, x: Slot)
    ensures |DueSet(workers[i := k], x)| == |DueSet(workers - {i}, x)| + if ReportsOn(k, x) then 1 else 0
  {
    DueRemove(workers[i := k], i, x);
    assert workers[i := k] - {i} == workers - {i};
  }

  /** A worker that is, or is not, about to report the same as before. */
  lemma DueSame(workers: map<nat, Worker>, i: nat, k: Worker, x: Slot)
    requires ReportsOn(k, x) <==> i in workers && ReportsOn(workers[i], x)
    ensures |DueSet(workers[i := k], x)| == |DueSet(workers, x)|
  {
    DueRemove(workers, i, x);
    DuePut(workers, i, k, x);
  }

  lemma ResultPut(origins: map<EventId, Slot>, e: EventId, y: Slot, x: Slot)
    requires e !in origins
    ensures |ResultSet(origins[e := y], x)| == |ResultSet(origins, x)| + if y == x then 1 else 0
  {
    if y == x {
      assert ResultSet(origins[e := y], x) == ResultSet(origins, x) + {e};
    } else {
      assert ResultSet(origins[e := y], x) == ResultSet(origins, x);
    }
  }

  /** The last two calls: the commit makes a result due, the publish delivers or loses it. */
  lemma ReportCounts(s: State, i: nat, call: Outcome, x: Slot)
    requires forall e | e in s.origins :: e < s.w.nextId
    requires i in s.workers && s.workers[i].pc.Acknowledged?
    ensures Claims(WorkStep(s, i, call), x) + (if R.Loses(s, Work(i, call), x) then 1 else 0) == Claims(s, x)
  {
    var k := s.workers[i];
    X.PublishFields(s, i, call);
    DueRemove(s.workers, i, x);
    DuePut(s.workers, i, k.(pc := Idle), x);
    ResultPut(s.origins, s.w.nextId, D.SlotOf(k.pc.m), x);
    assert i in WorkStep(s, i, call).workers <==> !R.PublishFails(s.w, call);
  }

  lemma CommitCounts(s: State, i: nat, call: Outcome, x: Slot)
    requires i in s.workers && s.workers[i].pc.Marked?
    ensures Claims(WorkStep(s, i, call), x) == Claims(s, x) + if CommitsReport(s, Work(i, call), x) then 1 else 0
  {
    var k, s' := s.workers[i], WorkStep(s, i, call);
    DueRemove(s.workers, i, x);
    DuePut(s.workers, i, k.(pc := Acknowledged(k.pc.m, k.pc.order)), x);
    assert s'.origins == s.origins;
    assert s'.workers == if call.Done? then s.workers[i := k.(pc := Acknowledged(k.pc.m, k.pc.order))] else s.workers - {i};
  }

  lemma CallCounts(s: State, i: nat, call: Outcome, x: Slot)
    requires i in s.workers && !s.workers[i].pc.Acknowledged? && !s.workers[i].pc.Marked?
    ensures Claims(WorkStep(s, i, call), x) == Claims(s, x)
  {
    var s' := WorkStep(s, i, call);
    assert s'.origins == s.origins;
    DueRemove(s.workers, i, x);
    if i in s'.workers {
      assert s'.workers == s.workers[i := s'.workers[i]] && !s'.workers[i].pc.Acknowledged?;
      DuePut(s.workers, i, s'.workers[i], x);
    } else {
      assert s'.workers == s.workers - {i};
    }
  }

  lemma PipeCounts(s: State, a: Action, x: Slot)
    requires D.WorkerAction(a) && !a.Work?
    ensures Claims(Step(s, a), x) + (if R.Loses(s, a, x) then 1 else 0) == Claims(s, x)
  {
    match a
    case Assign(i, p) => if p < |s.w.orderOffsets| { DueSame(s.workers, i, AssignStep(s, i, p).workers[i], x); }
    case Revoke(i, p) => if i in s.workers { DueSame(s.workers, i, Step(s, a).workers[i], x); }
    case Fetch(i, p) => if FetchStep(s, i, p) != s { DueSame(s.workers, i, FetchStep(s, i, p).workers[i], x); }
    case Crash(i) => DueRemove(s.workers, i, x);
  }

  lemma StepCounts(s: State, a: Action, x: Slot)
    requires forall e | e in s.origins :: e < s.w.nextId
    ensures Claims(Step(s, a), x) + (if R.Loses(s, a, x) then 1 else 0) == Claims(s, x) + if CommitsReport(s, a, x) then 1 else 0
  {
    if a.Work? {
      if a.i in s.workers {
        if s.workers[a.i].pc.Acknowledged? { ReportCounts(s, a.i, a.call, x); }
        else if s.workers[a.i].pc.Marked? { CommitCounts(s, a.i, a.call, x); }
        else { CallCounts(s, a.i, a.call, x); }
      }
    } else if D.WorkerAction(a) {
      PipeCounts(s, a, x);
    } else {
      X.OtherFields(s, a);
    }
  }

  /******* Every run *******/

  /** Results published, results due and results lost are the commits of workers that reserved. */
  lemma {:induction false} CommitsAccounted(m: nat, n: nat, schedule: seq<Action>, x: Slot)
    ensures Claims(Run(m, n, schedule), x) + LossCount(m, n, schedule, x) == CommitCount(m, n, schedule, x)
  {
    if schedule == [] {
      assert ResultSet(map[], x) == {} && DueSet(map[], x) == {};
    } else {
      var before := schedule[..|schedule| - 1];
      CommitsAccounted(m, n, before, x);
      SagaOrigins.RunKeeps(m, n, before);
      StepCounts(Run(m, n, before), schedule[|schedule| - 1], x);
    }
  }

  /******* When a message is reported twice *******/

  /** A commit for a message although an earlier one was not lost. */
  ghost predicate RepeatsCommit(m: nat, n: nat, before: seq<Action>, a: Action, x: Slot) {
    CommitsReport(Run(m, n, before), a, x) && CommitCount(m, n, before, x) > LossCount(m, n, before, x)
  }

  ghost predicate NeverRepeats(m: nat, n: nat, schedule: seq<Action>, x: Slot) {
    forall k: nat | k < |schedule| :: !RepeatsCommit(m, n, schedule[..k], schedule[k], x)
  }

  ghost predicate ClaimedOnce(m: nat, n: nat, schedule: seq<Action>, x: Slot) {
    forall k: nat | k <= |schedule| :: Claims(Run(m, n, schedule[..k]), x) <= 1
  }

  lemma ClaimedNext(m: nat, n: nat, before: seq<Action>, a: Action, x: Slot)
    ensures ClaimedOnce(m, n, before + [a], x) <==> ClaimedOnce(m, n, before, x) && Claims(Run(m, n, before + [a]), x) <= 1
  {
    var schedule := before + [a];
    assert schedule[..|schedule|] == schedule;
    forall k: nat | k <= |before| ensures before[..k] == schedule[..k] {}
  }

  lemma RepeatsNext(m: nat, n: nat, before: seq<Action>, a: Action, x: Slot)
    ensures NeverRepeats(m, n, before + [a], x) <==> NeverRepeats(m, n, before, x) && !RepeatsCommit(m, n, before, a, x)
  {
    var schedule := before + [a];
    assert schedule[..|before|] == before && schedule[|before|] == a;
    forall k: nat | k < |before| ensures before[..k] == schedule[..k] && before[k] == schedule[k] {}
  }

  /** At every moment of a run at most one result of the message is published or due if and only if no
      commit for it repeats one that was not lost. */
  lemma {:induction false} ReportedOnceExactly(m: nat, n: nat, schedule: seq<Action>, x: Slot)
    ensures ClaimedOnce(m, n, schedule, x) <==> NeverRepeats(m, n, schedule, x)
  {
    if schedule == [] {
      CommitsAccounted(m, n, [], x);
      assert schedule[..0] == [];
    } else {
      var before, a := schedule[..|schedule| - 1], schedule[|schedule| - 1];
      assert before + [a] == schedule;
      ReportedOnceExactly(m, n, before, x);
      ClaimedNext(m, n, before, a, x);
      RepeatsNext(m, n, before, a, x);
      LastCount(m, n, before, a, x);
      ClaimedLast(m, n, before, x);
    }
  }

  lemma ClaimedLast(m: nat, n: nat, schedule: seq<Action>, x: Slot)
    ensures ClaimedOnce(m, n, schedule, x) ==> Claims(Run(m, n, schedule), x) <= 1
  {
    assert schedule[..|schedule|] == schedule;
  }

  /** Two results of one message come from a repeated commit. */
  lemma TwoResultsRepeat(m: nat, n: nat, schedule: seq<Action>, e: EventId, f: EventId)
    requires var s := Run(m, n, schedule); e in s.origins && f in s.origins && e != f && s.origins[e] == s.origins[f]
    ensures !NeverRepeats(m, n, schedule, Run(m, n, schedule).origins[e])
  {
    var s := Run(m, n, schedule);
    var x := s.origins[e];
    ReportedOnceExactly(m, n, schedule, x);
    ClaimedLast(m, n, schedule, x);
    if |ResultSet(s.origins, x)| <= 1 {
      Alone(ResultSet(s.origins, x), e, f);
    }
  }

  lemma LastCount(m: nat, n: nat, before: seq<Action>, a: Action, x: Slot)
    ensures Claims(Run(m, n, before), x) <= 1 ==> (Claims(Run(m, n, before + [a]), x) <= 1 <==> !RepeatsCommit(m, n, before, a, x))
  {
    P.Then(m, n, before, a);
    CommitsAccounted(m, n, before, x);
    SagaOrigins.RunKeeps(m, n, before);
    StepCounts(Run(m, n, before), a, x);
  }

  lemma {:induction false} TopicWidth(m: nat, n: nat, schedule: seq<Action>)
    ensures |Run(m, n, schedule).w.inventoryLog| == n
  {
    if schedule != [] {
      TopicWidth(m, n, schedule[..|schedule| - 1]);
      StepEvolves(Run(m, n, schedule[..|schedule| - 1]), schedule[|schedule| - 1]);
    }
  }

  /** From action `k` on, workers publish results of the message that are due, and nothing else happens. */
  ghost predicate JustPublishes(m: nat, n: nat, k: nat, schedule: seq<Action>, x: Slot) {
    forall j | k <= j < |schedule| :: PublishesDue(Run(m, n, schedule[..j]), schedule[j], x)
  }

  ghost predicate PublishesDue(s: State, a: Action, x: Slot) {
    a.Work? && a.call == Done(0) && a.i in DueSet(s.workers, x)
  }

  /** Whatever is due can still be published. */
  lemma {:induction false} DueIsPublished(m: nat, n: nat, schedule: seq<Action>, x: Slot) returns (longer: seq<Action>)
    requires n > 0
    ensures schedule <= longer && JustPublishes(m, n, |schedule|, longer, x)
    ensures |ResultSet(Run(m, n, longer).origins, x)| == Claims(Run(m, n, schedule), x)
    decreases |DueSet(Run(m, n, schedule).workers, x)|
  {
    var s := Run(m, n, schedule);
    if DueSet(s.workers, x) == {} {
      longer := schedule;
    } else {
      var i :| i in DueSet(s.workers, x);
      TopicWidth(m, n, schedule);
      SagaOrigins.RunKeeps(m, n, schedule);
      PublishDue(s, i, x);
      P.Then(m, n, schedule, Work(i, Done(0)));
      longer := DueIsPublished(m, n, schedule + [Work(i, Done(0))], x);
      assert longer[..|schedule|] == schedule && longer[|schedule|] == Work(i, Done(0));
    }
  }

  lemma {:induction false} PublishesKeepClaims(m: nat, n: nat, first: seq<Action>, rest: seq<Action>, x: Slot)
    requires n > 0 && JustPublishes(m, n, |first|, first + rest, x)
    ensures Claims(Run(m, n, first + rest), x) == Claims(Run(m, n, first), x)
  {
    if rest == [] {
      assert first + rest == first;
    } else {
      var before, a := first + rest[..|rest| - 1], rest[|rest| - 1];
      assert before + [a] == first + rest;
      PublishesBefore(m, n, |first|, before, a, x);
      PublishesKeepClaims(m, n, first, rest[..|rest| - 1], x);
      LastPublish(m, n, before, a, x);
    }
  }

  lemma PublishesBefore(m: nat, n: nat, k: nat, before: seq<Action>, a: Action, x: Slot)
    requires k <= |before| && JustPublishes(m, n, k, before + [a], x)
    ensures JustPublishes(m, n, k, before, x) && PublishesDue(Run(m, n, before), a, x)
  {
    var schedule := before + [a];
    assert schedule[..|before|] == before && schedule[|before|] == a;
    forall j | k <= j < |before| ensures PublishesDue(Run(m, n, before[..j]), before[j], x) {
      assert before[..j] == schedule[..j] && before[j] == schedule[j];
    }
  }

  lemma LastPublish(m: nat, n: nat, before: seq<Action>, a: Action, x: Slot)
    requires n > 0 && PublishesDue(Run(m, n, before), a, x)
    ensures Claims(Run(m, n, before + [a]), x) == Claims(Run(m, n, before), x)
  {
    P.Then(m, n, before, a);
    TopicWidth(m, n, before);
    SagaOrigins.RunKeeps(m, n, before);
    PublishDue(Run(m, n, before), a.i, x);
  }

  /** The pending publishes of some prefix of the run make a second result. */
  ghost predicate CanReportTwice(m: nat, n: nat, schedule: seq<Action>, x: Slot) {
    exists k: nat, longer :: k <= |schedule| && ReportsTwiceAfter(m, n, schedule[..k], longer, x)
  }

  ghost predicate ReportsTwiceAfter(m: nat, n: nat, prefix: seq<Action>, longer: seq<Action>, x: Slot) {
    prefix <= longer && JustPublishes(m, n, |prefix|, longer, x) && |ResultSet(Run(m, n, longer).origins, x)| >= 2
  }

  lemma TwoClaimsReportTwice(m: nat, n: nat, schedule: seq<Action>, k: nat, x: Slot)
    requires n > 0 && k <= |schedule| && Claims(Run(m, n, schedule[..k]), x) > 1
    ensures CanReportTwice(m, n, schedule, x)
  {
    var longer := DueIsPublished(m, n, schedule[..k], x);
    assert ReportsTwiceAfter(m, n, schedule[..k], longer, x);
  }

  lemma ReportedTwiceClaims(m: nat, n: nat, prefix: seq<Action>, longer: seq<Action>, x: Slot)
    requires n > 0 && ReportsTwiceAfter(m, n, prefix, longer, x)
    ensures Claims(Run(m, n, prefix), x) > 1
  {
    var rest := longer[|prefix|..];
    assert longer == prefix + rest;
    PublishesKeepClaims(m, n, prefix, rest, x);
  }

  /** A message can be reported twice, at some moment of a run, if and only if a worker that reserved it
      commits it although an earlier such commit was not lost. */
  lemma ReportedTwiceExactly(m: nat, n: nat, schedule: seq<Action>, x: Slot)
    requires n > 0
    ensures CanReportTwice(m, n, schedule, x) <==> !NeverRepeats(m, n, schedule, x)
  {
    ReportedOnceExactly(m, n, schedule, x);
    if !ClaimedOnce(m, n, schedule, x) {
      var k: nat :| k <= |schedule| && Claims(Run(m, n, schedule[..k]), x) > 1;
      TwoClaimsReportTwice(m, n, schedule, k, x);
    }
    if CanReportTwice(m, n, schedule, x) {
      var k: nat, longer :| k <= |schedule| && ReportsTwiceAfter(m, n, schedule[..k], longer, x);
      ReportedTwiceClaims(m, n, schedule[..k], longer, x);
    }
  }

  lemma PublishDue(s: State, i: nat, x: Slot)
    requires (forall e | e in s.origins :: e < s.w.nextId) && i in DueSet(s.workers, x) && |s.w.inventoryLog| > 0
    ensures Claims(Step(s, Work(i, Done(0))), x) == Claims(s, x)
    ensures |DueSet(Step(s, Work(i, Done(0))).workers, x)| < |DueSet(s.workers, x)|
  {
    ReportCounts(s, i, Done(0), x);
    X.PublishFields(s, i, Done(0));
    DueRemove(s.workers, i, x);
    DuePut(s.workers, i, s.workers[i].(pc := Idle), x);
  }

  /******* Exclusive hand-over *******/

  /** Committed offsets never go back, and a message below them is not committed again. */
  lemma BelowStays(s: State, a: Action, x: Slot)
    requires X.Inv(s) && X.Below(s.w.orderOffsets, x)
    ensures X.Below(Step(s, a).w.orderOffsets, x) && !CommitsReport(s, a, x)
  {
    if a.Work? && a.i in s.workers && X.Commits(s.workers[a.i].pc) {
      CommitAbove(s, a.i, a.call, x);
    } else if a.Work? && a.i in s.workers {
      CallKeepsOffsets(s, a.i, a.call);
    } else if !D.WorkerAction(a) {
      X.OtherFields(s, a);
    }
  }

  lemma CallKeepsOffsets(s: State, i: nat, call: Outcome)
    requires i in s.workers && !X.Commits(s.workers[i].pc)
    ensures WorkStep(s, i, call).w.orderOffsets == s.w.orderOffsets
  {
  }

  lemma CommitAbove(s: State, i: nat, call: Outcome, x: Slot)
    requires X.Inv(s) && X.Below(s.w.orderOffsets, x) && i in s.workers && X.Commits(s.workers[i].pc)
    ensures X.Below(WorkStep(s, i, call).w.orderOffsets, x) && D.SlotOf(s.workers[i].pc.m) != x
  {
    HeldAbove(s, i);
    X.CommitCall(s.w, s.workers[i].pc, call);
  }

  lemma HeldAbove(s: State, i: nat)
    requires X.Inv(s) && i in s.workers && X.Commits(s.workers[i].pc)
    ensures var m := s.workers[i].pc.m; m.partition < |s.w.orderOffsets| && s.w.orderOffsets[m.partition] <= m.offset
  {
    var k := s.workers[i];
    X.HeldAfterCommit(k, Idle);
    assert X.HeldOk(s.w.orderOffsets, k.positions, X.Held(k)) && X.Held(k)[0] == D.SlotOf(k.pc.m);
  }

  lemma CommitPuts(s: State, a: Action, x: Slot)
    requires X.Inv(s) && CommitsReport(s, a, x)
    ensures X.Below(Step(s, a).w.orderOffsets, x)
  {
    HeldAbove(s, a.i);
    X.CommitCall(s.w, s.workers[a.i].pc, a.call);
  }

  lemma {:induction false} ExclusiveCommitsOnce(m: nat, n: nat, schedule: seq<Action>, x: Slot)
    requires X.Exclusive(m, n, schedule)
    ensures CommitCount(m, n, schedule, x) <= 1
    ensures CommitCount(m, n, schedule, x) == 1 ==> X.Below(Run(m, n, schedule).w.orderOffsets, x)
  {
    if schedule != [] {
      var before, a := schedule[..|schedule| - 1], schedule[|schedule| - 1];
      X.ExclusivePrefix(m, n, schedule, |schedule| - 1);
      ExclusiveCommitsOnce(m, n, before, x);
      X.RunKeeps(m, n, before);
      if CommitCount(m, n, before, x) == 1 {
        BelowStays(Run(m, n, before), a, x);
      } else if CommitsReport(Run(m, n, before), a, x) {
        CommitPuts(Run(m, n, before), a, x);
      }
    }
  }

  /** So each message leads to at most one InventoryReserved event. */
  lemma ReservedAtMostOnce(m: nat, n: nat, schedule: seq<Action>, e: EventId, f: EventId)
    requires X.Exclusive(m, n, schedule)
    requires var s := Run(m, n, schedule); e in s.origins && f in s.origins && s.origins[e] == s.origins[f]
    ensures e == f
  {
    var s := Run(m, n, schedule);
    var x := s.origins[e];
    ExclusiveCommitsOnce(m, n, schedule, x);
    CommitsAccounted(m, n, schedule, x);
    Alone(ResultSet(s.origins, x), e, f);
  }

  lemma Alone(results: set<EventId>, e: EventId, f: EventId)
    requires |results| <= 1 && e in results && f in results
    ensures e == f
  {
    var rest := results - {e};
    assert |rest| == 0;
  }

  /** Every InventoryReserved event in the topic has an OrderCreated message of its order behind it,
      and, when partitions are handed over only when free, a message of its own. */
  lemma OneResultPerMessage(m: nat, n: nat, schedule: seq<Action>, s: State, x: Slot, y: Slot)
    requires s == Run(m, n, schedule) && X.Exclusive(m, n, schedule)
    requires var results := s.w.inventoryLog;
             && D.InLog(results, x) && At(results, x).kind == InventoryReserved
             && D.InLog(results, y) && At(results, y).kind == InventoryReserved && x != y
    ensures var e, f := At(s.w.inventoryLog, x), At(s.w.inventoryLog, y);
            && ResultTraced(s.w.orderLog, s.origins, e) && ResultTraced(s.w.orderLog, s.origins, f)
            && s.origins[e.id] != s.origins[f.id]
  {
    SagaOrigins.RunKeeps(m, n, schedule);
    var e, f := At(s.w.inventoryLog, x), At(s.w.inventoryLog, y);
    assert ResultTraced(s.w.orderLog, s.origins, e) && ResultTraced(s.w.orderLog, s.origins, f);
    if s.origins[e.id] == s.origins[f.id] {
      ReservedAtMostOnce(m, n, schedule, e.id, f.id);
    }
  }
}
