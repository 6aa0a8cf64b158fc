/**
 Where results get lost, and nowhere else.  A worker that has committed the offset of a message and has yet
 to publish its InventoryReserved event loses the result by crashing, or by a publish that does not succeed.
 In every run, whatever lies below a committed offset asked for nothing, was refused, was reported, is about
 to be reported, or was lost by such a step.  This holds for any hand-over of partitions.
 */
module SagaReports {
  import opened Basics
  import opened Events
  import opened Delivery
  import opened Services
  import opened Saga
  import opened SagaOrigins
  import D = SagaDelivery
  import X = SagaExclusive

  /** The publish of a result that does not reach the inventory topic. */
  predicate PublishFails(w: World, call: Outcome) {
    !call.Done? || call.partition >= |w.inventoryLog|
  }

  /** The step at which the result of the message at `x` is lost. */
  ghost predicate Loses(s: State, a: Action, x: Slot) {
    && (a.Crash? || (a.Work? && PublishFails(s.w, a.call)))
    && a.i in s.workers && s.workers[a.i].pc.Acknowledged? && D.SlotOf(s.workers[a.i].pc.m) == x
  }

  ghost predicate LosesDuring(m: nat, n: nat, schedule: seq<Action>, x: Slot) {
    exists k: nat :: k < |schedule| && LosesAt(m, n, schedule, k, x)
  }

  ghost predicate LosesAt(m: nat, n: nat, schedule: seq<Action>, k: nat, x: Slot)
    requires k < |schedule|
  {
    Loses(Run(m, n, schedule[..k]), schedule[k], x)
  }

  /******* The fate of a message *******/

  ghost predicate AboutToReport(workers: map<nat, Worker>, x: Slot) {
    exists i :: i in workers && workers[i].pc.Acknowledged? && D.SlotOf(workers[i].pc.m) == x
  }

  ghost predicate HasResult(origins: map<EventId, Slot>, x: Slot) {
    exists e :: e in origins && origins[e] == x
  }

  /** The event asked for nothing, or its order has been refused. */
  ghost predicate NoReportDue(w: World, e: Event) {
    e.kind != OrderCreated || (DecodeOrder(e.payload).Some? && D.HasFailure(w.inventoryLog, DecodeOrder(e.payload).value.order))
  }

  ghost predicate Accounted(s: State, x: Slot) {
    && D.InLog(s.w.orderLog, x)
    && (NoReportDue(s.w, At(s.w.orderLog, x)) || HasResult(s.origins, x) || AboutToReport(s.workers, x))
  }

  ghost function Done(s: State, lost: iset<Slot>): iset<Slot> {
    iset x: Slot | D.InLog(s.w.orderLog, x) && (x in lost || Accounted(s, x))
  }

  ghost predicate PipesOk(done: iset<Slot>, workers: map<nat, Worker>) {
    forall i | i in workers :: PipeOk(done, D.WorkerPipe(workers[i]))
  }

  /** Everything below a committed offset is in `done`, and so is what workers have passed by. */
  ghost predicate AllIn(s: State, done: iset<Slot>) {
    OffsetsOk(done, s.w.orderOffsets) && PipesOk(done, s.workers)
  }

  ghost predicate Inv(s: State, lost: iset<Slot>) {
    AllIn(s, Done(s, lost))
  }

  /******* What is done stays done, unless the step loses it *******/

  lemma NoReportStays(w: World, w': World, e: Event)
    requires Evolves(w, w') && NoReportDue(w, e)
    ensures NoReportDue(w', e)
  {
    if e.kind == OrderCreated {
      D.FailureStays(w.inventoryLog, w'.inventoryLog, DecodeOrder(e.payload).value.order);
    }
  }

  lemma OriginFields(s: State, a: Action)
    requires forall e | e in s.origins :: e < s.w.nextId
    ensures OriginsGrow(s.origins, Step(s, a).origins)
  {
  }

  /** A worker about to report goes on to, or loses the result. */
  lemma ReportingStays(s: State, a: Action, x: Slot)
    requires forall e | e in s.origins :: e < s.w.nextId
    requires AboutToReport(s.workers, x) && !Loses(s, a, x)
    ensures AboutToReport(Step(s, a).workers, x) || HasResult(Step(s, a).origins, x)
  {
    var i :| i in s.workers && s.workers[i].pc.Acknowledged? && D.SlotOf(s.workers[i].pc.m) == x;
    if a.Work? && a.i == i {
      assert !PublishFails(s.w, a.call);
      assert Step(s, a).origins[s.w.nextId] == x;
    } else {
      OtherWorker(s, a, i);
    }
  }

  /** An acknowledged worker keeps its message through every step but its own call and its crash. */
  lemma OtherWorker(s: State, a: Action, i: nat)
    requires i in s.workers && s.workers[i].pc.Acknowledged? && !((a.Work? || a.Crash?) && a.i == i)
    ensures i in Step(s, a).workers && Step(s, a).workers[i].pc == s.workers[i].pc
  {
  }

  lemma DoneGrows(s: State, a: Action, lost: iset<Slot>, lost': iset<Slot>)
    requires forall e | e in s.origins :: e < s.w.nextId
    requires lost <= lost' && forall x | Loses(s, a, x) :: x in lost'
    ensures Done(s, lost) <= Done(Step(s, a), lost')
  {
    var s' := Step(s, a);
    StepEvolves(s, a);
    OriginFields(s, a);
    forall x | x in Done(s, lost) ensures x in Done(s', lost') {
      D.SlotStays(s.w.orderLog, s'.w.orderLog, x);
      if x !in lost' {
        AccountedStays(s, a, x);
      }
    }
  }

  lemma AccountedStays(s: State, a: Action, x: Slot)
    requires forall e | e in s.origins :: e < s.w.nextId
    requires Accounted(s, x) && !Loses(s, a, x)
    ensures Accounted(Step(s, a), x)
  {
    var s' := Step(s, a);
    StepEvolves(s, a);
    OriginFields(s, a);
    D.SlotStays(s.w.orderLog, s'.w.orderLog, x);
    if NoReportDue(s.w, At(s.w.orderLog, x)) {
      NoReportStays(s.w, s'.w, At(s.w.orderLog, x));
    } else if HasResult(s.origins, x) {
      var e :| e in s.origins && s.origins[e] == x;
      assert s'.origins[e] == x;
    } else {
      ReportingStays(s, a, x);
    }
  }

  /******* Steps *******/

  /** At most worker `i` changed. */
  lemma PipesStay(done: iset<Slot>, done': iset<Slot>, workers: map<nat, Worker>, workers': map<nat, Worker>, i: nat)
    requires PipesOk(done, workers) && done <= done'
    requires forall j | j in workers' && j != i :: j in workers && workers'[j] == workers[j]
    requires i in workers' ==> PipeOk(done', D.WorkerPipe(workers'[i]))
    ensures PipesOk(done', workers')
  {
    forall j | j in workers' && j != i ensures PipeOk(done', D.WorkerPipe(workers'[j])) {
      MoreDone(done, done', D.WorkerPipe(workers[j]));
    }
  }

  lemma AssignPipe(s: State, done: iset<Slot>, i: nat, p: nat)
    requires OffsetsOk(done, s.w.orderOffsets) && PipesOk(done, s.workers) && p < |s.w.orderOffsets|
    ensures PipesOk(done, AssignStep(s, i, p).workers)
  {
    var k := WorkerAt(s, i);
    var k' := k.(positions := k.positions[p := s.w.orderOffsets[p]]);
    assert PipeOk(done, D.WorkerPipe(k));
    AssignKeeps(done, D.WorkerPipe(k), p, s.w.orderOffsets[p]);
    assert D.WorkerPipe(k') == D.WorkerPipe(k).(positions := D.WorkerPipe(k).positions[p := s.w.orderOffsets[p]]);
    PipesStay(done, done, s.workers, s.workers[i := k'], i);
  }

  lemma RevokePipe(s: State, done: iset<Slot>, i: nat, p: nat)
    requires PipesOk(done, s.workers) && i in s.workers
    ensures PipesOk(done, Step(s, Revoke(i, p)).workers)
  {
    var k := s.workers[i];
    RevokeKeeps(done, D.WorkerPipe(k), p);
    assert D.WorkerPipe(k.(positions := k.positions - {p})) == D.WorkerPipe(k).(positions := D.WorkerPipe(k).positions - {p});
    PipesStay(done, done, s.workers, s.workers[i := k.(positions := k.positions - {p})], i);
  }

  lemma FetchPipe(s: State, done: iset<Slot>, i: nat, p: nat)
    requires PipesOk(done, s.workers)
    ensures PipesOk(done, FetchStep(s, i, p).workers)
  {
    var k, s' := WorkerAt(s, i), FetchStep(s, i, p);
    if s' != s {
      var k' := s'.workers[i];
      FetchKeeps(done, D.WorkerPipe(k), p);
      var held, held' := D.Current(k.pc) + k.queue, D.Current(k'.pc) + k'.queue;
      assert held' == held + [k'.queue[|k.queue|]];
      assert D.Slots(held') == D.Slots(held) + [Slot(p, k.positions[p])];
      PipesStay(done, done, s.workers, s.workers[i := k'], i);
    }
  }

  /** A call that does not commit leaves the worker with the same messages. */
  lemma SamePipe(s: State, i: nat, call: Outcome)
    requires i in s.workers && s.workers[i].pc.Idle?
    ensures WorkStep(s, i, call).w == s.w
    ensures i in WorkStep(s, i, call).workers && D.WorkerPipe(WorkStep(s, i, call).workers[i]) == D.WorkerPipe(s.workers[i])
  {
    var k, k' := s.workers[i], WorkStep(s, i, call).workers[i];
    assert D.Current(k'.pc) + k'.queue == D.Current(k.pc) + k.queue;
  }

  lemma PlainCall(w: World, pc: WorkerPc, call: Outcome)
    requires !pc.Idle? && !X.Commits(pc)
    ensures var (w', pc') := CallWorker(w, pc, call);
            w'.orderOffsets == w.orderOffsets && (!pc'.Stopped? ==> D.Current(pc') == D.Current(pc))
  {
  }

  lemma HeldInRange(s: State, i: nat)
    requires D.Inv(s) && i in s.workers && X.Commits(s.workers[i].pc)
    ensures s.workers[i].pc.m.partition < |s.w.orderOffsets|
  {
    var k := s.workers[i];
    assert D.WorkerOk(s.w, k) && (D.Current(k.pc) + k.queue)[0] == k.pc.m;
  }

  /** The message whose offset is committed is accounted for when it is. */
  lemma CommittedIsAccounted(s: State, i: nat, call: Outcome)
    requires D.Inv(s) && i in s.workers && X.Commits(s.workers[i].pc) && i in WorkStep(s, i, call).workers
    ensures Accounted(WorkStep(s, i, call), D.SlotOf(s.workers[i].pc.m))
  {
    var k, s' := s.workers[i], WorkStep(s, i, call);
    var x := D.SlotOf(k.pc.m);
    HeldInRange(s, i);
    X.CommitCall(s.w, k.pc, call);
    WorkEvolves(s, i, call);
    assert D.WorkerOk(s.w, k) && (D.Current(k.pc) + k.queue)[0] == k.pc.m;
    D.SlotStays(s.w.orderLog, s'.w.orderLog, x);
    if k.pc.Marked? {
      assert s'.workers[i].pc == Acknowledged(k.pc.m, k.pc.order);
    } else {
      NoReportStays(s.w, s'.w, k.pc.m.event);
    }
  }

  lemma CommitPipe(w: World, done: iset<Slot>, k: Worker, pc': WorkerPc)
    requires OffsetsOk(done, w.orderOffsets) && PipeOk(done, D.WorkerPipe(k))
    requires X.Commits(k.pc) && D.Current(pc') == [] && D.SlotOf(k.pc.m) in done && k.pc.m.partition < |w.orderOffsets|
    ensures PipeOk(done, D.WorkerPipe(k.(pc := pc'))) && OffsetsOk(done, CommitTo(w.orderOffsets, k.pc.m))
  {
    var held := D.Current(k.pc) + k.queue;
    assert D.Slots(held)[0] == D.SlotOf(k.pc.m);
    CommitKeeps(done, D.WorkerPipe(k), w.orderOffsets);
    FinishKeeps(done, D.WorkerPipe(k));
    assert D.Current(pc') + k.queue == held[1..];
    assert D.Slots(held)[1..] == D.Slots(held[1..]);
  }

  lemma MoreOffsets(done: iset<Slot>, done': iset<Slot>, offsets: seq<nat>)
    requires OffsetsOk(done, offsets) && done <= done'
    ensures OffsetsOk(done', offsets)
  {
  }

  /** The committing call, seen from the worker's own pipe. */
  lemma CommittingPipe(s: State, i: nat, call: Outcome, done: iset<Slot>)
    requires i in s.workers && X.Commits(s.workers[i].pc) && s.workers[i].pc.m.partition < |s.w.orderOffsets|
    requires OffsetsOk(done, s.w.orderOffsets) && PipeOk(done, D.WorkerPipe(s.workers[i]))
    requires i in WorkStep(s, i, call).workers ==> D.SlotOf(s.workers[i].pc.m) in done
    ensures var s' := WorkStep(s, i, call);
            && OffsetsOk(done, s'.w.orderOffsets)
            && (i in s'.workers ==> PipeOk(done, D.WorkerPipe(s'.workers[i])))
  {
    X.CommitCall(s.w, s.workers[i].pc, call);
    if i in WorkStep(s, i, call).workers {
      CommitPipe(s.w, done, s.workers[i], WorkStep(s, i, call).workers[i].pc);
    }
  }

  /** A worker commits the offset of the message at `x`. */
  ghost predicate CommitsSlot(s: State, a: Action, x: Slot) {
    a.Work? && a.i in s.workers && X.Commits(s.workers[a.i].pc) && D.SlotOf(s.workers[a.i].pc.m) == x && a.i in Step(s, a).workers
  }

  lemma OthersStay(s: State, i: nat, call: Outcome)
    ensures forall j | j in WorkStep(s, i, call).workers && j != i :: j in s.workers && WorkStep(s, i, call).workers[j] == s.workers[j]
  {
  }

  lemma CommitKeepsIn(s: State, i: nat, call: Outcome, done: iset<Slot>)
    requires D.Inv(s) && AllIn(s, done) && i in s.workers && X.Commits(s.workers[i].pc)
    requires forall x | CommitsSlot(s, Work(i, call), x) :: x in done
    ensures AllIn(WorkStep(s, i, call), done)
  {
    var s' := WorkStep(s, i, call);
    HeldInRange(s, i);
    assert i in s'.workers ==> CommitsSlot(s, Work(i, call), D.SlotOf(s.workers[i].pc.m));
    CommittingPipe(s, i, call, done);
    OthersStay(s, i, call);
    PipesStay(done, done, s.workers, s'.workers, i);
  }

  lemma CallKeepsIn(s: State, i: nat, call: Outcome, done: iset<Slot>)
    requires AllIn(s, done) && i in s.workers && !X.Commits(s.workers[i].pc)
    ensures AllIn(WorkStep(s, i, call), done)
  {
    if s.workers[i].pc.Idle? {
      SamePipe(s, i, call);
    } else {
      PlainCall(s.w, s.workers[i].pc, call);
    }
    PipesStay(done, done, s.workers, WorkStep(s, i, call).workers, i);
  }

  lemma PipesAfter(s: State, a: Action, done: iset<Slot>)
    requires OffsetsOk(done, s.w.orderOffsets) && PipesOk(done, s.workers) && D.WorkerAction(a) && !a.Work?
    ensures PipesOk(done, Step(s, a).workers)
  {
    match a
    case Assign(i, p) => if p < |s.w.orderOffsets| { AssignPipe(s, done, i, p); }
    case Revoke(i, p) => if i in s.workers { RevokePipe(s, done, i, p); }
    case Fetch(i, p) => FetchPipe(s, done, i, p);
    case Crash(i) => PipesStay(done, done, s.workers, s.workers - {i}, i);
  }

  lemma MoreIn(s: State, done: iset<Slot>, done': iset<Slot>)
    requires AllIn(s, done) && done <= done'
    ensures AllIn(s, done')
  {
    MoreOffsets(done, done', s.w.orderOffsets);
    forall i | i in s.workers ensures PipeOk(done', D.WorkerPipe(s.workers[i])) {
      MoreDone(done, done', D.WorkerPipe(s.workers[i]));
    }
  }

  /** The step commits no message outside `done`, so everything below the committed offsets stays inside. */
  lemma StepKeepsIn(s: State, a: Action, done: iset<Slot>)
    requires D.Inv(s) && AllIn(s, done) && forall x | CommitsSlot(s, a, x) :: x in done
    ensures AllIn(Step(s, a), done)
  {
    if a.Work? {
      if a.i in s.workers {
        if X.Commits(s.workers[a.i].pc) {
          CommitKeepsIn(s, a.i, a.call, done);
        } else {
          CallKeepsIn(s, a.i, a.call, done);
        }
      }
    } else if D.WorkerAction(a) {
      assert Step(s, a).w.orderOffsets == s.w.orderOffsets;
      PipesAfter(s, a, done);
    } else {
      X.OtherFields(s, a);
    }
  }

  lemma StepKeeps(s: State, a: Action, lost: iset<Slot>, lost': iset<Slot>)
    requires D.Inv(s) && Inv(s, lost) && forall e | e in s.origins :: e < s.w.nextId
    requires lost <= lost' && forall x | Loses(s, a, x) :: x in lost'
    ensures Inv(Step(s, a), lost')
  {
    DoneGrows(s, a, lost, lost');
    MoreIn(s, Done(s, lost), Done(Step(s, a), lost'));
    forall x | CommitsSlot(s, a, x) ensures x in Done(Step(s, a), lost') {
      CommittedIsAccounted(s, a.i, a.call);
    }
    StepKeepsIn(s, a, Done(Step(s, a), lost'));
  }

  /******* Every run *******/

  ghost function LostSlots(m: nat, n: nat, schedule: seq<Action>): iset<Slot> {
    iset x: Slot | LosesDuring(m, n, schedule, x)
  }

  lemma LossesGrow(m: nat, n: nat, before: seq<Action>, a: Action)
    ensures LostSlots(m, n, before) <= LostSlots(m, n, before + [a])
    ensures forall x | Loses(Run(m, n, before), a, x) :: x in LostSlots(m, n, before + [a])
  {
    var schedule := before + [a];
    forall x | LosesDuring(m, n, before, x) ensures LosesDuring(m, n, schedule, x) {
      var k: nat :| k < |before| && LosesAt(m, n, before, k, x);
      assert schedule[..k] == before[..k] && schedule[k] == before[k];
      assert LosesAt(m, n, schedule, k, x);
    }
    assert schedule[..|before|] == before && schedule[|before|] == a;
    forall x | Loses(Run(m, n, before), a, x) ensures LosesDuring(m, n, schedule, x) {
      assert LosesAt(m, n, schedule, |before|, x);
    }
  }

  lemma {:induction false} RunKeeps(m: nat, n: nat, schedule: seq<Action>)
    ensures Inv(Run(m, n, schedule), LostSlots(m, n, schedule))
  {
    if schedule != [] {
      var before, a := schedule[..|schedule| - 1], schedule[|schedule| - 1];
      RunKeeps(m, n, before);
      D.RunKeeps(m, n, before);
      SagaOrigins.RunKeeps(m, n, before);
      LossesGrow(m, n, before, a);
      assert before + [a] == schedule;
      StepKeeps(Run(m, n, before), a, LostSlots(m, n, before), LostSlots(m, n, schedule));
    }
  }

  /** Every message below a committed offset asked for nothing, was refused, was reported, is about to be
      reported, or its result was lost by a crash or a failed publish after the commit. */
  lemma NothingElseIsLost(m: nat, n: nat, schedule: seq<Action>, s: State, x: Slot)
    requires s == Run(m, n, schedule) && x.partition < |s.w.orderOffsets| && x.offset < s.w.orderOffsets[x.partition]
    ensures Accounted(s, x) || LosesDuring(m, n, schedule, x)
  {
    RunKeeps(m, n, schedule);
    assert x in Done(s, LostSlots(m, n, schedule));
  }
}
