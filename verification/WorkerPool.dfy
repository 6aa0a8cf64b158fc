/**
 The generic worker pool: workers share one jobs channel and one error channel with a slot per worker.

 Every channel operation is one step; sending on the closed error channel or closing it twice sets
 `panicked`.  `Submit` is called only before `Close`, as the pool demands of its callers.  A schedule is
 any sequence of actions; an action that cannot be taken leaves the state as it is.
 */
module WorkerPool {

  datatype Worker<T> = Waiting | Handling(job: T) | Sending(job: T) | Exited

  datatype Closing = Open | WaitingForWorkers | Returned

  /** `submitted`, `started`, `handled`, `failed` and `read` record history; an error stands for the job it came from. */
  datatype State<T> = State(
    buffer: nat, workers: seq<Worker<T>>, jobs: seq<T>, errs: seq<T>, errsClosed: bool,
    cancelled: bool, closing: Closing, panicked: bool,
    submitted: seq<T>, started: seq<T>, handled: seq<T>, failed: seq<T>, read: seq<T>)

  datatype Action<T> =
    | Submit(job: T)          // into the buffer
    | HandOff(i: nat, job: T) // straight to a waiting worker
    | Take(i: nat)            // receive a job, or see the channel closed
    | SeeCancel(i: nat)
    | HandlerOk(i: nat)
    | HandlerFails(i: nat)
    | SendError(i: nat)
    | Drain                   // whoever reads the error channel
    | CloseErrors             // after wg.Wait
    | CallClose
    | CloseReturns
    | CancelContext

  /** NewWorkerPool raises a worker count below 1 to 1. */
  function WorkerCount(configured: int): (n: nat)
    ensures n > 0
    ensures n == 1 || n == configured
    ensures configured >= 1 ==> n == configured
  {
    if configured < 1 then 1 else configured
  }

  function Init<T>(n: nat, buffer: nat): State<T> {
    State(buffer, seq(n, _ => Waiting), [], [], false, false, Open, false, [], [], [], [], [])
  }

  ghost predicate AllExited<T>(workers: seq<Worker<T>>) {
    forall i | 0 <= i < |workers| :: workers[i] == Exited
  }

  ghost function Put<T>(s: State<T>, i: nat, w: Worker<T>): State<T>
    requires i < |s.workers|
  {
    s.(workers := s.workers[i := w])
  }

  /** A step of worker `i`, in state `w`. */
  ghost function WorkerStep<T>(s: State<T>, a: Action<T>, i: nat, w: Worker<T>): State<T>
    requires i < |s.workers| && s.workers[i] == w
  {
    if a.HandOff? && w.Waiting? && s.jobs == [] && s.closing == Open then
      Put(s, i, Handling(a.job)).(submitted := s.submitted + [a.job], started := s.started + [a.job])
    else if a.Take? && w.Waiting? && s.jobs != [] then
      Put(s, i, Handling(s.jobs[0])).(jobs := s.jobs[1..], started := s.started + [s.jobs[0]])
    else if a.Take? && w.Waiting? && s.closing != Open then Put(s, i, Exited)
    else if a.SeeCancel? && (w.Waiting? || w.Sending?) && s.cancelled then Put(s, i, Exited)
    else if a.HandlerOk? && w.Handling? then Put(s, i, Waiting).(handled := s.handled + [w.job])
    else if a.HandlerFails? && w.Handling? then
      Put(s, i, Sending(w.job)).(handled := s.handled + [w.job], failed := s.failed + [w.job])
    else if a.SendError? && w.Sending? && s.errsClosed then s.(panicked := true)
    else if a.SendError? && w.Sending? && |s.errs| < |s.workers| then Put(s, i, Waiting).(errs := s.errs + [w.job])
    else s
  }

  ghost function Step<T>(s: State<T>, a: Action<T>): State<T> {
    match a
    case Submit(job) =>
      if s.closing == Open && |s.jobs| < s.buffer then s.(jobs := s.jobs + [job], submitted := s.submitted + [job]) else s
    case Drain => if s.errs != [] then s.(errs := s.errs[1..], read := s.read + [s.errs[0]]) else s
    case CloseErrors => if !s.errsClosed && AllExited(s.workers) then s.(errsClosed := true) else s
    case CallClose => if s.closing == Open then s.(closing := WaitingForWorkers) else s
    case CloseReturns => if s.closing == WaitingForWorkers && AllExited(s.workers) then s.(closing := Returned) else s
    case CancelContext => s.(cancelled := true)
    case _ => if a.i < |s.workers| then WorkerStep(s, a, a.i, s.workers[a.i]) else s
  }

  ghost function Run<T>(n: nat, buffer: nat, schedule: seq<Action<T>>): State<T> {
    if schedule == [] then Init(n, buffer)
    else Step(Run(n, buffer, schedule[..|schedule| - 1]), schedule[|schedule| - 1])
  }

  /******* Sums over the workers *******/

  ghost function Has<T>(w: Worker<T>, x: T): nat {
    if w.Handling? && w.job == x then 1 else 0
  }

  /** How many handlers run on job `x`. */
  ghost function InHandler<T>(workers: seq<Worker<T>>, x: T): nat {
    if workers == [] then 0 else Has(workers[0], x) + InHandler(workers[1..], x)
  }

  ghost function Count(w: Worker): nat {
    if w.Sending? then 1 else 0
  }

  ghost function SendingCount(workers: seq<Worker>): nat {
    if workers == [] then 0 else Count(workers[0]) + SendingCount(workers[1..])
  }

  /** What a worker still has to do. */
  ghost function Weight(w: Worker): nat {
    match w
    case Waiting => 1
    case Handling(_) => 4
    case Sending(_) => 3
    case Exited => 0
  }

  ghost function TotalWeight(workers: seq<Worker>): nat {
    if workers == [] then 0 else Weight(workers[0]) + TotalWeight(workers[1..])
  }

  lemma {:induction false} UpdateInHandler<T>(workers: seq<Worker<T>>, i: nat, w: Worker<T>, x: T)
    requires i < |workers|
    ensures InHandler(workers[i := w], x) + Has(workers[i], x) == InHandler(workers, x) + Has(w, x)
  {
    if i == 0 {
      assert workers[0 := w][1..] == workers[1..];
    } else {
      UpdateInHandler(workers[1..], i - 1, w, x);
      assert workers[i := w][1..] == workers[1..][i - 1 := w];
    }
  }

  lemma {:induction false} UpdateCounts<T>(workers: seq<Worker<T>>, i: nat, w: Worker<T>)
    requires i < |workers|
    ensures SendingCount(workers[i := w]) + Count(workers[i]) == SendingCount(workers) + Count(w)
    ensures TotalWeight(workers[i := w]) + Weight(workers[i]) == TotalWeight(workers) + Weight(w)
  {
    if i == 0 {
      assert workers[0 := w][1..] == workers[1..];
    } else {
      UpdateCounts(workers[1..], i - 1, w);
      assert workers[i := w][1..] == workers[1..][i - 1 := w];
    }
  }

  lemma {:induction false} ExitedHoldNone<T>(workers: seq<Worker<T>>, x: T)
    requires AllExited(workers)
    ensures InHandler(workers, x) == 0
  {
    if workers != [] { ExitedHoldNone(workers[1..], x); }
  }

  /******* The invariant *******/

  /** No copy of a job is lost or invented: each is queued, in a handler, or handled. */
  ghost predicate JobConserved<T>(s: State<T>, x: T) {
    multiset(s.submitted)[x] == multiset(s.jobs)[x] + InHandler(s.workers, x) + multiset(s.handled)[x]
  }

  ghost predicate Conserved<T(!new)>(s: State<T>) {
    forall x: T :: JobConserved(s, x)
  }

  ghost predicate Inv<T(!new)>(s: State<T>) {
    && |s.workers| > 0 && !s.panicked
    && Conserved(s)
    && (s.errsClosed || s.closing == Returned ==> AllExited(s.workers))
    && (!s.cancelled ==> forall i | 0 <= i < |s.workers| && s.workers[i] == Exited :: s.closing != Open && s.jobs == [])
    && |s.errs| + SendingCount(s.workers) <= |s.failed|
    && |s.errs| <= |s.workers|
  }

  lemma AppendOne<T>(jobs: seq<T>, job: T, x: T)
    ensures multiset(jobs + [job])[x] == multiset(jobs)[x] + if job == x then 1 else 0
  {
  }

  lemma RemoveFirst<T>(jobs: seq<T>, x: T)
    requires jobs != []
    ensures multiset(jobs)[x] == multiset(jobs[1..])[x] + if jobs[0] == x then 1 else 0
  {
    assert jobs == [jobs[0]] + jobs[1..];
  }

  lemma WaitingConserves<T>(s: State<T>, a: Action<T>, i: nat, x: T)
    requires JobConserved(s, x) && i < |s.workers| && s.workers[i].Waiting?
    ensures JobConserved(WorkerStep(s, a, i, s.workers[i]), x)
  {
    if a.HandOff? {
      UpdateInHandler(s.workers, i, Handling(a.job), x);
      AppendOne(s.submitted, a.job, x);
    } else if a.Take? && s.jobs != [] {
      UpdateInHandler(s.workers, i, Handling(s.jobs[0]), x);
      RemoveFirst(s.jobs, x);
    } else {
      UpdateInHandler(s.workers, i, Exited, x);
    }
  }

  lemma BusyConserves<T>(s: State<T>, a: Action<T>, i: nat, x: T)
    requires JobConserved(s, x) && i < |s.workers| && !s.workers[i].Waiting?
    ensures JobConserved(WorkerStep(s, a, i, s.workers[i]), x)
  {
    if s.workers[i].Handling? {
      HandlingConserves(s, a, i, x);
    } else {
      UpdateInHandler(s.workers, i, Waiting, x);
      UpdateInHandler(s.workers, i, Exited, x);
    }
  }

  lemma HandlingConserves<T>(s: State<T>, a: Action<T>, i: nat, x: T)
    requires JobConserved(s, x) && i < |s.workers| && s.workers[i].Handling?
    ensures JobConserved(WorkerStep(s, a, i, s.workers[i]), x)
  {
    var w := s.workers[i];
    UpdateInHandler(s.workers, i, if a.HandlerOk? then Waiting else Sending(w.job), x);
    AppendOne(s.handled, w.job, x);
  }

  lemma WorkerConserves<T>(s: State<T>, a: Action<T>, i: nat, x: T)
    requires JobConserved(s, x) && i < |s.workers|
    ensures JobConserved(WorkerStep(s, a, i, s.workers[i]), x)
  {
    if s.workers[i].Waiting? { WaitingConserves(s, a, i, x); } else { BusyConserves(s, a, i, x); }
  }

  lemma SameJobs<T(!new)>(s: State<T>, s': State<T>)
    requires Conserved(s) && s'.submitted == s.submitted && s'.jobs == s.jobs && s'.workers == s.workers && s'.handled == s.handled
    ensures Conserved(s')
  {
    forall x: T ensures JobConserved(s', x) {
      assert JobConserved(s, x);
    }
  }

  lemma SubmitKeeps<T(!new)>(s: State<T>, job: T)
    requires Inv(s)
    ensures Inv(Step(s, Submit(job)))
  {
    var s' := Step(s, Submit(job));
    forall x: T ensures JobConserved(s', x) {
      assert JobConserved(s, x);
      AppendOne(s.jobs, job, x);
      AppendOne(s.submitted, job, x);
    }
  }

  lemma WorkerKeeps<T(!new)>(s: State<T>, a: Action<T>, i: nat)
    requires Inv(s) && i < |s.workers|
    ensures Inv(WorkerStep(s, a, i, s.workers[i]))
  {
    forall x: T ensures JobConserved(WorkerStep(s, a, i, s.workers[i]), x) {
      WorkerConserves(s, a, i, x);
    }
    WorkerSignals(s, a, i);
  }

  lemma WorkerSignals<T(!new)>(s: State<T>, a: Action<T>, i: nat)
    requires Inv(s) && i < |s.workers|
    ensures var s' := WorkerStep(s, a, i, s.workers[i]);
            && |s'.workers| == |s.workers| && !s'.panicked
            && (s'.errsClosed || s'.closing == Returned ==> AllExited(s'.workers))
            && (!s'.cancelled ==> forall j | 0 <= j < |s'.workers| && s'.workers[j] == Exited :: s'.closing != Open && s'.jobs == [])
            && |s'.errs| + SendingCount(s'.workers) <= |s'.failed| && |s'.errs| <= |s'.workers|
  {
    var s' := WorkerStep(s, a, i, s.workers[i]);
    UpdateCounts(s.workers, i, s'.workers[i]);
    assert s.workers[i] == Exited ==> s' == s;
  }

  lemma StepKeeps<T(!new)>(s: State<T>, a: Action<T>)
    requires Inv(s)
    ensures Inv(Step(s, a))
  {
    match a
    case Submit(job) => SubmitKeeps(s, job);
    case Drain => SameJobs(s, Step(s, a));
    case CloseErrors => SameJobs(s, Step(s, a));
    case CallClose => SameJobs(s, Step(s, a));
    case CloseReturns => SameJobs(s, Step(s, a));
    case CancelContext => SameJobs(s, Step(s, a));
    case _ => if a.i < |s.workers| { WorkerKeeps(s, a, a.i); }
  }

  lemma {:induction false} InitSums<T>(n: nat, x: T)
    ensures var workers: seq<Worker<T>> := seq(n, _ => Waiting); InHandler(workers, x) == 0 && SendingCount(workers) == 0
  {
    var workers: seq<Worker<T>> := seq(n, _ => Waiting);
    if n > 0 {
      assert workers[1..] == seq(n - 1, _ => Waiting);
      InitSums(n - 1, x);
    }
  }

  lemma InitOk<T(!new)>(n: nat, buffer: nat)
    requires n > 0
    ensures Inv(Init<T>(n, buffer))
  {
    forall x: T ensures JobConserved(Init<T>(n, buffer), x) && SendingCount(Init<T>(n, buffer).workers) == 0 {
      InitSums(n, x);
    }
    NoneSending<T>(n);
  }

  lemma {:induction false} NoneSending<T>(n: nat)
    ensures var workers: seq<Worker<T>> := seq(n, _ => Waiting); SendingCount(workers) == 0
  {
    var workers: seq<Worker<T>> := seq(n, _ => Waiting);
    if n > 0 {
      assert workers[1..] == seq(n - 1, _ => Waiting);
      NoneSending<T>(n - 1);
    }
  }

  lemma {:induction false} RunKeeps<T(!new)>(n: nat, buffer: nat, schedule: seq<Action<T>>)
    requires n > 0
    ensures Inv(Run(n, buffer, schedule))
  {
    if schedule == [] {
      InitOk<T>(n, buffer);
    } else {
      RunKeeps(n, buffer, schedule[..|schedule| - 1]);
      StepKeeps(Run(n, buffer, schedule[..|schedule| - 1]), schedule[|schedule| - 1]);
    }
  }

  /******* Conservation, over every schedule *******/

  /** Every copy of a submitted job is queued, in a handler or handled, exactly once; nobody sends on the
      closed error channel, which closes only after every worker has exited. */
  lemma Conservation<T(!new)>(configured: int, buffer: nat, schedule: seq<Action<T>>, s: State<T>, x: T)
    requires s == Run(WorkerCount(configured), buffer, schedule)
    ensures multiset(s.submitted)[x] == multiset(s.jobs)[x] + InHandler(s.workers, x) + multiset(s.handled)[x]
            && !s.panicked && (s.errsClosed ==> AllExited(s.workers))
  {
    RunKeeps(WorkerCount(configured), buffer, schedule);
    assert JobConserved(s, x);
  }

  /** Without cancellation every submitted job has been handled, once, when Close returns. */
  lemma CloseMeansHandled<T(!new)>(configured: int, buffer: nat, schedule: seq<Action<T>>, s: State<T>)
    requires s == Run(WorkerCount(configured), buffer, schedule) && s.closing == Returned && !s.cancelled
    ensures multiset(s.handled) == multiset(s.submitted)
  {
    RunKeeps(WorkerCount(configured), buffer, schedule);
    assert s.workers[0] == Exited;
    forall x: T ensures multiset(s.handled)[x] == multiset(s.submitted)[x] {
      assert JobConserved(s, x);
      ExitedHoldNone(s.workers, x);
    }
  }

  /** Handlers are started in the order in which jobs are submitted, however many workers there are. */
  lemma {:induction false} StartedInOrder<T>(n: nat, buffer: nat, schedule: seq<Action<T>>)
    ensures var s := Run(n, buffer, schedule); s.submitted == s.started + s.jobs
  {
    if schedule != [] {
      var before, a := schedule[..|schedule| - 1], schedule[|schedule| - 1];
      StartedInOrder(n, buffer, before);
      StepInOrder(Run(n, buffer, before), a);
    }
  }

  lemma OneStarts<T>(started: seq<T>, jobs: seq<T>)
    requires jobs != []
    ensures (started + [jobs[0]]) + jobs[1..] == started + jobs
  {
  }

  lemma OneQueues<T>(started: seq<T>, jobs: seq<T>, job: T)
    ensures started + (jobs + [job]) == (started + jobs) + [job]
    ensures jobs == [] ==> (started + [job]) + jobs == (started + jobs) + [job]
  {
  }

  lemma WorkerInOrder<T>(s: State<T>, a: Action<T>, i: nat)
    requires s.submitted == s.started + s.jobs && i < |s.workers|
    ensures var s' := WorkerStep(s, a, i, s.workers[i]); s'.submitted == s'.started + s'.jobs
  {
    if a.HandOff? {
      OneQueues(s.started, s.jobs, a.job);
    } else if a.Take? && s.jobs != [] {
      OneStarts(s.started, s.jobs);
    }
  }

  lemma StepInOrder<T>(s: State<T>, a: Action<T>)
    requires s.submitted == s.started + s.jobs
    ensures Step(s, a).submitted == Step(s, a).started + Step(s, a).jobs
  {
    match a
    case Submit(job) => OneQueues(s.started, s.jobs, job);
    case Drain =>
    case CloseErrors =>
    case CallClose =>
    case CloseReturns =>
    case CancelContext =>
    case _ => if a.i < |s.workers| { WorkerInOrder(s, a, a.i); }
  }

  /******* Where the errors are *******/

  ghost function Holds<T>(w: Worker<T>, x: T): nat {
    if w.Sending? && w.job == x then 1 else 0
  }

  /** How many workers are about to send the error of job `x`. */
  ghost function InSending<T>(workers: seq<Worker<T>>, x: T): nat {
    if workers == [] then 0 else Holds(workers[0], x) + InSending(workers[1..], x)
  }

  lemma {:induction false} UpdateInSending<T>(workers: seq<Worker<T>>, i: nat, w: Worker<T>, x: T)
    requires i < |workers|
    ensures InSending(workers[i := w], x) + Holds(workers[i], x) == InSending(workers, x) + Holds(w, x)
  {
    if i == 0 {
      assert workers[0 := w][1..] == workers[1..];
    } else {
      UpdateInSending(workers[1..], i - 1, w, x);
      assert workers[i := w][1..] == workers[1..][i - 1 := w];
    }
  }

  lemma {:induction false} NoneInSending<T>(n: nat, x: T)
    ensures var workers: seq<Worker<T>> := seq(n, _ => Waiting); InSending(workers, x) == 0
  {
    var workers: seq<Worker<T>> := seq(n, _ => Waiting);
    if n > 0 {
      assert workers[1..] == seq(n - 1, _ => Waiting);
      NoneInSending(n - 1, x);
    }
  }

  ghost predicate ErrorConserved<T>(s: State<T>, x: T) {
    multiset(s.failed)[x] == multiset(s.read)[x] + multiset(s.errs)[x] + InSending(s.workers, x)
  }

  lemma HandlingKeepsErrors<T>(s: State<T>, a: Action<T>, i: nat, x: T)
    requires ErrorConserved(s, x) && i < |s.workers| && s.workers[i].Handling?
    ensures ErrorConserved(WorkerStep(s, a, i, s.workers[i]), x)
  {
    var job := s.workers[i].job;
    UpdateInSending(s.workers, i, if a.HandlerOk? then Waiting else Sending(job), x);
    AppendOne(s.failed, job, x);
  }

  lemma SendingKeepsErrors<T>(s: State<T>, a: Action<T>, i: nat, x: T)
    requires ErrorConserved(s, x) && !s.cancelled && i < |s.workers| && s.workers[i].Sending?
    ensures ErrorConserved(WorkerStep(s, a, i, s.workers[i]), x)
  {
    UpdateInSending(s.workers, i, Waiting, x);
    AppendOne(s.errs, s.workers[i].job, x);
  }

  /** A waiting worker becomes busy or exits, and an exited one does nothing: neither holds an error. */
  lemma IdleFields<T>(s: State<T>, a: Action<T>, i: nat) returns (w: Worker<T>)
    requires i < |s.workers| && (s.workers[i].Waiting? || s.workers[i].Exited?)
    ensures var s' := WorkerStep(s, a, i, s.workers[i]);
            s'.workers == s.workers[i := w] && !w.Sending? && s'.failed == s.failed && s'.read == s.read && s'.errs == s.errs
  {
    w := WorkerStep(s, a, i, s.workers[i]).workers[i];
  }

  lemma IdleKeepsErrors<T>(s: State<T>, a: Action<T>, i: nat, x: T)
    requires ErrorConserved(s, x) && i < |s.workers| && (s.workers[i].Waiting? || s.workers[i].Exited?)
    ensures ErrorConserved(WorkerStep(s, a, i, s.workers[i]), x)
  {
    var w := IdleFields(s, a, i);
    UpdateInSending(s.workers, i, w, x);
  }

  lemma WorkerKeepsErrors<T>(s: State<T>, a: Action<T>, i: nat, x: T)
    requires ErrorConserved(s, x) && !s.cancelled && i < |s.workers|
    ensures ErrorConserved(WorkerStep(s, a, i, s.workers[i]), x)
  {
    match s.workers[i]
    case Handling(_) => HandlingKeepsErrors(s, a, i, x);
    case Sending(_) => SendingKeepsErrors(s, a, i, x);
    case _ => IdleKeepsErrors(s, a, i, x);
  }

  lemma ReadKeepsErrors<T>(s: State<T>, x: T)
    requires ErrorConserved(s, x)
    ensures ErrorConserved(Step(s, Drain), x)
  {
    if s.errs != [] {
      RemoveFirst(s.errs, x);
      AppendOne(s.read, s.errs[0], x);
    }
  }

  lemma StepKeepsErrors<T>(s: State<T>, a: Action<T>, x: T)
    requires ErrorConserved(s, x) && !s.cancelled
    ensures ErrorConserved(Step(s, a), x)
  {
    match a
    case Submit(_) =>
    case Drain => ReadKeepsErrors(s, x);
    case CloseErrors =>
    case CallClose =>
    case CloseReturns =>
    case CancelContext =>
    case _ => if a.i < |s.workers| { WorkerKeepsErrors(s, a, a.i, x); }
  }

  lemma CancelStays<T>(s: State<T>, a: Action<T>)
    ensures s.cancelled ==> Step(s, a).cancelled
  {
  }

  /** Without cancellation no error is lost or invented: the failed jobs are those whose errors have been read,
      wait in the channel, or are about to be sent. */
  lemma {:induction false} ErrorConservation<T(!new)>(n: nat, buffer: nat, schedule: seq<Action<T>>, x: T)
    requires !Run(n, buffer, schedule).cancelled
    ensures var s := Run(n, buffer, schedule);
            multiset(s.failed)[x] == multiset(s.read)[x] + multiset(s.errs)[x] + InSending(s.workers, x)
  {
    if schedule == [] {
      NoneInSending(n, x);
    } else {
      var before, a := schedule[..|schedule| - 1], schedule[|schedule| - 1];
      CancelStays(Run(n, buffer, before), a);
      ErrorConservation(n, buffer, before, x);
      StepKeepsErrors(Run(n, buffer, before), a, x);
    }
  }

  /******* Jobs get through *******/

  lemma Then<T>(n: nat, buffer: nat, schedule: seq<Action<T>>, a: Action<T>)
    ensures Run(n, buffer, schedule + [a]) == Step(Run(n, buffer, schedule), a)
  {
    assert (schedule + [a])[..|schedule|] == schedule;
  }

  /** An open pool whose first worker waits, with nothing queued. */
  ghost predicate Quiet<T>(s: State<T>) {
    && s.workers != [] && s.workers[0] == Waiting && s.jobs == [] && s.errs == []
    && !s.errsClosed && s.closing == Open && !s.cancelled
  }

  ghost predicate Handled<T>(s: State<T>, s': State<T>, job: T, fails: bool) {
    && Quiet(s') && s'.buffer == s.buffer
    && s'.submitted == s.submitted + [job] && s'.handled == s.handled + [job]
    && s'.failed == (if fails then s.failed + [job] else s.failed)
    && s'.read == if fails then s.read + [job] else s.read
  }

  /** The first worker handles the job. */
  ghost function Taken<T>(s: State<T>, job: T): State<T>
    requires s.workers != []
  {
    s.(workers := s.workers[0 := Handling(job)], submitted := s.submitted + [job], started := s.started + [job])
  }

  lemma HandedOver<T>(s: State<T>, job: T)
    requires Quiet(s)
    ensures Step(s, HandOff(0, job)) == Taken(s, job)
  {
  }

  lemma TakenFromBuffer<T>(s: State<T>, job: T)
    requires Quiet(s) && s.buffer > 0
    ensures Step(Step(s, Submit(job)), Take(0)) == Taken(s, job)
  {
    var s1 := Step(s, Submit(job));
    assert s1 == s.(jobs := [job], submitted := s.submitted + [job]);
    assert [job][1..] == [];
  }

  lemma JobTaken<T>(n: nat, buffer: nat, schedule: seq<Action<T>>, job: T, direct: bool)
    requires Quiet(Run(n, buffer, schedule)) && (direct || Run(n, buffer, schedule).buffer > 0)
    ensures var s := Run(n, buffer, schedule);
            Run(n, buffer, schedule + if direct then [HandOff(0, job)] else [Submit(job), Take(0)]) == Taken(s, job)
  {
    if direct {
      Then(n, buffer, schedule, HandOff(0, job));
      HandedOver(Run(n, buffer, schedule), job);
    } else {
      Then(n, buffer, schedule, Submit(job));
      Then(n, buffer, schedule + [Submit(job)], Take(0));
      TakenFromBuffer(Run(n, buffer, schedule), job);
      assert schedule + [Submit(job)] + [Take(0)] == schedule + [Submit(job), Take(0)];
    }
  }

  lemma JobEnds<T>(n: nat, buffer: nat, schedule: seq<Action<T>>, job: T, fails: bool, s: State<T>)
    requires Quiet(s) && Run(n, buffer, schedule) == Taken(s, job)
    ensures Handled(s, Run(n, buffer, schedule + if fails then [HandlerFails(0), SendError(0), Drain] else [HandlerOk(0)]), job, fails)
  {
    if fails {
      Then(n, buffer, schedule, HandlerFails(0));
      Then(n, buffer, schedule + [HandlerFails(0)], SendError(0));
      Then(n, buffer, schedule + [HandlerFails(0)] + [SendError(0)], Drain);
      assert schedule + [HandlerFails(0)] + [SendError(0)] + [Drain] == schedule + [HandlerFails(0), SendError(0), Drain];
    } else {
      Then(n, buffer, schedule, HandlerOk(0));
    }
  }

  lemma OneJob<T>(n: nat, buffer: nat, before: seq<Action<T>>, job: T, fails: bool, direct: bool) returns (schedule: seq<Action<T>>)
    requires Quiet(Run(n, buffer, before)) && (direct || Run(n, buffer, before).buffer > 0)
    ensures Handled(Run(n, buffer, before), Run(n, buffer, schedule), job, fails)
  {
    JobTaken(n, buffer, before, job, direct);
    var taken := before + if direct then [HandOff(0, job)] else [Submit(job), Take(0)];
    JobEnds(n, buffer, taken, job, fails, Run(n, buffer, before));
    schedule := taken + if fails then [HandlerFails(0), SendError(0), Drain] else [HandlerOk(0)];
  }

  /** The jobs that fail. */
  function Failing<T>(jobs: seq<T>, fails: seq<bool>): seq<T>
    requires |fails| == |jobs|
  {
    if jobs == [] then []
    else
      var n := |jobs| - 1;
      Failing(jobs[..n], fails[..n]) + if fails[n] then [jobs[n]] else []
  }

  /** Exactly these jobs have gone through. */
  ghost predicate GoneThrough<T>(s: State<T>, jobs: seq<T>, failing: seq<T>, buffer: nat) {
    s.submitted == jobs && s.handled == jobs && s.failed == failing && s.read == failing && Quiet(s) && s.buffer == buffer
  }

  lemma SplitLast<T>(jobs: seq<T>, fails: seq<bool>)
    requires jobs != [] && |fails| == |jobs|
    ensures var k := |jobs| - 1;
            && jobs[..k] + [jobs[k]] == jobs
            && Failing(jobs[..k], fails[..k]) + (if fails[k] then [jobs[k]] else []) == Failing(jobs, fails)
  {
  }

  lemma LastThrough<T>(s: State<T>, s': State<T>, jobs: seq<T>, failing: seq<T>, init: seq<T>, before: seq<T>, job: T, fails: bool, buffer: nat)
    requires GoneThrough(s, init, before, buffer) && Handled(s, s', job, fails)
    requires init + [job] == jobs && before + (if fails then [job] else []) == failing
    ensures GoneThrough(s', jobs, failing, buffer)
  {
    assert before + [] == before;
  }

  lemma NothingYet<T>(n: nat, buffer: nat)
    requires n > 0
    ensures GoneThrough(Run<T>(n, buffer, []), [], [], buffer)
  {
  }

  /** Any jobs can be submitted, by way of the buffer or not, and handled in that order, and the error of every
      one that fails can be read. */
  lemma {:induction false} JobsGetThrough<T>(configured: int, buffer: nat, jobs: seq<T>, fails: seq<bool>, direct: bool) returns (schedule: seq<Action<T>>)
    requires |fails| == |jobs| && (direct || buffer > 0)
    ensures GoneThrough(Run(WorkerCount(configured), buffer, schedule), jobs, Failing(jobs, fails), buffer)
    decreases |jobs|
  {
    var n := WorkerCount(configured);
    if jobs == [] {
      schedule := [];
      NothingYet<T>(n, buffer);
    } else {
      var k := |jobs| - 1;
      var before := JobsGetThrough(configured, buffer, jobs[..k], fails[..k], direct);
      schedule := OneJob(n, buffer, before, jobs[k], fails[k], direct);
      SplitLast(jobs, fails);
      LastThrough(Run(n, buffer, before), Run(n, buffer, schedule), jobs, Failing(jobs, fails), jobs[..k], Failing(jobs[..k], fails[..k]),
                  jobs[k], fails[k], buffer);
    }
  }

  /******* Cancellation *******/

  /** Cancelled, and the first `j` workers have seen it. */
  ghost function Stopping<T>(n: nat, buffer: nat, j: nat): State<T> {
    Init<T>(n, buffer).(cancelled := true, workers := seq(n, i => if i < j then Exited else Waiting))
  }

  lemma {:induction false} WorkersStop<T>(n: nat, buffer: nat, j: nat) returns (schedule: seq<Action<T>>)
    requires j <= n
    ensures Run(n, buffer, schedule) == Stopping<T>(n, buffer, j)
  {
    if j == 0 {
      Then<T>(n, buffer, [], CancelContext);
      schedule := [] + [CancelContext];
      assert Stopping<T>(n, buffer, 0).workers == Init<T>(n, buffer).workers;
    } else {
      var before := WorkersStop<T>(n, buffer, j - 1);
      Then(n, buffer, before, SeeCancel(j - 1));
      schedule := before + [SeeCancel(j - 1)];
      assert Stopping<T>(n, buffer, j).workers == Stopping<T>(n, buffer, j - 1).workers[j - 1 := Exited];
    }
  }

  /** A cancelled context can end every worker, without Close, and then the error channel is closed. */
  lemma CancellationEnds<T>(configured: int, buffer: nat) returns (schedule: seq<Action<T>>)
    ensures var s := Run(WorkerCount(configured), buffer, schedule); AllExited(s.workers) && s.errsClosed && s.closing == Open
  {
    var n := WorkerCount(configured);
    var stopped := WorkersStop<T>(n, buffer, n);
    Then(n, buffer, stopped, CloseErrors);
    schedule := stopped + [CloseErrors];
  }

  /******* Progress after Close *******/

  ghost function Measure(s: State): nat {
    5 * |s.jobs| + TotalWeight(s.workers) + |s.errs|
    + (if s.errsClosed then 0 else 1) + (if s.closing == Returned then 0 else 1)
  }

  /** Once Close has been called, and without cancellation, every step that does something uses up work. */
  lemma StepUsesWork<T(!new)>(s: State<T>, a: Action<T>)
    requires Inv(s) && s.closing != Open && !s.cancelled && !a.CancelContext? && Step(s, a) != s
    ensures Measure(Step(s, a)) < Measure(s)
  {
    var s' := Step(s, a);
    if !(a.Submit? || a.Drain? || a.CloseErrors? || a.CallClose? || a.CloseReturns?) {
      UpdateCounts(s.workers, a.i, s'.workers[a.i]);
      assert s'.workers == s.workers[a.i := s'.workers[a.i]];
    }
  }

  /** Moves of the pool itself and of its handlers, without anybody reading the error channel. */
  predicate PoolMove<T>(a: Action<T>) {
    !a.Submit? && !a.HandOff? && !a.Drain? && !a.CallClose? && !a.CancelContext?
  }

  ghost predicate Stuck<T(!new)>(s: State<T>) {
    forall a: Action<T> | PoolMove(a) :: Step(s, a) == s
  }

  /** Every live worker holds an error that the full channel does not take. */
  ghost predicate Blocked<T>(s: State<T>) {
    && |s.errs| >= |s.workers|
    && (forall i | 0 <= i < |s.workers| :: s.workers[i].Sending? || s.workers[i].Exited?)
    && (exists i :: 0 <= i < |s.workers| && s.workers[i].Sending?)
  }

  lemma TakeMoves<T>(s: State<T>, i: nat)
    requires i < |s.workers| && s.workers[i].Waiting? && s.closing != Open
    ensures Step(s, Take(i)) != s
  {
    assert Step(s, Take(i)).workers[i] != s.workers[i];
  }

  lemma HandlerMoves<T>(s: State<T>, i: nat)
    requires i < |s.workers| && s.workers[i].Handling?
    ensures Step(s, HandlerOk(i)) != s
  {
    assert Step(s, HandlerOk(i)).workers[i] != s.workers[i];
  }

  lemma SendMoves<T>(s: State<T>, i: nat)
    requires i < |s.workers| && s.workers[i].Sending? && !s.errsClosed && |s.errs| < |s.workers|
    ensures Step(s, SendError(i)) != s
  {
    assert Step(s, SendError(i)).workers[i] != s.workers[i];
  }

  lemma LiveMoves<T(!new)>(s: State<T>, i: nat)
    requires Inv(s) && s.closing != Open && !s.cancelled && i < |s.workers| && Stuck(s)
    ensures s.workers[i].Exited? || (s.workers[i].Sending? && |s.errs| >= |s.workers|)
  {
    assert PoolMove<T>(Take(i)) && PoolMove<T>(HandlerOk(i)) && PoolMove<T>(SendError(i));
    match s.workers[i]
    case Waiting => TakeMoves(s, i);
    case Handling(_) => HandlerMoves(s, i);
    case Sending(_) => if |s.errs| < |s.workers| { SendMoves(s, i); }
    case Exited =>
  }

  /** After Close and without cancellation the pool gets stuck exactly when every live worker is blocked
      on the error channel, or Close has returned and the channel is closed. */
  lemma StuckMeansBlocked<T(!new)>(s: State<T>)
    requires Inv(s) && s.closing != Open && !s.cancelled
    ensures Stuck(s) <==> Blocked(s) || (s.closing == Returned && s.errsClosed)
  {
    if Stuck(s) {
      forall i | 0 <= i < |s.workers| ensures s.workers[i].Exited? || (s.workers[i].Sending? && |s.errs| >= |s.workers|) {
        LiveMoves(s, i);
      }
      if AllExited(s.workers) {
        assert PoolMove<T>(CloseErrors) && PoolMove<T>(CloseReturns);
        assert Step(s, CloseErrors) == s && Step(s, CloseReturns) == s;
      }
    }
  }

  lemma {:induction false} SomeSending<T>(workers: seq<Worker<T>>, i: nat)
    requires i < |workers| && workers[i].Sending?
    ensures SendingCount(workers) > 0
  {
    if i > 0 { SomeSending(workers[1..], i - 1); }
  }

  ghost function Continue<T>(s: State<T>, schedule: seq<Action<T>>): State<T> {
    if schedule == [] then s
    else Step(Continue(s, schedule[..|schedule| - 1]), schedule[|schedule| - 1])
  }

  /** Every action of the schedule is a move of the pool or a read of the error channel, and does something. */
  ghost predicate Active<T>(s: State<T>, schedule: seq<Action<T>>) {
    forall k | 0 <= k < |schedule| ::
      (PoolMove(schedule[k]) || schedule[k].Drain?)
      && Step(Continue(s, schedule[..k]), schedule[k]) != Continue(s, schedule[..k])
  }

  lemma {:induction false} ActiveUsesWork<T(!new)>(s: State<T>, schedule: seq<Action<T>>)
    requires Inv(s) && s.closing != Open && !s.cancelled && Active(s, schedule)
    ensures var t := Continue(s, schedule);
            && Inv(t) && t.closing != Open && !t.cancelled && |schedule| + Measure(t) <= Measure(s)
  {
    if schedule != [] {
      var before, a := schedule[..|schedule| - 1], schedule[|schedule| - 1];
      ActivePrefix(s, schedule);
      ActiveUsesWork(s, before);
      ActiveStep(Continue(s, before), a);
    }
  }

  lemma ActivePrefix<T>(s: State<T>, schedule: seq<Action<T>>)
    requires Active(s, schedule) && schedule != []
    ensures var before, a := schedule[..|schedule| - 1], schedule[|schedule| - 1];
            Active(s, before) && (PoolMove(a) || a.Drain?) && Step(Continue(s, before), a) != Continue(s, before)
  {
    var before := schedule[..|schedule| - 1];
    forall k | 0 <= k < |before|
      ensures (PoolMove(before[k]) || before[k].Drain?) && Step(Continue(s, before[..k]), before[k]) != Continue(s, before[..k])
    {
      assert before[..k] == schedule[..k] && before[k] == schedule[k];
    }
  }

  lemma ActiveStep<T(!new)>(s: State<T>, a: Action<T>)
    requires Inv(s) && s.closing != Open && !s.cancelled && (PoolMove(a) || a.Drain?) && Step(s, a) != s
    ensures var t := Step(s, a);
            Inv(t) && t.closing != Open && !t.cancelled && Measure(t) < Measure(s)
  {
    StepKeeps(s, a);
    StepUsesWork(s, a);
  }

  /** Close returns: after it is called, and without cancellation, no schedule can go on for more than
      `Measure` steps, and where it ends Close has returned, provided at most as many handlers have
      failed as the channel has slots, or somebody reads it. */
  lemma CloseEventuallyReturns<T(!new)>(s: State<T>, schedule: seq<Action<T>>)
    requires Inv(s) && s.closing != Open && !s.cancelled && Active(s, schedule)
    requires Stuck(Continue(s, schedule))
    ensures |schedule| <= Measure(s)
    ensures var t := Continue(s, schedule);
            |t.failed| <= |t.workers| || Step(t, Drain) == t ==> t.closing == Returned
  {
    ActiveUsesWork(s, schedule);
    var t := Continue(s, schedule);
    StuckMeansBlocked(t);
    if Blocked(t) {
      var i :| 0 <= i < |t.workers| && t.workers[i].Sending?;
      SomeSending(t.workers, i);
      assert t.errs[1..] != t.errs;
      assert Step(t, Drain) != t;
    }
  }
}
