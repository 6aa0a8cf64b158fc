/**
 The goroutines of ConsumeOrders: for each worker a fetcher and a processor joined by a channel of
 capacity 1, a shared error channel with one slot per worker, the goroutine that closes it, the caller
 ranging over it, and the cancellation they share.

 Every channel operation is one step; sending on or closing a closed channel sets `panicked`.  A
 schedule is any sequence of actions; an action that cannot be taken leaves the state as it is.
 */
module OrderConsumption {
  import opened Services

  datatype Fetcher = Fetching | Offering(m: Msg) | Complaining | ClosingDone | ClosingJobs | FetcherGone

  datatype Processor = Selecting | Processing(m: Msg) | Failing | Cancelling | AwaitingFetcher | ProcessorGone

  /** One worker.  `fetched`, `handled`, `failed` and `dropped` record its messages: those Fetch returned,
      those processed, the one whose processing failed, and the one the fetcher gave up on. */
  datatype Worker = Worker(
    fetcher: Fetcher, processor: Processor, jobs: seq<Msg>, jobsClosed: bool, doneClosed: bool,
    fetched: seq<Msg>, handled: seq<Msg>, failed: seq<Msg>, dropped: seq<Msg>, complained: bool)

  datatype Report = FetchError(worker: nat) | ProcessError(worker: nat)

  datatype Caller = Ranging | ReturnedError(report: Report) | ReturnedContextError | ReturnedNil

  datatype State = State(
    workers: seq<Worker>, errs: seq<Report>, errsClosed: bool,
    parentCancelled: bool, cancelled: bool, caller: Caller, panicked: bool)

  datatype FetcherMove =
    | FetchOk(m: Msg)  // Fetch returns a message
    | FetchFails       // Fetch returns an error; reported only if the context is alive
    | Offer            // jobs <- message
    | GiveUp           // the cancellation is seen instead
    | Complain         // errChannel <- fetch error, blocking
    | CloseDone
    | CloseJobs

  datatype ProcessorMove =
    | Take             // receive from jobs, or see it closed
    | SeeCancel        // the cancellation is seen instead
    | ProcessOk
    | ProcessFails
    | Tell             // errChannel <- processing error, dropped when the channel is full
    | Cancel
    | Leave            // <-fetchDone, then wg.Done

  datatype Action =
    | Fetcher(i: nat, f: FetcherMove)
    | Processor(i: nat, p: ProcessorMove)
    | CancelParent
    | Propagate        // the workers' context follows its parent
    | CloseErrors      // after wg.Wait
    | Receive          // the caller's range

  const FRESH := Worker(Fetching, Selecting, [], false, false, [], [], [], [], false)

  /** NewService turns a worker count below 1 into 4. */
  function WorkerCount(configured: int): (n: nat)
    ensures n > 0
    ensures n == 4 || n == configured
    ensures configured >= 1 ==> n == configured
  {
    if configured < 1 then 4 else configured
  }

  function Init(n: nat): State {
    State(seq(n, _ => FRESH), [], false, false, false, Ranging, false)
  }

  predicate AllGone(s: State) {
    forall i | 0 <= i < |s.workers| :: s.workers[i].processor == ProcessorGone
  }

  /** What a move does: the worker it leaves, the error channel, the cancellation, a panic. */
  datatype Moved = Moved(k: Worker, errs: seq<Report>, cancelled: bool, panicked: bool)

  function Same(s: State, k: Worker): Moved {
    Moved(k, s.errs, s.cancelled, s.panicked)
  }

  function FetcherStep(s: State, i: nat, k: Worker, f: FetcherMove): Moved {
    match f
    case FetchOk(m) =>
      Same(s, if k.fetcher == Fetching then k.(fetcher := Offering(m), fetched := k.fetched + [m]) else k)
    case FetchFails =>
      Same(s, if k.fetcher == Fetching then k.(fetcher := if s.cancelled then ClosingDone else Complaining) else k)
    case Offer =>
      if !k.fetcher.Offering? then Same(s, k)
      else if k.jobsClosed then Same(s, k).(panicked := true)
      else if |k.jobs| >= 1 then Same(s, k)
      else Same(s, k.(fetcher := Fetching, jobs := k.jobs + [k.fetcher.m]))
    case GiveUp =>
      Same(s, if k.fetcher.Offering? && s.cancelled then k.(fetcher := ClosingDone, dropped := k.dropped + [k.fetcher.m]) else k)
    case Complain =>
      if k.fetcher != Complaining then Same(s, k)
      else if s.errsClosed then Same(s, k).(panicked := true)
      else if |s.errs| >= |s.workers| then Same(s, k)
      else Same(s, k.(fetcher := ClosingDone, complained := true)).(errs := s.errs + [FetchError(i)])
    case CloseDone =>
      if k.fetcher != ClosingDone then Same(s, k)
      else if k.doneClosed then Same(s, k).(panicked := true)
      else Same(s, k.(fetcher := ClosingJobs, doneClosed := true))
    case CloseJobs =>
      if k.fetcher != ClosingJobs then Same(s, k)
      else if k.jobsClosed then Same(s, k).(panicked := true)
      else Same(s, k.(fetcher := FetcherGone, jobsClosed := true))
  }

  function ProcessorStep(s: State, i: nat, k: Worker, p: ProcessorMove): Moved {
    match p
    case Take =>
      if k.processor != Selecting then Same(s, k)
      else if k.jobs != [] then Same(s, k.(processor := Processing(k.jobs[0]), jobs := k.jobs[1..]))
      else if k.jobsClosed then Same(s, k.(processor := ProcessorGone))
      else Same(s, k)
    case SeeCancel =>
      Same(s, if k.processor == Selecting && s.cancelled then k.(processor := AwaitingFetcher) else k)
    case ProcessOk =>
      Same(s, if k.processor.Processing? then k.(processor := Selecting, handled := k.handled + [k.processor.m]) else k)
    case ProcessFails =>
      Same(s, if k.processor.Processing? then k.(processor := Failing, failed := [k.processor.m]) else k)
    case Tell =>
      if k.processor != Failing then Same(s, k)
      else if s.errsClosed then Same(s, k).(panicked := true)
      else Same(s, k.(processor := Cancelling)).(errs := if |s.errs| < |s.workers| then s.errs + [ProcessError(i)] else s.errs)
    case Cancel =>
      if k.processor != Cancelling then Same(s, k) else Same(s, k.(processor := AwaitingFetcher)).(cancelled := true)
    case Leave =>
      Same(s, if k.processor == AwaitingFetcher && k.doneClosed then k.(processor := ProcessorGone) else k)
  }

  function Put(s: State, i: nat, r: Moved): State
    requires i < |s.workers|
  {
    s.(workers := s.workers[i := r.k], errs := r.errs, cancelled := r.cancelled, panicked := r.panicked)
  }

  /** The caller: the first error received is returned after cancelling the workers; when the channel is
      closed and empty the context's error is returned. */
  function ReceiveStep(s: State): State {
    if s.caller != Ranging then s
    else if s.errs != [] then s.(errs := s.errs[1..], cancelled := true, caller := ReturnedError(s.errs[0]))
    else if s.errsClosed then s.(cancelled := true, caller := if s.cancelled then ReturnedContextError else ReturnedNil)
    else s
  }

  function Step(s: State, a: Action): (s': State)
    ensures |s'.workers| == |s.workers|
  {
    match a
    case Fetcher(i, f) => if i < |s.workers| then Put(s, i, FetcherStep(s, i, s.workers[i], f)) else s
    case Processor(i, p) => if i < |s.workers| then Put(s, i, ProcessorStep(s, i, s.workers[i], p)) else s
    case CancelParent => s.(parentCancelled := true)
    case Propagate => if s.parentCancelled then s.(cancelled := true) else s
    case CloseErrors => if s.errsClosed || !AllGone(s) then s else s.(errsClosed := true)
    case Receive => ReceiveStep(s)
  }

  function Run(n: nat, schedule: seq<Action>): (s: State)
    ensures |s.workers| == n
  {
    if schedule == [] then Init(n)
    else Step(Run(n, schedule[..|schedule| - 1]), schedule[|schedule| - 1])
  }

  /******* The invariant *******/

  function OfferedBy(f: Fetcher): seq<Msg> {
    if f.Offering? then [f.m] else []
  }

  function HeldBy(p: Processor): seq<Msg> {
    if p.Processing? then [p.m] else []
  }

  function Queued(handled: seq<Msg>, failed: seq<Msg>, held: seq<Msg>, jobs: seq<Msg>, offered: seq<Msg>, dropped: seq<Msg>): seq<Msg> {
    handled + failed + held + jobs + offered + dropped
  }

  /** Where the fetched messages are, in order: the FIFO from fetcher to processor. */
  ghost predicate Flow(k: Worker) {
    && k.fetched == Queued(k.handled, k.failed, HeldBy(k.processor), k.jobs, OfferedBy(k.fetcher), k.dropped)
    && |k.failed| <= 1 && |k.dropped| <= 1
    && (k.failed != [] ==> !k.processor.Selecting? && !k.processor.Processing?)
    && (k.dropped != [] ==> !k.fetcher.Fetching? && !k.fetcher.Offering?)
  }

  predicate FetcherActive(f: Fetcher) {
    f.Fetching? || f.Offering? || f.Complaining?
  }

  ghost predicate ChannelsOk(k: Worker) {
    && (k.doneClosed <==> k.fetcher == ClosingJobs || k.fetcher == FetcherGone)
    && (k.jobsClosed <==> k.fetcher == FetcherGone)
    && (k.processor == ProcessorGone ==> k.doneClosed)
  }

  /** Why a worker stopped: `reported` says that an error was put into the channel. */
  ghost predicate CauseOk(k: Worker, cancelled: bool, reported: bool) {
    && (!FetcherActive(k.fetcher) ==> cancelled || reported)
    && (k.complained ==> reported)
    && (k.failed != [] && k.processor != Failing ==> reported)
    && (k.processor == Failing || k.processor == Cancelling ==> k.failed != [])
    && (k.processor == AwaitingFetcher ==> cancelled)
  }

  ghost predicate Reported(s: State) {
    s.errs != [] || s.caller.ReturnedError?
  }

  ghost predicate WorkersOk(s: State) {
    forall i | 0 <= i < |s.workers| :: WorkerOk(s.workers[i], s.cancelled, Reported(s))
  }

  ghost predicate CallerOk(s: State) {
    && s.caller != ReturnedNil
    && (s.errsClosed ==> AllGone(s))
    && (s.cancelled ==> s.parentCancelled || Reported(s))
    && (s.caller == ReturnedContextError ==> s.parentCancelled && s.errsClosed && s.errs == [])
  }

  ghost predicate Inv(s: State) {
    |s.workers| > 0 && !s.panicked && WorkersOk(s) && CallerOk(s)
  }

  ghost predicate WorkerOk(k: Worker, cancelled: bool, reported: bool) {
    Flow(k) && ChannelsOk(k) && CauseOk(k, cancelled, reported)
  }

  /** A move keeps the worker's invariant, panics nowhere, and only adds errors and cancellation; a
      cancelling worker has reported before. */
  ghost predicate MoveOk(s: State, k: Worker, r: Moved) {
    && WorkerOk(r.k, r.cancelled, Reported(s) || r.errs != [])
    && !r.panicked && s.errs <= r.errs
    && (s.cancelled ==> r.cancelled) && (r.cancelled ==> s.cancelled || Reported(s))
    && (k.processor == ProcessorGone ==> r.k.processor == ProcessorGone && r.errs == s.errs)
  }

  lemma MessageArrives(handled: seq<Msg>, failed: seq<Msg>, held: seq<Msg>, jobs: seq<Msg>, m: Msg)
    ensures Queued(handled, failed, held, jobs, [], []) + [m] == Queued(handled, failed, held, jobs, [m], [])
  {
  }

  /** From the fetcher into the channel, or given up. */
  lemma MessageMovesBack(handled: seq<Msg>, failed: seq<Msg>, held: seq<Msg>, jobs: seq<Msg>, m: Msg)
    ensures Queued(handled, failed, held, jobs, [m], []) == Queued(handled, failed, held, jobs + [m], [], [])
    ensures Queued(handled, failed, held, jobs, [m], []) == Queued(handled, failed, held, jobs, [], [] + [m])
  {
  }

  lemma MessageStarts(handled: seq<Msg>, jobs: seq<Msg>, offered: seq<Msg>, dropped: seq<Msg>)
    requires jobs != []
    ensures Queued(handled, [], [], jobs, offered, dropped) == Queued(handled, [], [jobs[0]], jobs[1..], offered, dropped)
  {
    assert jobs == [jobs[0]] + jobs[1..];
  }

  /** Handled, or failed. */
  lemma MessageEnds(handled: seq<Msg>, m: Msg, jobs: seq<Msg>, offered: seq<Msg>, dropped: seq<Msg>)
    ensures Queued(handled, [], [m], jobs, offered, dropped) == Queued(handled + [m], [], [], jobs, offered, dropped)
    ensures Queued(handled, [], [m], jobs, offered, dropped) == Queued(handled, [m], [], jobs, offered, dropped)
  {
  }

  lemma FetcherFlow(s: State, i: nat, k: Worker, f: FetcherMove)
    requires Flow(k)
    ensures Flow(FetcherStep(s, i, k, f).k)
  {
    match f
    case FetchOk(m) => if k.fetcher == Fetching { MessageArrives(k.handled, k.failed, HeldBy(k.processor), k.jobs, m); }
    case Offer => if k.fetcher.Offering? { MessageMovesBack(k.handled, k.failed, HeldBy(k.processor), k.jobs, k.fetcher.m); }
    case GiveUp => if k.fetcher.Offering? { MessageMovesBack(k.handled, k.failed, HeldBy(k.processor), k.jobs, k.fetcher.m); }
    case _ =>
  }

  lemma FetcherKeeps(s: State, i: nat, k: Worker, f: FetcherMove)
    requires !s.panicked && |s.workers| > 0 && WorkerOk(k, s.cancelled, Reported(s))
    requires s.errsClosed ==> k.processor == ProcessorGone
    ensures MoveOk(s, k, FetcherStep(s, i, k, f))
  {
    FetcherFlow(s, i, k, f);
    FetcherSignals(s, i, k, f);
  }

  lemma FetcherSignals(s: State, i: nat, k: Worker, f: FetcherMove)
    requires !s.panicked && |s.workers| > 0 && ChannelsOk(k) && CauseOk(k, s.cancelled, Reported(s))
    requires s.errsClosed ==> k.processor == ProcessorGone
    ensures var r := FetcherStep(s, i, k, f);
            && ChannelsOk(r.k) && CauseOk(r.k, r.cancelled, Reported(s) || r.errs != [])
            && !r.panicked && s.errs <= r.errs && r.cancelled == s.cancelled
            && r.k.processor == k.processor && (k.processor == ProcessorGone ==> r.errs == s.errs)
  {
  }

  lemma ProcessorFlow(s: State, i: nat, k: Worker, p: ProcessorMove)
    requires Flow(k)
    ensures Flow(ProcessorStep(s, i, k, p).k)
  {
    if p.Take? && k.processor.Selecting? && k.jobs != [] {
      TakeFlow(k);
    } else if (p.ProcessOk? || p.ProcessFails?) && k.processor.Processing? {
      EndFlow(k);
    } else {
      SignalFlow(s, i, k, p);
    }
  }

  /** The other moves of a processor touch no message. */
  lemma SignalFlow(s: State, i: nat, k: Worker, p: ProcessorMove)
    requires Flow(k)
    requires !(p.Take? && k.processor.Selecting? && k.jobs != [])
    requires !((p.ProcessOk? || p.ProcessFails?) && k.processor.Processing?)
    ensures Flow(ProcessorStep(s, i, k, p).k)
  {
    var k' := ProcessorStep(s, i, k, p).k;
    assert k' == k.(processor := k'.processor);
    assert HeldBy(k'.processor) == HeldBy(k.processor);
  }

  lemma TakeFlow(k: Worker)
    requires Flow(k) && k.processor.Selecting? && k.jobs != []
    ensures Flow(k.(processor := Processing(k.jobs[0]), jobs := k.jobs[1..]))
  {
    assert k.failed == [];
    MessageStarts(k.handled, k.jobs, OfferedBy(k.fetcher), k.dropped);
  }

  lemma EndFlow(k: Worker)
    requires Flow(k) && k.processor.Processing?
    ensures Flow(k.(processor := Selecting, handled := k.handled + [k.processor.m]))
    ensures Flow(k.(processor := Failing, failed := [k.processor.m]))
  {
    assert k.failed == [];
    MessageEnds(k.handled, k.processor.m, k.jobs, OfferedBy(k.fetcher), k.dropped);
  }

  lemma ProcessorKeeps(s: State, i: nat, k: Worker, p: ProcessorMove)
    requires !s.panicked && |s.workers| > 0 && WorkerOk(k, s.cancelled, Reported(s))
    requires s.errsClosed ==> k.processor == ProcessorGone
    ensures MoveOk(s, k, ProcessorStep(s, i, k, p))
  {
    ProcessorFlow(s, i, k, p);
    ProcessorSignals(s, i, k, p);
  }

  lemma ProcessorSignals(s: State, i: nat, k: Worker, p: ProcessorMove)
    requires !s.panicked && |s.workers| > 0 && ChannelsOk(k) && CauseOk(k, s.cancelled, Reported(s))
    requires s.errsClosed ==> k.processor == ProcessorGone
    requires k.failed != [] ==> !k.processor.Selecting? && !k.processor.Processing?
    ensures var r := ProcessorStep(s, i, k, p);
            && ChannelsOk(r.k) && CauseOk(r.k, r.cancelled, Reported(s) || r.errs != [])
            && !r.panicked && s.errs <= r.errs
            && (s.cancelled ==> r.cancelled) && (r.cancelled ==> s.cancelled || Reported(s))
            && (k.processor == ProcessorGone ==> r.k.processor == ProcessorGone && r.errs == s.errs)
  {
  }

  lemma PutKeeps(s: State, i: nat, r: Moved)
    requires Inv(s) && i < |s.workers| && MoveOk(s, s.workers[i], r)
    ensures Inv(Put(s, i, r))
  {
  }

  lemma ReceiveKeeps(s: State)
    requires Inv(s)
    ensures Inv(ReceiveStep(s))
  {
    if s.caller == Ranging && s.errs == [] && s.errsClosed {
      assert s.workers[0].processor == ProcessorGone;
    }
  }

  lemma StepKeeps(s: State, a: Action)
    requires Inv(s)
    ensures Inv(Step(s, a))
  {
    match a
    case Fetcher(i, f) =>
      if i < |s.workers| {
        FetcherKeeps(s, i, s.workers[i], f);
        PutKeeps(s, i, FetcherStep(s, i, s.workers[i], f));
      }
    case Processor(i, p) =>
      if i < |s.workers| {
        ProcessorKeeps(s, i, s.workers[i], p);
        PutKeeps(s, i, ProcessorStep(s, i, s.workers[i], p));
      }
    case Receive => ReceiveKeeps(s);
    case _ =>
  }

  lemma InitOk(n: nat)
    requires n > 0
    ensures Inv(Init(n))
  {
    assert WorkerOk(FRESH, false, false);
    assert forall i | 0 <= i < n :: Init(n).workers[i] == FRESH;
  }

  lemma {:induction false} RunKeeps(n: nat, schedule: seq<Action>)
    requires n > 0
    ensures Inv(Run(n, schedule))
  {
    if schedule == [] {
      InitOk(n);
    } else {
      RunKeeps(n, schedule[..|schedule| - 1]);
      StepKeeps(Run(n, schedule[..|schedule| - 1]), schedule[|schedule| - 1]);
    }
  }

  /******* Main results, over every schedule *******/

  /** Nobody sends on a closed channel or closes one twice, and the call never returns nil. */
  lemma NoPanicNoNil(configured: int, schedule: seq<Action>)
    ensures var s := Run(WorkerCount(configured), schedule); !s.panicked && s.caller != ReturnedNil
  {
    RunKeeps(WorkerCount(configured), schedule);
  }

  /** The bare context error means that the parent was cancelled and that no worker reported a fetch
      error or failed on a message.  A failure whose report was dropped is no exception: the channel
      was full, so the caller gets another error. */
  lemma ContextErrorMeansCancelled(configured: int, schedule: seq<Action>)
    requires Run(WorkerCount(configured), schedule).caller == ReturnedContextError
    ensures var n, s := WorkerCount(configured), Run(WorkerCount(configured), schedule);
            s.parentCancelled && forall i | 0 <= i < n :: s.workers[i].failed == [] && !s.workers[i].complained
  {
    var n := WorkerCount(configured);
    RunKeeps(n, schedule);
    var s := Run(n, schedule);
    forall i | 0 <= i < n ensures s.workers[i].failed == [] && !s.workers[i].complained {
      assert s.workers[i].processor == ProcessorGone;
    }
  }

  /** Each worker handles a prefix of what it fetched, in order; the message it failed on comes next and
      nothing after it is ever handled. */
  lemma HandledInOrder(configured: int, schedule: seq<Action>, i: nat, k: Worker)
    requires i < |Run(WorkerCount(configured), schedule).workers| && k == Run(WorkerCount(configured), schedule).workers[i]
    ensures k.handled + k.failed <= k.fetched && |k.failed| <= 1
            && (k.failed != [] ==> !k.processor.Selecting? && !k.processor.Processing?)
  {
    RunKeeps(WorkerCount(configured), schedule);
  }

  /** A move of the goroutines themselves, rather than of the broker, a handler or the parent. */
  predicate Internal(a: Action) {
    match a
    case Fetcher(_, f) => !f.FetchOk? && !f.FetchFails?
    case Processor(_, p) => !p.ProcessOk? && !p.ProcessFails?
    case CancelParent => false
    case _ => true
  }

  ghost predicate CanMove(s: State) {
    exists a :: Internal(a) && Step(s, a) != s
  }

  /** The worker waits for its broker or its handler. */
  predicate Waits(k: Worker) {
    k.fetcher.Fetching? || k.processor.Processing?
  }

  lemma PutSame(s: State, i: nat, r: Moved)
    requires i < |s.workers| && Put(s, i, r) == s
    ensures r.k == s.workers[i] && r.errs == s.errs && r.cancelled == s.cancelled
  {
    assert s.workers[i := r.k][i] == r.k;
  }

  lemma FetcherStuck(s: State, i: nat, f: FetcherMove)
    requires i < |s.workers| && !CanMove(s) && Internal(Fetcher(i, f))
    ensures FetcherStep(s, i, s.workers[i], f).k == s.workers[i]
  {
    assert Step(s, Fetcher(i, f)) == s;
    PutSame(s, i, FetcherStep(s, i, s.workers[i], f));
  }

  lemma ProcessorStuck(s: State, i: nat, p: ProcessorMove)
    requires i < |s.workers| && !CanMove(s) && Internal(Processor(i, p))
    ensures ProcessorStep(s, i, s.workers[i], p).k == s.workers[i]
  {
    assert Step(s, Processor(i, p)) == s;
    PutSame(s, i, ProcessorStep(s, i, s.workers[i], p));
  }

  lemma WorkerStuck(s: State, i: nat)
    requires Inv(s) && i < |s.workers| && !CanMove(s) && s.errs == [] && !s.errsClosed
    ensures Waits(s.workers[i]) || s.workers[i].processor == ProcessorGone
  {
    var k := s.workers[i];
    FetcherStuck(s, i, Offer);
    FetcherStuck(s, i, GiveUp);
    FetcherStuck(s, i, Complain);
    FetcherStuck(s, i, CloseDone);
    FetcherStuck(s, i, CloseJobs);
    ProcessorStuck(s, i, Take);
    ProcessorStuck(s, i, Tell);
    ProcessorStuck(s, i, Cancel);
    ProcessorStuck(s, i, Leave);
    assert WorkerOk(k, s.cancelled, Reported(s));
  }

  /** Until the call returns the goroutines are never stuck by themselves: when none of them can move,
      some worker waits for its broker or its handler, and every other has ended. */
  lemma NeverStuck(configured: int, schedule: seq<Action>)
    requires var s := Run(WorkerCount(configured), schedule); s.caller == Ranging && !CanMove(s)
    ensures var n, s := WorkerCount(configured), Run(WorkerCount(configured), schedule);
            && (forall i | 0 <= i < n :: Waits(s.workers[i]) || s.workers[i].processor == ProcessorGone)
            && (exists i :: 0 <= i < n && Waits(s.workers[i]))
  {
    var n := WorkerCount(configured);
    RunKeeps(n, schedule);
    var s := Run(n, schedule);
    assert Step(s, Receive) == s && Step(s, CloseErrors) == s;
    assert s.errs == [];
    forall i | 0 <= i < n ensures Waits(s.workers[i]) || s.workers[i].processor == ProcessorGone {
      WorkerStuck(s, i);
    }
  }
}
