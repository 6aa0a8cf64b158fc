/**
 The goroutines of ConsumeOrders are workers of the saga, while the rest of the saga goes on around them.  What a
 fetcher and its processor do is what one saga worker does: fetched messages queue up in order behind the one
 being handled, a handler that ends well goes on to the next, and a worker that fails or sees the cancellation is
 gone.  A handler's calls are interleaved with everything else; without interruption they do what the service
 object is proved to do.
 */
module SagaGoroutines {
  import opened Basics
  import opened Services
  import opened Saga
  import G = OrderConsumption
  import H = InventoryService
  import P = SagaPaths

  /******* A handler's calls are saga steps *******/

  function Perform(s: State, actions: seq<Action>): State {
    if actions == [] then s else Step(Perform(s, actions[..|actions| - 1]), actions[|actions| - 1])
  }

  function CallActions(i: nat, calls: seq<Outcome>): seq<Action> {
    seq(|calls|, k requires 0 <= k < |calls| => Work(i, calls[k]))
  }

  lemma {:induction false} PerformAll(s: State, first: seq<Action>, rest: seq<Action>)
    ensures Perform(s, first + rest) == Perform(Perform(s, first), rest)
  {
    if rest == [] {
      assert first + rest == first;
    } else {
      var all := first + rest;
      assert all[..|all| - 1] == first + rest[..|rest| - 1];
      PerformAll(s, first, rest[..|rest| - 1]);
    }
  }

  lemma OneAction(s: State, a: Action)
    ensures Perform(s, [a]) == Step(s, a)
  {
    assert [a][..0] == [];
    assert Perform(s, []) == s;
  }

  /** The calls of an unbroken handler, made by worker `i`, leave the world and the worker as they should. */
  lemma {:induction false} HandlerRuns(s: State, i: nat, calls: seq<Outcome>)
    requires i in s.workers && H.Unbroken(s.w, s.workers[i].pc, calls)
    ensures var r, t := H.MakeCalls(s.w, s.workers[i].pc, calls), Perform(s, CallActions(i, calls));
            && t.w == r.0
            && t.workers == (if r.1.Stopped? && calls != [] then s.workers - {i} else s.workers[i := s.workers[i].(pc := r.1)])
    decreases |calls|
  {
    if calls == [] {
      assert s.workers[i := s.workers[i].(pc := s.workers[i].pc)] == s.workers;
    } else {
      var s1 := Step(s, Work(i, calls[0]));
      var rest := calls[1..];
      assert CallActions(i, calls) == [Work(i, calls[0])] + CallActions(i, rest);
      PerformAll(s, [Work(i, calls[0])], CallActions(i, rest));
      OneAction(s, Work(i, calls[0]));
      var (w', pc') := CallWorker(s.w, s.workers[i].pc, calls[0]);
      FirstCall(s, i, calls[0]);
      if pc'.Stopped? {
        StoppedIsLast(w', rest);
      } else {
        HandlerRuns(s1, i, rest);
        LastPc(s, s1, i, pc');
      }
    }
  }

  lemma FirstCall(s: State, i: nat, call: Outcome)
    requires i in s.workers && !s.workers[i].pc.Idle?
    ensures var r, s1 := CallWorker(s.w, s.workers[i].pc, call), Step(s, Work(i, call));
            s1.w == r.0 && s1.workers == if r.1.Stopped? then s.workers - {i} else s.workers[i := s.workers[i].(pc := r.1)]
  {
  }

  lemma StoppedIsLast(w: World, calls: seq<Outcome>)
    requires H.Unbroken(w, Stopped, calls)
    ensures calls == []
  {
  }

  lemma LastPc(s: State, s1: State, i: nat, pc: WorkerPc)
    requires i in s.workers && s1.workers == s.workers[i := s.workers[i].(pc := pc)]
    ensures s1.workers - {i} == s.workers - {i}
    ensures forall pc' :: s1.workers[i := s1.workers[i].(pc := pc')] == s.workers[i := s.workers[i].(pc := pc')]
  {
  }

  /******* One goroutine pair, one worker *******/

  /** The messages a pair has fetched and not begun to handle, oldest first. */
  function Waiting(k: G.Worker): seq<Msg> {
    k.jobs + G.OfferedBy(k.fetcher) + k.dropped
  }

  /** Worker `i` of the saga holds the messages of the pair, in order.  While the pair handles a message the
      worker is somewhere in the calls of its handler, or at their end, or stopped at one of them. */
  ghost predicate Simulates(k: G.Worker, s: State, i: nat) {
    if k.processor.Selecting? then
      WorkerAt(s, i).pc.Idle? && WorkerAt(s, i).queue == Waiting(k)
    else if k.processor.Processing? then
      i in s.workers ==> s.workers[i].queue == Waiting(k) && WorksOn(s.workers[i].pc, k.processor.m)
    else
      i !in s.workers
  }

  predicate WorksOn(pc: WorkerPc, m: Msg) {
    pc.Idle? || (!pc.Stopped? && pc.m == m)
  }

  /** What the saga does when a fetcher moves, and when a processor moves. */
  function FetcherAction(s: State, i: nat, k: G.Worker, f: G.FetcherMove): Option<Action> {
    if f.FetchOk? && k.fetcher.Fetching? && i in s.workers then Some(Fetch(i, f.m.partition)) else None
  }

  function ProcessorAction(cancelled: bool, i: nat, k: G.Worker, p: G.ProcessorMove): Option<Action> {
    if k.processor.Selecting? && p.Take? && k.jobs != [] then Some(Work(i, Failed))
    else if k.processor.Selecting? && ((p.Take? && k.jobsClosed) || (p.SeeCancel? && cancelled)) then Some(Crash(i))
    else if k.processor.Processing? && p.ProcessFails? then Some(Crash(i))
    else None
  }

  function Do(s: State, a: Option<Action>): State {
    if a.Some? then Step(s, a.value) else s
  }

  /** A fetch returns the next message of a partition the worker owns. */
  ghost predicate FetchFits(s: State, i: nat, k: G.Worker, f: G.FetcherMove) {
    f.FetchOk? && k.fetcher.Fetching? && (k.processor.Selecting? || i in s.workers) ==>
      && i in s.workers && f.m.partition in s.workers[i].positions && s.workers[i].positions[f.m.partition] == f.m.offset
      && f.m.partition < |s.w.orderLog| && f.m.offset < |s.w.orderLog[f.m.partition]|
      && s.w.orderLog[f.m.partition][f.m.offset] == f.m.event
  }

  /** A handler ends well when its calls have come to their end. */
  ghost predicate ProcessFits(s: State, i: nat, k: G.Worker, p: G.ProcessorMove) {
    p.ProcessOk? && k.processor.Processing? ==> i in s.workers && s.workers[i].pc.Idle?
  }

  lemma FetchQueues(s: State, i: nat, m: Msg)
    requires i in s.workers && m.partition in s.workers[i].positions && s.workers[i].positions[m.partition] == m.offset
    requires m.partition < |s.w.orderLog| && m.offset < |s.w.orderLog[m.partition]| && s.w.orderLog[m.partition][m.offset] == m.event
    ensures var t := Step(s, Fetch(i, m.partition));
            i in t.workers && t.workers[i].queue == s.workers[i].queue + [m] && t.workers[i].pc == s.workers[i].pc
  {
  }

  lemma FetcherSimulated(g: G.State, s: State, i: nat, k: G.Worker, f: G.FetcherMove)
    requires G.Flow(k) && Simulates(k, s, i) && FetchFits(s, i, k, f)
    ensures Simulates(G.FetcherStep(g, i, k, f).k, Do(s, FetcherAction(s, i, k, f)), i)
  {
    if f.FetchOk? && k.fetcher.Fetching? {
      if i in s.workers {
        FetchQueues(s, i, f.m);
        assert k.jobs + [] + [] + [f.m] == k.jobs + [f.m] + [];
      }
    } else {
      FetcherKeepsQueue(g, i, k, f);
    }
  }

  /** The other moves of a fetcher pass its message on without changing the order. */
  lemma FetcherKeepsQueue(g: G.State, i: nat, k: G.Worker, f: G.FetcherMove)
    requires G.Flow(k) && !(f.FetchOk? && k.fetcher.Fetching?)
    ensures var k' := G.FetcherStep(g, i, k, f).k; k'.processor == k.processor && Waiting(k') == Waiting(k)
  {
    if k.fetcher.Offering? {
      var m := k.fetcher.m;
      assert (k.jobs + [m]) + [] + [] == k.jobs + [m] + [];
      assert k.jobs + [] + ([] + [m]) == k.jobs + [m] + [];
    }
  }

  lemma TakeStep(s: State, i: nat)
    requires i in s.workers && s.workers[i].pc.Idle? && s.workers[i].queue != []
    ensures var t := Step(s, Work(i, Failed));
            i in t.workers && t.workers[i].queue == s.workers[i].queue[1..] && t.workers[i].pc == Received(s.workers[i].queue[0])
  {
  }

  lemma ProcessorSimulated(g: G.State, s: State, i: nat, k: G.Worker, p: G.ProcessorMove)
    requires G.Flow(k) && Simulates(k, s, i) && ProcessFits(s, i, k, p)
    ensures Simulates(G.ProcessorStep(g, i, k, p).k, Do(s, ProcessorAction(g.cancelled, i, k, p)), i)
  {
    if k.processor.Selecting? && p.Take? && k.jobs != [] {
      TakeSimulated(g, s, i, k);
    } else if ProcessorAction(g.cancelled, i, k, p).Some? {
      GoneSimulated(g, s, i, k, p);
    }
  }

  lemma TakeSimulated(g: G.State, s: State, i: nat, k: G.Worker)
    requires Simulates(k, s, i) && k.processor.Selecting? && k.jobs != []
    ensures Simulates(G.ProcessorStep(g, i, k, G.Take).k, Step(s, Work(i, Failed)), i)
  {
    assert Waiting(k)[0] == k.jobs[0] && Waiting(k)[1..] == k.jobs[1..] + G.OfferedBy(k.fetcher) + k.dropped;
    TakeStep(s, i);
  }

  /** A processor that stops, and its worker. */
  lemma GoneSimulated(g: G.State, s: State, i: nat, k: G.Worker, p: G.ProcessorMove)
    requires ProcessorAction(g.cancelled, i, k, p) == Some(Crash(i))
    ensures Simulates(G.ProcessorStep(g, i, k, p).k, Step(s, Crash(i)), i)
  {
  }

  /******* Everything else that happens meanwhile *******/

  /** The rest of the saga may do anything, at any moment.  What belongs to the pairs `i < n` stays with them:
      only they fetch and stop their workers, a handler's calls are made while it runs, and a worker that has
      ended gets no partition. */
  ghost predicate RestFits(g: G.State, s: State, a: Action) {
    match a
    case Fetch(i, _) => i >= |g.workers|
    case Crash(i) => i >= |g.workers|
    case Work(i, _) =>
      i < |g.workers| ==> g.workers[i].processor.Processing? && (i in s.workers ==> !s.workers[i].pc.Idle?)
    case Assign(i, _) =>
      i < |g.workers| ==> g.workers[i].processor.Selecting? || (g.workers[i].processor.Processing? && i in s.workers)
    case _ => true
  }

  /** One call of a running handler. */
  lemma CallSimulated(k: G.Worker, s: State, i: nat, call: Outcome)
    requires Simulates(k, s, i) && k.processor.Processing? && (i in s.workers ==> !s.workers[i].pc.Idle?)
    ensures Simulates(k, Step(s, Work(i, call)), i)
  {
    if i in s.workers {
      FirstCall(s, i, call);
      SameMessage(s.w, s.workers[i].pc, call);
    }
  }

  lemma SameMessage(w: World, pc: WorkerPc, call: Outcome)
    requires !pc.Idle? && !pc.Stopped?
    ensures var pc' := CallWorker(w, pc, call).1; pc'.Stopped? || WorksOn(pc', pc.m)
  {
  }

  predicate Concerns(a: Action, i: nat) {
    (a.Fetch? || a.Work? || a.Crash? || a.Assign? || a.Revoke?) && a.i == i
  }

  lemma OtherAlone(s: State, a: Action, j: nat)
    requires !Concerns(a, j)
    ensures (j in Step(s, a).workers <==> j in s.workers) && WorkerAt(Step(s, a), j) == WorkerAt(s, j)
  {
  }

  lemma RestSimulated(g: G.State, s: State, a: Action, j: nat)
    requires j < |g.workers| && Simulates(g.workers[j], s, j) && RestFits(g, s, a)
    ensures Simulates(g.workers[j], Step(s, a), j)
  {
    if !Concerns(a, j) {
      OtherAlone(s, a, j);
    } else if a.Work? {
      CallSimulated(g.workers[j], s, j, a.call);
    } else {
      PartitionsOnly(s, a, j);
    }
  }

  /** Hand-over changes the fetch positions of a worker and nothing else. */
  lemma PartitionsOnly(s: State, a: Action, j: nat)
    requires (a.Assign? || a.Revoke?) && a.i == j
    ensures WorkerAt(Step(s, a), j).pc == WorkerAt(s, j).pc && WorkerAt(Step(s, a), j).queue == WorkerAt(s, j).queue
    ensures j in Step(s, a).workers ==> j in s.workers || a.Assign?
  {
  }

  /******* The goroutines and the saga side by side *******/

  datatype Joint = Joint(g: G.State, s: State)

  datatype Move = Goroutine(a: G.Action) | Rest(b: Action)

  function SagaAction(j: Joint, move: Move): Option<Action> {
    match move
    case Rest(b) => Some(b)
    case Goroutine(a) =>
      (match a
       case Fetcher(i, f) => if i < |j.g.workers| then FetcherAction(j.s, i, j.g.workers[i], f) else None
       case Processor(i, p) => if i < |j.g.workers| then ProcessorAction(j.g.cancelled, i, j.g.workers[i], p) else None
       case _ => None)
  }

  function JointStep(j: Joint, move: Move): (j': Joint)
    ensures |j'.g.workers| == |j.g.workers|
  {
    Joint(if move.Goroutine? then G.Step(j.g, move.a) else j.g, Do(j.s, SagaAction(j, move)))
  }

  ghost predicate Fits(j: Joint, move: Move) {
    match move
    case Rest(b) => RestFits(j.g, j.s, b)
    case Goroutine(a) =>
      (match a
       case Fetcher(i, f) => i < |j.g.workers| ==> FetchFits(j.s, i, j.g.workers[i], f)
       case Processor(i, p) => i < |j.g.workers| ==> ProcessFits(j.s, i, j.g.workers[i], p)
       case _ => true)
  }

  ghost predicate AllSimulated(j: Joint) {
    forall i: nat | i < |j.g.workers| :: Simulates(j.g.workers[i], j.s, i)
  }

  lemma PairSimulated(j: Joint, a: G.Action, i: nat)
    requires AllSimulated(j) && Fits(j, Goroutine(a)) && i < |j.g.workers| && G.Flow(j.g.workers[i])
    ensures Simulates(JointStep(j, Goroutine(a)).g.workers[i], JointStep(j, Goroutine(a)).s, i)
  {
    if (a.Fetcher? || a.Processor?) && a.i == i {
      if a.Fetcher? {
        FetcherSimulated(j.g, j.s, i, j.g.workers[i], a.f);
      } else {
        ProcessorSimulated(j.g, j.s, i, j.g.workers[i], a.p);
      }
    } else {
      var action := SagaAction(j, Goroutine(a));
      if action.Some? {
        OtherAlone(j.s, action.value, i);
      }
    }
  }

  lemma StepSimulated(j: Joint, move: Move)
    requires AllSimulated(j) && Fits(j, move) && forall i | 0 <= i < |j.g.workers| :: G.Flow(j.g.workers[i])
    ensures AllSimulated(JointStep(j, move))
  {
    forall i: nat | i < |j.g.workers| ensures Simulates(JointStep(j, move).g.workers[i], JointStep(j, move).s, i) {
      if move.Rest? {
        RestSimulated(j.g, j.s, move.b, i);
      } else {
        PairSimulated(j, move.a, i);
      }
    }
  }

  function JointRun(n: nat, s0: State, moves: seq<Move>): (j: Joint)
    ensures |j.g.workers| == n
  {
    if moves == [] then Joint(G.Init(n), s0)
    else JointStep(JointRun(n, s0, moves[..|moves| - 1]), moves[|moves| - 1])
  }

  /** The two runs behind a joint one. */
  function GoroutineActions(moves: seq<Move>): seq<G.Action> {
    if moves == [] then []
    else
      var last := moves[|moves| - 1];
      GoroutineActions(moves[..|moves| - 1]) + if last.Goroutine? then [last.a] else []
  }

  function SagaActions(n: nat, s0: State, moves: seq<Move>): seq<Action> {
    if moves == [] then []
    else
      var before := moves[..|moves| - 1];
      var action := SagaAction(JointRun(n, s0, before), moves[|moves| - 1]);
      SagaActions(n, s0, before) + if action.Some? then [action.value] else []
  }

  lemma {:induction false} GoroutinesRun(n: nat, s0: State, moves: seq<Move>)
    ensures JointRun(n, s0, moves).g == G.Run(n, GoroutineActions(moves))
  {
    if moves != [] {
      var before := moves[..|moves| - 1];
      GoroutinesRun(n, s0, before);
      var actions := GoroutineActions(before);
      if moves[|moves| - 1].Goroutine? {
        assert (actions + [moves[|moves| - 1].a])[..|actions|] == actions;
      } else {
        assert actions + [] == actions;
      }
    }
  }

  /** The saga's side extends any run of the saga, so the theorems about every run hold of it. */
  lemma {:induction false} SagaRuns(m: nat, q: nat, start: seq<Action>, n: nat, moves: seq<Move>)
    ensures var s0 := Saga.Run(m, q, start);
            JointRun(n, s0, moves).s == Saga.Run(m, q, start + SagaActions(n, s0, moves))
  {
    var s0 := Saga.Run(m, q, start);
    if moves == [] {
      assert start + [] == start;
    } else {
      var before := moves[..|moves| - 1];
      SagaRuns(m, q, start, n, before);
      var actions, action := SagaActions(n, s0, before), SagaAction(JointRun(n, s0, before), moves[|moves| - 1]);
      if action.Some? {
        P.Then(m, q, start + actions, action.value);
        assert start + (actions + [action.value]) == start + actions + [action.value];
      } else {
        assert actions + [] == actions;
      }
    }
  }

  ghost predicate FitsAt(n: nat, s0: State, moves: seq<Move>, k: nat)
    requires k < |moves|
  {
    Fits(JointRun(n, s0, moves[..k]), moves[k])
  }

  /** While the goroutines of one ConsumeOrders run, together with shoppers, admins, consumers, hand-over and
      other instances, interleaved move by move and call by call, each pair is a worker of the saga: it holds
      and handles the same messages in the same order, and is gone once its processor stops. */
  lemma {:induction false} GoroutinesAreWorkers(n: nat, s0: State, moves: seq<Move>)
    requires n > 0
    requires forall i: nat | i < n :: WorkerAt(s0, i).queue == [] && WorkerAt(s0, i).pc == Idle
    requires forall k: nat | k < |moves| :: FitsAt(n, s0, moves, k)
    ensures AllSimulated(JointRun(n, s0, moves))
  {
    if moves != [] {
      var k := |moves| - 1;
      var before := moves[..k];
      forall j: nat | j < k ensures FitsAt(n, s0, before, j) {
        assert before[..j] == moves[..j];
        assert FitsAt(n, s0, moves, j);
      }
      GoroutinesAreWorkers(n, s0, before);
      GoroutinesRun(n, s0, before);
      G.RunKeeps(n, GoroutineActions(before));
      assert FitsAt(n, s0, moves, k);
      StepSimulated(JointRun(n, s0, before), moves[k]);
    }
  }
}
