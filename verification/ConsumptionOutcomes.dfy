/**
 What ConsumeOrders returns.  The error it returns is that of a worker that could not fetch or failed on a message,
 and when it has returned the workers' context is cancelled; and any messages can be handled before a failure
 of any worker is returned.
 */
module ConsumptionOutcomes {
  import opened Services
  import opened OrderConsumption

  lemma Then(n: nat, schedule: seq<Action>, a: Action)
    ensures Run(n, schedule + [a]) == Step(Run(n, schedule), a)
  {
    assert (schedule + [a])[..|schedule|] == schedule;
  }

  /******* Returned errors are real *******/

  /** The report tells what has happened to its worker. */
  ghost predicate Real(workers: seq<Worker>, r: Report) {
    && r.worker < |workers|
    && (r.FetchError? ==> workers[r.worker].complained)
    && (r.ProcessError? ==> workers[r.worker].failed != [])
  }

  ghost predicate Honest(s: State) {
    && (forall k | 0 <= k < |s.errs| :: Real(s.workers, s.errs[k]))
    && (s.caller.ReturnedError? ==> Real(s.workers, s.caller.report))
    && (s.caller != Ranging ==> s.cancelled)
    && (forall i | 0 <= i < |s.workers| && s.workers[i].processor.Failing? :: s.workers[i].failed != [])
  }

  lemma FetcherHonest(s: State, i: nat, f: FetcherMove)
    requires Honest(s) && i < |s.workers|
    ensures Honest(Step(s, Fetcher(i, f)))
  {
    var r := FetcherStep(s, i, s.workers[i], f);
    assert s.workers[i].complained ==> r.k.complained;
    assert r.k.failed == s.workers[i].failed && r.k.processor == s.workers[i].processor;
    assert r.errs == s.errs || (r.errs == s.errs + [FetchError(i)] && r.k.complained);
    WorkerReplaced(s, i, r);
  }

  lemma ProcessorHonest(s: State, i: nat, p: ProcessorMove)
    requires Honest(s) && i < |s.workers|
    ensures Honest(Step(s, Processor(i, p)))
  {
    var r := ProcessorStep(s, i, s.workers[i], p);
    assert r.k.complained == s.workers[i].complained;
    assert s.workers[i].failed != [] ==> r.k.failed != [];
    assert r.errs == s.errs || (r.errs == s.errs + [ProcessError(i)] && r.k.failed != []);
    WorkerReplaced(s, i, r);
  }

  lemma WorkerReplaced(s: State, i: nat, r: Moved)
    requires Honest(s) && i < |s.workers| && (s.cancelled ==> r.cancelled)
    requires (s.workers[i].complained ==> r.k.complained) && (s.workers[i].failed != [] ==> r.k.failed != [])
    requires r.k.processor.Failing? ==> r.k.failed != []
    requires r.errs == s.errs || exists e :: r.errs == s.errs + [e] && Real(s.workers[i := r.k], e)
    ensures Honest(Put(s, i, r))
  {
    var workers := s.workers[i := r.k];
    forall e | Real(s.workers, e) ensures Real(workers, e) {}
  }

  lemma {:induction false} RunHonest(n: nat, schedule: seq<Action>)
    ensures Honest(Run(n, schedule))
  {
    if schedule != [] {
      var s, a := Run(n, schedule[..|schedule| - 1]), schedule[|schedule| - 1];
      RunHonest(n, schedule[..|schedule| - 1]);
      match a
      case Fetcher(i, f) => if i < |s.workers| { FetcherHonest(s, i, f); }
      case Processor(i, p) => if i < |s.workers| { ProcessorHonest(s, i, p); }
      case _ =>
    }
  }

  /** A returned error is a fetch error that its worker reported, or the failure of a message that its worker
      handled; and whatever is returned, the workers have been cancelled by then. */
  lemma ReturnedErrorIsReal(configured: int, schedule: seq<Action>, s: State)
    requires s == Run(WorkerCount(configured), schedule) && s.caller != Ranging
    ensures s.cancelled
    ensures s.caller.ReturnedError? ==>
              var r := s.caller.report;
              && r.worker < |s.workers|
              && (if r.FetchError? then s.workers[r.worker].complained else |s.workers[r.worker].failed| == 1)
  {
    RunHonest(WorkerCount(configured), schedule);
    RunKeeps(WorkerCount(configured), schedule);
    if s.caller.ReturnedError? {
      assert Flow(s.workers[s.caller.report.worker]);
    }
  }

  /******* Messages get handled, failures get returned *******/

  /** Worker `i` is ready for its next message, and nothing has gone wrong. */
  ghost predicate Calm(s: State, i: nat) {
    && i < |s.workers| && s.errs == [] && !s.errsClosed && !s.cancelled && s.caller == Ranging && !s.panicked
    && s.workers[i].fetcher == Fetching && s.workers[i].processor == Selecting && s.workers[i].jobs == []
    && !s.workers[i].jobsClosed && s.workers[i].failed == [] && !s.workers[i].complained
  }

  lemma Moves(s: State, i: nat, m: Msg)
    requires Calm(s, i)
    ensures var k := s.workers[i];
            var t := Step(Step(Step(s, Fetcher(i, FetchOk(m))), Fetcher(i, Offer)), Processor(i, Take));
            t == s.(workers := s.workers[i := k.(fetched := k.fetched + [m], processor := Processing(m))])
  {
    var k := s.workers[i];
    var s1 := Step(s, Fetcher(i, FetchOk(m)));
    assert s1 == s.(workers := s.workers[i := k.(fetcher := Offering(m), fetched := k.fetched + [m])]);
    var s2 := Step(s1, Fetcher(i, Offer));
    assert [] + [m] == [m];
    assert s2 == s.(workers := s.workers[i := k.(fetched := k.fetched + [m], jobs := [m])]);
    assert [m][1..] == [];
  }

  function Fetched(i: nat, m: Msg): seq<Action> {
    [Fetcher(i, FetchOk(m)), Fetcher(i, Offer), Processor(i, Take)]
  }

  lemma RunFetched(n: nat, schedule: seq<Action>, i: nat, m: Msg)
    ensures Run(n, schedule + Fetched(i, m)) ==
            Step(Step(Step(Run(n, schedule), Fetcher(i, FetchOk(m))), Fetcher(i, Offer)), Processor(i, Take))
  {
    var s1 := schedule + [Fetcher(i, FetchOk(m))];
    var s2 := s1 + [Fetcher(i, Offer)];
    Then(n, schedule, Fetcher(i, FetchOk(m)));
    Then(n, s1, Fetcher(i, Offer));
    Then(n, s2, Processor(i, Take));
    assert s2 + [Processor(i, Take)] == schedule + Fetched(i, m);
  }

  /** Worker `i` has handled exactly these messages. */
  ghost predicate HasHandled(s: State, i: nat, messages: seq<Msg>) {
    Calm(s, i) && s.workers[i].handled == messages && s.workers[i].fetched == messages
  }

  lemma OneHandled(n: nat, schedule: seq<Action>, i: nat, messages: seq<Msg>, m: Msg)
    requires HasHandled(Run(n, schedule), i, messages)
    ensures HasHandled(Run(n, schedule + Fetched(i, m) + [Processor(i, ProcessOk)]), i, messages + [m])
  {
    var s := Run(n, schedule);
    RunFetched(n, schedule, i, m);
    Moves(s, i, m);
    Then(n, schedule + Fetched(i, m), Processor(i, ProcessOk));
  }

  lemma FirstCalm(n: nat, i: nat)
    requires i < n
    ensures HasHandled(Run(n, []), i, [])
  {
  }

  /** Any messages can be handled by any worker, in the order in which they are fetched. */
  lemma {:induction false} MessagesGetHandled(n: nat, i: nat, messages: seq<Msg>) returns (schedule: seq<Action>)
    requires i < n
    ensures HasHandled(Run(n, schedule), i, messages)
  {
    if messages == [] {
      schedule := [];
      FirstCalm(n, i);
    } else {
      var k := |messages| - 1;
      var before := MessagesGetHandled(n, i, messages[..k]);
      OneHandled(n, before, i, messages[..k], messages[k]);
      schedule := before + Fetched(i, messages[k]) + [Processor(i, ProcessOk)];
      assert messages[..k] + [messages[k]] == messages;
    }
  }

  lemma FailureSteps(s: State, i: nat, m: Msg)
    requires s.errs == [] && !s.errsClosed && s.caller == Ranging && i < |s.workers| && s.workers[i].processor == Processing(m)
    ensures var t := Step(Step(Step(s, Processor(i, ProcessFails)), Processor(i, Tell)), Receive);
            && t.caller == ReturnedError(ProcessError(i)) && t.cancelled
            && t.workers[i] == s.workers[i].(processor := Cancelling, failed := [m])
  {
    var s1 := Step(s, Processor(i, ProcessFails));
    assert s1 == s.(workers := s.workers[i := s.workers[i].(processor := Failing, failed := [m])]);
    var s2 := Step(s1, Processor(i, Tell));
    assert s2.errs == [] + [ProcessError(i)];
  }

  /** After any messages handled, the failure on the next one is what the call returns. */
  lemma FailureIsReturned(n: nat, i: nat, messages: seq<Msg>, m: Msg) returns (schedule: seq<Action>)
    requires i < n
    ensures var s := Run(n, schedule);
            && s.caller == ReturnedError(ProcessError(i)) && s.cancelled
            && s.workers[i].handled == messages && s.workers[i].failed == [m] && s.workers[i].fetched == messages + [m]
  {
    var before := MessagesGetHandled(n, i, messages);
    RunFetched(n, before, i, m);
    Moves(Run(n, before), i, m);
    var fetched := before + Fetched(i, m);
    FailureSteps(Run(n, fetched), i, m);
    Then(n, fetched, Processor(i, ProcessFails));
    Then(n, fetched + [Processor(i, ProcessFails)], Processor(i, Tell));
    Then(n, fetched + [Processor(i, ProcessFails)] + [Processor(i, Tell)], Receive);
    schedule := fetched + [Processor(i, ProcessFails)] + [Processor(i, Tell)] + [Receive];
  }

  lemma FetchErrorSteps(s: State, i: nat)
    requires Calm(s, i)
    ensures var t := Step(Step(Step(s, Fetcher(i, FetchFails)), Fetcher(i, Complain)), Receive);
            t.caller == ReturnedError(FetchError(i)) && t.cancelled && t.workers[i].handled == s.workers[i].handled
  {
    var s1 := Step(s, Fetcher(i, FetchFails));
    assert s1 == s.(workers := s.workers[i := s.workers[i].(fetcher := Complaining)]);
    var s2 := Step(s1, Fetcher(i, Complain));
    assert s2.errs == [] + [FetchError(i)];
  }

  /** And so is a fetch error. */
  lemma FetchErrorIsReturned(n: nat, i: nat, messages: seq<Msg>) returns (schedule: seq<Action>)
    requires i < n
    ensures var s := Run(n, schedule);
            s.caller == ReturnedError(FetchError(i)) && s.cancelled && s.workers[i].handled == messages
  {
    var before := MessagesGetHandled(n, i, messages);
    FetchErrorSteps(Run(n, before), i);
    Then(n, before, Fetcher(i, FetchFails));
    Then(n, before + [Fetcher(i, FetchFails)], Fetcher(i, Complain));
    Then(n, before + [Fetcher(i, FetchFails)] + [Fetcher(i, Complain)], Receive);
    schedule := before + [Fetcher(i, FetchFails)] + [Fetcher(i, Complain)] + [Receive];
  }

  /******* Cancellation gets returned *******/

  const GONE := FRESH.(fetcher := FetcherGone, processor := ProcessorGone, doneClosed := true, jobsClosed := true)

  /** The parent is cancelled, the first `j` workers have ended and the others have not started. */
  function Leaving(n: nat, j: nat): State {
    State(seq(n, i => if i < j then GONE else FRESH), [], false, true, true, Ranging, false)
  }

  lemma WorkerLeaves(n: nat, j: nat)
    requires j < n
    ensures var s1 := Step(Leaving(n, j), Fetcher(j, FetchFails));
            var s2 := Step(s1, Fetcher(j, CloseDone));
            var s3 := Step(s2, Fetcher(j, CloseJobs));
            var s4 := Step(s3, Processor(j, SeeCancel));
            Step(s4, Processor(j, Leave)) == Leaving(n, j + 1)
  {
    var s := Leaving(n, j);
    assert s.workers[j] == FRESH;
    var s1 := Step(s, Fetcher(j, FetchFails));
    assert s1 == s.(workers := s.workers[j := FRESH.(fetcher := ClosingDone)]);
    var s2 := Step(s1, Fetcher(j, CloseDone));
    assert s2 == s.(workers := s.workers[j := FRESH.(fetcher := ClosingJobs, doneClosed := true)]);
    var s3 := Step(s2, Fetcher(j, CloseJobs));
    assert s3 == s.(workers := s.workers[j := GONE.(processor := Selecting)]);
    var s4 := Step(s3, Processor(j, SeeCancel));
    assert s4 == s.(workers := s.workers[j := GONE.(processor := AwaitingFetcher)]);
    assert Leaving(n, j + 1).workers == s.workers[j := GONE];
  }

  lemma RunLeaves(n: nat, schedule: seq<Action>, j: nat) returns (longer: seq<Action>)
    requires j < n && Run(n, schedule) == Leaving(n, j)
    ensures Run(n, longer) == Leaving(n, j + 1)
  {
    var a := schedule + [Fetcher(j, FetchFails)];
    var b := a + [Fetcher(j, CloseDone)];
    var c := b + [Fetcher(j, CloseJobs)];
    var d := c + [Processor(j, SeeCancel)];
    WorkerLeaves(n, j);
    Then(n, schedule, Fetcher(j, FetchFails));
    Then(n, a, Fetcher(j, CloseDone));
    Then(n, b, Fetcher(j, CloseJobs));
    Then(n, c, Processor(j, SeeCancel));
    Then(n, d, Processor(j, Leave));
    longer := d + [Processor(j, Leave)];
  }

  lemma {:induction false} AllLeave(n: nat, j: nat) returns (schedule: seq<Action>)
    requires j <= n
    ensures Run(n, schedule) == Leaving(n, j)
  {
    if j == 0 {
      Then(n, [], CancelParent);
      Then(n, [] + [CancelParent], Propagate);
      schedule := [] + [CancelParent] + [Propagate];
      assert Leaving(n, 0).workers == Init(n).workers;
    } else {
      var before := AllLeave(n, j - 1);
      schedule := RunLeaves(n, before, j - 1);
    }
  }

  /** A cancelled parent makes the call return the bare context error. */
  lemma CancellationIsReturned(n: nat) returns (schedule: seq<Action>)
    ensures Run(n, schedule).caller == ReturnedContextError
  {
    var gone := AllLeave(n, n);
    Then(n, gone, CloseErrors);
    Then(n, gone + [CloseErrors], Receive);
    schedule := gone + [CloseErrors] + [Receive];
  }
}
