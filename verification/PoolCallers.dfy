/**
 The pool together with the goroutines that call Submit and Close.  A Submit waits in its select until a slot
 of the buffer or a waiting worker takes the job, or its context ends.  Close closes the jobs channel: a
 Submit that is still waiting then, or comes later, sends on a closed channel, and a second Close closes it
 again; both panic.
 */
module PoolCallers {
  import opened Basics
  import opened WorkerPool

  /** `waiting` are the calls of Submit that have not returned. */
  datatype Callers<T> = Callers(pool: State<T>, waiting: seq<T>, panicked: bool)

  datatype Move<T> =
    | CallSubmit(job: T)
    | IntoBuffer(k: nat)          // the k-th waiting call
    | ToWorker(k: nat, i: nat)
    | ContextEnds(k: nat)
    | FindsClosed(k: nat)
    | CallClose
    | Inside(a: Action<T>)        // any other step of the pool

  ghost function Start<T>(n: nat, buffer: nat): Callers<T> {
    Callers(Init(n, buffer), [], false)
  }

  function Without<T>(waiting: seq<T>, k: nat): seq<T>
    requires k < |waiting|
  {
    waiting[..k] + waiting[k + 1..]
  }

  /** The step of the pool behind a move. */
  function PoolAction<T>(c: Callers<T>, move: Move<T>): Option<Action<T>> {
    match move
    case IntoBuffer(k) => if k < |c.waiting| then Some(Submit(c.waiting[k])) else None
    case ToWorker(k, i) => if k < |c.waiting| then Some(HandOff(i, c.waiting[k])) else None
    case CallClose => Some(Action.CallClose)
    case Inside(a) => if a.Submit? || a.HandOff? || a.CallClose? then None else Some(a)
    case _ => None
  }

  ghost function PoolAfter<T>(c: Callers<T>, move: Move<T>): State<T> {
    if PoolAction(c, move).Some? then Step(c.pool, PoolAction(c, move).value) else c.pool
  }

  ghost function CallersStep<T>(c: Callers<T>, move: Move<T>): Callers<T> {
    var pool := PoolAfter(c, move);
    match move
    case CallSubmit(job) => c.(waiting := c.waiting + [job])
    case IntoBuffer(k) => c.(pool := pool, waiting := if pool != c.pool then Without(c.waiting, k) else c.waiting)
    case ToWorker(k, _) => c.(pool := pool, waiting := if pool != c.pool then Without(c.waiting, k) else c.waiting)
    case ContextEnds(k) => if k < |c.waiting| then c.(waiting := Without(c.waiting, k)) else c
    case FindsClosed(k) => if k < |c.waiting| && c.pool.closing != Open then c.(panicked := true) else c
    case CallClose => c.(pool := pool, panicked := c.panicked || c.pool.closing != Open)
    case Inside(_) => c.(pool := pool)
  }

  ghost function CallersRun<T>(n: nat, buffer: nat, moves: seq<Move<T>>): Callers<T> {
    if moves == [] then Start(n, buffer)
    else CallersStep(CallersRun(n, buffer, moves[..|moves| - 1]), moves[|moves| - 1])
  }

  /******* The pool inside is a run of the pool *******/

  ghost function PoolSchedule<T>(n: nat, buffer: nat, moves: seq<Move<T>>): seq<Action<T>> {
    if moves == [] then []
    else
      var before := moves[..|moves| - 1];
      var action := PoolAction(CallersRun(n, buffer, before), moves[|moves| - 1]);
      PoolSchedule(n, buffer, before) + if action.Some? then [action.value] else []
  }

  /** Whatever the callers do, the pool goes through a run of `WorkerPool`, so its theorems hold here. */
  lemma {:induction false} PoolRunsInside<T>(n: nat, buffer: nat, moves: seq<Move<T>>)
    ensures CallersRun(n, buffer, moves).pool == Run(n, buffer, PoolSchedule(n, buffer, moves))
  {
    if moves != [] {
      var before := moves[..|moves| - 1];
      PoolRunsInside(n, buffer, before);
      var schedule := PoolSchedule(n, buffer, before);
      var action := PoolAction(CallersRun(n, buffer, before), moves[|moves| - 1]);
      PoolStep(CallersRun(n, buffer, before), moves[|moves| - 1]);
      if action.Some? {
        RunNext(n, buffer, schedule, action.value);
      } else {
        assert schedule + [] == schedule;
      }
    }
  }

  lemma PoolStep<T>(c: Callers<T>, move: Move<T>)
    ensures CallersStep(c, move).pool == PoolAfter(c, move)
  {
  }

  lemma RunNext<T>(n: nat, buffer: nat, schedule: seq<Action<T>>, a: Action<T>)
    ensures Run(n, buffer, schedule + [a]) == Step(Run(n, buffer, schedule), a)
  {
    assert (schedule + [a])[..|schedule|] == schedule;
  }

  /******* When the callers are safe *******/

  /** The move breaks the discipline: a Close while a Submit waits or after another Close, or a late Submit. */
  ghost predicate Misuse<T>(c: Callers<T>, move: Move<T>) {
    || (move.CallClose? && (c.waiting != [] || c.pool.closing != Open))
    || (move.CallSubmit? && c.pool.closing != Open)
  }

  ghost predicate Disciplined<T(!new)>(n: nat, buffer: nat, moves: seq<Move<T>>) {
    forall k | 0 <= k < |moves| :: !Misuse(CallersRun(n, buffer, moves[..k]), moves[k])
  }

  /** Somebody has panicked, or can at the next step. */
  ghost predicate Unsafe<T>(c: Callers<T>) {
    c.panicked || exists k :: CallersStep(c, FindsClosed(k)).panicked
  }

  lemma UnsafeExactly<T>(c: Callers<T>)
    ensures Unsafe(c) <==> c.panicked || (c.pool.closing != Open && c.waiting != [])
  {
    if c.pool.closing != Open && c.waiting != [] {
      assert CallersStep(c, FindsClosed(0)).panicked;
    }
  }

  lemma ClosingStays<T>(s: State<T>, a: Action<T>)
    ensures s.closing != Open ==> Step(s, a).closing != Open
    ensures !a.CallClose? ==> (Step(s, a).closing == Open <==> s.closing == Open)
    ensures a.CallClose? ==> Step(s, a).closing != Open
  {
  }

  /** A disciplined move keeps the callers safe, and only a misuse makes them unsafe. */
  lemma MoveKeepsSafe<T>(c: Callers<T>, move: Move<T>)
    requires !Unsafe(c)
    ensures Unsafe(CallersStep(c, move)) <==> Misuse(c, move)
  {
    UnsafeExactly(c);
    UnsafeExactly(CallersStep(c, move));
    if PoolAction(c, move).Some? {
      ClosingStays(c.pool, PoolAction(c, move).value);
    }
  }

  ghost predicate SafeSoFar<T(!new)>(n: nat, buffer: nat, moves: seq<Move<T>>) {
    forall k: nat | k <= |moves| :: SafeAt(n, buffer, moves, k)
  }

  ghost predicate SafeAt<T>(n: nat, buffer: nat, moves: seq<Move<T>>, k: nat)
    requires k <= |moves|
  {
    !Unsafe(CallersRun(n, buffer, moves[..k]))
  }

  /** Submit and Close never panic, at any moment of a run, if and only if the callers keep to the discipline:
      every Submit has returned when Close is called, none comes later, and Close is called once. */
  lemma {:induction false} SafeExactly<T(!new)>(n: nat, buffer: nat, moves: seq<Move<T>>)
    ensures SafeSoFar(n, buffer, moves) <==> Disciplined(n, buffer, moves)
  {
    if moves == [] {
      assert moves[..0] == [];
      UnsafeExactly(Start<T>(n, buffer));
      assert SafeAt(n, buffer, moves, 0);
    } else {
      var before, last := moves[..|moves| - 1], moves[|moves| - 1];
      assert before + [last] == moves;
      SafeExactly(n, buffer, before);
      SafeNext(n, buffer, before, last);
      DisciplinedNext(n, buffer, before, last);
      if SafeSoFar(n, buffer, before) {
        assert before[..|before|] == before && SafeAt(n, buffer, before, |before|);
        MoveKeepsSafe(CallersRun(n, buffer, before), last);
      }
    }
  }

  /** A Submit that is waiting when Close is called sends on the closed channel. */
  lemma WaitingSubmitPanics<T(!new)>(n: nat, buffer: nat, job: T) returns (moves: seq<Move<T>>)
    ensures moves == [CallSubmit(job), Move.CallClose, FindsClosed(0)]
    ensures CallersRun(n, buffer, moves).panicked && !Disciplined(n, buffer, moves)
  {
    moves := [CallSubmit(job), Move.CallClose, FindsClosed(0)];
    assert moves[..2] == [CallSubmit(job), Move.CallClose] && moves[..2][..1] == [CallSubmit(job)] && moves[..1][..0] == [];
    assert CallersRun(n, buffer, moves[..1]).waiting == [job];
    assert moves[..1] == [CallSubmit(job)] && Misuse(CallersRun(n, buffer, moves[..1]), moves[1]);
  }

  lemma SafeNext<T(!new)>(n: nat, buffer: nat, before: seq<Move<T>>, last: Move<T>)
    ensures SafeSoFar(n, buffer, before + [last]) <==>
            SafeSoFar(n, buffer, before) && !Unsafe(CallersStep(CallersRun(n, buffer, before), last))
  {
    if SafeSoFar(n, buffer, before + [last]) {
      SafeAtEnd(n, buffer, before, last);
      assert SafeAt(n, buffer, before + [last], |before| + 1);
      SafeBefore(n, buffer, before, last);
    } else {
      UnsafeBefore(n, buffer, before, last);
    }
  }

  lemma SafeBefore<T(!new)>(n: nat, buffer: nat, before: seq<Move<T>>, last: Move<T>)
    requires SafeSoFar(n, buffer, before + [last])
    ensures SafeSoFar(n, buffer, before)
  {
    forall k: nat | k <= |before| ensures SafeAt(n, buffer, before, k) {
      SafeEarlier(n, buffer, before, last, k);
    }
  }

  lemma UnsafeBefore<T(!new)>(n: nat, buffer: nat, before: seq<Move<T>>, last: Move<T>)
    requires !SafeSoFar(n, buffer, before + [last])
    ensures !SafeSoFar(n, buffer, before) || Unsafe(CallersStep(CallersRun(n, buffer, before), last))
  {
    var k: nat :| k <= |before| + 1 && !SafeAt(n, buffer, before + [last], k);
    if k <= |before| {
      SafeEarlier(n, buffer, before, last, k);
    } else {
      SafeAtEnd(n, buffer, before, last);
    }
  }

  lemma SafeAtEnd<T>(n: nat, buffer: nat, before: seq<Move<T>>, last: Move<T>)
    ensures SafeAt(n, buffer, before + [last], |before| + 1) <==> !Unsafe(CallersStep(CallersRun(n, buffer, before), last))
  {
    var moves := before + [last];
    assert moves[..|before| + 1] == moves && moves[..|before|] == before;
  }

  lemma SafeEarlier<T>(n: nat, buffer: nat, before: seq<Move<T>>, last: Move<T>, k: nat)
    requires k <= |before|
    ensures SafeAt(n, buffer, before, k) <==> SafeAt(n, buffer, before + [last], k)
  {
    assert before[..k] == (before + [last])[..k];
  }

  lemma DisciplinedNext<T(!new)>(n: nat, buffer: nat, before: seq<Move<T>>, last: Move<T>)
    ensures Disciplined(n, buffer, before + [last]) <==>
            Disciplined(n, buffer, before) && !Misuse(CallersRun(n, buffer, before), last)
  {
    var moves := before + [last];
    assert moves[..|before|] == before && moves[|before|] == last;
    forall k | 0 <= k < |before| ensures before[..k] == moves[..k] && before[k] == moves[k] {}
  }
}
