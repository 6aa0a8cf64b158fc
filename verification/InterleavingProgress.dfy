/**
 What the interleaved transactions achieve.  A finished transaction commits exactly its sequential outcome; a
 transaction whose rows nobody has locked can be run to its commit if and only if it succeeds sequentially over
 the committed tables, without a wait; one that is aborted leaves no trace.
 */
module InterleavingProgress {
  import opened Basics
  import opened Inventory
  import opened Interleaving

  lemma Then(schedule: seq<Action>, a: Action)
    ensures Run(schedule + [a]) == Step(Run(schedule), a)
  {
    assert (schedule + [a])[..|schedule|] == schedule;
  }

  /** A commit makes the sequential outcome of its operation the committed tables and records the operation;
      no other transaction is touched. */
  lemma CommitTakesEffect(schedule: seq<Action>, id: TxId)
    requires id in Run(schedule).open && Run(schedule).open[id].pos == Length(Run(schedule).open[id].op)
    ensures var s, s' := Run(schedule), Run(schedule + [Commit(id)]);
            && ApplyOp(s.committed, s.open[id].op) == Success(s'.committed)
            && s'.history == s.history + [s.open[id].op]
            && id !in s'.open && s'.open.Keys == s.open.Keys - {id}
            && forall i | i in s'.open :: s'.open[i] == s.open[i]
  {
    Then(schedule, Commit(id));
    RunKeeps(schedule);
    CommitIsSequential(Run(schedule).committed, Run(schedule).open[id]);
  }

  /******* Statements of one transaction *******/

  function Statements(id: TxId, k: nat): seq<Action> {
    seq(k, _ => Statement(id))
  }

  lemma NextStatement(schedule: seq<Action>, id: TxId, k: nat)
    ensures Run(schedule + Statements(id, k + 1)) == Step(Run(schedule + Statements(id, k)), Statement(id))
  {
    Then(schedule + Statements(id, k), Statement(id));
    assert schedule + Statements(id, k) + [Statement(id)] == schedule + Statements(id, k + 1);
  }

  lemma NoStatement(schedule: seq<Action>, id: TxId)
    ensures schedule + Statements(id, 0) == schedule
  {
  }

  /** Nothing but the transaction itself moves. */
  ghost predicate OthersSame(s: State, s': State, id: TxId) {
    s'.committed == s.committed && s'.history == s.history && s'.open - {id} == s.open - {id}
  }

  lemma {:induction false} StatementsLeaveOthers(schedule: seq<Action>, id: TxId, k: nat)
    ensures OthersSame(Run(schedule), Run(schedule + Statements(id, k)), id)
    decreases k
  {
    if k == 0 {
      NoStatement(schedule, id);
    } else {
      StatementsLeaveOthers(schedule, id, k - 1);
      NextStatement(schedule, id, k - 1);
    }
  }

  /** No other transaction has locked a row that the operation asks for. */
  ghost predicate Unlocked(s: State, id: TxId, op: Op) {
    if op.AddStock? then LockFree(s, id, op.product)
    else forall i | 0 <= i < |op.items| :: LockFree(s, id, op.items[i].product)
  }

  lemma UnlockedStays(s: State, s': State, id: TxId, op: Op)
    requires Unlocked(s, id, op) && OthersSame(s, s', id)
    ensures Unlocked(s', id, op)
  {
    forall p | LockFree(s, id, p) ensures LockFree(s', id, p) {
      forall j | j in s'.open && j != id ensures p !in s'.open[j].locked {
        assert j in s'.open - {id} && (s'.open - {id})[j] == (s.open - {id})[j];
      }
    }
  }

  /******* One line *******/

  /** At the start of line `n`, all lines before it done. */
  ghost predicate AtLine(s: State, id: TxId, op: Op, n: nat) {
    id in s.open && s.open[id].op == op && s.open[id].pos == n && s.open[id].phase == AtExists && TxOk(s.committed, s.open[id])
  }

  /** What the line meets: its row as it is committed, and no reservation yet. */
  ghost predicate LineFits(c: Tables, o: OrderId, item: Item) {
    && Key(o, item.product) !in c.reservations && item.product in c.inventory
    && 0 < item.quantity <= c.inventory[item.product].available && c.inventory[item.product].reserved >= 0
  }

  /** The transaction in state `tx`, everything else as it was. */
  function With(s: State, id: TxId, tx: Tx): State {
    s.(open := s.open[id := tx])
  }

  lemma Advances(s: State, id: TxId, tx: Tx, tx': Tx)
    requires Next(With(s, id, tx), id) == Advance(tx')
    ensures Step(With(s, id, tx), Statement(id)) == With(s, id, tx')
  {
  }

  lemma CheckNext(s: State, id: TxId, tx: Tx)
    requires tx.op.Reserve? && tx.pos < |tx.op.items| && tx.phase == AtExists
    ensures Next(With(s, id, tx), id) ==
            if Key(tx.op.order, tx.op.items[tx.pos].product) in View(s.committed, tx).reservations then Advance(tx.(pos := tx.pos + 1))
            else Advance(tx.(phase := AtLock))
  {
    assert With(s, id, tx).open[id] == tx;
  }

  lemma LockNext(s: State, id: TxId, tx: Tx, item: Item)
    requires tx.op.Reserve? && tx.pos < |tx.op.items| && tx.op.items[tx.pos] == item && tx.phase == AtLock
    requires LockFree(s, id, item.product)
    requires item.product in View(s.committed, tx).inventory && View(s.committed, tx).inventory[item.product].available >= item.quantity
    ensures Next(With(s, id, tx), id) == Advance(tx.(phase := AtUpdate, locked := tx.locked + {item.product}))
  {
    assert With(s, id, tx).open[id] == tx;
    assert LockFree(With(s, id, tx), id, item.product);
  }

  lemma UpdateNext(s: State, id: TxId, tx: Tx, item: Item, row: Row)
    requires tx.op.Reserve? && tx.pos < |tx.op.items| && tx.op.items[tx.pos] == item && tx.phase == AtUpdate
    requires item.product in View(s.committed, tx).inventory && View(s.committed, tx).inventory[item.product] == row
    requires 0 <= item.quantity <= row.available && row.reserved >= 0
    ensures Next(With(s, id, tx), id) == Advance(tx.(phase := AtInsert, rows := tx.rows[item.product := Taken(row, item.quantity)]))
  {
    assert With(s, id, tx).open[id] == tx;
  }

  lemma InsertNext(s: State, id: TxId, tx: Tx, item: Item)
    requires tx.op.Reserve? && tx.pos < |tx.op.items| && tx.op.items[tx.pos] == item && tx.phase == AtInsert
    requires item.quantity > 0 && Key(tx.op.order, item.product) !in View(s.committed, tx).reservations
    ensures Next(With(s, id, tx), id) ==
            Advance(tx.(pos := tx.pos + 1, phase := AtExists, inserts := tx.inserts[Key(tx.op.order, item.product) := item.quantity]))
  {
    assert With(s, id, tx).open[id] == tx;
  }

  /** After the EXISTS check: lock, update, insert. */
  lemma LineRuns(s: State, id: TxId, tx: Tx, item: Item, demand: map<ProductId, int>) returns (tx': Tx)
    requires tx.op.Reserve? && tx.pos < |tx.op.items| && tx.op.items[tx.pos] == item
    requires tx.phase == AtLock && WritesOk(s.committed, tx, demand) && item.product !in demand
    requires LineFits(s.committed, tx.op.order, item) && LockFree(s, id, item.product)
    ensures tx'.op == tx.op && tx'.pos == tx.pos + 1 && tx'.phase == AtExists
    ensures var s1 := Step(With(s, id, tx), Statement(id));
            var s2 := Step(s1, Statement(id));
            Step(s2, Statement(id)) == With(s, id, tx')
  {
    var p, c := item.product, s.committed;
    ViewOfRow(c, tx, demand, p);
    HeldInView(c, tx, demand, p);
    var locked := tx.(phase := AtUpdate, locked := tx.locked + {p});
    LockNext(s, id, tx, item);
    Advances(s, id, tx, locked);
    var updated := locked.(phase := AtInsert, rows := locked.rows[p := Taken(c.inventory[p], item.quantity)]);
    UpdateNext(s, id, locked, item, c.inventory[p]);
    Advances(s, id, locked, updated);
    tx' := updated.(pos := tx.pos + 1, phase := AtExists, inserts := tx.inserts[Key(tx.op.order, p) := item.quantity]);
    InsertNext(s, id, updated, item);
    Advances(s, id, updated, tx');
  }

  lemma ItselfInside(s: State, id: TxId)
    requires id in s.open
    ensures With(s, id, s.open[id]) == s
  {
  }

  lemma HeldLineAdvances(s: State, id: TxId, op: Op, n: nat)
    requires op.Reserve? && n < |op.items| && AtLine(s, id, op, n)
    requires Key(op.order, op.items[n].product) in View(s.committed, s.open[id]).reservations
    ensures AtLine(Step(s, Statement(id)), id, op, n + 1)
  {
    var tx := s.open[id];
    CheckKeeps(s.committed, tx);
    ItselfInside(s, id);
    CheckNext(s, id, tx);
    Advances(s, id, tx, tx.(pos := n + 1));
  }

  lemma NewLineAdvances(s: State, id: TxId, op: Op, n: nat)
    requires Inv(s) && op.Reserve? && n < |op.items| && AtLine(s, id, op, n) && Unlocked(s, id, op)
    requires Key(op.order, op.items[n].product) !in View(s.committed, s.open[id]).reservations
    requires LineFits(s.committed, op.order, op.items[n])
    ensures var s1 := Step(s, Statement(id));
            var s2 := Step(s1, Statement(id));
            var s3 := Step(s2, Statement(id));
            AtLine(Step(s3, Statement(id)), id, op, n + 1)
  {
    var tx := s.open[id];
    var locking := tx.(phase := AtLock);
    CheckKeeps(s.committed, tx);
    ItselfInside(s, id);
    CheckNext(s, id, tx);
    Advances(s, id, tx, locking);
    assert Step(s, Statement(id)) == With(s, id, locking);
    var tx' := LineRuns(s, id, locking, op.items[n], Demand(op.items[..n]));
    FourKeep(s, id);
  }

  lemma FourKeep(s: State, id: TxId)
    requires Inv(s)
    ensures var s1 := Step(s, Statement(id));
            var s2 := Step(s1, Statement(id));
            var s3 := Step(s2, Statement(id));
            Inv(Step(s3, Statement(id)))
  {
    var s1 := Step(s, Statement(id));
    var s2 := Step(s1, Statement(id));
    var s3 := Step(s2, Statement(id));
    StepKeeps(s, Statement(id));
    StepKeeps(s1, Statement(id));
    StepKeeps(s2, Statement(id));
    StepKeeps(s3, Statement(id));
  }

  /** After `k` more statements the transaction is at the start of line `n`. */
  ghost predicate Reaches(s: State, id: TxId, op: Op, k: nat, n: nat)
    decreases k
  {
    if k == 0 then AtLine(s, id, op, n) else Reaches(Step(s, Statement(id)), id, op, k - 1, n)
  }

  ghost predicate Reachable(s: State, id: TxId, op: Op, n: nat) {
    exists k: nat :: Reaches(s, id, op, k, n)
  }

  lemma ReachableAfter(s: State, id: TxId, op: Op, n: nat)
    requires Reachable(Step(s, Statement(id)), id, op, n)
    ensures Reachable(s, id, op, n)
  {
    var k: nat :| Reaches(Step(s, Statement(id)), id, op, k, n);
    assert Reaches(s, id, op, k + 1, n);
  }

  lemma ReachableNow(s: State, id: TxId, op: Op, n: nat)
    requires AtLine(s, id, op, n)
    ensures Reachable(s, id, op, n)
  {
    assert Reaches(s, id, op, 0, n);
  }

  /** From the start of a line that the sequential transaction gets past to the start of the next one. */
  lemma LineAdvances(s: State, id: TxId, op: Op, n: nat, next: nat)
    requires Inv(s) && op.Reserve? && next == n + 1 <= |op.items| && AtLine(s, id, op, n) && Unlocked(s, id, op)
    requires ReserveItems(s.committed, op.order, op.items[..next]).Success?
    ensures Reachable(s, id, op, next)
  {
    var s1 := Step(s, Statement(id));
    if Key(op.order, op.items[n].product) in View(s.committed, s.open[id]).reservations {
      HeldLineAdvances(s, id, op, n);
      ReachableNow(s1, id, op, next);
    } else {
      HeldInView(s.committed, s.open[id], Demand(op.items[..n]), op.items[n].product);
      LineMeets(s.committed, op.order, op.items, n, Demand(op.items[..n]));
      NewLineAdvances(s, id, op, n);
      ThreeMore(s1, id, op, next);
    }
    ReachableAfter(s, id, op, next);
  }

  lemma ThreeMore(s: State, id: TxId, op: Op, n: nat)
    requires AtLine(Step(Step(Step(s, Statement(id)), Statement(id)), Statement(id)), id, op, n)
    ensures Reachable(s, id, op, n)
  {
    var s1 := Step(s, Statement(id));
    var s2 := Step(s1, Statement(id));
    ReachableNow(Step(s2, Statement(id)), id, op, n);
    ReachableAfter(s2, id, op, n);
    ReachableAfter(s1, id, op, n);
    ReachableAfter(s, id, op, n);
  }

  lemma LineMeets(c: Tables, o: OrderId, items: seq<Item>, n: nat, demand: map<ProductId, int>)
    requires ChecksHold(c) && n < |items| && demand == Demand(items[..n]) && InStock(c, Unheld(c, o, demand))
    requires ReserveItems(c, o, items[..n + 1]).Success?
    requires items[n].product !in demand && Key(o, items[n].product) !in c.reservations
    ensures LineFits(c, o, items[n])
  {
    PrefixMoves(c, o, items, n, demand);
    MoveFrame(c, o, Unheld(c, o, demand), items[n].product);
  }

  /******* A whole transaction *******/

  lemma PrefixSucceeds(t: Tables, o: OrderId, items: seq<Item>, n: nat)
    requires n <= |items| && ReserveItems(t, o, items).Success?
    ensures ReserveItems(t, o, items[..n]).Success?
  {
    if ReserveItems(t, o, items[..n]).Failure? {
      FailureSpreads(t, o, items, n);
    }
  }

  /** What a statement leaves for the next one. */
  ghost predicate Ready(s: State, id: TxId, op: Op, c: Tables) {
    Inv(s) && Unlocked(s, id, op) && s.committed == c
  }

  lemma StaysReady(s: State, id: TxId, op: Op, c: Tables)
    requires Ready(s, id, op, c)
    ensures Ready(Step(s, Statement(id)), id, op, c)
  {
    StepKeeps(s, Statement(id));
    UnlockedStays(s, Step(s, Statement(id)), id, op);
  }

  lemma {:induction false} LineReached(s: State, id: TxId, op: Op, n: nat, next: nat, c: Tables, k: nat)
    requires Ready(s, id, op, c) && op.Reserve? && n < |op.items| && Reaches(s, id, op, k, n) && next == n + 1
    requires ReserveItems(c, op.order, op.items).Success?
    ensures Reachable(s, id, op, next)
    decreases k
  {
    if k == 0 {
      PrefixSucceeds(c, op.order, op.items, next);
      LineAdvances(s, id, op, n, next);
    } else {
      StaysReady(s, id, op, c);
      LineReached(Step(s, Statement(id)), id, op, n, next, c, k - 1);
      ReachableAfter(s, id, op, next);
    }
  }

  lemma OneLineMore(s: State, id: TxId, op: Op, n: nat, next: nat, c: Tables)
    requires Ready(s, id, op, c) && op.Reserve? && next == n + 1 <= |op.items| && Reachable(s, id, op, n)
    requires ReserveItems(c, op.order, op.items).Success?
    ensures Reachable(s, id, op, next)
  {
    var k: nat :| Reaches(s, id, op, k, n);
    LineReached(s, id, op, n, next, c, k);
  }

  lemma {:induction false} LinesAdvance(s: State, id: TxId, op: Op, n: nat, c: Tables)
    requires Ready(s, id, op, c) && op.Reserve? && n <= |op.items| && Reachable(s, id, op, 0)
    requires ReserveItems(c, op.order, op.items).Success?
    ensures Reachable(s, id, op, n)
    decreases n
  {
    if n > 0 {
      LinesAdvance(s, id, op, n - 1, c);
      OneLineMore(s, id, op, n - 1, n, c);
    }
  }

  lemma {:induction false} ReachesRun(schedule: seq<Action>, id: TxId, op: Op, k: nat, n: nat)
    requires Reaches(Run(schedule), id, op, k, n)
    ensures AtLine(Run(schedule + Statements(id, k)), id, op, n)
    decreases k
  {
    if k == 0 {
      NoStatement(schedule, id);
    } else {
      Then(schedule, Statement(id));
      ReachesRun(schedule + [Statement(id)], id, op, k - 1, n);
      assert schedule + [Statement(id)] + Statements(id, k - 1) == schedule + Statements(id, k);
    }
  }

  lemma StockAdvances(s: State, id: TxId, op: Op)
    requires op.AddStock? && id in s.open && s.open[id] == Start(op) && Unlocked(s, id, op) && op.quantity >= 0
    ensures var t := Step(s, Statement(id)); id in t.open && t.open[id].pos == 1 && t.open[id].op == op
  {
  }

  /** The transaction on its own: begin, some statements, and the end. */
  function Alone(id: TxId, op: Op, k: nat, end: Action): seq<Action> {
    [Begin(id, op)] + Statements(id, k) + [end]
  }

  /** The state in which the operation has been committed and nothing else has changed. */
  ghost predicate Done(s: State, s': State, op: Op) {
    ApplyOp(s.committed, op) == Success(s'.committed) && s'.history == s.history + [op] && s'.open == s.open
  }

  lemma RunAlone(schedule: seq<Action>, id: TxId, op: Op, k: nat, end: Action)
    ensures Run(schedule + Alone(id, op, k, end)) == Step(Run(schedule + [Begin(id, op)] + Statements(id, k)), end)
  {
    Then(schedule + [Begin(id, op)] + Statements(id, k), end);
    assert schedule + [Begin(id, op)] + Statements(id, k) + [end] == schedule + Alone(id, op, k, end);
  }

  lemma WithoutNew(open: map<TxId, Tx>, id: TxId, tx: Tx)
    requires id !in open
    ensures open[id := tx] - {id} == open
  {
  }

  lemma StartsReady(s: State, id: TxId, op: Op)
    requires Inv(s) && id !in s.open && Unlocked(s, id, op)
    ensures var t := Step(s, Begin(id, op));
            Ready(t, id, op, s.committed) && t.open == s.open[id := Start(op)] && t.history == s.history && TxOk(s.committed, Start(op))
  {
    BeginKeeps(s, id, op);
    var t := Step(s, Begin(id, op));
    assert t.open - {id} == s.open - {id};
    UnlockedStays(s, t, id, op);
    assert t.open[id] == Start(op);
  }

  /** Enough statements bring the transaction to its end, if it succeeds sequentially. */
  lemma ReachesEnd(begun: seq<Action>, id: TxId, op: Op) returns (k: nat)
    requires var s := Run(begun); Ready(s, id, op, s.committed) && id in s.open && s.open[id] == Start(op) && TxOk(s.committed, Start(op))
    requires ApplyOp(Run(begun).committed, op).Success?
    ensures var t := Run(begun + Statements(id, k)); id in t.open && t.open[id].op == op && t.open[id].pos == Length(op)
  {
    var s := Run(begun);
    if op.Reserve? {
      ReachableNow(s, id, op, 0);
      LinesAdvance(s, id, op, |op.items|, s.committed);
      k :| Reaches(s, id, op, k, |op.items|);
      ReachesRun(begun, id, op, k, |op.items|);
    } else {
      StockAdvances(s, id, op);
      NoStatement(begun, id);
      NextStatement(begun, id, 0);
      k := 1;
    }
  }

  lemma EndsDone(s: State, t: State, id: TxId, op: Op)
    requires Inv(t) && id !in s.open && t.committed == s.committed && t.history == s.history && t.open - {id} == s.open
    requires id in t.open && t.open[id].op == op && t.open[id].pos == Length(op)
    ensures Done(s, Step(t, Commit(id)), op)
  {
    CommitIsSequential(t.committed, t.open[id]);
  }

  lemma Finishes(schedule: seq<Action>, id: TxId, op: Op) returns (k: nat)
    requires id !in Run(schedule).open && Unlocked(Run(schedule), id, op) && ApplyOp(Run(schedule).committed, op).Success?
    ensures Done(Run(schedule), Run(schedule + Alone(id, op, k, Commit(id))), op)
  {
    var s, begun := Run(schedule), schedule + [Begin(id, op)];
    RunKeeps(schedule);
    StartsReady(s, id, op);
    Then(schedule, Begin(id, op));
    k := ReachesEnd(begun, id, op);
    StatementsLeaveOthers(begun, id, k);
    RunKeeps(begun + Statements(id, k));
    WithoutNew(s.open, id, Start(op));
    EndsDone(s, Run(begun + Statements(id, k)), id, op);
    RunAlone(schedule, id, op, k, Commit(id));
  }

  /** In every reachable state, for any operation whose rows no open transaction has locked: some number of
      its statements, run on their own, commits its sequential outcome if and only if it has one. */
  lemma AloneExactly(schedule: seq<Action>, id: TxId, op: Op)
    requires id !in Run(schedule).open && Unlocked(Run(schedule), id, op)
    ensures (exists k: nat :: Done(Run(schedule), Run(schedule + Alone(id, op, k, Commit(id))), op)) <==>
            ApplyOp(Run(schedule).committed, op).Success?
  {
    if ApplyOp(Run(schedule).committed, op).Success? {
      var k := Finishes(schedule, id, op);
    }
  }

  /** However far it got, an aborted transaction leaves everything as it was. */
  lemma AbortLeavesNothing(schedule: seq<Action>, id: TxId, op: Op, k: nat)
    requires id !in Run(schedule).open
    ensures Run(schedule + Alone(id, op, k, Abort(id))) == Run(schedule)
  {
    Then(schedule, Begin(id, op));
    WithoutNew(Run(schedule).open, id, Start(op));
    StatementsLeaveOthers(schedule + [Begin(id, op)], id, k);
    RunAlone(schedule, id, op, k, Abort(id));
  }
}
