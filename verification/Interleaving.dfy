/**
 The same transactions interleaved statement by statement under Read Committed isolation
 (PostgreSQL documentation, section 13.2.1, with the row locks of section 13.3.2).

 A statement sees the committed tables and the transaction's own writes.  `SELECT ... FOR UPDATE` and
 the upsert wait while another open transaction holds the row.  The EXISTS check takes no lock, so it
 may be stale when the row lock is granted; the unique constraint catches that.  The INSERT step does
 not look at the uncommitted rows of other transactions: `NoConcurrentDuplicate` proves that it need not.

 A schedule is any sequence of actions; an action that cannot be taken leaves the state as it is.
 */
module Interleaving {
  import opened Basics
  import opened Inventory

  type TxId = nat

  datatype Phase = AtExists | AtLock | AtUpdate | AtInsert

  /** An open transaction: its operation, the statement it will run next, the rows it has locked and
      the row versions and reservations it has written but not committed. */
  datatype Tx = Tx(op: Op, pos: nat, phase: Phase, locked: set<ProductId>,
                   rows: map<ProductId, Row>, inserts: map<Key, int>)

  datatype State = State(committed: Tables, open: map<TxId, Tx>, history: seq<Op>)

  datatype Action = Begin(id: TxId, op: Op) | Statement(id: TxId) | Commit(id: TxId) | Abort(id: TxId)

  datatype Effect = Advance(tx: Tx) | Fail(error: Error) | Blocked

  const INITIAL := State(EMPTY, map[], [])

  /** What a transaction sees: its own writes over the committed tables. */
  function View(c: Tables, tx: Tx): Tables {
    Tables(c.inventory + tx.rows, c.reservations + tx.inserts)
  }

  predicate LockFree(s: State, id: TxId, p: ProductId) {
    forall j | j in s.open && j != id :: p !in s.open[j].locked
  }

  function Length(op: Op): nat {
    if op.Reserve? then |op.items| else 1
  }

  /** The next statement of an open transaction. */
  function Next(s: State, id: TxId): Effect
    requires id in s.open
  {
    var tx := s.open[id];
    if tx.pos >= Length(tx.op) then Blocked
    else if tx.op.AddStock? then Upsert(s, id, tx)
    else
      var key := Key(tx.op.order, tx.op.items[tx.pos].product);
      match tx.phase
      case AtExists =>
        if key in View(s.committed, tx).reservations then Advance(tx.(pos := tx.pos + 1))
        else Advance(tx.(phase := AtLock))
      case AtLock => LockAndRead(s, id, tx, tx.op.items[tx.pos])
      case AtUpdate => UpdateRow(s, tx, tx.op.items[tx.pos])
      case AtInsert => InsertReservation(s, tx, key, tx.op.items[tx.pos].quantity)
  }

  function Upsert(s: State, id: TxId, tx: Tx): Effect
    requires tx.op.AddStock?
  {
    var p := tx.op.product;
    if tx.op.quantity < 0 then Fail(CheckViolation)
    else if !LockFree(s, id, p) then Blocked
    else Advance(tx.(pos := 1, locked := {p}, rows := map[p := Restocked(s.committed, p, tx.op.quantity)]))
  }

  function LockAndRead(s: State, id: TxId, tx: Tx, item: Item): Effect {
    var view := View(s.committed, tx);
    if item.product !in view.inventory then Fail(NotFound)
    else if !LockFree(s, id, item.product) then Blocked
    else if view.inventory[item.product].available < item.quantity then Fail(InsufficientStock)
    else Advance(tx.(phase := AtUpdate, locked := tx.locked + {item.product}))
  }

  function UpdateRow(s: State, tx: Tx, item: Item): Effect {
    var p, q, view := item.product, item.quantity, View(s.committed, tx);
    if p !in view.inventory then Fail(NotFound)
    else
      var row := view.inventory[p];
      if row.available - q < 0 || row.reserved + q < 0 then Fail(CheckViolation)
      else Advance(tx.(phase := AtInsert, rows := tx.rows[p := Taken(row, q)]))
  }

  function InsertReservation(s: State, tx: Tx, key: Key, q: int): Effect {
    if q <= 0 then Fail(CheckViolation)
    else if key in View(s.committed, tx).reservations then Fail(UniqueViolation)
    else Advance(tx.(pos := tx.pos + 1, phase := AtExists, inserts := tx.inserts[key := q]))
  }

  function Start(op: Op): Tx {
    Tx(op, 0, AtExists, {}, map[], map[])
  }

  function Close(s: State, id: TxId): State {
    s.(open := s.open - {id})
  }

  function Step(s: State, a: Action): State {
    match a
    case Begin(id, op) => if id in s.open then s else s.(open := s.open[id := Start(op)])
    case Statement(id) =>
      if id !in s.open then s
      else
        var e := Next(s, id);
        (match e
         case Advance(tx) => s.(open := s.open[id := tx])
         case Fail(_) => Close(s, id)
         case Blocked => s)
    case Commit(id) =>
      if id in s.open && s.open[id].pos == Length(s.open[id].op) then
        State(View(s.committed, s.open[id]), s.open - {id}, s.history + [s.open[id].op])
      else s
    case Abort(id) => Close(s, id)
  }

  function Run(schedule: seq<Action>): State {
    if schedule == [] then INITIAL
    else Step(Run(schedule[..|schedule| - 1]), schedule[|schedule| - 1])
  }

  /******* The invariant *******/

  /** What an open transaction has written is what the sequential transaction would write over the
      tables committed now. */
  ghost predicate TxOk(c: Tables, tx: Tx) {
    && tx.rows.Keys <= tx.locked
    && (forall k | k in tx.inserts :: k.product in tx.locked)
    && (if tx.op.Reserve? then ReserveOk(c, tx) else StockOk(c, tx))
  }

  ghost predicate StockOk(c: Tables, tx: Tx)
    requires tx.op.AddStock?
  {
    && tx.inserts == map[]
    && (tx.pos == 0 || tx.pos == 1)
    && (tx.pos == 0 ==> tx.rows == map[])
    && (tx.pos == 1 ==> tx.op.quantity >= 0 && tx.op.product in tx.locked
                        && tx.rows == map[tx.op.product := Restocked(c, tx.op.product, tx.op.quantity)])
  }

  /** `demand` is what the finished lines ask for; the part the order did not hold before is what the
      transaction has written. */
  ghost predicate ReserveOk(c: Tables, tx: Tx)
    requires tx.op.Reserve?
  {
    && tx.pos <= |tx.op.items|
    && tx.locked <= c.inventory.Keys
    && WritesOk(c, tx, Demand(tx.op.items[..tx.pos]))
    && (tx.phase == AtExists ||
          (tx.pos < |tx.op.items| && LineOk(c, tx, tx.op.items[tx.pos], Demand(tx.op.items[..tx.pos]))))
  }

  ghost predicate WritesOk(c: Tables, tx: Tx, demand: map<ProductId, int>)
    requires tx.op.Reserve?
  {
    var served := Unheld(c, tx.op.order, demand);
    && InStock(c, served)
    && tx.inserts == NewKeys(tx.op.order, served)
    && (tx.phase == AtInsert || tx.rows == MovedRows(c.inventory, served))
  }

  /** The line a transaction is in the middle of. */
  ghost predicate LineOk(c: Tables, tx: Tx, item: Item, demand: map<ProductId, int>)
    requires tx.op.Reserve?
  {
    var p, q := item.product, item.quantity;
    && p !in demand
    && (tx.phase != AtLock ==> p in tx.locked && p in c.inventory && c.inventory[p].available >= q)
    && (tx.phase == AtInsert ==>
          && c.inventory[p].reserved + q >= 0
          && tx.rows == MovedRows(c.inventory, Unheld(c, tx.op.order, demand))[p := Taken(c.inventory[p], q)])
  }

  ghost predicate LocksDisjoint(s: State) {
    forall i, j | i in s.open && j in s.open && i != j :: s.open[i].locked !! s.open[j].locked
  }

  ghost predicate Serial(s: State) {
    && s.committed == RunOps(EMPTY, s.history)
    && (forall n | 0 <= n < |s.history| :: ApplyOp(RunOps(EMPTY, s.history[..n]), s.history[n]).Success?)
  }

  ghost predicate Inv(s: State) {
    && ChecksHold(s.committed)
    && Serial(s)
    && LocksDisjoint(s)
    && (forall i | i in s.open :: TxOk(s.committed, s.open[i]))
  }

  /******* A statement keeps the invariant of its own transaction *******/

  lemma HeldInView(c: Tables, tx: Tx, demand: map<ProductId, int>, p: ProductId)
    requires tx.op.Reserve? && WritesOk(c, tx, demand)
    ensures p in demand ==> Key(tx.op.order, p) in View(c, tx).reservations
    ensures p !in demand ==>
              (Key(tx.op.order, p) in View(c, tx).reservations <==> Key(tx.op.order, p) in c.reservations)
  {
    var served := Unheld(c, tx.op.order, demand);
    assert Key(tx.op.order, p) in NewKeys(tx.op.order, served) <==> p in served;
  }

  lemma SkipKeeps(c: Tables, tx: Tx, tx': Tx, before: map<ProductId, int>, after: map<ProductId, int>)
    requires tx.op.Reserve? && WritesOk(c, tx, before) && tx.phase == AtExists
    requires Unheld(c, tx.op.order, after) == Unheld(c, tx.op.order, before)
    requires tx' == tx.(pos := tx'.pos, phase := tx'.phase)
    ensures WritesOk(c, tx', after)
  {
  }

  lemma ExistsKeeps(c: Tables, tx: Tx, item: Item, before: map<ProductId, int>, after: map<ProductId, int>)
    requires tx.op.Reserve? && tx.phase == AtExists && WritesOk(c, tx, before)
    requires after == if item.product in before then before else before[item.product := item.quantity]
    ensures Key(tx.op.order, item.product) in View(c, tx).reservations ==> WritesOk(c, tx.(pos := tx.pos + 1), after)
    ensures Key(tx.op.order, item.product) !in View(c, tx).reservations ==>
              WritesOk(c, tx.(phase := AtLock), before) && LineOk(c, tx.(phase := AtLock), item, before)
  {
    HeldInView(c, tx, before, item.product);
    if Key(tx.op.order, item.product) in View(c, tx).reservations {
      if item.product !in before {
        UnheldStep(c, tx.op.order, before, item.product, item.quantity);
      }
      SkipKeeps(c, tx, tx.(pos := tx.pos + 1), before, after);
    } else {
      SkipKeeps(c, tx, tx.(phase := AtLock), before, before);
    }
  }

  lemma CheckKeeps(c: Tables, tx: Tx)
    requires tx.op.Reserve? && TxOk(c, tx) && tx.phase == AtExists && tx.pos < |tx.op.items|
    ensures Key(tx.op.order, tx.op.items[tx.pos].product) in View(c, tx).reservations ==> TxOk(c, tx.(pos := tx.pos + 1))
    ensures Key(tx.op.order, tx.op.items[tx.pos].product) !in View(c, tx).reservations ==> TxOk(c, tx.(phase := AtLock))
  {
    var before, after := Demand(tx.op.items[..tx.pos]), Demand(tx.op.items[..tx.pos + 1]);
    DemandStep(tx.op.items, tx.pos);
    ExistsKeeps(c, tx, tx.op.items[tx.pos], before, after);
    if Key(tx.op.order, tx.op.items[tx.pos].product) in View(c, tx).reservations {
      AtLineStart(c, tx.(pos := tx.pos + 1), after);
    } else {
      InsideLine(c, tx.(phase := AtLock), before);
    }
  }

  lemma AtLineStart(c: Tables, tx: Tx, demand: map<ProductId, int>)
    requires tx.op.Reserve? && tx.phase == AtExists && tx.pos <= |tx.op.items| && demand == Demand(tx.op.items[..tx.pos])
    requires tx.rows.Keys <= tx.locked <= c.inventory.Keys && WritesOk(c, tx, demand)
    requires forall k | k in tx.inserts :: k.product in tx.locked
    ensures TxOk(c, tx)
  {
  }

  lemma InsideLine(c: Tables, tx: Tx, demand: map<ProductId, int>)
    requires tx.op.Reserve? && tx.pos < |tx.op.items| && demand == Demand(tx.op.items[..tx.pos])
    requires tx.rows.Keys <= tx.locked <= c.inventory.Keys && WritesOk(c, tx, demand) && LineOk(c, tx, tx.op.items[tx.pos], demand)
    requires forall k | k in tx.inserts :: k.product in tx.locked
    ensures TxOk(c, tx)
  {
  }

  lemma ViewOfRow(c: Tables, tx: Tx, demand: map<ProductId, int>, p: ProductId)
    requires tx.op.Reserve? && WritesOk(c, tx, demand) && tx.phase != AtInsert && p !in demand
    ensures p in View(c, tx).inventory <==> p in c.inventory
    ensures p in c.inventory ==> View(c, tx).inventory[p] == c.inventory[p]
  {
    assert p !in tx.rows;
  }

  lemma LockKeeps(s: State, id: TxId, tx: Tx)
    requires tx.op.Reserve? && TxOk(s.committed, tx) && tx.phase == AtLock
    ensures var e := LockAndRead(s, id, tx, tx.op.items[tx.pos]); e.Advance? ==> TxOk(s.committed, e.tx)
  {
    ViewOfRow(s.committed, tx, Demand(tx.op.items[..tx.pos]), tx.op.items[tx.pos].product);
  }

  lemma UpdateWrites(c: Tables, tx: Tx, tx': Tx, item: Item, demand: map<ProductId, int>)
    requires tx.op.Reserve? && tx.phase == AtUpdate && WritesOk(c, tx, demand) && LineOk(c, tx, item, demand)
    requires c.inventory[item.product].reserved + item.quantity >= 0
    requires tx' == tx.(phase := AtInsert, rows := tx.rows[item.product := Taken(c.inventory[item.product], item.quantity)])
    ensures WritesOk(c, tx', demand) && LineOk(c, tx', item, demand)
  {
  }

  lemma UpdateKeeps(s: State, tx: Tx)
    requires tx.op.Reserve? && TxOk(s.committed, tx) && tx.phase == AtUpdate
    ensures var e := UpdateRow(s, tx, tx.op.items[tx.pos]); e.Advance? ==> TxOk(s.committed, e.tx)
  {
    var item, demand := tx.op.items[tx.pos], Demand(tx.op.items[..tx.pos]);
    ViewOfRow(s.committed, tx, demand, item.product);
    var e := UpdateRow(s, tx, item);
    if e.Advance? {
      UpdateWrites(s.committed, tx, e.tx, item, demand);
    }
  }

  lemma InsertKeeps(s: State, tx: Tx)
    requires tx.op.Reserve? && TxOk(s.committed, tx) && tx.phase == AtInsert
    ensures var item := tx.op.items[tx.pos];
            var e := InsertReservation(s, tx, Key(tx.op.order, item.product), item.quantity);
            e.Advance? ==> TxOk(s.committed, e.tx)
  {
    var items, n := tx.op.items, tx.pos;
    var before := Demand(items[..n]);
    DemandStep(items, n);
    var e := InsertReservation(s, tx, Key(tx.op.order, items[n].product), items[n].quantity);
    if e.Advance? {
      InsertWrites(s.committed, tx, e.tx, items[n], before);
    }
  }

  lemma InsertWrites(c: Tables, tx: Tx, tx': Tx, item: Item, demand: map<ProductId, int>)
    requires tx.op.Reserve? && tx.phase == AtInsert && WritesOk(c, tx, demand) && LineOk(c, tx, item, demand)
    requires item.quantity > 0 && Key(tx.op.order, item.product) !in c.reservations
    requires tx' == tx.(pos := tx.pos + 1, phase := AtExists, inserts := tx.inserts[Key(tx.op.order, item.product) := item.quantity])
    ensures WritesOk(c, tx', demand[item.product := item.quantity])
  {
    var p, q := item.product, item.quantity;
    var served := Unheld(c, tx.op.order, demand);
    UnheldStep(c, tx.op.order, demand, p, q);
    InStockStep(c, served, p, q);
    MovedRowsStep(c.inventory, served, p, q);
    NewKeysStep(tx.op.order, served, p, q);
  }

  lemma UpsertKeeps(s: State, id: TxId, tx: Tx)
    requires tx.op.AddStock? && TxOk(s.committed, tx)
    ensures var e := Upsert(s, id, tx); tx.pos == 0 && e.Advance? ==> TxOk(s.committed, e.tx)
  {
  }

  lemma NextKeeps(s: State, id: TxId)
    requires id in s.open && TxOk(s.committed, s.open[id])
    ensures Next(s, id).Advance? ==> TxOk(s.committed, Next(s, id).tx)
  {
    var tx := s.open[id];
    if tx.pos < Length(tx.op) {
      if tx.op.AddStock? {
        UpsertKeeps(s, id, tx);
      } else {
        ReserveKeeps(s, id, tx);
      }
    }
  }

  lemma ReserveKeeps(s: State, id: TxId, tx: Tx)
    requires id in s.open && s.open[id] == tx && tx.op.Reserve? && tx.pos < |tx.op.items| && TxOk(s.committed, tx)
    ensures Next(s, id).Advance? ==> TxOk(s.committed, Next(s, id).tx)
  {
    match tx.phase
    case AtExists => CheckKeeps(s.committed, tx);
    case AtLock => LockKeeps(s, id, tx);
    case AtUpdate => UpdateKeeps(s, tx);
    case AtInsert => InsertKeeps(s, tx);
  }

  /******* A commit leaves the other open transactions valid *******/

  /** The committed tables changed outside a set of locked rows, and only by growing. */
  ghost predicate Untouched(c: Tables, c': Tables, locked: set<ProductId>) {
    && c.inventory.Keys <= c'.inventory.Keys
    && c.reservations.Keys <= c'.reservations.Keys
    && (forall p | p in locked && p in c'.inventory :: p in c.inventory && c'.inventory[p] == c.inventory[p])
    && (forall k | k in c'.reservations && k.product in locked :: k in c.reservations)
  }

  lemma CommitLeavesOthers(c: Tables, tx: Tx, locked: set<ProductId>)
    requires TxOk(c, tx) && tx.locked !! locked
    ensures Untouched(c, View(c, tx), locked)
  {
  }

  lemma SameServed(c: Tables, c': Tables, tx: Tx, demand: map<ProductId, int>)
    requires tx.op.Reserve? && WritesOk(c, tx, demand) && Untouched(c, c', tx.locked)
    requires forall k | k in tx.inserts :: k.product in tx.locked
    ensures Unheld(c', tx.op.order, demand) == Unheld(c, tx.op.order, demand)
    ensures forall p | p in Unheld(c, tx.op.order, demand) :: p in tx.locked
  {
    var served := Unheld(c, tx.op.order, demand);
    forall p | p in served ensures p in tx.locked && Key(tx.op.order, p) !in c'.reservations {
      assert Key(tx.op.order, p) in NewKeys(tx.op.order, served);
    }
  }

  lemma SameRows(inventory: map<ProductId, Row>, inventory': map<ProductId, Row>, demand: map<ProductId, int>)
    requires forall p | p in demand :: p in inventory && p in inventory' && inventory'[p] == inventory[p]
    ensures MovedRows(inventory', demand) == MovedRows(inventory, demand)
  {
    var a, b := MovedRows(inventory, demand), MovedRows(inventory', demand);
    assert forall p :: p in a <==> p in demand;
    assert forall p :: p in b <==> p in demand;
    assert forall p | p in demand :: a[p] == b[p];
  }

  lemma WritesStay(c: Tables, c': Tables, tx: Tx, demand: map<ProductId, int>)
    requires tx.op.Reserve? && WritesOk(c, tx, demand) && Untouched(c, c', tx.locked)
    requires forall k | k in tx.inserts :: k.product in tx.locked
    ensures WritesOk(c', tx, demand)
    ensures MovedRows(c'.inventory, Unheld(c', tx.op.order, demand)) == MovedRows(c.inventory, Unheld(c, tx.op.order, demand))
  {
    var served := Unheld(c, tx.op.order, demand);
    SameServed(c, c', tx, demand);
    SameRows(c.inventory, c'.inventory, served);
  }

  lemma FrameKeeps(c: Tables, c': Tables, tx: Tx)
    requires TxOk(c, tx) && Untouched(c, c', tx.locked)
    ensures TxOk(c', tx)
  {
    if tx.op.Reserve? {
      var demand := Demand(tx.op.items[..tx.pos]);
      WritesStay(c, c', tx, demand);
      if tx.phase == AtExists {
        AtLineStart(c', tx, demand);
      } else {
        LineStays(c, c', tx, tx.op.items[tx.pos], demand);
        InsideLine(c', tx, demand);
      }
    }
  }

  lemma LineStays(c: Tables, c': Tables, tx: Tx, item: Item, demand: map<ProductId, int>)
    requires tx.op.Reserve? && LineOk(c, tx, item, demand) && Untouched(c, c', tx.locked)
    requires MovedRows(c'.inventory, Unheld(c', tx.op.order, demand)) == MovedRows(c.inventory, Unheld(c, tx.op.order, demand))
    ensures LineOk(c', tx, item, demand)
  {
  }

  /** A finished transaction commits what the sequential transaction would produce. */
  lemma CommitIsSequential(c: Tables, tx: Tx)
    requires ChecksHold(c) && TxOk(c, tx) && tx.pos == Length(tx.op)
    ensures ApplyOp(c, tx.op) == Success(View(c, tx))
    ensures ChecksHold(View(c, tx))
  {
    if tx.op.Reserve? {
      assert tx.op.items[..tx.pos] == tx.op.items;
      ExactOutcome(c, tx.op.order, tx.op.items);
    } else {
      assert c.inventory + tx.rows == c.inventory[tx.op.product := Restocked(c, tx.op.product, tx.op.quantity)];
      assert c.reservations + tx.inserts == c.reservations;
    }
    ApplyGrows(c, tx.op);
  }

  lemma CommitKeeps(s: State, id: TxId)
    requires Inv(s) && id in s.open && s.open[id].pos == Length(s.open[id].op)
    ensures Inv(Step(s, Commit(id)))
  {
    var tx, s' := s.open[id], Step(s, Commit(id));
    CommitIsSequential(s.committed, tx);
    assert s'.history[..|s.history|] == s.history;
    forall n | 0 <= n < |s'.history| ensures ApplyOp(RunOps(EMPTY, s'.history[..n]), s'.history[n]).Success? {
      if n < |s.history| {
        assert s'.history[..n] == s.history[..n];
      }
    }
    forall i | i in s'.open ensures TxOk(s'.committed, s'.open[i]) {
      CommitLeavesOthers(s.committed, tx, s.open[i].locked);
      FrameKeeps(s.committed, s'.committed, s.open[i]);
    }
  }

  /** A statement locks at most one more row, and only one that no other transaction holds. */
  lemma NextLocks(s: State, id: TxId)
    requires id in s.open && Next(s, id).Advance?
    ensures forall p | p in Next(s, id).tx.locked :: p in s.open[id].locked || LockFree(s, id, p)
  {
    var tx := s.open[id];
    if !tx.op.AddStock? && tx.phase.AtLock? {
      assert Next(s, id) == LockAndRead(s, id, tx, tx.op.items[tx.pos]);
    } else if !tx.op.AddStock? {
      assert Next(s, id).tx.locked == tx.locked;
    }
  }

  lemma StatementKeeps(s: State, id: TxId)
    requires Inv(s) && id in s.open
    ensures Inv(Step(s, Statement(id)))
  {
    if Next(s, id).Advance? {
      AdvanceKeeps(s, id, Next(s, id).tx);
    }
  }

  lemma AdvanceKeeps(s: State, id: TxId, tx: Tx)
    requires Inv(s) && id in s.open && Next(s, id) == Advance(tx)
    ensures Inv(s.(open := s.open[id := tx]))
  {
    NextKeeps(s, id);
    NextLocks(s, id);
    var s' := s.(open := s.open[id := tx]);
    forall j | j in s.open && j != id ensures tx.locked !! s.open[j].locked {}
    assert LocksDisjoint(s');
    assert Serial(s');
  }

  lemma BeginKeeps(s: State, id: TxId, op: Op)
    requires Inv(s) && id !in s.open
    ensures Inv(Step(s, Begin(id, op)))
  {
    var tx := Start(op);
    if op.Reserve? {
      assert Unheld(s.committed, op.order, Demand(op.items[..0])) == map[];
    }
    assert TxOk(s.committed, tx);
  }

  lemma StepKeeps(s: State, a: Action)
    requires Inv(s)
    ensures Inv(Step(s, a))
  {
    match a
    case Begin(id, op) => if id !in s.open { BeginKeeps(s, id, op); }
    case Statement(id) => if id in s.open { StatementKeeps(s, id); }
    case Commit(id) => if id in s.open && s.open[id].pos == Length(s.open[id].op) { CommitKeeps(s, id); }
    case Abort(id) =>
  }

  lemma {:induction false} RunKeeps(schedule: seq<Action>)
    ensures Inv(Run(schedule))
  {
    if schedule != [] {
      RunKeeps(schedule[..|schedule| - 1]);
      StepKeeps(Run(schedule[..|schedule| - 1]), schedule[|schedule| - 1]);
    }
  }

  /******* Main results, over every schedule *******/

  /** Commit-order serializability: the committed tables are those of the committed transactions run
      one after another in commit order, and each of them succeeds there. */
  lemma Serializability(schedule: seq<Action>, s: State)
    requires s == Run(schedule)
    ensures s.committed == RunOps(EMPTY, s.history)
            && forall n | 0 <= n < |s.history| :: ApplyOp(RunOps(EMPTY, s.history[..n]), s.history[n]).Success?
  {
    RunKeeps(schedule);
  }

  /** Two open transactions have never both inserted a reservation for the same order and product. */
  lemma NoConcurrentDuplicate(schedule: seq<Action>, s: State, i: TxId, j: TxId)
    requires s == Run(schedule) && i in s.open && j in s.open && i != j
    ensures s.open[i].inserts.Keys !! s.open[j].inserts.Keys
  {
    RunKeeps(schedule);
    forall k | k in s.open[i].inserts ensures k !in s.open[j].inserts {
      assert k.product in s.open[i].locked && k.product !in s.open[j].locked;
    }
  }

  /** The stock ledger holds of the committed tables in every state of every schedule. */
  lemma LedgerAlways(schedule: seq<Action>, s: State, p: ProductId)
    requires s == Run(schedule)
    ensures Balanced(s.committed, p, StockAdded(s.history, p))
    ensures ReservedFor(s.committed.reservations, p) <= StockAdded(s.history, p)
  {
    Serializability(schedule, s);
    Ledger(s.history, p);
    NeverOversold(s.history, p);
  }

  /** A line that fails was justified, at that very moment, unless the EXISTS check had gone stale:
      the sequential transaction fails at this line with the same error exactly when nobody has
      committed a reservation for this order and product in the meantime. */
  lemma FailureIsJustified(schedule: seq<Action>, s: State, id: TxId)
    requires s == Run(schedule) && id in s.open && Next(s, id).Fail? && s.open[id].op.Reserve?
    ensures var o, items, n, e := s.open[id].op.order, s.open[id].op.items, s.open[id].pos, Next(s, id).error;
            && n < |items|
            && var stale := Key(o, items[n].product) in s.committed.reservations;
               if e == UniqueViolation then stale
               else (ReserveItems(s.committed, o, items[..n + 1]) == Failure(e) <==> !stale)
                    && (!stale ==> ReserveItems(s.committed, o, items) == Failure(e))
  {
    RunKeeps(schedule);
    var tx := s.open[id];
    var demand := Demand(tx.op.items[..tx.pos]);
    LineFails(s, tx, id, demand);
    PrefixMoves(s.committed, tx.op.order, tx.op.items, tx.pos, demand);
    if Key(tx.op.order, tx.op.items[tx.pos].product) !in s.committed.reservations {
      FailureSpreads(s.committed, tx.op.order, tx.op.items, tx.pos + 1);
    }
  }

  /** The sequential transaction reaches line `n` having moved the demand of the lines before it. */
  lemma PrefixMoves(c: Tables, o: OrderId, items: seq<Item>, n: nat, demand: map<ProductId, int>)
    requires ChecksHold(c) && n < |items| && demand == Demand(items[..n]) && InStock(c, Unheld(c, o, demand))
    ensures ReserveItems(c, o, items[..n + 1]) == ReserveItem(Move(c, o, Unheld(c, o, demand)), o, items[n])
  {
    ExactOutcome(c, o, items[..n]);
    PrefixStep(c, o, items, n);
  }

  lemma LineFails(s: State, tx: Tx, id: TxId, demand: map<ProductId, int>)
    requires id in s.open && s.open[id] == tx && tx.op.Reserve? && Next(s, id).Fail?
    requires ChecksHold(s.committed) && WritesOk(s.committed, tx, demand)
    requires tx.phase != AtExists ==> LineOk(s.committed, tx, tx.op.items[tx.pos], demand)
    ensures tx.pos < |tx.op.items|
    ensures var item, e := tx.op.items[tx.pos], Next(s, id).error;
            var stale := Key(tx.op.order, item.product) in s.committed.reservations;
            var r := ReserveItem(Move(s.committed, tx.op.order, Unheld(s.committed, tx.op.order, demand)), tx.op.order, item);
            if e == UniqueViolation then stale else (r == Failure(e) <==> !stale)
  {
    var c, o, item := s.committed, tx.op.order, tx.op.items[tx.pos];
    var moved := Move(c, o, Unheld(c, o, demand));
    MoveFrame(c, o, Unheld(c, o, demand), item.product);
    HeldInView(c, tx, demand, item.product);
    if tx.phase != AtInsert {
      ViewOfRow(c, tx, demand, item.product);
      RowFails(s, id, tx, item, moved);
    } else {
      InsertFails(s, tx, item, demand, moved);
    }
  }

  /** The lock and the update fail as the sequential statements do. */
  lemma RowFails(s: State, id: TxId, tx: Tx, item: Item, t: Tables)
    requires tx.op.Reserve? && (tx.phase == AtLock || tx.phase == AtUpdate)
    requires var e := if tx.phase == AtLock then LockAndRead(s, id, tx, item) else UpdateRow(s, tx, item); e.Fail?
    requires tx.phase == AtUpdate ==> item.product in s.committed.inventory && s.committed.inventory[item.product].available >= item.quantity
    requires var p, view := item.product, View(s.committed, tx).inventory;
             && (p in view <==> p in s.committed.inventory) && (p in view ==> view[p] == s.committed.inventory[p])
             && (p in t.inventory <==> p in s.committed.inventory) && (p in t.inventory ==> t.inventory[p] == s.committed.inventory[p])
    ensures var e := if tx.phase == AtLock then LockAndRead(s, id, tx, item) else UpdateRow(s, tx, item);
            && e.error != UniqueViolation
            && (ReserveItem(t, tx.op.order, item) == Failure(e.error) <==> Key(tx.op.order, item.product) !in t.reservations)
  {
  }

  /** The insert fails for its quantity, or because its EXISTS check was stale. */
  lemma InsertFails(s: State, tx: Tx, item: Item, demand: map<ProductId, int>, t: Tables)
    requires tx.op.Reserve? && tx.phase == AtInsert && LineOk(s.committed, tx, item, demand)
    requires var key := Key(tx.op.order, item.product);
             && InsertReservation(s, tx, key, item.quantity).Fail?
             && (key in View(s.committed, tx).reservations <==> key in s.committed.reservations)
             && (key in t.reservations <==> key in s.committed.reservations)
    requires item.product in t.inventory && t.inventory[item.product] == s.committed.inventory[item.product]
    ensures var e := InsertReservation(s, tx, Key(tx.op.order, item.product), item.quantity);
            var stale := Key(tx.op.order, item.product) in s.committed.reservations;
            if e.error == UniqueViolation then stale
            else (ReserveItem(t, tx.op.order, item) == Failure(e.error) <==> !stale)
  {
  }
}
