/**
 The inventory database and the transaction that reserves stock for an order, run on its own.

 `ReserveItems` is the transaction as a function of the committed tables; `Repository.ReserveOrder`
 is the loop of the program over a working copy that is committed or rolled back.  The rest of the
 module says what the transaction achieves: its exact outcome, why the order of distinct lines does
 not matter, why repeating it is harmless, and the stock ledger it keeps.
 */
module Inventory {
  import opened Basics

  /** A row of table `inventory`. */
  datatype Row = Row(available: int, reserved: int)

  /** One line of the event that asks for a reservation. */
  datatype Item = Item(product: ProductId, quantity: int)

  /** UNIQUE(order_id, product_id) of table `reservations`. */
  datatype Key = Key(order: OrderId, product: ProductId)

  /** Every row of `reservations` has status RESERVED: nothing else is ever written there. */
  datatype Tables = Tables(inventory: map<ProductId, Row>, reservations: map<Key, int>)

  datatype Error = NotFound | InsufficientStock | CheckViolation | UniqueViolation | Fault

  const EMPTY := Tables(map[], map[])

  /** The CHECK constraints of both tables. */
  ghost predicate ChecksHold(t: Tables) {
    && (forall p | p in t.inventory :: t.inventory[p].available >= 0 && t.inventory[p].reserved >= 0)
    && (forall k | k in t.reservations :: t.reservations[k] > 0)
  }

  /******* One transaction on its own *******/

  function ReserveItem(t: Tables, o: OrderId, item: Item): Result<Tables, Error> {
    var p, q := item.product, item.quantity;
    if Key(o, p) in t.reservations then Success(t)
    else if p !in t.inventory then Failure(NotFound)
    else
      var row := t.inventory[p];
      if row.available < q then Failure(InsufficientStock)
      else if row.reserved + q < 0 || q <= 0 then Failure(CheckViolation)
      else Success(Transfer(t, o, p, q))
  }

  /** The UPDATE of the row and the INSERT of the reservation. */
  function Transfer(t: Tables, o: OrderId, p: ProductId, q: int): Tables
    requires p in t.inventory
  {
    Tables(TakeStock(t.inventory, p, q), t.reservations[Key(o, p) := q])
  }

  function Taken(row: Row, q: int): Row {
    Row(row.available - q, row.reserved + q)
  }

  function TakeStock(inventory: map<ProductId, Row>, p: ProductId, q: int): map<ProductId, Row>
    requires p in inventory
  {
    inventory[p := Taken(inventory[p], q)]
  }

  function ReserveItems(t: Tables, o: OrderId, items: seq<Item>): Result<Tables, Error> {
    if items == [] then Success(t)
    else
      var r := ReserveItems(t, o, items[..|items| - 1]);
      if r.Failure? then r else ReserveItem(r.value, o, items[|items| - 1])
  }

  /** CreateOrUpdate: PostgreSQL checks the proposed row before it looks for a conflict. */
  function Restock(t: Tables, p: ProductId, quantity: int): Result<Tables, Error> {
    if quantity < 0 then Failure(CheckViolation)
    else Success(t.(inventory := t.inventory[p := Restocked(t, p, quantity)]))
  }

  function Restocked(t: Tables, p: ProductId, quantity: int): Row {
    if p in t.inventory then Row(t.inventory[p].available + quantity, t.inventory[p].reserved)
    else Row(quantity, 0)
  }

  /** A prefix of the lines that fails makes the whole order fail, with the same error. */
  lemma {:induction false} FailureSpreads(t: Tables, o: OrderId, items: seq<Item>, n: nat)
    requires n <= |items| && ReserveItems(t, o, items[..n]).Failure?
    ensures ReserveItems(t, o, items) == ReserveItems(t, o, items[..n])
  {
    if n == |items| {
      assert items[..n] == items;
    } else {
      assert items[..|items| - 1][..n] == items[..n];
      FailureSpreads(t, o, items[..|items| - 1], n);
    }
  }

  lemma PrefixStep(t: Tables, o: OrderId, items: seq<Item>, n: nat)
    requires n < |items| && ReserveItems(t, o, items[..n]).Success?
    ensures ReserveItems(t, o, items[..n + 1]) == ReserveItem(ReserveItems(t, o, items[..n]).value, o, items[n])
  {
    assert items[..n + 1][..n] == items[..n];
  }

  /******* The exact outcome *******/

  function Products(items: seq<Item>): set<ProductId> {
    set i | 0 <= i < |items| :: items[i].product
  }

  function FirstLine(items: seq<Item>, p: ProductId): (i: nat)
    requires p in Products(items)
    ensures i < |items| && items[i].product == p
    ensures forall j | 0 <= j < i :: items[j].product != p
  {
    if items[0].product == p then 0
    else
      assert p in Products(items[1..]) by {
        var i :| 0 <= i < |items| && items[i].product == p;
        assert items[1..][i - 1].product == p;
      }
      1 + FirstLine(items[1..], p)
  }

  /** What an order asks for: for each product the quantity of its first line. */
  function Demand(items: seq<Item>): map<ProductId, int> {
    map p | p in Products(items) :: items[FirstLine(items, p)].quantity
  }

  /** The part of a demand the order holds no reservation for yet. */
  function Unheld(t: Tables, o: OrderId, demand: map<ProductId, int>): map<ProductId, int> {
    map p | p in demand && Key(o, p) !in t.reservations :: demand[p]
  }

  ghost predicate InStock(t: Tables, demand: map<ProductId, int>) {
    forall p | p in demand :: p in t.inventory && 0 < demand[p] <= t.inventory[p].available
  }

  /** The tables after the quantities of a demand have moved from available to reserved. */
  function Move(t: Tables, o: OrderId, demand: map<ProductId, int>): Tables {
    Tables(MoveRows(t.inventory, demand), t.reservations + NewKeys(o, demand))
  }

  function MoveRows(inventory: map<ProductId, Row>, demand: map<ProductId, int>): map<ProductId, Row> {
    inventory + MovedRows(inventory, demand)
  }

  function MovedRows(inventory: map<ProductId, Row>, demand: map<ProductId, int>): map<ProductId, Row> {
    map p | p in demand && p in inventory :: Taken(inventory[p], demand[p])
  }

  function NewKeys(o: OrderId, demand: map<ProductId, int>): map<Key, int> {
    map k | k in KeysOf(o, demand.Keys) :: demand[k.product]
  }

  function KeysOf(o: OrderId, products: set<ProductId>): (keys: set<Key>)
    ensures forall k :: k in keys <==> k.order == o && k.product in products
  {
    var keys := set p | p in products :: Key(o, p);
    assert forall k: Key | k.order == o && k.product in products :: k == Key(o, k.product);
    keys
  }

  lemma ProductsStep(items: seq<Item>, n: nat)
    requires n < |items|
    ensures Products(items[..n + 1]) == Products(items[..n]) + {items[n].product}
  {
    var a, b := items[..n], items[..n + 1];
    forall p | p in Products(a) ensures p in Products(b) {
      var i :| 0 <= i < n && a[i].product == p;
      assert b[i].product == p;
    }
    assert b[n] == items[n];
    forall p | p in Products(b) ensures p in Products(a) + {items[n].product} {
      var i :| 0 <= i <= n && b[i].product == p;
      assert i < n ==> a[i].product == p;
    }
  }

  lemma FirstLineOfPrefix(items: seq<Item>, n: nat, p: ProductId)
    requires n < |items| && p in Products(items[..n]) && p in Products(items[..n + 1])
    ensures FirstLine(items[..n], p) == FirstLine(items[..n + 1], p)
  {
    assert items[..n + 1][FirstLine(items[..n], p)].product == p;
  }

  lemma DemandStep(items: seq<Item>, n: nat)
    requires n < |items|
    ensures Demand(items[..n + 1]) ==
            if items[n].product in Demand(items[..n]) then Demand(items[..n])
            else Demand(items[..n])[items[n].product := items[n].quantity]
  {
    ProductsStep(items, n);
    forall p | p in Products(items[..n])
      ensures p in Products(items[..n + 1]) && FirstLine(items[..n], p) == FirstLine(items[..n + 1], p)
    {
      FirstLineOfPrefix(items, n, p);
    }
  }

  lemma MovedRowsStep(inventory: map<ProductId, Row>, demand: map<ProductId, int>, p: ProductId, q: int)
    requires p !in demand && p in inventory
    ensures MovedRows(inventory, demand[p := q]) ==
            MovedRows(inventory, demand)[p := Taken(inventory[p], q)]
  {
  }

  lemma MoveRowsStep(inventory: map<ProductId, Row>, demand: map<ProductId, int>, p: ProductId, q: int)
    requires p !in demand && p in inventory
    ensures p in MoveRows(inventory, demand)
    ensures MoveRows(inventory, demand[p := q]) == TakeStock(MoveRows(inventory, demand), p, q)
  {
  }

  lemma NewKeysStep(o: OrderId, demand: map<ProductId, int>, p: ProductId, q: int)
    requires p !in demand
    ensures NewKeys(o, demand[p := q]) == NewKeys(o, demand)[Key(o, p) := q]
  {
  }

  lemma InStockStep(t: Tables, demand: map<ProductId, int>, p: ProductId, q: int)
    requires p !in demand
    ensures InStock(t, demand[p := q]) <==>
            InStock(t, demand) && p in t.inventory && 0 < q <= t.inventory[p].available
  {
    var more := demand[p := q];
    assert forall x | x in demand :: more[x] == demand[x];
  }

  lemma UpdateSum<K, V>(m: map<K, V>, n: map<K, V>, k: K, v: V)
    ensures (m + n)[k := v] == m + n[k := v]
  {
  }

  /** Moving a demand leaves every other row and key as it was. */
  lemma MoveFrame(t: Tables, o: OrderId, demand: map<ProductId, int>, p: ProductId)
    requires p !in demand
    ensures Key(o, p) in Move(t, o, demand).reservations <==> Key(o, p) in t.reservations
    ensures p in Move(t, o, demand).inventory <==> p in t.inventory
    ensures p in t.inventory ==> Move(t, o, demand).inventory[p] == t.inventory[p]
  {
    assert Key(o, p) !in NewKeys(o, demand);
  }

  lemma MoveOneMore(t: Tables, o: OrderId, demand: map<ProductId, int>, p: ProductId, q: int)
    requires p !in demand && p in t.inventory
    ensures p in Move(t, o, demand).inventory
    ensures Move(t, o, demand[p := q]) == Transfer(Move(t, o, demand), o, p, q)
  {
    MoveRowsStep(t.inventory, demand, p, q);
    NewKeysStep(o, demand, p, q);
    UpdateSum(t.reservations, NewKeys(o, demand), Key(o, p), q);
  }

  lemma ReserveOne(t: Tables, o: OrderId, item: Item)
    requires Key(o, item.product) !in t.reservations
    requires item.product in t.inventory ==> t.inventory[item.product].reserved >= 0
    ensures var r, p, q := ReserveItem(t, o, item), item.product, item.quantity;
            && (r.Success? <==> p in t.inventory && 0 < q <= t.inventory[p].available)
            && (r.Success? ==> r.value == Transfer(t, o, p, q))
  {
  }

  /** One more line of an order whose demand so far has moved. */
  lemma MoveStep(t: Tables, o: OrderId, demand: map<ProductId, int>, item: Item)
    requires ChecksHold(t) && InStock(t, demand) && item.product !in demand && Key(o, item.product) !in t.reservations
    ensures var r, more := ReserveItem(Move(t, o, demand), o, item), demand[item.product := item.quantity];
            && (r.Success? <==> InStock(t, more))
            && (r.Success? ==> r.value == Move(t, o, more))
  {
    var p, q := item.product, item.quantity;
    MoveFrame(t, o, demand, p);
    InStockStep(t, demand, p, q);
    ReserveOne(Move(t, o, demand), o, item);
    if p in t.inventory {
      MoveOneMore(t, o, demand, p, q);
    }
  }

  /** ReserveOrder succeeds exactly when every distinct product can be served by its first line, and
      then exactly those first-line quantities move. */
  lemma {:induction false} ExactOutcome(t: Tables, o: OrderId, items: seq<Item>)
    requires ChecksHold(t)
    ensures var demand := Unheld(t, o, Demand(items));
            && (ReserveItems(t, o, items).Success? <==> InStock(t, demand))
            && (InStock(t, demand) ==> ReserveItems(t, o, items).value == Move(t, o, demand))
  {
    if items == [] {
      assert Move(t, o, map[]) == t;
    } else {
      var n := |items| - 1;
      assert items[..n + 1] == items;
      ExactOutcome(t, o, items[..n]);
      DemandStep(items, n);
      OutcomeStep(t, o, items, Demand(items[..n]), Demand(items));
    }
  }

  lemma UnheldStep(t: Tables, o: OrderId, demand: map<ProductId, int>, p: ProductId, q: int)
    requires p !in demand
    ensures Unheld(t, o, demand[p := q]) ==
            if Key(o, p) in t.reservations then Unheld(t, o, demand) else Unheld(t, o, demand)[p := q]
  {
  }

  lemma OutcomeStep(t: Tables, o: OrderId, items: seq<Item>, before: map<ProductId, int>, after: map<ProductId, int>)
    requires ChecksHold(t) && items != []
    requires var r := ReserveItems(t, o, items[..|items| - 1]);
             && (r.Success? <==> InStock(t, Unheld(t, o, before)))
             && (r.Success? ==> r.value == Move(t, o, Unheld(t, o, before)))
    requires var last := items[|items| - 1];
             after == if last.product in before then before else before[last.product := last.quantity]
    ensures var r := ReserveItems(t, o, items);
            && (r.Success? <==> InStock(t, Unheld(t, o, after)))
            && (r.Success? ==> r.value == Move(t, o, Unheld(t, o, after)))
  {
    var item := items[|items| - 1];
    var p, q := item.product, item.quantity;
    var d := Unheld(t, o, before);
    if p !in before && Key(o, p) !in t.reservations {
      UnheldStep(t, o, before, p, q);
      InStockStep(t, d, p, q);
      if InStock(t, d) {
        MoveStep(t, o, d, item);
      }
    } else {
      if p !in before { UnheldStep(t, o, before, p, q); }
      assert Key(o, p) in Move(t, o, d).reservations;
    }
  }

  /** Line `n` is the first that cannot be served: its product is new to the order, and everything asked for
      before it is in stock. */
  ghost predicate FailsAt(t: Tables, o: OrderId, items: seq<Item>, n: nat) {
    && n < |items|
    && InStock(t, Unheld(t, o, Demand(items[..n])))
    && items[n].product !in Demand(items[..n]) && Key(o, items[n].product) !in t.reservations
    && !(items[n].product in t.inventory && 0 < items[n].quantity <= t.inventory[items[n].product].available)
  }

  /** Why it cannot be served. */
  ghost predicate Because(t: Tables, item: Item, e: Error) {
    && (e == NotFound <==> item.product !in t.inventory)
    && (e == InsufficientStock <==> item.product in t.inventory && t.inventory[item.product].available < item.quantity)
    && (e == CheckViolation <==> item.product in t.inventory && item.quantity <= 0)
  }

  lemma LineBecause(t: Tables, o: OrderId, item: Item, u: Tables)
    requires ChecksHold(t) && Key(o, item.product) !in u.reservations
    requires item.product in u.inventory <==> item.product in t.inventory
    requires item.product in t.inventory ==> u.inventory[item.product] == t.inventory[item.product]
    ensures ReserveItem(u, o, item).Failure? ==> Because(t, item, ReserveItem(u, o, item).error)
    ensures ReserveItem(u, o, item).Failure? <==>
            !(item.product in t.inventory && 0 < item.quantity <= t.inventory[item.product].available)
  {
  }

  lemma FailsThere(t: Tables, o: OrderId, items: seq<Item>, n: nat)
    requires ChecksHold(t) && FailsAt(t, o, items, n)
    ensures ReserveItems(t, o, items).Failure? && Because(t, items[n], ReserveItems(t, o, items).error)
  {
    var demand := Unheld(t, o, Demand(items[..n]));
    ExactOutcome(t, o, items[..n]);
    PrefixStep(t, o, items, n);
    MoveFrame(t, o, demand, items[n].product);
    LineBecause(t, o, items[n], Move(t, o, demand));
    FailureSpreads(t, o, items, n + 1);
  }

  lemma {:induction false} SomeLineFails(t: Tables, o: OrderId, items: seq<Item>) returns (n: nat)
    requires ChecksHold(t) && ReserveItems(t, o, items).Failure?
    ensures FailsAt(t, o, items, n)
  {
    n := |items| - 1;
    var before := items[..n];
    if ReserveItems(t, o, before).Failure? {
      n := SomeLineFails(t, o, before);
      assert before[..n] == items[..n];
    } else {
      var demand := Unheld(t, o, Demand(before));
      ExactOutcome(t, o, before);
      LastLineFails(t, o, items[n], Demand(before), demand);
    }
  }

  lemma LastLineFails(t: Tables, o: OrderId, item: Item, demand: map<ProductId, int>, unheld: map<ProductId, int>)
    requires ChecksHold(t) && unheld == Unheld(t, o, demand) && ReserveItem(Move(t, o, unheld), o, item).Failure?
    ensures item.product !in demand && Key(o, item.product) !in t.reservations
    ensures !(item.product in t.inventory && 0 < item.quantity <= t.inventory[item.product].available)
  {
    var p := item.product;
    assert Key(o, p) in NewKeys(o, unheld) <==> p in unheld;
    assert Key(o, p) !in Move(t, o, unheld).reservations;
    MoveFrame(t, o, unheld, p);
    LineBecause(t, o, item, Move(t, o, unheld));
  }

  /** A reservation fails exactly when some line is the first that cannot be served, and its error says why:
      no such product, too little of it, or a quantity that is not positive. */
  lemma FailsExactly(t: Tables, o: OrderId, items: seq<Item>)
    requires ChecksHold(t)
    ensures ReserveItems(t, o, items).Failure? <==> exists n: nat :: FailsAt(t, o, items, n)
    ensures forall n: nat | FailsAt(t, o, items, n) ::
              ReserveItems(t, o, items).Failure? && Because(t, items[n], ReserveItems(t, o, items).error)
  {
    if ReserveItems(t, o, items).Failure? {
      var n := SomeLineFails(t, o, items);
    }
    forall n: nat | FailsAt(t, o, items, n)
      ensures ReserveItems(t, o, items).Failure? && Because(t, items[n], ReserveItems(t, o, items).error)
    {
      FailsThere(t, o, items, n);
    }
  }

  /** When no two lines name the same product, only the set of lines matters, not their order. */
  lemma OrderIndependence(t: Tables, o: OrderId, items: seq<Item>, other: seq<Item>)
    requires ChecksHold(t)
    requires forall i, j | 0 <= i < j < |items| :: items[i].product != items[j].product
    requires multiset(items) == multiset(other)
    ensures ReserveItems(t, o, items).Success? <==> ReserveItems(t, o, other).Success?
    ensures ReserveItems(t, o, items).Success? ==> ReserveItems(t, o, items) == ReserveItems(t, o, other)
  {
    ExactOutcome(t, o, items);
    ExactOutcome(t, o, other);
    SameDemand(items, other);
  }

  lemma SameDemand(items: seq<Item>, other: seq<Item>)
    requires forall i, j | 0 <= i < j < |items| :: items[i].product != items[j].product
    requires multiset(items) == multiset(other)
    ensures Demand(items) == Demand(other)
  {
    forall x ensures x in items <==> x in other {
      assert x in items <==> x in multiset(items);
      assert x in other <==> x in multiset(other);
    }
    forall p | p in Products(items) ensures p in Products(other) {
      assert items[FirstLine(items, p)] in other;
    }
    forall p | p in Products(other) ensures p in Products(items) && Demand(items)[p] == Demand(other)[p] {
      assert other[FirstLine(other, p)] in items;
    }
  }

  /******* Runs of transactions *******/

  datatype Op = Reserve(order: OrderId, items: seq<Item>) | AddStock(product: ProductId, quantity: int)

  function ApplyOp(t: Tables, op: Op): Result<Tables, Error> {
    match op
    case Reserve(o, items) => ReserveItems(t, o, items)
    case AddStock(p, q) => Restock(t, p, q)
  }

  /** Transactions one after another; a failed one is rolled back. */
  function RunOps(t: Tables, ops: seq<Op>): Tables {
    if ops == [] then t
    else
      var before := RunOps(t, ops[..|ops| - 1]);
      var r := ApplyOp(before, ops[|ops| - 1]);
      if r.Success? then r.value else before
  }

  ghost predicate Grows(t: Tables, u: Tables) {
    && (forall k | k in t.reservations :: k in u.reservations && u.reservations[k] == t.reservations[k])
    && (forall p | p in t.inventory :: p in u.inventory)
  }

  ghost predicate AllHeld(t: Tables, o: OrderId, items: seq<Item>) {
    forall i | 0 <= i < |items| :: Key(o, items[i].product) in t.reservations
  }

  lemma {:induction false} ReserveGrows(t: Tables, o: OrderId, items: seq<Item>)
    requires ReserveItems(t, o, items).Success?
    ensures Grows(t, ReserveItems(t, o, items).value)
    ensures AllHeld(ReserveItems(t, o, items).value, o, items)
    ensures ChecksHold(t) ==> ChecksHold(ReserveItems(t, o, items).value)
  {
    if items != [] {
      ReserveGrows(t, o, items[..|items| - 1]);
      assert forall i | 0 <= i < |items| - 1 :: items[..|items| - 1][i] == items[i];
    }
  }

  lemma ApplyGrows(t: Tables, op: Op)
    requires ApplyOp(t, op).Success?
    ensures Grows(t, ApplyOp(t, op).value)
    ensures ChecksHold(t) ==> ChecksHold(ApplyOp(t, op).value)
  {
    if op.Reserve? {
      ReserveGrows(t, op.order, op.items);
    }
  }

  lemma {:induction false} RunGrows(t: Tables, ops: seq<Op>)
    ensures Grows(t, RunOps(t, ops))
    ensures ChecksHold(t) ==> ChecksHold(RunOps(t, ops))
  {
    if ops != [] {
      RunGrows(t, ops[..|ops| - 1]);
      var before, op := RunOps(t, ops[..|ops| - 1]), ops[|ops| - 1];
      if ApplyOp(before, op).Success? {
        ApplyGrows(before, op);
      }
    }
  }

  lemma {:induction false} HeldIsSkipped(t: Tables, o: OrderId, items: seq<Item>)
    requires AllHeld(t, o, items)
    ensures ReserveItems(t, o, items) == Success(t)
  {
    if items != [] {
      assert forall i | 0 <= i < |items| - 1 :: items[..|items| - 1][i] == items[i];
      HeldIsSkipped(t, o, items[..|items| - 1]);
    }
  }

  /** Once ReserveOrder has committed, repeating it succeeds and changes nothing, whatever was
      committed in between and even when the stock has run out. */
  lemma StableIdempotence(t: Tables, o: OrderId, items: seq<Item>, ops: seq<Op>)
    requires ReserveItems(t, o, items).Success?
    ensures var later := RunOps(ReserveItems(t, o, items).value, ops);
            ReserveItems(later, o, items) == Success(later)
  {
    var reserved := ReserveItems(t, o, items).value;
    ReserveGrows(t, o, items);
    RunGrows(reserved, ops);
    HeldIsSkipped(RunOps(reserved, ops), o, items);
  }

  /******* The stock ledger *******/

  ghost function ReservedFor(reservations: map<Key, int>, p: ProductId): int
    decreases |reservations|
  {
    if reservations == map[] then 0
    else
      var k :| k in reservations;
      Share(k, reservations[k], p) + ReservedFor(reservations - {k}, p)
  }

  ghost function Share(k: Key, quantity: int, p: ProductId): int {
    if k.product == p then quantity else 0
  }

  lemma {:induction false} ReservedSplit(reservations: map<Key, int>, k: Key, p: ProductId)
    requires k in reservations
    ensures ReservedFor(reservations, p) == Share(k, reservations[k], p) + ReservedFor(reservations - {k}, p)
    decreases |reservations|
  {
    var j :| j in reservations &&
      ReservedFor(reservations, p) == Share(j, reservations[j], p) + ReservedFor(reservations - {j}, p);
    if j != k {
      ReservedSplit(reservations - {j}, k, p);
      ReservedSplit(reservations - {k}, j, p);
      assert reservations - {j} - {k} == reservations - {k} - {j};
    }
  }

  lemma ReservedInsert(reservations: map<Key, int>, k: Key, quantity: int, p: ProductId)
    requires k !in reservations
    ensures ReservedFor(reservations[k := quantity], p) == ReservedFor(reservations, p) + Share(k, quantity, p)
  {
    ReservedSplit(reservations[k := quantity], k, p);
    assert reservations[k := quantity] - {k} == reservations;
  }

  /** The stock a run of transactions has put in; stock is never taken out. */
  function StockAdded(ops: seq<Op>, p: ProductId): int {
    if ops == [] then 0
    else StockAdded(ops[..|ops| - 1], p) + StockIn(ops[|ops| - 1], p)
  }

  function StockIn(op: Op, p: ProductId): int {
    if op.AddStock? && op.product == p && op.quantity >= 0 then op.quantity else 0
  }

  /** The ledger of one product. */
  ghost predicate Balanced(t: Tables, p: ProductId, added: int) {
    if p in t.inventory then
      var row := t.inventory[p];
      row.available >= 0 && row.reserved == ReservedFor(t.reservations, p) && row.available + row.reserved == added
    else
      ReservedFor(t.reservations, p) == 0 && added == 0
  }

  lemma {:induction false} ReserveBalanced(t: Tables, o: OrderId, items: seq<Item>, p: ProductId, added: int)
    requires Balanced(t, p, added) && ReserveItems(t, o, items).Success?
    ensures Balanced(ReserveItems(t, o, items).value, p, added)
  {
    if items != [] {
      ReserveBalanced(t, o, items[..|items| - 1], p, added);
      ReserveItemBalanced(ReserveItems(t, o, items[..|items| - 1]).value, o, items[|items| - 1], p, added);
    }
  }

  lemma ReserveItemBalanced(t: Tables, o: OrderId, item: Item, p: ProductId, added: int)
    requires Balanced(t, p, added) && ReserveItem(t, o, item).Success?
    ensures Balanced(ReserveItem(t, o, item).value, p, added)
  {
    if Key(o, item.product) !in t.reservations {
      ReservedInsert(t.reservations, Key(o, item.product), item.quantity, p);
    }
  }

  /** After any run: available stock is never negative, `reserved_quantity` is the sum of the
      reservations, and available plus reserved is all the stock ever added. */
  lemma {:induction false} Ledger(ops: seq<Op>, p: ProductId)
    ensures Balanced(RunOps(EMPTY, ops), p, StockAdded(ops, p))
  {
    if ops != [] {
      var init, op := ops[..|ops| - 1], ops[|ops| - 1];
      Ledger(init, p);
      var before := RunOps(EMPTY, init);
      if op.Reserve? && ApplyOp(before, op).Success? {
        ReserveBalanced(before, op.order, op.items, p, StockAdded(init, p));
      }
    }
  }

  lemma NeverOversold(ops: seq<Op>, p: ProductId)
    ensures ReservedFor(RunOps(EMPTY, ops).reservations, p) <= StockAdded(ops, p)
  {
    Ledger(ops, p);
  }
}
