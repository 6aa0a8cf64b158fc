/**
 The order repository: an order and its lines are written in one transaction, the ids the database
 assigns are filled into the caller's slice in place, and reading the order back returns that slice.

 `fault(n)` is true when database call number `n` of a transaction fails; a commit, or a call on its own, may
 also take effect without its answer arriving.  A rolled-back transaction leaves the tables as they were but
 does not give its sequence numbers back.
 */
module OrderRepository {
  import opened Basics
  import opened Events
  import opened Services

  /** A row of table `orders`; `items` are in `order_items`. */
  datatype OrderRow = OrderRow(user: UserId, total: real, status: Status)

  datatype ItemRow = ItemRow(order: OrderId, item: OrderItem)

  datatype Error = OrderNotFound | DatabaseError

  /** SELECT ... WHERE order_id = o ORDER BY id, over rows kept in id order. */
  function Select(rows: seq<ItemRow>, o: OrderId): seq<OrderItem> {
    if rows == [] then []
    else
      var init, last := Select(rows[..|rows| - 1], o), rows[|rows| - 1];
      if last.order == o then init + [last.item] else init
  }

  function RowsOf(o: OrderId, items: seq<OrderItem>): seq<ItemRow> {
    seq(|items|, i requires 0 <= i < |items| => ItemRow(o, items[i]))
  }

  function Numbered(items: seq<OrderItem>, first: int): seq<OrderItem> {
    seq(|items|, i requires 0 <= i < |items| => items[i].(id := first + i))
  }

  /** Appending the lines of a new order changes what is read for that order only. */
  lemma {:induction false} SelectAppended(rows: seq<ItemRow>, o: OrderId, items: seq<OrderItem>, x: OrderId)
    requires forall i | 0 <= i < |rows| :: rows[i].order != o
    ensures Select(rows + RowsOf(o, items), x) == if x == o then items else Select(rows, x)
  {
    if items == [] {
      assert rows + RowsOf(o, items) == rows;
      SelectNone(rows, o);
    } else {
      var init := items[..|items| - 1];
      SelectAppended(rows, o, init, x);
      var all := rows + RowsOf(o, items);
      assert all[..|all| - 1] == rows + RowsOf(o, init);
      assert all[|all| - 1] == ItemRow(o, items[|items| - 1]);
    }
  }

  lemma {:induction false} SelectNone(rows: seq<ItemRow>, o: OrderId)
    requires forall i | 0 <= i < |rows| :: rows[i].order != o
    ensures Select(rows, o) == []
  {
    if rows != [] {
      SelectNone(rows[..|rows| - 1], o);
    }
  }

  /** Lines belong to stored orders and are kept in increasing id order. */
  ghost predicate Consistent(orders: map<OrderId, OrderRow>, rows: seq<ItemRow>, nextOrder: OrderId, nextItem: int) {
    && (forall o | o in orders :: o < nextOrder)
    && (forall i | 0 <= i < |rows| :: rows[i].order in orders && rows[i].item.id < nextItem)
    && (forall i, j | 0 <= i < j < |rows| :: rows[i].item.id < rows[j].item.id)
  }

  lemma ConsistentAppended(orders: map<OrderId, OrderRow>, rows: seq<ItemRow>, o: OrderId, first: int, row: OrderRow, items: seq<OrderItem>)
    requires Consistent(orders, rows, o, first)
    ensures Consistent(orders[o := row], rows + RowsOf(o, Numbered(items, first)), o + 1, first + |items|)
  {
  }

  class Repository {
    var orders: map<OrderId, OrderRow>
    var itemRows: seq<ItemRow>
    var processed: set<EventId>
    var nextOrder: OrderId
    var nextItem: int

    constructor ()
      ensures Valid() && Orders() == map[] && processed == {}
    {
      orders, itemRows, processed, nextOrder, nextItem := map[], [], {}, 1, 1;
    }

    ghost predicate Valid()
      reads this
    {
      Consistent(orders, itemRows, nextOrder, nextItem)
    }

    /** Every order with its lines, as FindByID returns it. */
    function Orders(): map<OrderId, Order>
      reads this
    {
      map o | o in orders :: Order(orders[o].user, orders[o].status, Select(itemRows, o))
    }

    /** A new order `o` holds the caller's lines, which now carry the ids they are stored under. */
    twostate predicate Stored(o: OrderId, user: UserId, items: array<OrderItem>, total: real)
      reads this, items
    {
      && o !in old(Orders())
      && items[..] == Numbered(old(items[..]), old(nextItem))
      && Orders() == old(Orders())[o := Order(user, CREATED, items[..])]
      && o in orders && orders[o].total == total
    }

    /** When only the answer of the commit is lost, the caller sees an error and the order is there. */
    method Create(user: UserId, items: array<OrderItem>, total: real, fault: nat -> bool, commit: CallResult)
      returns (r: Option<OrderId>)
      requires Valid()
      modifies this, items
      ensures Valid() && processed == old(processed)
      ensures r.Some? ==> commit.Works? && Stored(r.value, user, items, total)
      ensures r.None? ==> Orders() == old(Orders()) || (commit.LostAck? && Stored(old(nextOrder), user, items, total))
      ensures r.None? && NoFaults(fault) && commit.Works? ==>
                total < 0.0 || exists i :: 0 <= i < items.Length && (old(items[i]).quantity <= 0 || old(items[i]).price < 0.0)
    {
      if fault(0) { return None; }
      var o := nextOrder;
      nextOrder := nextOrder + 1;
      if fault(1) || total < 0.0 { return None; }
      ghost var first := nextItem;
      var rows := InsertItems(o, items, fault);
      if rows.None? || commit.Fails? { return None; }
      CommitOrder(o, OrderRow(user, total, CREATED), rows.value, first, old(items[..]));
      return if commit.LostAck? then None else Some(o);
    }

    /** The commit: the order and its lines appear together. */
    method CommitOrder(o: OrderId, row: OrderRow, rows: seq<ItemRow>, ghost first: int, ghost items: seq<OrderItem>)
      requires Consistent(orders, itemRows, o, first) && nextOrder == o + 1 && nextItem == first + |items|
      requires rows == RowsOf(o, Numbered(items, first))
      modifies this`orders, this`itemRows
      ensures Valid() && o !in old(Orders()) && o in orders && orders[o] == row
      ensures Orders() == old(Orders())[o := Order(row.user, row.status, Numbered(items, first))]
    {
      CreatedOrders(orders, itemRows, o, row, Numbered(items, first));
      ConsistentAppended(orders, itemRows, o, first, row, items);
      orders, itemRows := orders[o := row], itemRows + rows;
    }

    /** The inserts of the lines, which fill the caller's slice with the ids the database assigns. */
    method InsertItems(o: OrderId, items: array<OrderItem>, fault: nat -> bool) returns (r: Option<seq<ItemRow>>)
      modifies this`nextItem, items
      ensures old(nextItem) <= nextItem
      ensures r.Some? ==>
                && nextItem == old(nextItem) + items.Length
                && items[..] == Numbered(old(items[..]), old(nextItem)) && r.value == RowsOf(o, items[..])
      ensures r.None? && NoFaults(fault) ==>
                exists i :: 0 <= i < items.Length && (old(items[i]).quantity <= 0 || old(items[i]).price < 0.0)
    {
      var first, rows, index := nextItem, [], 0;
      ghost var all := Numbered(items[..], first);
      while index < items.Length
        invariant 0 <= index <= items.Length && nextItem == first + index
        invariant forall i | 0 <= i < index :: items[i] == all[i]
        invariant forall i | index <= i < items.Length :: items[i] == old(items[i])
        invariant rows == RowsOf(o, all)[..index]
      {
        nextItem := nextItem + 1;
        if fault(2 + index) || items[index].quantity <= 0 || items[index].price < 0.0 { return None; }
        items[index] := items[index].(id := first + index);
        rows := rows + [ItemRow(o, items[index])];
        index := index + 1;
      }
      assert items[..] == all;
      return Some(rows);
    }

    method UpdateStatus(o: OrderId, status: Status, call: CallResult) returns (err: Option<Error>)
      requires Valid()
      modifies this`orders
      ensures Valid()
      ensures err == if !call.Works? then Some(DatabaseError) else if o !in old(Orders()) then Some(OrderNotFound) else None
      ensures Orders() == if call.Fails? || o !in old(Orders()) then old(Orders()) else SetStatus(old(Orders()), o, status)
      ensures orders.Keys == old(orders.Keys) && forall x | x in orders :: orders[x].total == old(orders)[x].total
    {
      if !call.Fails? && o in orders {
        orders := orders[o := orders[o].(status := status)];
      }
      return if !call.Works? then Some(DatabaseError) else if o !in orders then Some(OrderNotFound) else None;
    }

    method MarkEventProcessed(id: EventId, call: CallResult) returns (r: Result<bool, Error>)
      requires Valid()
      modifies this`processed
      ensures Valid()
      ensures r == if call.Works? then Success(id !in old(processed)) else Failure(DatabaseError)
      ensures processed == if call.Fails? then old(processed) else old(processed) + {id}
    {
      if call.Fails? { return Failure(DatabaseError); }
      var inserted := id !in processed;
      processed := processed + {id};
      return if call.Works? then Success(inserted) else Failure(DatabaseError);
    }
  }

  /** The orders that can be read after a new order and its lines have been appended. */
  lemma CreatedOrders(orders: map<OrderId, OrderRow>, rows: seq<ItemRow>, o: OrderId, row: OrderRow, items: seq<OrderItem>)
    requires o !in orders && forall i | 0 <= i < |rows| :: rows[i].order in orders
    ensures (map x | x in orders[o := row] ::
               Order(orders[o := row][x].user, orders[o := row][x].status, Select(rows + RowsOf(o, items), x))) ==
            (map x | x in orders :: Order(orders[x].user, orders[x].status, Select(rows, x)))[o := Order(row.user, row.status, items)]
  {
    forall x | x in orders[o := row] ensures Select(rows + RowsOf(o, items), x) == if x == o then items else Select(rows, x) {
      SelectAppended(rows, o, items, x);
    }
  }
}
