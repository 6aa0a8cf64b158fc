/**
 The inventory repository as an object over its tables.

 Parameters say how the database calls of a method end: `fault(n)` is true when call number `n` (from 0,
 in program order) of a transaction fails, and a call that changes the tables by itself, or commits, may
 also take effect without its answer arriving.
 */
module InventoryRepository {
  import opened Basics
  import opened Inventory

  class Repository {
    var inventory: map<ProductId, Row>
    var reservations: map<Key, int>
    var processed: set<EventId>

    constructor ()
      ensures Contents() == EMPTY && processed == {}
    {
      inventory, reservations, processed := map[], map[], {};
    }

    function Contents(): Tables
      reads this
    {
      Tables(inventory, reservations)
    }

    /** The reservation transaction: a loop of check, lock, read, update and insert over a working
        copy that replaces the tables only when the commit succeeds. */
    method ReserveOrder(o: OrderId, items: seq<Item>, fault: nat -> bool, commit: CallResult) returns (err: Option<Error>)
      modifies this`inventory, this`reservations
      ensures err.None? ==> ReserveItems(old(Contents()), o, items) == Success(Contents())
      ensures err.Some? ==> Contents() == old(Contents()) || (err == Some(Fault) && commit.LostAck?)
      ensures err == Some(Fault) && commit.LostAck? && Contents() != old(Contents()) ==>
                ReserveItems(old(Contents()), o, items) == Success(Contents())
      ensures err.Some? && err.value != Fault ==> ReserveItems(old(Contents()), o, items) == Failure(err.value)
      ensures NoFaults(fault) ==>
                var r := ReserveItems(old(Contents()), o, items);
                && (err == Some(Fault) <==> r.Success? && !commit.Works?)
                && (r.Success? && !commit.Fails? ==> Contents() == r.value)
    {
      if fault(0) { return Some(Fault); }
      var rows, keys, calls := inventory, reservations, 1;
      ghost var start := Contents();
      var i := 0;
      while i < |items|
        invariant 0 <= i <= |items| && Contents() == start
        invariant ReserveItems(start, o, items[..i]) == Success(Tables(rows, keys))
      {
        var p, q := items[i].product, items[i].quantity;
        PrefixStep(start, o, items, i);
        if fault(calls) { return Some(Fault); }
        calls := calls + 1;
        if Key(o, p) in keys {
          i := i + 1;
          continue;
        }

        if fault(calls) { return Some(Fault); }
        calls := calls + 1;
        if p !in rows {
          FailureSpreads(start, o, items, i + 1);
          return Some(NotFound);
        }
        var available := rows[p].available;
        if available < q {
          FailureSpreads(start, o, items, i + 1);
          return Some(InsufficientStock);
        }

        if fault(calls) { return Some(Fault); }
        calls := calls + 1;
        if rows[p].reserved + q < 0 {
          FailureSpreads(start, o, items, i + 1);
          return Some(CheckViolation);
        }
        rows := rows[p := Row(rows[p].available - q, rows[p].reserved + q)];

        if fault(calls) { return Some(Fault); }
        calls := calls + 1;
        if q <= 0 {
          FailureSpreads(start, o, items, i + 1);
          return Some(CheckViolation);
        }
        keys := keys[Key(o, p) := q];
        i := i + 1;
      }
      assert items[..i] == items;
      if commit.Fails? { return Some(Fault); }
      inventory, reservations := rows, keys;
      return if commit.LostAck? then Some(Fault) else None;
    }

    /** An upsert that adds to the available quantity and returns the row it leaves. */
    method CreateOrUpdate(p: ProductId, quantity: int, call: CallResult) returns (r: Result<Row, Error>)
      modifies this`inventory
      ensures r.Success? <==> call.Works? && quantity >= 0
      ensures r.Success? ==> p in inventory && inventory[p] == r.value
      ensures if call.Fails? || quantity < 0 then Contents() == old(Contents())
              else Restock(old(Contents()), p, quantity) == Success(Contents())
    {
      if call.Fails? { return Failure(Fault); }
      if quantity < 0 { return Failure(CheckViolation); }
      if p in inventory {
        inventory := inventory[p := inventory[p].(available := inventory[p].available + quantity)];
      } else {
        inventory := inventory[p := Row(quantity, 0)];
      }
      return if call.Works? then Success(inventory[p]) else Failure(Fault);
    }

    /** INSERT ... ON CONFLICT DO NOTHING: true exactly for the call that inserted the id. */
    method MarkEventProcessed(id: EventId, call: CallResult) returns (r: Result<bool, Error>)
      modifies this`processed
      ensures r == if call.Works? then Success(id !in old(processed)) else Failure(Fault)
      ensures processed == if call.Fails? then old(processed) else old(processed) + {id}
    {
      if call.Fails? { return Failure(Fault); }
      var inserted := id !in processed;
      processed := processed + {id};
      return if call.Works? then Success(inserted) else Failure(Fault);
    }
  }
}
