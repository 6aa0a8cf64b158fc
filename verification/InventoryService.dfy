/**
 The inventory service's message handler as straight-line code over its repository, its consumer and
 its producer.  However its calls end, also when one takes effect and its answer is lost, it makes the calls
 of `Services.CallWorker`, in that order, and stops at the first error; this is what the saga interleaves and
 interrupts.
 */
module InventoryService {
  import opened Basics
  import opened Inventory
  import opened Events
  import opened Services
  import InventoryRepository

  /** The calls of one handler run, one after another. */
  function MakeCalls(w: World, pc: WorkerPc, calls: seq<Outcome>): (World, WorkerPc)
    decreases |calls|
  {
    if calls == [] then (w, pc)
    else
      var (w', pc') := CallWorker(w, pc, calls[0]);
      MakeCalls(w', pc', calls[1..])
  }

  /** The handler is still at work before each call. */
  predicate Unbroken(w: World, pc: WorkerPc, calls: seq<Outcome>)
    decreases |calls|
  {
    calls == [] ||
    (!pc.Idle? && !pc.Stopped? &&
      var (w', pc') := CallWorker(w, pc, calls[0]); Unbroken(w', pc', calls[1..]))
  }

  lemma NextCall(w: World, pc: WorkerPc, call: Outcome, calls: seq<Outcome>)
    ensures var r := CallWorker(w, pc, call);
            && MakeCalls(w, pc, [call] + calls) == MakeCalls(r.0, r.1, calls)
            && (Unbroken(w, pc, [call] + calls) <==> !pc.Idle? && !pc.Stopped? && Unbroken(r.0, r.1, calls))
  {
    assert ([call] + calls)[1..] == calls;
  }

  /** A handler that ends well waits for the next message.  Otherwise it has stopped, at an error or after
      a call whose answer was lost; the saga has the latter as the call and a crash. */
  ghost predicate EndsAs(pc: WorkerPc, ok: bool, calls: nat -> CallResult) {
    if ok then pc == Idle else pc == Stopped || exists n :: calls(n).LostAck?
  }

  /** The error of the transaction, which is its own unless the database failed. */
  ghost predicate FailsWith(r: Result<Tables, Error>, error: Error, dbFault: nat -> bool, commit: CallResult) {
    r == Failure(error) || (error == Fault && (!NoFaults(dbFault) || !commit.Works?))
  }

  /** What the failure event says: which of the two stock problems the first line in trouble has. */
  lemma RefusalText(t: Tables, o: OrderId, items: seq<Item>, n: nat)
    requires ChecksHold(t) && FailsAt(t, o, items, n)
    ensures ReserveItems(t, o, items).Failure?
    ensures var text, p := ErrorText(ReserveItems(t, o, items).error), items[n].product;
            && (text == "inventory not found" <==> p !in t.inventory)
            && (text == "insufficient stock" <==> p in t.inventory && t.inventory[p].available < items[n].quantity)
            && (text == "database error" <==> p in t.inventory && items[n].quantity <= 0)
  {
    FailsThere(t, o, items, n);
    assert "inventory not found"[2] == 'v' && "insufficient stock"[2] == 's' && "database error"[2] == 't';
  }

  class Service {
    const repository: InventoryRepository.Repository
    var offsets: seq<nat>
    var log: Log
    var nextId: EventId

    constructor (repository: InventoryRepository.Repository, offsets: seq<nat>, log: Log)
      ensures this.repository == repository && this.offsets == offsets && this.log == log && nextId == 0
    {
      this.repository, this.offsets, this.log, nextId := repository, offsets, log, 0;
    }

    /** The world with this service's part of it filled in; `rest` gives the order service's part. */
    function World(rest: World): World
      reads this, repository
    {
      rest.(tables := repository.Contents(), inventorySeen := repository.processed,
            orderOffsets := offsets, inventoryLog := log, nextId := nextId)
    }

    method AddStock(p: ProductId, quantity: int, call: CallResult) returns (r: Option<Row>)
      modifies repository`inventory
      ensures r.Some? <==> p > 0 && quantity > 0 && call.Works?
      ensures r.Some? ==> p in repository.inventory && repository.inventory[p] == r.value
      ensures if p <= 0 || quantity <= 0 || call.Fails? then repository.Contents() == old(repository.Contents())
              else Restock(old(repository.Contents()), p, quantity) == Success(repository.Contents())
    {
      if p <= 0 || quantity <= 0 { return None; }
      var row := repository.CreateOrUpdate(p, quantity, call);
      if row.Failure? { return None; }
      return Some(row.value);
    }

    method Commit(m: Msg, call: CallResult) returns (ok: bool)
      modifies this`offsets
      ensures ok == call.Works?
      ensures offsets == if call.Fails? then old(offsets) else CommitTo(old(offsets), m)
    {
      if !call.Fails? && m.partition < |offsets| {
        offsets := offsets[m.partition := m.offset + 1];
      }
      return call.Works?;
    }

    method PublishResult(kind: EventType, order: OrderPayload, reason: string, q: nat, call: CallResult) returns (ok: bool)
      modifies this`log, this`nextId
      ensures ok == (call.Works? && q < |old(log)|)
      ensures if call.Fails? || q >= |old(log)| then log == old(log) && nextId == old(nextId)
              else nextId == old(nextId) + 1 &&
                   log == Append(old(log), q, Event(old(nextId), kind, EncodeResult(order.order, order.user, reason)))
    {
      if call.Fails? || q >= |log| { return false; }
      var event := Event(nextId, kind, EncodeResult(order.order, order.user, reason));
      log, nextId := log[q := log[q] + [event]], nextId + 1;
      return call.Works?;
    }

    /** What a caller of the handler sees of a message that was handled to its end. */
    twostate predicate Settled(id: EventId, order: OrderPayload, q: nat, dbFault: nat -> bool, commit: CallResult)
      reads this, repository
    {
      && q < |old(log)|
      && var r := ReserveItems(old(repository.Contents()), order.order, order.items);
         || (r == Success(repository.Contents())
             && repository.processed == old(repository.processed) + {id}
             && log == Append(old(log), q, Event(old(nextId), InventoryReserved, EncodeResult(order.order, order.user, ""))))
         || (repository.processed == old(repository.processed)
             && (repository.Contents() == old(repository.Contents()) || (commit.LostAck? && r == Success(repository.Contents())))
             && exists error :: FailsWith(r, error, dbFault, commit)
                  && log == Append(old(log), q, Event(old(nextId), InventoryReservationFailed, EncodeResult(order.order, order.user, ErrorText(error)))))
    }

    /** `dbFault` and `commit` are the faults inside the reservation transaction, `calls(0..2)` the calls
        after it, and `q` the partition a result lands in.  `trace` is what the saga's worker would do. */
    method ProcessOrderEvent(m: Msg, dbFault: nat -> bool, commit: CallResult, calls: nat -> CallResult, q: nat, ghost rest: World)
      returns (ok: bool, ghost trace: seq<Outcome>)
      modifies this`offsets, this`log, this`nextId, repository
      ensures var r := MakeCalls(old(World(rest)), Received(m), trace); r.0 == World(rest) && EndsAs(r.1, ok, calls)
      ensures Unbroken(old(World(rest)), Received(m), trace)
      ensures ok ==> offsets == if m.partition < |old(offsets)| then old(offsets)[m.partition := m.offset + 1] else old(offsets)
      ensures ok && m.event.kind == OrderCreated ==>
                DecodeOrder(m.event.payload).Some? && Settled(m.event.id, DecodeOrder(m.event.payload).value, q, dbFault, commit)
      ensures !ok ==> !AllWork(calls) ||
                      (m.event.kind == OrderCreated && (q >= |old(log)| || DecodeOrder(m.event.payload).None?))
    {
      ghost var w := World(rest);
      if m.event.kind != OrderCreated {
        ok := Commit(m, calls(0));
        trace := [Answer(calls(0), q)];
        NextCall(w, Received(m), trace[0], []);
        return;
      }
      var payload := DecodeOrder(m.event.payload);
      if payload.None? {
        NextCall(w, Received(m), Failed, []);
        return false, [Failed];
      }
      var order := payload.value;
      var err := repository.ReserveOrder(order.order, order.items, dbFault, commit);
      ghost var w1, tail := World(rest), [];
      if err.Some? {
        ghost var first := if err.value != Fault then Done(q) else if w1.tables == w.tables then Failed else Outcome.LostAck;
        var reason := ErrorText(err.value);
        assert CallWorker(w, Received(m), first) == (w1, Refused(m, order, reason));
        ok, tail := Refuse(m, order, reason, calls, q, rest);
        trace := [first] + tail;
        NextCall(w, Received(m), first, tail);
        return;
      }
      assert CallWorker(w, Received(m), Done(q)) == (w1, Reserved(m, order));
      ok, tail := Conclude(m, order, calls, q, rest);
      trace := [Done(q)] + tail;
      NextCall(w, Received(m), Done(q), tail);
    }

    /** The calls after a refusal: publish the failure, commit the offset. */
    method Refuse(m: Msg, order: OrderPayload, reason: string, calls: nat -> CallResult, q: nat, ghost rest: World)
      returns (ok: bool, ghost trace: seq<Outcome>)
      modifies this`offsets, this`log, this`nextId
      ensures var r := MakeCalls(old(World(rest)), Refused(m, order, reason), trace); r.0 == World(rest) && EndsAs(r.1, ok, calls)
      ensures Unbroken(old(World(rest)), Refused(m, order, reason), trace)
      ensures ok ==> offsets == CommitTo(old(offsets), m) && q < |old(log)|
                     && log == Append(old(log), q, Event(old(nextId), InventoryReservationFailed, EncodeResult(order.order, order.user, reason)))
      ensures !ok ==> !AllWork(calls) || q >= |old(log)|
    {
      ghost var w := World(rest);
      ok := PublishResult(InventoryReservationFailed, order, reason, q, calls(0));
      ghost var w1, first := World(rest), Answer(calls(0), q);
      if !ok {
        NextCall(w, Refused(m, order, reason), first, []);
        return false, [first] + [];
      }
      assert CallWorker(w, Refused(m, order, reason), first) == (w1, Reported(m, order));
      ok := Commit(m, calls(1));
      trace := [first] + ([Answer(calls(1), q)] + []);
      NextCall(w, Refused(m, order, reason), first, [Answer(calls(1), q)] + []);
      NextCall(w1, Reported(m, order), Answer(calls(1), q), []);
    }

    /** The calls after a reservation: mark, commit the offset, publish. */
    method Conclude(m: Msg, order: OrderPayload, calls: nat -> CallResult, q: nat, ghost rest: World)
      returns (ok: bool, ghost trace: seq<Outcome>)
      modifies this`offsets, this`log, this`nextId, repository`processed
      ensures var r := MakeCalls(old(World(rest)), Reserved(m, order), trace); r.0 == World(rest) && EndsAs(r.1, ok, calls)
      ensures Unbroken(old(World(rest)), Reserved(m, order), trace)
      ensures ok ==> repository.processed == old(repository.processed) + {m.event.id}
      ensures ok ==> offsets == CommitTo(old(offsets), m) && q < |old(log)|
                     && log == Append(old(log), q, Event(old(nextId), InventoryReserved, EncodeResult(order.order, order.user, "")))
      ensures !ok ==> !AllWork(calls) || q >= |old(log)|
    {
      ghost var w := World(rest);
      var marked := repository.MarkEventProcessed(m.event.id, calls(0));
      if marked.Failure? {
        NextCall(w, Reserved(m, order), Answer(calls(0), q), []);
        return false, [Answer(calls(0), q)] + [];
      }
      ghost var w1, tail := World(rest), [];
      assert CallWorker(w, Reserved(m, order), Done(q)) == (w1, Marked(m, order));
      ok, tail := CommitAndPublish(m, order, calls, q, rest);
      trace := [Done(q)] + tail;
      NextCall(w, Reserved(m, order), Done(q), tail);
    }

    method CommitAndPublish(m: Msg, order: OrderPayload, calls: nat -> CallResult, q: nat, ghost rest: World)
      returns (ok: bool, ghost trace: seq<Outcome>)
      modifies this`offsets, this`log, this`nextId
      ensures var r := MakeCalls(old(World(rest)), Marked(m, order), trace); r.0 == World(rest) && EndsAs(r.1, ok, calls)
      ensures Unbroken(old(World(rest)), Marked(m, order), trace)
      ensures ok ==> offsets == CommitTo(old(offsets), m) && q < |old(log)|
                     && log == Append(old(log), q, Event(old(nextId), InventoryReserved, EncodeResult(order.order, order.user, "")))
      ensures !ok ==> !AllWork(calls) || q >= |old(log)|
    {
      ghost var w := World(rest);
      ok := Commit(m, calls(1));
      ghost var w1, first := World(rest), Answer(calls(1), q);
      if !ok {
        NextCall(w, Marked(m, order), first, []);
        return false, [first] + [];
      }
      assert CallWorker(w, Marked(m, order), first) == (w1, Acknowledged(m, order));
      ok := PublishResult(InventoryReserved, order, "", q, calls(2));
      trace := [first] + ([Answer(calls(2), q)] + []);
      NextCall(w, Marked(m, order), first, [Answer(calls(2), q)] + []);
      NextCall(w1, Acknowledged(m, order), Answer(calls(2), q), []);
    }
  }
}
