/**
 At-least-once delivery from a partitioned log: a member of a consumer group fetches each partition
 it owns in offset order, keeps fetched messages in one FIFO, and commits an offset only for the
 message at the head.  `done` is the set of messages whose work is finished; it only grows.
 */
module Delivery {

  datatype Slot = Slot(partition: nat, offset: nat)

  /** The fetch positions of a member and the messages it holds, oldest first. */
  datatype Pipe = Pipe(positions: map<nat, nat>, pending: seq<Slot>)

  ghost predicate Covered(done: iset<Slot>, held: seq<Slot>, p: nat, bound: nat) {
    forall k: nat | k < bound :: Slot(p, k) in done || Slot(p, k) in held
  }

  /** Everything before a fetch position is done or held; everything before a held message in its
      partition is done or held in front of it. */
  ghost predicate PipeOk(done: iset<Slot>, pipe: Pipe) {
    && (forall p | p in pipe.positions :: Covered(done, pipe.pending, p, pipe.positions[p]))
    && (forall j | 0 <= j < |pipe.pending| ::
          Covered(done, pipe.pending[..j], pipe.pending[j].partition, pipe.pending[j].offset))
  }

  ghost predicate OffsetsOk(done: iset<Slot>, offsets: seq<nat>) {
    forall p: nat | p < |offsets| :: Covered(done, [], p, offsets[p])
  }

  lemma MoreDone(done: iset<Slot>, done': iset<Slot>, pipe: Pipe)
    requires PipeOk(done, pipe) && done <= done'
    ensures PipeOk(done', pipe)
  {
  }

  lemma AssignKeeps(done: iset<Slot>, pipe: Pipe, p: nat, committed: nat)
    requires PipeOk(done, pipe) && Covered(done, [], p, committed)
    ensures PipeOk(done, pipe.(positions := pipe.positions[p := committed]))
  {
  }

  lemma RevokeKeeps(done: iset<Slot>, pipe: Pipe, p: nat)
    requires PipeOk(done, pipe)
    ensures PipeOk(done, pipe.(positions := pipe.positions - {p}))
  {
  }

  lemma FetchKeeps(done: iset<Slot>, pipe: Pipe, p: nat)
    requires PipeOk(done, pipe) && p in pipe.positions
    ensures PipeOk(done, Pipe(pipe.positions[p := pipe.positions[p] + 1], pipe.pending + [Slot(p, pipe.positions[p])]))
  {
    var k := pipe.positions[p];
    var pending' := pipe.pending + [Slot(p, k)];
    assert pending'[|pipe.pending|] == Slot(p, k);
    forall j | 0 <= j < |pending'|
      ensures Covered(done, pending'[..j], pending'[j].partition, pending'[j].offset)
    {
      if j < |pipe.pending| {
        assert pending'[..j] == pipe.pending[..j];
      } else {
        assert pending'[..j] == pipe.pending;
      }
    }
  }

  lemma FinishKeeps(done: iset<Slot>, pipe: Pipe)
    requires PipeOk(done, pipe) && pipe.pending != [] && pipe.pending[0] in done
    ensures PipeOk(done, pipe.(pending := pipe.pending[1..]))
  {
    var rest := pipe.pending[1..];
    assert pipe.pending == [pipe.pending[0]] + rest;
    forall j | 0 <= j < |rest| ensures Covered(done, rest[..j], rest[j].partition, rest[j].offset) {
      assert pipe.pending[..j + 1] == [pipe.pending[0]] + rest[..j];
      assert rest[j] == pipe.pending[j + 1];
    }
  }

  /** Committing past the head of the FIFO skips nothing, once the head is done. */
  lemma CommitKeeps(done: iset<Slot>, pipe: Pipe, offsets: seq<nat>)
    requires PipeOk(done, pipe) && OffsetsOk(done, offsets)
    requires pipe.pending != [] && pipe.pending[0] in done && pipe.pending[0].partition < |offsets|
    ensures OffsetsOk(done, offsets[pipe.pending[0].partition := pipe.pending[0].offset + 1])
  {
    assert pipe.pending[..0] == [];
  }
}
