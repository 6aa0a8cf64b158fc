/**
 Hand-over of partitions.  When a partition is only assigned while nobody holds it or a message of it,
 committed offsets never go back, nobody holds a message below them, and no two workers hold messages of one
 partition, over all crashes and redeliveries.
 */
module SagaExclusive {
  import opened Basics
  import opened Events
  import opened Delivery
  import opened Services
  import opened Saga
  import D = SagaDelivery

  /** The messages a worker has fetched and not committed, oldest first. */
  function Held(k: Worker): seq<Slot> {
    D.Slots(D.Current(k.pc) + k.queue)
  }

  ghost predicate Holds(k: Worker, p: nat) {
    p in k.positions || exists j :: 0 <= j < |Held(k)| && Held(k)[j].partition == p
  }

  ghost predicate Free(s: State, p: nat) {
    forall i | i in s.workers :: !Holds(s.workers[i], p)
  }

  /** Partitions of the order topic are handed over only when they are free. */
  ghost predicate Exclusive(m: nat, n: nat, schedule: seq<Action>) {
    forall k | 0 <= k < |schedule| && schedule[k].Assign? ::
      Free(Run(m, n, schedule[..k]), schedule[k].partition)
  }

  /** A worker or consumer from which a partition has been taken fetches nothing more of it. */
  lemma RevokedFetchesNothing(s: State, i: nat, p: nat)
    ensures Step(Step(s, Revoke(i, p)), Fetch(i, p)) == Step(s, Revoke(i, p))
    ensures Step(Step(s, RevokeC(i, p)), FetchC(i, p)) == Step(s, RevokeC(i, p))
  {
  }

  /******* The invariant *******/

  /** A worker holds only uncommitted messages, each partition in increasing order. */
  ghost predicate HeldOk(offsets: seq<nat>, positions: map<nat, nat>, held: seq<Slot>) {
    && (forall p | p in positions :: p < |offsets| && offsets[p] <= positions[p])
    && (forall j | 0 <= j < |held| ::
          held[j].partition < |offsets| && offsets[held[j].partition] <= held[j].offset
          && (held[j].partition in positions ==> held[j].offset < positions[held[j].partition]))
    && (forall j, l | 0 <= j < l < |held| :: held[j].partition == held[l].partition ==> held[j].offset < held[l].offset)
  }

  ghost predicate Below(offsets: seq<nat>, x: Slot) {
    x.partition < |offsets| && x.offset < offsets[x.partition]
  }

  ghost predicate WorkersOk(offsets: seq<nat>, workers: map<nat, Worker>) {
    && (forall i | i in workers :: HeldOk(offsets, workers[i].positions, Held(workers[i])))
    && (forall i, j, p: nat | i in workers && j in workers && i != j && Holds(workers[i], p) :: !Holds(workers[j], p))
  }

  /** Workers about to publish InventoryReserved: each for a committed message of its own. */
  ghost predicate PublishersOk(offsets: seq<nat>, workers: map<nat, Worker>, origins: map<EventId, Slot>) {
    && (forall i | i in workers && workers[i].pc.Acknowledged? ::
          Below(offsets, D.SlotOf(workers[i].pc.m)) && forall e | e in origins :: origins[e] != D.SlotOf(workers[i].pc.m))
    && (forall i, j | i in workers && j in workers && i != j && workers[i].pc.Acknowledged? && workers[j].pc.Acknowledged? ::
          D.SlotOf(workers[i].pc.m) != D.SlotOf(workers[j].pc.m))
  }

  ghost predicate OriginsOk(offsets: seq<nat>, origins: map<EventId, Slot>, nextId: EventId) {
    && (forall e | e in origins :: e < nextId && Below(offsets, origins[e]))
    && (forall e, f | e in origins && f in origins && e != f :: origins[e] != origins[f])
  }

  ghost predicate Inv(s: State) {
    && WorkersOk(s.w.orderOffsets, s.workers)
    && PublishersOk(s.w.orderOffsets, s.workers, s.origins)
    && OriginsOk(s.w.orderOffsets, s.origins, s.w.nextId)
  }

  /******* Steps *******/

  /** A worker that holds no more than before and is not about to publish. */
  lemma Narrow(offsets: seq<nat>, workers: map<nat, Worker>, origins: map<EventId, Slot>, i: nat, k: Worker)
    requires WorkersOk(offsets, workers) && PublishersOk(offsets, workers, origins) && i in workers
    requires HeldOk(offsets, k.positions, Held(k))
    requires forall p: nat | Holds(k, p) :: Holds(workers[i], p)
    requires k.pc.Acknowledged? ==> k.pc == workers[i].pc
    ensures WorkersOk(offsets, workers[i := k]) && PublishersOk(offsets, workers[i := k], origins)
  {
  }

  lemma AssignHeld(offsets: seq<nat>, k: Worker, p: nat)
    requires HeldOk(offsets, k.positions, Held(k)) && p < |offsets| && !Holds(k, p)
    ensures var k' := k.(positions := k.positions[p := offsets[p]]);
            HeldOk(offsets, k'.positions, Held(k')) && forall q: nat | Holds(k', q) :: q == p || Holds(k, q)
  {
    var k' := k.(positions := k.positions[p := offsets[p]]);
    assert Held(k') == Held(k);
    forall q: nat | Holds(k', q) ensures q == p || Holds(k, q) {}
  }

  lemma FreeWorker(s: State, i: nat, p: nat)
    requires Inv(s) && Free(s, p)
    ensures !Holds(WorkerAt(s, i), p) && HeldOk(s.w.orderOffsets, WorkerAt(s, i).positions, Held(WorkerAt(s, i)))
  {
    assert Held(Worker(map[], [], Idle)) == [];
  }

  lemma AssignKeeps(s: State, i: nat, p: nat)
    requires Inv(s) && Free(s, p) && p < |s.w.orderOffsets|
    ensures Inv(AssignStep(s, i, p))
  {
    var k, offsets := WorkerAt(s, i), s.w.orderOffsets;
    FreeWorker(s, i, p);
    AssignHeld(offsets, k, p);
    var k' := k.(positions := k.positions[p := offsets[p]]);
    AssignMap(offsets, s.workers, s.origins, i, p, k, k');
    assert AssignStep(s, i, p) == s.(workers := s.workers[i := k']);
  }

  lemma AssignMap(offsets: seq<nat>, workers: map<nat, Worker>, origins: map<EventId, Slot>, i: nat, p: nat, k: Worker, k': Worker)
    requires WorkersOk(offsets, workers) && PublishersOk(offsets, workers, origins)
    requires forall j | j in workers :: !Holds(workers[j], p)
    requires k == if i in workers then workers[i] else Worker(map[], [], Idle)
    requires HeldOk(offsets, k'.positions, Held(k')) && k'.pc == k.pc && forall q: nat | Holds(k', q) :: q == p || Holds(k, q)
    ensures WorkersOk(offsets, workers[i := k']) && PublishersOk(offsets, workers[i := k'], origins)
  {
    assert i !in workers ==> Held(k) == [] && forall q: nat :: !Holds(k, q);
  }

  lemma RevokeHeld(offsets: seq<nat>, k: Worker, p: nat)
    requires HeldOk(offsets, k.positions, Held(k))
    ensures var k' := k.(positions := k.positions - {p});
            HeldOk(offsets, k'.positions, Held(k')) && forall q: nat | Holds(k', q) :: Holds(k, q)
  {
    var k' := k.(positions := k.positions - {p});
    assert Held(k') == Held(k);
    forall q: nat | Holds(k', q) ensures Holds(k, q) {}
  }

  lemma RevokeKeeps(s: State, i: nat, p: nat)
    requires Inv(s) && i in s.workers
    ensures Inv(Step(s, Revoke(i, p)))
  {
    var k := s.workers[i];
    RevokeHeld(s.w.orderOffsets, k, p);
    Narrow(s.w.orderOffsets, s.workers, s.origins, i, k.(positions := k.positions - {p}));
  }

  lemma FetchHeld(offsets: seq<nat>, k: Worker, k': Worker, p: nat, msg: Msg)
    requires HeldOk(offsets, k.positions, Held(k)) && p in k.positions
    requires msg.partition == p && msg.offset == k.positions[p]
    requires k' == Worker(k.positions[p := k.positions[p] + 1], k.queue + [msg], k.pc)
    ensures HeldOk(offsets, k'.positions, Held(k')) && forall q: nat | Holds(k', q) :: Holds(k, q)
  {
    var held, held' := D.Current(k.pc) + k.queue, D.Current(k'.pc) + k'.queue;
    assert held' == held + [msg];
    assert Held(k') == Held(k) + [Slot(p, k.positions[p])];
    forall q: nat | Holds(k', q) ensures Holds(k, q) {
      if q !in k'.positions {
        var j :| 0 <= j < |Held(k')| && Held(k')[j].partition == q;
        assert j < |Held(k)| ==> Held(k)[j].partition == q;
      }
    }
  }

  lemma FetchKeeps(s: State, i: nat, p: nat)
    requires Inv(s)
    ensures Inv(FetchStep(s, i, p))
  {
    var k, s' := WorkerAt(s, i), FetchStep(s, i, p);
    if s' != s {
      FetchHeld(s.w.orderOffsets, k, s'.workers[i], p, s'.workers[i].queue[|k.queue|]);
      Narrow(s.w.orderOffsets, s.workers, s.origins, i, s'.workers[i]);
    }
  }

  /** Same messages held, not about to publish. */
  lemma SameHeld(s: State, i: nat, k: Worker)
    requires Inv(s) && i in s.workers && Held(k) == Held(s.workers[i]) && k.positions == s.workers[i].positions
    requires !k.pc.Acknowledged?
    ensures WorkersOk(s.w.orderOffsets, s.workers[i := k]) && PublishersOk(s.w.orderOffsets, s.workers[i := k], s.origins)
  {
    forall p: nat | Holds(k, p) ensures Holds(s.workers[i], p) {}
    Narrow(s.w.orderOffsets, s.workers, s.origins, i, k);
  }

  lemma RemoveKeeps(s: State, i: nat)
    requires Inv(s)
    ensures WorkersOk(s.w.orderOffsets, s.workers - {i}) && PublishersOk(s.w.orderOffsets, s.workers - {i}, s.origins)
  {
  }

  /** Committing the oldest held message: it is the smallest of its partition, and nobody else holds
      anything of that partition. */
  lemma CommitHeld(offsets: seq<nat>, offsets': seq<nat>, k: Worker, k': Worker)
    requires HeldOk(offsets, k.positions, Held(k)) && Held(k) != [] && k'.positions == k.positions
    requires Held(k') == Held(k)[1..]
    requires Held(k)[0].partition < |offsets| && offsets' == offsets[Held(k)[0].partition := Held(k)[0].offset + 1]
    ensures HeldOk(offsets', k'.positions, Held(k'))
    ensures forall p: nat | Holds(k', p) :: Holds(k, p)
    ensures forall p: nat | p < |offsets| :: offsets[p] <= offsets'[p]
  {
    var held, held' := Held(k), Held(k');
    forall j | 0 <= j < |held'| ensures held'[j] == held[j + 1] {}
    forall p: nat | Holds(k', p) ensures Holds(k, p) {
      if p !in k'.positions {
        var j :| 0 <= j < |held'| && held'[j].partition == p;
        assert held[j + 1].partition == p;
      }
    }
  }

  lemma OthersUnmoved(offsets: seq<nat>, offsets': seq<nat>, k: Worker, p: nat)
    requires HeldOk(offsets, k.positions, Held(k)) && !Holds(k, p) && |offsets'| == |offsets|
    requires forall q: nat | q < |offsets| && q != p :: offsets'[q] == offsets[q]
    ensures HeldOk(offsets', k.positions, Held(k))
  {
  }

  lemma CommitKeeps(s: State, i: nat, offsets': seq<nat>, k': Worker)
    requires Inv(s) && i in s.workers && Held(s.workers[i]) != [] && Held(k') == Held(s.workers[i])[1..]
    requires var x := Held(s.workers[i])[0];
             && k'.positions == s.workers[i].positions && x.partition < |s.w.orderOffsets|
             && offsets' == s.w.orderOffsets[x.partition := x.offset + 1]
             && (k'.pc.Acknowledged? ==> D.SlotOf(k'.pc.m) == x)
    ensures WorkersOk(offsets', s.workers[i := k']) && PublishersOk(offsets', s.workers[i := k'], s.origins)
    ensures OriginsOk(offsets', s.origins, s.w.nextId)
  {
    var offsets, x := s.w.orderOffsets, Held(s.workers[i])[0];
    CommitHeld(offsets, offsets', s.workers[i], k');
    assert offsets[x.partition] <= x.offset;
    CommitWorkers(offsets, offsets', s.workers, i, x, k');
    CommitRecords(offsets, offsets', s.workers, s.origins, s.w.nextId, i, x, k');
  }

  lemma CommitWorkers(offsets: seq<nat>, offsets': seq<nat>, workers: map<nat, Worker>, i: nat, x: Slot, k': Worker)
    requires WorkersOk(offsets, workers) && i in workers && Held(workers[i]) != [] && Held(workers[i])[0] == x
    requires x.partition < |offsets| && offsets' == offsets[x.partition := x.offset + 1]
    requires HeldOk(offsets', k'.positions, Held(k')) && forall p: nat | Holds(k', p) :: Holds(workers[i], p)
    ensures WorkersOk(offsets', workers[i := k'])
  {
    assert Holds(workers[i], x.partition);
    forall j | j in workers && j != i ensures HeldOk(offsets', workers[j].positions, Held(workers[j])) {
      OthersUnmoved(offsets, offsets', workers[j], x.partition);
    }
  }

  /** The commit puts `x` below its offset, where no other publisher and no origin has it. */
  lemma CommitRecords(offsets: seq<nat>, offsets': seq<nat>, workers: map<nat, Worker>, origins: map<EventId, Slot>, nextId: EventId,
                      i: nat, x: Slot, k': Worker)
    requires PublishersOk(offsets, workers, origins) && OriginsOk(offsets, origins, nextId) && i in workers
    requires x.partition < |offsets| && offsets[x.partition] <= x.offset && offsets' == offsets[x.partition := x.offset + 1]
    requires k'.pc.Acknowledged? ==> D.SlotOf(k'.pc.m) == x
    ensures PublishersOk(offsets', workers[i := k'], origins) && OriginsOk(offsets', origins, nextId)
  {
    forall y | Below(offsets, y) ensures Below(offsets', y) && y != x {}
  }

  lemma TakeKeeps(s: State, i: nat, call: Outcome)
    requires Inv(s) && i in s.workers && s.workers[i].pc.Idle? && s.workers[i].queue != []
    ensures Inv(WorkStep(s, i, call))
  {
    var k := s.workers[i];
    var k' := k.(queue := k.queue[1..], pc := Received(k.queue[0]));
    assert D.Current(k'.pc) + k'.queue == D.Current(k.pc) + k.queue;
    SameHeld(s, i, k');
  }

  lemma PublishFields(s: State, i: nat, call: Outcome)
    requires i in s.workers && s.workers[i].pc.Acknowledged?
    ensures var k, s' := s.workers[i], WorkStep(s, i, call);
            && s'.w.orderOffsets == s.w.orderOffsets
            && (i in s'.workers ==>
                  && s'.workers == s.workers[i := k.(pc := Idle)] && Held(k.(pc := Idle)) == Held(k)
                  && s'.origins == s.origins[s.w.nextId := D.SlotOf(k.pc.m)] && s'.w.nextId == s.w.nextId + 1)
            && (i !in s'.workers ==> s'.workers == s.workers - {i} && s'.origins == s.origins && s.w.nextId <= s'.w.nextId)
  {
  }

  /** The publish of InventoryReserved. */
  lemma PublishKeeps(s: State, i: nat, call: Outcome)
    requires Inv(s) && i in s.workers && s.workers[i].pc.Acknowledged?
    ensures Inv(WorkStep(s, i, call))
  {
    PublishFields(s, i, call);
    if i in WorkStep(s, i, call).workers {
      SameHeld(s, i, s.workers[i].(pc := Idle));
      PublishRecords(s.w.orderOffsets, s.workers, s.origins, s.w.nextId, i);
    } else {
      RemoveKeeps(s, i);
    }
  }

  lemma PublishRecords(offsets: seq<nat>, workers: map<nat, Worker>, origins: map<EventId, Slot>, nextId: EventId, i: nat)
    requires PublishersOk(offsets, workers, origins) && OriginsOk(offsets, origins, nextId)
    requires i in workers && workers[i].pc.Acknowledged?
    ensures var x := D.SlotOf(workers[i].pc.m);
            && PublishersOk(offsets, workers[i := workers[i].(pc := Idle)], origins[nextId := x])
            && OriginsOk(offsets, origins[nextId := x], nextId + 1)
  {
  }

  predicate Commits(pc: WorkerPc) {
    pc.Reported? || pc.Marked? || (pc.Received? && pc.m.event.kind != OrderCreated)
  }

  lemma CommitCall(w: World, pc: WorkerPc, call: Outcome)
    requires Commits(pc) && pc.m.partition < |w.orderOffsets|
    ensures var (w', pc') := CallWorker(w, pc, call);
            if pc'.Stopped? then w' == w
            else
              && w'.nextId == w.nextId && w'.orderOffsets == w.orderOffsets[pc.m.partition := pc.m.offset + 1]
              && D.Current(pc') == [] && (pc'.Acknowledged? ==> pc'.m == pc.m)
              && (pc.Marked? ==> pc' == Acknowledged(pc.m, pc.order))
  {
  }

  lemma HeldAfterCommit(k: Worker, pc': WorkerPc)
    requires Commits(k.pc) && D.Current(pc') == []
    ensures Held(k) == [D.SlotOf(k.pc.m)] + Held(k.(pc := pc'))
  {
    assert D.Current(k.pc) + k.queue == [k.pc.m] + k.queue;
    assert D.Current(pc') + k.queue == k.queue;
  }

  lemma CommitStep(s: State, i: nat, call: Outcome)
    requires Inv(s) && i in s.workers && Commits(s.workers[i].pc)
    ensures Inv(WorkStep(s, i, call))
  {
    var k := s.workers[i];
    var (w', pc') := CallWorker(s.w, k.pc, call);
    HeldAfterCommit(k, Idle);
    assert HeldOk(s.w.orderOffsets, k.positions, Held(k)) && Held(k)[0] == D.SlotOf(k.pc.m);
    CommitCall(s.w, k.pc, call);
    if pc'.Stopped? {
      RemoveKeeps(s, i);
    } else {
      HeldAfterCommit(k, pc');
      CommitKeeps(s, i, w'.orderOffsets, k.(pc := pc'));
    }
  }

  lemma PlainCall(s: State, i: nat, call: Outcome)
    requires Inv(s) && i in s.workers
    requires var pc := s.workers[i].pc; !pc.Idle? && !pc.Acknowledged? && !Commits(pc)
    ensures Inv(WorkStep(s, i, call))
  {
    var k, s' := s.workers[i], WorkStep(s, i, call);
    assert s'.w.orderOffsets == s.w.orderOffsets && s'.origins == s.origins && s.w.nextId <= s'.w.nextId;
    if i in s'.workers {
      var k' := s'.workers[i];
      assert D.Current(k'.pc) == D.Current(k.pc) && Held(k') == Held(k);
      SameHeld(s, i, k');
      assert s'.workers == s.workers[i := k'];
    } else {
      RemoveKeeps(s, i);
    }
  }

  lemma WorkKeeps(s: State, i: nat, call: Outcome)
    requires Inv(s) && i in s.workers
    ensures Inv(WorkStep(s, i, call))
  {
    if s.workers[i].pc.Idle? {
      if s.workers[i].queue != [] { TakeKeeps(s, i, call); }
    } else if s.workers[i].pc.Acknowledged? {
      PublishKeeps(s, i, call);
    } else if Commits(s.workers[i].pc) {
      CommitStep(s, i, call);
    } else {
      PlainCall(s, i, call);
    }
  }

  /** Steps that do not concern the workers. */
  lemma OtherFields(s: State, a: Action)
    requires !D.WorkerAction(a)
    ensures var s' := Step(s, a);
            s'.workers == s.workers && s'.origins == s.origins && s'.w.orderOffsets == s.w.orderOffsets && s.w.nextId <= s'.w.nextId
  {
    if a.WorkC? { WorkCFields(s, a.i, a.call); }
  }

  lemma WorkCFields(s: State, i: nat, call: Outcome)
    ensures var s' := WorkCStep(s, i, call);
            s'.workers == s.workers && s'.origins == s.origins && s'.w.orderOffsets == s.w.orderOffsets && s.w.nextId <= s'.w.nextId
  {
  }

  lemma OtherKeeps(s: State, s': State)
    requires Inv(s)
    requires s'.workers == s.workers && s'.origins == s.origins && s'.w.orderOffsets == s.w.orderOffsets && s.w.nextId <= s'.w.nextId
    ensures Inv(s')
  {
  }

  lemma StepKeeps(s: State, a: Action)
    requires Inv(s) && (a.Assign? ==> Free(s, a.partition))
    ensures Inv(Step(s, a))
  {
    if D.WorkerAction(a) {
      match a
      case Assign(i, p) => if p < |s.w.orderOffsets| { AssignKeeps(s, i, p); }
      case Revoke(i, p) => if i in s.workers { RevokeKeeps(s, i, p); }
      case Fetch(i, p) => FetchKeeps(s, i, p);
      case Work(i, call) => if i in s.workers { WorkKeeps(s, i, call); }
      case Crash(i) => RemoveKeeps(s, i);
    } else {
      OtherFields(s, a);
      OtherKeeps(s, Step(s, a));
    }
  }

  lemma {:induction false} RunKeeps(m: nat, n: nat, schedule: seq<Action>)
    requires Exclusive(m, n, schedule)
    ensures Inv(Run(m, n, schedule))
  {
    if schedule != [] {
      var before := schedule[..|schedule| - 1];
      forall k | 0 <= k < |before| && before[k].Assign? ensures Free(Run(m, n, before[..k]), before[k].partition) {
        assert before[..k] == schedule[..k] && before[k] == schedule[k];
      }
      RunKeeps(m, n, before);
      StepKeeps(Run(m, n, before), schedule[|schedule| - 1]);
    }
  }

  lemma ExclusivePrefix(m: nat, n: nat, schedule: seq<Action>, k: nat)
    requires Exclusive(m, n, schedule) && k <= |schedule|
    ensures Exclusive(m, n, schedule[..k])
  {
    forall j | 0 <= j < k && schedule[j].Assign? ensures Free(Run(m, n, schedule[..k][..j]), schedule[..k][j].partition) {
      assert schedule[..k][..j] == schedule[..j];
    }
  }

  /******* Handing a partition over *******/

  lemma RevokeFrees(s: State, i: nat, p: nat)
    requires Inv(s) && i in s.workers && p in s.workers[i].positions
    requires forall j | 0 <= j < |Held(s.workers[i])| :: Held(s.workers[i])[j].partition != p
    ensures Free(Step(s, Revoke(i, p)), p)
  {
    var s' := Step(s, Revoke(i, p));
    assert Holds(s.workers[i], p);
    forall j | j in s'.workers ensures !Holds(s'.workers[j], p) {
      if j == i {
        assert Held(s'.workers[i]) == Held(s.workers[i]);
      }
    }
  }

  lemma ExclusiveNext(m: nat, n: nat, before: seq<Action>, a: Action)
    requires Exclusive(m, n, before) && (a.Assign? ==> Free(Run(m, n, before), a.partition))
    ensures Exclusive(m, n, before + [a]) && Run(m, n, before + [a]) == Step(Run(m, n, before), a)
  {
    var schedule := before + [a];
    assert schedule[..|before|] == before;
    forall k | 0 <= k < |schedule| && schedule[k].Assign? ensures Free(Run(m, n, schedule[..k]), schedule[k].partition) {
      if k < |before| {
        assert schedule[..k] == before[..k] && schedule[k] == before[k];
      }
    }
  }

  lemma HandOverStep(s: State, i: nat, j: nat, p: nat)
    requires i in s.workers && p < |s.w.orderOffsets|
    ensures var t := Step(Step(s, Revoke(i, p)), Assign(j, p));
            && j in t.workers && p in t.workers[j].positions && t.workers[j].positions[p] == s.w.orderOffsets[p]
            && (i != j && i in t.workers ==> p !in t.workers[i].positions)
  {
    var s1 := Step(s, Revoke(i, p));
    assert i in s1.workers && p !in s1.workers[i].positions && s1.w == s.w;
  }

  /** After any exclusive run, a partition of which its owner holds no message can be taken from it and given to
      any worker: the run stays exclusive, and the new owner starts at the committed offset. */
  lemma HandOver(m: nat, n: nat, schedule: seq<Action>, i: nat, j: nat, p: nat)
    requires Exclusive(m, n, schedule)
    requires var s := Run(m, n, schedule);
             && i in s.workers && p in s.workers[i].positions && p < |s.w.orderOffsets|
             && forall l | 0 <= l < |Held(s.workers[i])| :: Held(s.workers[i])[l].partition != p
    ensures Exclusive(m, n, schedule + [Revoke(i, p)] + [Assign(j, p)])
    ensures var s, t := Run(m, n, schedule), Run(m, n, schedule + [Revoke(i, p)] + [Assign(j, p)]);
            && j in t.workers && p in t.workers[j].positions && t.workers[j].positions[p] == s.w.orderOffsets[p]
            && (i != j && i in t.workers ==> p !in t.workers[i].positions)
  {
    RunKeeps(m, n, schedule);
    RevokeFrees(Run(m, n, schedule), i, p);
    ExclusiveNext(m, n, schedule, Revoke(i, p));
    ExclusiveNext(m, n, schedule + [Revoke(i, p)], Assign(j, p));
    HandOverStep(Run(m, n, schedule), i, j, p);
  }
}
