/**
 The WebSocket hub: the nested map of each user's connections, changed in place under a lock, and
 broadcasts that write to a snapshot after the lock is released.
 */
module Hub {

  import opened Basics

  /** A connection is its identity. */
  type Conn = nat

  /******* What the nested map stands for *******/

  ghost predicate Registered(clients: map<UserId, set<Conn>>, u: UserId, c: Conn) {
    u in clients && c in clients[u]
  }

  ghost function Pairs(clients: map<UserId, set<Conn>>): iset<(UserId, Conn)> {
    iset u, c | Registered(clients, u, c) :: (u, c)
  }

  ghost predicate NoEmpty(clients: map<UserId, set<Conn>>) {
    forall u | u in clients :: clients[u] != {}
  }

  /** h.clients[u] */
  function Of(clients: map<UserId, set<Conn>>, u: UserId): set<Conn> {
    if u in clients then clients[u] else {}
  }

  function Added(clients: map<UserId, set<Conn>>, u: UserId, c: Conn): map<UserId, set<Conn>> {
    clients[u := Of(clients, u) + {c}]
  }

  function Removed(clients: map<UserId, set<Conn>>, u: UserId, c: Conn): map<UserId, set<Conn>> {
    if u !in clients then clients
    else if clients[u] - {c} == {} then clients - {u}
    else clients[u := clients[u] - {c}]
  }

  lemma AddedPairs(clients: map<UserId, set<Conn>>, u: UserId, c: Conn)
    requires NoEmpty(clients)
    ensures NoEmpty(Added(clients, u, c))
    ensures Pairs(Added(clients, u, c)) == Pairs(clients) + iset{(u, c)}
  {
    forall v, d ensures (v, d) in Pairs(Added(clients, u, c)) <==> (v, d) in Pairs(clients) || (v, d) == (u, c) {
    }
  }

  lemma RemovedPairs(clients: map<UserId, set<Conn>>, u: UserId, c: Conn)
    requires NoEmpty(clients)
    ensures NoEmpty(Removed(clients, u, c))
    ensures Pairs(Removed(clients, u, c)) == Pairs(clients) - iset{(u, c)}
  {
    forall v, d ensures (v, d) in Pairs(Removed(clients, u, c)) <==> (v, d) in Pairs(clients) && (v, d) != (u, c) {
      if u in clients {
        assert d in clients[u] && d != c ==> d in clients[u] - {c};
      }
    }
  }

  /** Without empty inner maps the pairs determine the nested map. */
  lemma PairsDetermine(a: map<UserId, set<Conn>>, b: map<UserId, set<Conn>>)
    requires NoEmpty(a) && NoEmpty(b) && Pairs(a) == Pairs(b)
    ensures a == b
  {
    forall u, c: Conn ensures Registered(a, u, c) <==> Registered(b, u, c) {
      assert (u, c) in Pairs(a) <==> (u, c) in Pairs(b);
    }
    forall u ensures u in a <==> u in b {
      if u in a {
        var c :| c in a[u];
        assert Registered(b, u, c);
      }
      if u in b {
        var c :| c in b[u];
        assert Registered(a, u, c);
      }
    }
    forall u | u in a ensures a[u] == b[u] {
      assert forall c :: c in a[u] <==> Registered(a, u, c);
    }
  }

  /******* The hub, used by one goroutine at a time *******/

  class Hub {
    var clients: map<UserId, set<Conn>>

    constructor ()
      ensures Valid() && Pairs(clients) == iset{}
    {
      clients := map[];
    }

    ghost predicate Valid()
      reads this
    {
      NoEmpty(clients)
    }

    method Add(u: UserId, c: Conn)
      requires Valid()
      modifies this
      ensures Valid() && Pairs(clients) == Pairs(old(clients)) + iset{(u, c)}
      ensures clients == Added(old(clients), u, c)
    {
      AddedPairs(clients, u, c);
      if u !in clients {
        clients := clients[u := {}];
      }
      clients := clients[u := clients[u] + {c}];
    }

    method Remove(u: UserId, c: Conn)
      requires Valid()
      modifies this
      ensures Valid() && Pairs(clients) == Pairs(old(clients)) - iset{(u, c)}
      ensures clients == Removed(old(clients), u, c)
    {
      RemovedPairs(clients, u, c);
      if u in clients {
        clients := clients[u := clients[u] - {c}];
        if clients[u] == {} {
          clients := clients - {u};
        }
      }
    }

    /** The copy taken under the read lock, in any order. */
    method Snapshot(u: UserId) returns (conns: seq<Conn>)
      ensures multiset(conns) == multiset(Of(clients, u))
    {
      conns := [];
      var left := Of(clients, u);
      while left != {}
        invariant left <= Of(clients, u)
        invariant multiset(conns) + multiset(left) == multiset(Of(clients, u))
      {
        var c :| c in left;
        conns := conns + [c];
        left := left - {c};
      }
    }

    /** Each of the user's connections is written once, and exactly the failing ones are removed and closed.
        `marshals` is whether the value can be encoded; `writes` which connections still work. */
    method Broadcast(u: UserId, marshals: bool, writes: Conn -> bool) returns (sent: seq<Conn>, closed: seq<Conn>)
      requires Valid()
      modifies this
      ensures Valid()
      ensures !marshals ==> clients == old(clients) && sent == [] && closed == []
      ensures marshals ==> multiset(sent) + multiset(closed) == multiset(Of(old(clients), u))
      ensures marshals ==> (forall c | c in sent :: writes(c)) && (forall c | c in closed :: !writes(c))
      ensures marshals ==> Pairs(clients) == iset p | p in Pairs(old(clients)) && (p.0 == u ==> writes(p.1))
    {
      sent, closed := [], [];
      if !marshals { return; }
      var conns := Snapshot(u);
      for i := 0 to |conns|
        invariant Valid()
        invariant Pairs(clients) == Pairs(old(clients)) - iset c | c in closed :: (u, c)
        invariant multiset(sent) + multiset(closed) == multiset(conns[..i])
        invariant (forall c | c in sent :: writes(c)) && (forall c | c in closed :: !writes(c))
      {
        assert conns[..i + 1] == conns[..i] + [conns[i]];
        if !writes(conns[i]) {
          Remove(u, conns[i]);
          closed := closed + [conns[i]];
        } else {
          sent := sent + [conns[i]];
        }
      }
      assert conns[..|conns|] == conns;
      forall c | Registered(old(clients), u, c) ensures c in closed <==> !writes(c) {
        assert c in multiset(conns);
      }
    }
  }

  /******* Many goroutines *******/

  /** A broadcast past its snapshot: the connections still to write, and the one whose write failed. */
  datatype Sender = Sender(user: UserId, left: seq<Conn>, failed: seq<Conn>)

  /** The hub over its nested map, or over the plain set of pairs. */
  datatype State<!R> = State(table: R, senders: map<nat, Sender>, written: seq<(UserId, Conn)>)

  datatype Action =
    | Add(user: UserId, conn: Conn)
    | Remove(user: UserId, conn: Conn)
    | Begin(sender: nat, to: UserId, order: seq<Conn>)  // the snapshot
    | Write(sender: nat, works: bool)                   // one WriteMessage
    | Drop(sender: nat)                                 // the removal after a failed write

  ghost predicate Lists(order: seq<Conn>, pairs: iset<(UserId, Conn)>, u: UserId) {
    && (forall i, j | 0 <= i < j < |order| :: order[i] != order[j])
    && forall c :: c in order <==> (u, c) in pairs
  }

  ghost predicate CanWrite(senders: map<nat, Sender>, b: nat) {
    b in senders && senders[b].failed == [] && senders[b].left != []
  }

  ghost predicate CanDrop(senders: map<nat, Sender>, b: nat) {
    b in senders && senders[b].failed != []
  }

  function AfterWrite(sender: Sender, works: bool): Sender
    requires sender.left != []
  {
    sender.(left := sender.left[1..], failed := if works then [] else [sender.left[0]])
  }

  function AfterDrop(sender: Sender): Sender {
    sender.(failed := [])
  }

  ghost function Step(s: State<map<UserId, set<Conn>>>, a: Action): State<map<UserId, set<Conn>>> {
    match a
    case Add(u, c) => s.(table := Added(s.table, u, c))
    case Remove(u, c) => s.(table := Removed(s.table, u, c))
    case Begin(b, u, order) =>
      if b in s.senders || multiset(order) != multiset(Of(s.table, u)) then s
      else s.(senders := s.senders[b := Sender(u, order, [])])
    case Write(b, works) =>
      if !CanWrite(s.senders, b) then s
      else s.(senders := s.senders[b := AfterWrite(s.senders[b], works)],
              written := s.written + [(s.senders[b].user, s.senders[b].left[0])])
    case Drop(b) =>
      if !CanDrop(s.senders, b) then s
      else s.(senders := s.senders[b := AfterDrop(s.senders[b])],
              table := Removed(s.table, s.senders[b].user, s.senders[b].failed[0]))
  }

  ghost function PlainStep(s: State<iset<(UserId, Conn)>>, a: Action): State<iset<(UserId, Conn)>> {
    match a
    case Add(u, c) => s.(table := s.table + iset{(u, c)})
    case Remove(u, c) => s.(table := s.table - iset{(u, c)})
    case Begin(b, u, order) =>
      if b in s.senders || !Lists(order, s.table, u) then s
      else s.(senders := s.senders[b := Sender(u, order, [])])
    case Write(b, works) =>
      if !CanWrite(s.senders, b) then s
      else s.(senders := s.senders[b := AfterWrite(s.senders[b], works)],
              written := s.written + [(s.senders[b].user, s.senders[b].left[0])])
    case Drop(b) =>
      if !CanDrop(s.senders, b) then s
      else s.(senders := s.senders[b := AfterDrop(s.senders[b])],
              table := s.table - iset{(s.senders[b].user, s.senders[b].failed[0])})
  }

  ghost function Run(schedule: seq<Action>): State<map<UserId, set<Conn>>> {
    if schedule == [] then State(map[], map[], [])
    else Step(Run(schedule[..|schedule| - 1]), schedule[|schedule| - 1])
  }

  ghost function PlainRun(schedule: seq<Action>): State<iset<(UserId, Conn)>> {
    if schedule == [] then State(iset{}, map[], [])
    else PlainStep(PlainRun(schedule[..|schedule| - 1]), schedule[|schedule| - 1])
  }

  ghost predicate Represents(s: State<map<UserId, set<Conn>>>, plain: State<iset<(UserId, Conn)>>) {
    NoEmpty(s.table) && plain == State(Pairs(s.table), s.senders, s.written)
  }

  lemma SnapshotLists(clients: map<UserId, set<Conn>>, order: seq<Conn>, u: UserId)
    ensures multiset(order) == multiset(Of(clients, u)) <==> Lists(order, Pairs(clients), u)
  {
    forall c ensures (u, c) in Pairs(clients) <==> c in Of(clients, u) {
    }
    if multiset(order) == multiset(Of(clients, u)) {
      forall c ensures c in order <==> c in Of(clients, u) {
        assert c in order <==> c in multiset(order);
      }
      forall i, j | 0 <= i < j < |order| ensures order[i] != order[j] {
        if order[i] == order[j] {
          RepeatCounts(order, i, j);
        }
      }
    }
    if Lists(order, Pairs(clients), u) {
      ListCounts(order);
      forall c ensures multiset(order)[c] == multiset(Of(clients, u))[c] {
        assert c in order <==> c in Of(clients, u);
        assert c in multiset(order) <==> c in order;
      }
    }
  }

  lemma RepeatCounts(order: seq<Conn>, i: nat, j: nat)
    requires i < j < |order| && order[i] == order[j]
    ensures multiset(order)[order[i]] >= 2
  {
    assert order == order[..j] + [order[j]] + order[j + 1..];
    assert order[i] in order[..j];
  }

  lemma {:induction false} ListCounts(order: seq<Conn>)
    requires forall i, j | 0 <= i < j < |order| :: order[i] != order[j]
    ensures forall c :: multiset(order)[c] <= 1
  {
    if order != [] {
      ListCounts(order[1..]);
      assert order == [order[0]] + order[1..];
      assert order[0] !in order[1..];
    }
  }

  lemma StepRefines(s: State<map<UserId, set<Conn>>>, plain: State<iset<(UserId, Conn)>>, a: Action)
    requires Represents(s, plain)
    ensures Represents(Step(s, a), PlainStep(plain, a))
  {
    match a
    case Add(u, c) => AddedPairs(s.table, u, c);
    case Remove(u, c) => RemovedPairs(s.table, u, c);
    case Begin(b, u, order) => SnapshotLists(s.table, order, u);
    case Write(_, _) =>
    case Drop(b) =>
      if CanDrop(s.senders, b) {
        RemovedPairs(s.table, s.senders[b].user, s.senders[b].failed[0]);
      }
  }

  /** On every interleaving the nested map is the plain set of pairs, without empty inner maps. */
  lemma {:induction false} HubRefinesPairs(schedule: seq<Action>)
    ensures NoEmpty(Run(schedule).table) && Pairs(Run(schedule).table) == PlainRun(schedule).table
    ensures Run(schedule).senders == PlainRun(schedule).senders && Run(schedule).written == PlainRun(schedule).written
  {
    if schedule != [] {
      var before := schedule[..|schedule| - 1];
      HubRefinesPairs(before);
      StepRefines(Run(before), PlainRun(before), schedule[|schedule| - 1]);
    } else {
      assert Pairs(map[]) == iset{};
    }
  }

  /******* Whom a broadcast may write to *******/

  ghost predicate WasRegistered(schedule: seq<Action>, u: UserId, c: Conn) {
    exists n | 0 <= n <= |schedule| :: (u, c) in PlainRun(schedule[..n]).table
  }

  ghost predicate SendersKnow(schedule: seq<Action>) {
    var s := PlainRun(schedule);
    && (forall b | b in s.senders :: Known(schedule, s.senders[b]))
    && (forall i | 0 <= i < |s.written| :: WasRegistered(schedule, s.written[i].0, s.written[i].1))
  }

  ghost predicate Known(schedule: seq<Action>, sender: Sender) {
    forall c | c in sender.left || c in sender.failed :: WasRegistered(schedule, sender.user, c)
  }

  lemma StillRegistered(before: seq<Action>, a: Action, u: UserId, c: Conn)
    requires WasRegistered(before, u, c)
    ensures WasRegistered(before + [a], u, c)
  {
    var n :| 0 <= n <= |before| && (u, c) in PlainRun(before[..n]).table;
    assert (before + [a])[..n] == before[..n];
  }

  /** Every connection a broadcast writes to, or is about to, was registered for its user at some
      earlier moment, though it may have been removed since. */
  lemma {:induction false} WritesGoToRegistered(schedule: seq<Action>)
    ensures SendersKnow(schedule)
  {
    if schedule != [] {
      var before, a := schedule[..|schedule| - 1], schedule[|schedule| - 1];
      WritesGoToRegistered(before);
      assert schedule == before + [a];
      forall u, c | WasRegistered(before, u, c) ensures WasRegistered(schedule, u, c) {
        StillRegistered(before, a, u, c);
      }
      var s := PlainRun(before);
      if a.Begin? {
        forall c | (a.to, c) in s.table ensures WasRegistered(schedule, a.to, c) {
          assert schedule[..|before|] == before;
        }
      }
    }
  }
}
