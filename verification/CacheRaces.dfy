/**
 The same cache under concurrency: every access to the database and to the cache is one step, deletions
 may fail or come late, and readers may be slow between their read and their fill.
 */
module CacheRaces {
  import opened Basics
  import opened ProductService

  /** A cache entry and where it came from: the version of the database its filling read saw. */
  datatype Filled = Filled(product: Product, filledAt: int, version: nat)

  /** A read in progress: it missed, or it has loaded a row and not filled the cache yet. */
  datatype Reader = Missed(id: int) | Loaded(id: int, product: Product, version: nat)

  /** A read answered from the cache. */
  datatype Hit = Hit(id: int, entry: Filled, at: int)

  /** `past` holds every version of the table; the last one is current. */
  datatype State = State(past: seq<map<int, Product>>, cache: map<int, Filled>, now: int, readers: map<nat, Reader>, hits: seq<Hit>)

  datatype Action =
    | Write(id: int, row: Option<Product>)  // an insert, update or delete of one row
    | Del(id: int)                          // a deletion that reaches the cache
    | Tick(elapsed: nat)
    | Lookup(r: nat, id: int)               // the cache Get of a read
    | Load(r: nat)                          // its database read after a miss
    | Fill(r: nat)                          // its cache Set
    | Abandon(r: nat)

  const INITIAL := State([map[]], map[], 0, map[], [])

  function Rows(s: State): map<int, Product> {
    if s.past == [] then map[] else s.past[|s.past| - 1]
  }

  function WriteRow(rows: map<int, Product>, id: int, row: Option<Product>): map<int, Product> {
    if row.Some? then rows[id := row.value] else rows - {id}
  }

  function Step(s: State, a: Action): State {
    match a
    case Write(id, row) => s.(past := s.past + [WriteRow(Rows(s), id, row)])
    case Del(id) => s.(cache := s.cache - {id})
    case Tick(elapsed) => s.(now := s.now + elapsed)
    case Lookup(r, id) =>
      if r in s.readers then s
      else if id in s.cache && s.now < s.cache[id].filledAt + TTL then
        s.(hits := s.hits + [Hit(id, s.cache[id], s.now)])
      else s.(readers := s.readers[r := Missed(id)])
    case Load(r) =>
      if r !in s.readers || !s.readers[r].Missed? then s
      else
        var id := s.readers[r].id;
        if id in Rows(s) && s.past != [] then
          s.(readers := s.readers[r := Loaded(id, Rows(s)[id], |s.past| - 1)])
        else s.(readers := s.readers - {r})
    case Fill(r) =>
      if r !in s.readers || !s.readers[r].Loaded? then s
      else
        var k := s.readers[r];
        s.(cache := s.cache[k.id := Filled(k.product, s.now, k.version)], readers := s.readers - {r})
    case Abandon(r) => s.(readers := s.readers - {r})
  }

  function Run(schedule: seq<Action>): State {
    if schedule == [] then INITIAL
    else Step(Run(schedule[..|schedule| - 1]), schedule[|schedule| - 1])
  }

  /******* Every hit was true once, and not long ago *******/

  ghost predicate Held(past: seq<map<int, Product>>, version: nat, id: int, product: Product) {
    version < |past| && id in past[version] && past[version][id] == product
  }

  ghost predicate Inv(s: State) {
    && s.past != []
    && (forall id | id in s.cache :: Held(s.past, s.cache[id].version, id, s.cache[id].product) && s.cache[id].filledAt <= s.now)
    && (forall r | r in s.readers && s.readers[r].Loaded? :: Held(s.past, s.readers[r].version, s.readers[r].id, s.readers[r].product))
    && (forall n | 0 <= n < |s.hits| ::
          Held(s.past, s.hits[n].entry.version, s.hits[n].id, s.hits[n].entry.product)
          && s.hits[n].entry.filledAt <= s.hits[n].at < s.hits[n].entry.filledAt + TTL)
  }

  lemma StepKeeps(s: State, a: Action)
    requires Inv(s)
    ensures Inv(Step(s, a))
  {
    if a.Write? {
      assert forall v, id, product | Held(s.past, v, id, product) :: Held(Step(s, a).past, v, id, product);
    }
  }

  lemma {:induction false} RunKeeps(schedule: seq<Action>)
    ensures Inv(Run(schedule))
  {
    if schedule != [] {
      RunKeeps(schedule[..|schedule| - 1]);
      StepKeeps(Run(schedule[..|schedule| - 1]), schedule[|schedule| - 1]);
    }
  }

  /** On every schedule, also with failed and late deletions: a hit is the row the database held when
      the filling read ran, served less than five minutes after the fill. */
  lemma HitsWereTrue(schedule: seq<Action>, n: nat)
    requires n < |Run(schedule).hits|
    ensures var s, hit := Run(schedule), Run(schedule).hits[n];
            && hit.entry.version < |s.past| && hit.id in s.past[hit.entry.version]
            && s.past[hit.entry.version][hit.id] == hit.entry.product
            && hit.entry.filledAt <= hit.at < hit.entry.filledAt + 300_000
  {
    RunKeeps(schedule);
  }

  /** A filled entry answers lookups for five minutes, and no longer. */
  lemma ServedFiveMinutes(schedule: seq<Action>, r: nat, elapsed: nat, q: nat)
    requires r in Run(schedule).readers && Run(schedule).readers[r].Loaded? && q !in Run(schedule).readers
    ensures var s, k := Run(schedule), Run(schedule).readers[r];
            var hits := Run(schedule + [Fill(r)] + [Tick(elapsed)] + [Lookup(q, k.id)]).hits;
            if elapsed < 300_000 then |hits| == |s.hits| + 1 && hits[|s.hits|].id == k.id && hits[|s.hits|].entry.product == k.product
            else hits == s.hits
  {
    var k := Run(schedule).readers[r];
    Then(schedule, Fill(r));
    Then(schedule + [Fill(r)], Tick(elapsed));
    Then(schedule + [Fill(r)] + [Tick(elapsed)], Lookup(q, k.id));
  }

  /** A read of the database after a write, in whatever state, gets the row written, or none if it was deleted. */
  lemma ReadsLastWrite(s: State, r: nat, row: Option<Product>)
    requires r in s.readers && s.readers[r].Missed?
    ensures var id := s.readers[r].id;
            var t := Step(Step(s, Write(id, row)), Load(r));
            if row.Some? then r in t.readers && t.readers[r].Loaded? && t.readers[r].id == id && t.readers[r].product == row.value
            else r !in t.readers
  {
  }

  /** A reader that has given up fills nothing. */
  lemma AbandonedFillsNothing(s: State, r: nat)
    ensures Step(Step(s, Abandon(r)), Fill(r)) == Step(s, Abandon(r)) && Step(s, Abandon(r)).cache == s.cache
  {
  }

  /******* When the cache can be trusted *******/

  lemma Then(schedule: seq<Action>, a: Action)
    ensures Run(schedule + [a]) == Step(Run(schedule), a)
  {
    assert (schedule + [a])[..|schedule|] == schedule;
  }

  predicate Current(rows: map<int, Product>, id: int, product: Product) {
    id in rows && rows[id] == product
  }

  predicate LiveEntry(s: State, id: int) {
    id in s.cache && s.now < s.cache[id].filledAt + TTL
  }

  /** No reader between its database read and its fill carries an outdated row of `id`. */
  ghost predicate ReadersCurrent(s: State, id: int) {
    forall r | r in s.readers && s.readers[r].Loaded? && s.readers[r].id == id :: Current(Rows(s), id, s.readers[r].product)
  }

  ghost predicate Settled(s: State, id: int) {
    (LiveEntry(s, id) ==> Current(Rows(s), id, s.cache[id].product)) && ReadersCurrent(s, id)
  }

  /** The hits on `id` after the first `n` show its row. */
  ghost predicate HitsShow(hits: seq<Hit>, n: nat, id: int, rows: map<int, Product>) {
    n <= |hits| && forall h | n <= h < |hits| && hits[h].id == id :: Current(rows, id, hits[h].entry.product)
  }

  ghost predicate NoWrite(more: seq<Action>, id: int) {
    forall j | 0 <= j < |more| :: !(more[j].Write? && more[j].id == id)
  }

  /** Until `id` is written again, every hit on it shows the row a direct read returns. */
  ghost predicate AlwaysFresh(schedule: seq<Action>, id: int) {
    forall more | NoWrite(more, id) :: HitsShow(Run(schedule + more).hits, |Run(schedule).hits|, id, Rows(Run(schedule + more)))
  }

  lemma SettledStep(s: State, a: Action, n: nat, id: int)
    requires Settled(s, id) && s.past != [] && !(a.Write? && a.id == id) && HitsShow(s.hits, n, id, Rows(s))
    ensures Settled(Step(s, a), id) && HitsShow(Step(s, a).hits, n, id, Rows(Step(s, a)))
  {
    RowStays(s, a, id);
  }

  lemma RowStays(s: State, a: Action, id: int)
    requires s.past != [] && !(a.Write? && a.id == id)
    ensures forall product :: Current(Rows(Step(s, a)), id, product) <==> Current(Rows(s), id, product)
  {
  }

  lemma {:induction false} SettledStays(schedule: seq<Action>, more: seq<Action>, id: int)
    requires Settled(Run(schedule), id) && NoWrite(more, id)
    ensures var s := Run(schedule + more);
            Settled(s, id) && HitsShow(s.hits, |Run(schedule).hits|, id, Rows(s))
  {
    if more == [] {
      assert schedule + more == schedule;
    } else {
      var before, a := more[..|more| - 1], more[|more| - 1];
      SettledStays(schedule, before, id);
      RunKeeps(schedule + before);
      SettledStep(Run(schedule + before), a, |Run(schedule).hits|, id);
      Then(schedule + before, a);
      assert schedule + before + [a] == schedule + more;
    }
  }

  lemma FreshReader(readers: map<nat, Reader>) returns (r: nat)
    ensures r !in readers
  {
    var keys := readers.Keys;
    r := 0;
    while keys != {}
      invariant keys <= readers.Keys && forall k | k in readers && k !in keys :: k < r
      decreases |keys|
    {
      var k :| k in keys;
      keys := keys - {k};
      r := if k < r then r else k + 1;
    }
  }

  /** A live entry that is outdated is served at once. */
  lemma OldEntryIsServed(schedule: seq<Action>, id: int)
    requires var s := Run(schedule); LiveEntry(s, id) && !Current(Rows(s), id, s.cache[id].product)
    ensures !AlwaysFresh(schedule, id)
  {
    var s := Run(schedule);
    var r := FreshReader(s.readers);
    var more := [Lookup(r, id)];
    Then(schedule, Lookup(r, id));
    assert Run(schedule + more).hits[|s.hits|] == Hit(id, s.cache[id], s.now);
    assert NoWrite(more, id) && !HitsShow(Run(schedule + more).hits, |s.hits|, id, Rows(Run(schedule + more)));
  }

  /** So is an outdated row that a slow reader still carries, once it has filled the cache. */
  lemma OldReaderIsServed(schedule: seq<Action>, r: nat)
    requires var s := Run(schedule);
             r in s.readers && s.readers[r].Loaded? && !Current(Rows(s), s.readers[r].id, s.readers[r].product)
    ensures !AlwaysFresh(schedule, Run(schedule).readers[r].id)
  {
    var s := Run(schedule);
    var k := s.readers[r];
    var more := [Fill(r), Lookup(r, k.id)];
    Then(schedule, Fill(r));
    Then(schedule + [Fill(r)], Lookup(r, k.id));
    assert schedule + [Fill(r)] + [Lookup(r, k.id)] == schedule + more;
    assert Run(schedule + more).hits[|s.hits|] == Hit(k.id, Filled(k.product, s.now, k.version), s.now);
    assert NoWrite(more, k.id) && !HitsShow(Run(schedule + more).hits, |s.hits|, k.id, Rows(Run(schedule + more)));
  }

  /** In every reachable state: hits on `id` show the current row in every continuation up to its next write
      if and only if its live entry, if any, and every row that readers carry are current now. */
  lemma FreshExactly(schedule: seq<Action>, id: int)
    ensures AlwaysFresh(schedule, id) <==> Settled(Run(schedule), id)
  {
    var s := Run(schedule);
    if Settled(s, id) {
      forall more | NoWrite(more, id)
        ensures HitsShow(Run(schedule + more).hits, |s.hits|, id, Rows(Run(schedule + more)))
      {
        SettledStays(schedule, more, id);
      }
    } else if !ReadersCurrent(s, id) {
      var r :| r in s.readers && s.readers[r].Loaded? && s.readers[r].id == id && !Current(Rows(s), id, s.readers[r].product);
      OldReaderIsServed(schedule, r);
    } else {
      OldEntryIsServed(schedule, id);
    }
  }

  /** What the deletion after a write achieves: from then on every hit shows the current row if and only if
      no slow reader carries an outdated one. */
  lemma DeletionFreshExactly(schedule: seq<Action>, id: int)
    ensures AlwaysFresh(schedule + [Del(id)], id) <==> ReadersCurrent(Run(schedule), id)
  {
    Then(schedule, Del(id));
    FreshExactly(schedule + [Del(id)], id);
    DeletionLeavesReaders(Run(schedule), id);
  }

  lemma DeletionLeavesReaders(s: State, id: int)
    ensures Settled(Step(s, Del(id)), id) <==> ReadersCurrent(s, id)
  {
  }

  /** The run up to the moment before the late fill. */
  lemma UpdatedWhileLoaded(before: Product, after: Product) returns (schedule: seq<Action>)
    ensures var s := Run(schedule);
            && s.readers == map[0 := Loaded(1, before, 1)] && s.hits == []
            && 1 in Rows(s) && Rows(s)[1] == after && 1 !in s.cache
  {
    var first := [Write(1, Some(before))];
    Then([], Write(1, Some(before)));
    assert [] + first == first;
    assert Run(first) == State([map[], map[1 := before]], map[], 0, map[], []);
    Then(first, Lookup(0, 1));
    var second := first + [Lookup(0, 1)];
    Then(second, Load(0));
    var third := second + [Load(0)];
    assert Run(third) == State([map[], map[1 := before]], map[], 0, map[0 := Loaded(1, before, 1)], []);
    Then(third, Write(1, Some(after)));
    var fourth := third + [Write(1, Some(after))];
    Then(fourth, Del(1));
    schedule := fourth + [Del(1)];
  }

  /** A slow reader brings an old row back after the update and its deletion have both succeeded. */
  lemma SlowReaderRestoresOldRow(before: Product, after: Product) returns (schedule: seq<Action>)
    requires before != after
    ensures var s := Run(schedule);
            && |s.hits| == 1 && s.hits[0].id == 1 && s.hits[0].entry.product == before
            && 1 in Rows(s) && Rows(s)[1] == after
  {
    var late := UpdatedWhileLoaded(before, after);
    Then(late, Fill(0));
    var filled := late + [Fill(0)];
    Then(filled, Lookup(1, 1));
    schedule := filled + [Lookup(1, 1)];
  }
}
