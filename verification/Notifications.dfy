/**
 The notification consumer: an event is marked as processed before its notification is written, and its
 offset is committed last.  A run may stop at any call, and a call may take effect without its answer
 arriving; the next run starts again from the committed offsets.
 */
module Notifications {
  import opened Basics
  import opened Events

  datatype Notification = Notification(user: UserId, order: OrderId, kind: EventType, message: string)

  /** A notification and the event it was written for. */
  datatype Entry = Entry(event: EventId, notification: Notification)

  datatype Error = FetchFailed | MarkFailed | Undecodable | CreateFailed | CommitFailed

  /******* Messages *******/

  function Digits(n: nat): string {
    if n < 10 then [('0' as int + n) as char] else Digits(n / 10) + [('0' as int + n % 10) as char]
  }

  function Decimal(n: int): string {
    if n < 0 then "-" + Digits(-n) else Digits(n)
  }

  function NotificationMessage(kind: EventType, order: OrderId, reason: string): (r: string)
    ensures r == "" <==> kind == InventoryReserved || kind == InventoryReservationFailed
  {
    match kind
    case OrderCreated => "Order #" + Decimal(order) + " has been created."
    case OrderConfirmed => "Order #" + Decimal(order) + " has been confirmed."
    case OrderCancelled =>
      if reason != "" then "Order #" + Decimal(order) + " was cancelled: " + reason
      else "Order #" + Decimal(order) + " was cancelled."
    case OrderProcessing => "Order #" + Decimal(order) + " is being processed."
    case OrderShipped => "Order #" + Decimal(order) + " has been shipped."
    case OrderDelivered => "Order #" + Decimal(order) + " has been delivered."
    case _ => ""
  }

  /** The notification an event calls for. */
  function NoticeFor(e: Event): Option<Notification> {
    var payload := DecodeNotice(e.payload);
    if payload.None? then None
    else
      var message := NotificationMessage(e.kind, payload.value.order, payload.value.reason);
      if message == "" then None
      else Some(Notification(payload.value.user, payload.value.order, e.kind, message))
  }

  /******* Who is told what *******/

  /** A placed order is announced to the user who placed it. */
  ghost predicate TellsPlaced(n: Notification, o: OrderId, u: UserId) {
    n.user == u && n.order == o && n.kind == OrderCreated && n.message == "Order #" + Decimal(o) + " has been created."
  }

  /** A status event reaches nobody by name: it goes to user 0, and shows the user's number as the order's. */
  ghost predicate TellsStatus(n: Notification, u: UserId, kind: EventType, reason: string) {
    && n.user == 0 && n.order == u && n.kind == kind
    && (kind == OrderCreated ==> n.message == "Order #" + Decimal(u) + " has been created.")
    && (kind == OrderConfirmed ==> n.message == "Order #" + Decimal(u) + " has been confirmed.")
    && (kind == OrderProcessing ==> n.message == "Order #" + Decimal(u) + " is being processed.")
    && (kind == OrderShipped ==> n.message == "Order #" + Decimal(u) + " has been shipped.")
    && (kind == OrderDelivered ==> n.message == "Order #" + Decimal(u) + " has been delivered.")
    && (kind == OrderCancelled && reason == "" ==> n.message == "Order #" + Decimal(u) + " was cancelled.")
    && (kind == OrderCancelled && reason != "" ==> n.message == "Order #" + Decimal(u) + " was cancelled: " + reason)
  }

  lemma PlacedNotice(e: Event, o: OrderId, u: UserId, items: seq<OrderItem>)
    requires e.kind == OrderCreated && e.payload == EncodeCreated(o, u, items)
    ensures NoticeFor(e).Some? && TellsPlaced(NoticeFor(e).value, o, u)
  {
    NoticeOfStatus(o, u, items, "");
  }

  /** The event types of results call for no notification, all others do. */
  lemma StatusNoticeOf(e: Event, o: OrderId, u: UserId, reason: string)
    requires e.payload == EncodeResult(o, u, reason)
    ensures NoticeFor(e).Some? <==> e.kind != InventoryReserved && e.kind != InventoryReservationFailed
    ensures NoticeFor(e).Some? ==> TellsStatus(NoticeFor(e).value, u, e.kind, reason)
  {
    NoticeOfStatus(o, u, [], reason);
  }

  /** Reading a decimal numeral back. */
  function Value(digits: string): int {
    if digits == "" then 0 else 10 * Value(digits[..|digits| - 1]) + (digits[|digits| - 1] as int - '0' as int)
  }

  /** The numerals in messages are digits without a leading zero, and denote their number. */
  lemma {:induction false} DigitsDenote(n: nat)
    ensures Value(Digits(n)) == n && Digits(n) != "" && forall i | 0 <= i < |Digits(n)| :: '0' <= Digits(n)[i] <= '9'
    ensures n > 0 ==> Digits(n)[0] != '0'
  {
    if n < 10 {
      assert Digits(n)[..0] == "" && Digits(n)[0] as int == '0' as int + n;
    } else {
      DigitsDenote(n / 10);
      var init, last := Digits(n / 10), ('0' as int + n % 10) as char;
      assert Digits(n) == init + [last] && (init + [last])[..|init|] == init;
      assert (init + [last])[0] == init[0];
    }
  }

  lemma DecimalDenotes(n: int)
    ensures n >= 0 ==> Value(Decimal(n)) == n
    ensures n < 0 ==> |Decimal(n)| > 1 && Decimal(n)[0] == '-' && -Value(Decimal(n)[1..]) == n
  {
    if n >= 0 {
      DigitsDenote(n);
    } else {
      DigitsDenote(-n);
      assert Decimal(n)[1..] == Digits(-n);
    }
  }

  /******* What a run without faults does *******/

  function NewEntries(processed: set<EventId>, e: Event): seq<Entry> {
    if e.id in processed || NoticeFor(e).None? then [] else [Entry(e.id, NoticeFor(e).value)]
  }

  /******* At most one notification for each event *******/

  ghost predicate CalledFor(log: seq<seq<Event>>, entry: Entry) {
    exists p, k | 0 <= p < |log| && 0 <= k < |log[p]| ::
      log[p][k].id == entry.event && NoticeFor(log[p][k]) == Some(entry.notification)
  }

  /** Each event id has at most one notification, which is the one its event calls for. */
  ghost predicate Accurate(log: seq<seq<Event>>, processed: set<EventId>, created: seq<Notification>, journal: seq<Entry>, pushed: seq<Notification>) {
    && created == Notices(journal)
    && (forall i | 0 <= i < |journal| :: journal[i].event in processed && CalledFor(log, journal[i]))
    && (forall i, j | 0 <= i < j < |journal| :: journal[i].event != journal[j].event)
    && multiset(pushed) <= multiset(created)
  }

  function Notices(entries: seq<Entry>): (r: seq<Notification>)
    ensures |r| == |entries|
  {
    seq(|entries|, i requires 0 <= i < |entries| => entries[i].notification)
  }

  /** Everything in front of these offsets has been marked. */
  ghost predicate Covered(log: seq<seq<Event>>, processed: set<EventId>, offsets: seq<nat>) {
    && |offsets| == |log|
    && forall p, k | 0 <= p < |log| && 0 <= k < offsets[p] :: Marked(log, processed, p, k)
  }

  predicate Marked(log: seq<seq<Event>>, processed: set<EventId>, p: int, k: int) {
    0 <= p < |log| && 0 <= k < |log[p]| && log[p][k].id in processed
  }

  ghost predicate Extends(log: seq<seq<Event>>, log': seq<seq<Event>>) {
    |log| == |log'| && forall p | 0 <= p < |log| :: log[p] <= log'[p]
  }

  lemma CoverGrows(log: seq<seq<Event>>, log': seq<seq<Event>>, processed: set<EventId>, offsets: seq<nat>)
    requires Covered(log, processed, offsets) && Extends(log, log')
    ensures Covered(log', processed, offsets)
  {
    forall p, k | 0 <= p < |log'| && 0 <= k < offsets[p] ensures Marked(log', processed, p, k) {
      assert log[p] <= log'[p] && Marked(log, processed, p, k);
    }
  }

  lemma GrowKeeps(log: seq<seq<Event>>, log': seq<seq<Event>>, processed: set<EventId>, offsets: seq<nat>,
                  created: seq<Notification>, journal: seq<Entry>, pushed: seq<Notification>)
    requires Covered(log, processed, offsets) && Accurate(log, processed, created, journal, pushed) && Extends(log, log')
    ensures Covered(log', processed, offsets) && Accurate(log', processed, created, journal, pushed)
  {
    CoverGrows(log, log', processed, offsets);
    forall entry | CalledFor(log, entry) ensures CalledFor(log', entry) {
      var p: int, k: int :| 0 <= p < |log| && 0 <= k < |log[p]|
                    && log[p][k].id == entry.event && NoticeFor(log[p][k]) == Some(entry.notification);
      assert log'[p][k] == log[p][k];
    }
  }

  lemma MarkCovers(log: seq<seq<Event>>, processed: set<EventId>, processed': set<EventId>, offsets: seq<nat>)
    requires Covered(log, processed, offsets) && processed <= processed'
    ensures Covered(log, processed', offsets)
  {
    forall p, k | 0 <= p < |log| && 0 <= k < offsets[p] ensures Marked(log, processed', p, k) {
      assert Marked(log, processed, p, k);
    }
  }

  lemma CoverNext(log: seq<seq<Event>>, processed: set<EventId>, offsets: seq<nat>, p: nat)
    requires Covered(log, processed, offsets)
    requires p < |log| && offsets[p] < |log[p]| && log[p][offsets[p]].id in processed
    ensures Covered(log, processed, offsets[p := offsets[p] + 1])
  {
  }

  /** The notification of an event, written only if its id was new; it may or may not be pushed. */
  lemma EntriesKeep(log: seq<seq<Event>>, processed: set<EventId>, created: seq<Notification>, journal: seq<Entry>, pushed: seq<Notification>,
                    p: nat, k: nat, marked: bool, written: bool, sent: bool)
    requires Accurate(log, processed, created, journal, pushed)
    requires p < |log| && k < |log[p]| && (sent ==> written) && (written ==> marked)
    ensures var e := log[p][k];
            Accurate(log, Claimed(processed, e, marked), created + Written(processed, e, written),
                     Journaled(journal, processed, e, written), pushed + Written(processed, e, sent))
  {
    var e := log[p][k];
    if written && NoticeFor(e).Some? {
      assert CalledFor(log, Entry(e.id, NoticeFor(e).value));
    }
    assert Notices(Journaled(journal, processed, e, written)) == Notices(journal) + Written(processed, e, written);
  }

  function Claimed(processed: set<EventId>, e: Event, marked: bool): set<EventId> {
    if marked then processed + {e.id} else processed
  }

  function Written(processed: set<EventId>, e: Event, written: bool): seq<Notification> {
    if written then Notices(NewEntries(processed, e)) else []
  }

  function Journaled(journal: seq<Entry>, processed: set<EventId>, e: Event, written: bool): seq<Entry> {
    journal + if written then NewEntries(processed, e) else []
  }

  /******* The effect of a run without faults *******/

  /** The durable state a run changes. */
  datatype Books = Books(processed: set<EventId>, journal: seq<Entry>, pushed: seq<Notification>, offsets: seq<nat>)

  /** One event of partition `p` handled, and its offset committed. */
  function After(b: Books, e: Event, p: nat): Books
    requires p < |b.offsets|
  {
    var entries := NewEntries(b.processed, e);
    Books(b.processed + {e.id}, b.journal + entries, b.pushed + Notices(entries), b.offsets[p := b.offsets[p] + 1])
  }

  /** Entries are only added, and never for an event that had already been marked. */
  ghost predicate OnlyNew(b: Books, b': Books) {
    && b.processed <= b'.processed && b.journal <= b'.journal
    && forall i | |b.journal| <= i < |b'.journal| :: b'.journal[i].event !in b.processed
  }

  lemma OnlyNewStep(b: Books, b': Books, e: Event)
    requires b.processed <= b'.processed
    requires b'.journal == b.journal || b'.journal == b.journal + NewEntries(b.processed, e)
    ensures OnlyNew(b, b')
  {
  }

  lemma OnlyNewTransitive(b: Books, b': Books, b'': Books)
    requires OnlyNew(b, b') && OnlyNew(b', b'')
    ensures OnlyNew(b, b'')
  {
  }

  predicate Fits(log: seq<seq<Event>>, offsets: seq<nat>, p: nat) {
    p < |log| && p < |offsets| && offsets[p] < |log[p]|
  }

  /** Taking the next message of each picked partition in turn. */
  function Replay(log: seq<seq<Event>>, b: Books, picks: seq<nat>): Books {
    if picks == [] then b
    else
      var before, p := Replay(log, b, picks[..|picks| - 1]), picks[|picks| - 1];
      if Fits(log, before.offsets, p) then After(before, log[p][before.offsets[p]], p) else before
  }

  /** The next message is there and can be decoded. */
  ghost predicate Ready(log: seq<seq<Event>>, offsets: seq<nat>, p: nat) {
    Fits(log, offsets, p) && DecodeNotice(log[p][offsets[p]].payload).Some?
  }

  /** No call fails, and every message picked is ready. */
  ghost predicate Smooth(log: seq<seq<Event>>, b: Books, picks: seq<nat>, fault: nat -> CallResult) {
    && (forall n :: fault(n).Works?)
    && forall i | 0 <= i < |picks| :: Ready(log, Replay(log, b, picks[..i]).offsets, picks[i])
  }

  lemma SmoothAt(log: seq<seq<Event>>, b: Books, picks: seq<nat>, fault: nat -> CallResult, i: nat)
    requires Smooth(log, b, picks, fault) && i < |picks|
    ensures fault(4 * i).Works? && fault(4 * i + 1).Works? && fault(4 * i + 2).Works? && fault(4 * i + 3).Works?
    ensures var before := Replay(log, b, picks[..i]);
            && Ready(log, before.offsets, picks[i])
            && Replay(log, b, picks[..i + 1]) == After(before, log[picks[i]][before.offsets[picks[i]]], picks[i])
  {
    assert picks[..i + 1][..i] == picks[..i];
  }

  /** No two events of the log share an id. */
  ghost predicate DistinctIds(log: seq<seq<Event>>) {
    forall p, k, q, j | 0 <= p < |log| && 0 <= k < |log[p]| && 0 <= q < |log| && 0 <= j < |log[q]| && log[p][k].id == log[q][j].id ::
      p == q && k == j
  }

  /** The event at this offset has been passed. */
  ghost predicate Passed(log: seq<seq<Event>>, b: Books, p: int, k: int) {
    0 <= p < |log| && p < |b.offsets| && 0 <= k < |log[p]| && k < b.offsets[p]
  }

  ghost predicate IdPassed(log: seq<seq<Event>>, b: Books, id: EventId) {
    exists p, k :: Passed(log, b, p, k) && log[p][k].id == id
  }

  ghost predicate FromPassed(log: seq<seq<Event>>, b: Books, entry: Entry) {
    exists p, k :: ComesFrom(log, b, entry, p, k)
  }

  ghost predicate ComesFrom(log: seq<seq<Event>>, b: Books, entry: Entry, p: int, k: int) {
    Passed(log, b, p, k) && log[p][k].id == entry.event && NoticeFor(log[p][k]) == Some(entry.notification)
  }

  ghost predicate Complete(log: seq<seq<Event>>, b: Books) {
    forall p, k | Passed(log, b, p, k) && NoticeFor(log[p][k]).Some? :: Entry(log[p][k].id, NoticeFor(log[p][k]).value) in b.journal
  }

  /** Exactly the notifications the events passed call for, each once and each pushed. */
  ghost predicate Exact(log: seq<seq<Event>>, b: Books) {
    && (forall id | id in b.processed :: IdPassed(log, b, id))
    && Complete(log, b)
    && (forall i | 0 <= i < |b.journal| :: b.journal[i].event in b.processed && FromPassed(log, b, b.journal[i]))
    && (forall i, j | 0 <= i < j < |b.journal| :: b.journal[i].event != b.journal[j].event)
    && b.pushed == Notices(b.journal)
  }

  lemma PassedNext(log: seq<seq<Event>>, b: Books, b': Books, p: nat, q: int, j: int)
    requires Fits(log, b.offsets, p) && b'.offsets == b.offsets[p := b.offsets[p] + 1]
    ensures Passed(log, b', q, j) <==> Passed(log, b, q, j) || (q == p && j == b.offsets[p])
  {
  }

  lemma AfterIsExact(log: seq<seq<Event>>, b: Books, p: nat)
    requires DistinctIds(log) && Exact(log, b) && Fits(log, b.offsets, p)
    ensures Exact(log, After(b, log[p][b.offsets[p]], p))
  {
    var e := log[p][b.offsets[p]];
    var b' := After(b, e, p);
    NewEvent(log, b, p);
    AfterIds(log, b, b', p);
    AllRecorded(log, b, b', p);
    forall i | 0 <= i < |b'.journal| ensures b'.journal[i].event in b'.processed && FromPassed(log, b', b'.journal[i]) {
      AfterEntry(log, b, b', p, i);
    }
    DistinctAfter(b.journal, b.processed, NewEntries(b.processed, e), e);
    assert Notices(b.journal + NewEntries(b.processed, e)) == Notices(b.journal) + Notices(NewEntries(b.processed, e));
  }

  lemma NewEvent(log: seq<seq<Event>>, b: Books, p: nat)
    requires DistinctIds(log) && Exact(log, b) && Fits(log, b.offsets, p)
    ensures log[p][b.offsets[p]].id !in b.processed
  {
    if log[p][b.offsets[p]].id in b.processed {
      NotPassedYet(log, b, p, log[p][b.offsets[p]].id);
    }
  }

  lemma AfterIds(log: seq<seq<Event>>, b: Books, b': Books, p: nat)
    requires Fits(log, b.offsets, p) && b'.offsets == b.offsets[p := b.offsets[p] + 1]
    requires forall id | id in b.processed :: IdPassed(log, b, id)
    requires b'.processed == b.processed + {log[p][b.offsets[p]].id}
    ensures forall id | id in b'.processed :: IdPassed(log, b', id)
  {
    assert Passed(log, b', p, b.offsets[p]);
    forall id | id in b.processed ensures IdPassed(log, b', id) {
      IdStaysPassed(log, b, b', p, id);
    }
  }

  /** Every entry, old or new, comes from an event that has been passed. */
  lemma AfterEntry(log: seq<seq<Event>>, b: Books, b': Books, p: nat, i: nat)
    requires Exact(log, b) && Fits(log, b.offsets, p) && b' == After(b, log[p][b.offsets[p]], p) && i < |b'.journal|
    ensures b'.journal[i].event in b'.processed && FromPassed(log, b', b'.journal[i])
  {
    if i < |b.journal| {
      EntryStays(log, b, b', p, b.journal[i]);
    } else {
      assert b'.journal[i] == NewEntries(b.processed, log[p][b.offsets[p]])[0];
      assert ComesFrom(log, b', b'.journal[i], p, b.offsets[p]);
    }
  }

  lemma DistinctAfter(journal: seq<Entry>, processed: set<EventId>, entries: seq<Entry>, e: Event)
    requires forall i, j | 0 <= i < j < |journal| :: journal[i].event != journal[j].event
    requires forall i | 0 <= i < |journal| :: journal[i].event in processed
    requires entries == NewEntries(processed, e)
    ensures forall i, j | 0 <= i < j < |journal + entries| :: (journal + entries)[i].event != (journal + entries)[j].event
  {
  }

  lemma NotPassedYet(log: seq<seq<Event>>, b: Books, p: nat, id: EventId)
    requires DistinctIds(log) && Fits(log, b.offsets, p) && IdPassed(log, b, id)
    ensures id != log[p][b.offsets[p]].id
  {
  }

  lemma AllRecorded(log: seq<seq<Event>>, b: Books, b': Books, p: nat)
    requires Complete(log, b) && Fits(log, b.offsets, p) && b'.offsets == b.offsets[p := b.offsets[p] + 1]
    requires var e := log[p][b.offsets[p]]; b'.journal == b.journal + NewEntries(b.processed, e) && e.id !in b.processed
    ensures Complete(log, b')
  {
    forall q, j | Passed(log, b', q, j) && NoticeFor(log[q][j]).Some?
      ensures Entry(log[q][j].id, NoticeFor(log[q][j]).value) in b'.journal
    {
      PassedNext(log, b, b', p, q, j);
    }
  }

  lemma IdStaysPassed(log: seq<seq<Event>>, b: Books, b': Books, p: nat, id: EventId)
    requires Fits(log, b.offsets, p) && b'.offsets == b.offsets[p := b.offsets[p] + 1] && IdPassed(log, b, id)
    ensures IdPassed(log, b', id)
  {
    var q, j :| Passed(log, b, q, j) && log[q][j].id == id;
    assert Passed(log, b', q, j);
  }

  lemma EntryStays(log: seq<seq<Event>>, b: Books, b': Books, p: nat, entry: Entry)
    requires Fits(log, b.offsets, p) && b'.offsets == b.offsets[p := b.offsets[p] + 1] && FromPassed(log, b, entry)
    ensures FromPassed(log, b', entry)
  {
    var q, j :| ComesFrom(log, b, entry, q, j);
    assert ComesFrom(log, b', entry, q, j);
  }

  /** A run without faults from the start: exactly one notification for each event passed that calls for one. */
  lemma {:induction false} OneForEach(log: seq<seq<Event>>, initial: Books, picks: seq<nat>)
    requires DistinctIds(log)
    requires initial.processed == {} && initial.journal == [] && initial.pushed == [] && forall p | 0 <= p < |initial.offsets| :: initial.offsets[p] == 0
    ensures Exact(log, Replay(log, initial, picks))
  {
    if picks != [] {
      var before := Replay(log, initial, picks[..|picks| - 1]);
      OneForEach(log, initial, picks[..|picks| - 1]);
      if Fits(log, before.offsets, picks[|picks| - 1]) {
        AfterIsExact(log, before, picks[|picks| - 1]);
      }
    }
  }

  /** In such a run every placed order that has been passed is announced to the user who placed it. */
  lemma PlacedIsTold(log: seq<seq<Event>>, initial: Books, picks: seq<nat>, p: int, k: int, o: OrderId, u: UserId, items: seq<OrderItem>) returns (i: nat)
    requires DistinctIds(log)
    requires initial.processed == {} && initial.journal == [] && initial.pushed == [] && forall p | 0 <= p < |initial.offsets| :: initial.offsets[p] == 0
    requires Passed(log, Replay(log, initial, picks), p, k)
    requires log[p][k].kind == OrderCreated && log[p][k].payload == EncodeCreated(o, u, items)
    ensures var b := Replay(log, initial, picks);
            && i < |b.journal| && b.journal[i].event == log[p][k].id && TellsPlaced(b.journal[i].notification, o, u)
            && i < |b.pushed| && TellsPlaced(b.pushed[i], o, u)
  {
    var b := Replay(log, initial, picks);
    OneForEach(log, initial, picks);
    PlacedNotice(log[p][k], o, u, items);
    var entry := Entry(log[p][k].id, NoticeFor(log[p][k]).value);
    assert entry in b.journal;
    i :| i < |b.journal| && b.journal[i] == entry;
  }

  /******* The consumer *******/

  class Service {
    var log: seq<seq<Event>>
    var offsets: seq<nat>
    var processed: set<EventId>
    var created: seq<Notification>
    /** What has been broadcast, oldest first. */
    var pushed: seq<Notification>
    ghost var journal: seq<Entry>

    constructor (partitions: nat)
      ensures Valid() && |log| == partitions && processed == {} && created == [] && pushed == []
      ensures forall p | 0 <= p < partitions :: log[p] == [] && offsets[p] == 0
    {
      log := seq(partitions, _ => []);
      offsets := seq(partitions, _ => 0);
      processed, created, pushed, journal := {}, [], [], [];
    }

    ghost predicate Valid()
      reads this
    {
      Covered(log, processed, offsets) && Accurate(log, processed, created, journal, pushed)
    }

    /** Another service publishes an event. */
    method Append(p: nat, e: Event)
      requires Valid() && p < |log|
      modifies this`log
      ensures Valid() && log == old(log)[p := old(log)[p] + [e]]
    {
      GrowKeeps(log, log[p := log[p] + [e]], processed, offsets, created, journal, pushed);
      log := log[p := log[p] + [e]];
    }

    /** The unique insert behind deduplication: `Success(true)` means this call was the first. */
    method MarkProcessed(id: EventId, outcome: CallResult) returns (r: Result<bool, Error>)
      modifies this`processed
      ensures processed == if outcome.Fails? then old(processed) else old(processed) + {id}
      ensures r == if outcome.Works? then Success(id !in old(processed)) else Failure(MarkFailed)
    {
      if outcome.Fails? { return Failure(MarkFailed); }
      var first := id !in processed;
      processed := processed + {id};
      return if outcome.Works? then Success(first) else Failure(MarkFailed);
    }

    method ProcessEvent(e: Event, outcome: CallResult) returns (err: Option<Error>)
      modifies this`created, this`pushed, this`journal
      ensures NoticeFor(e).None? || outcome.Fails? ==> created == old(created) && journal == old(journal)
      ensures NoticeFor(e).Some? && !outcome.Fails? ==>
                && created == old(created) + [NoticeFor(e).value]
                && journal == old(journal) + [Entry(e.id, NoticeFor(e).value)]
      ensures pushed == old(pushed) + if NoticeFor(e).Some? && outcome.Works? then [NoticeFor(e).value] else []
      ensures err == if DecodeNotice(e.payload).None? then Some(Undecodable)
                     else if NoticeFor(e).Some? && !outcome.Works? then Some(CreateFailed)
                     else None
      ensures forall o, u, items | e.kind == OrderCreated && e.payload == EncodeCreated(o, u, items) && outcome.Works? ::
                && |created| == |old(created)| + 1 && TellsPlaced(created[|old(created)|], o, u)
                && |pushed| == |old(pushed)| + 1 && pushed[|old(pushed)|] == created[|old(created)|]
    {
      forall o, u, items | e.kind == OrderCreated && e.payload == EncodeCreated(o, u, items)
        ensures NoticeFor(e).Some? && TellsPlaced(NoticeFor(e).value, o, u)
      {
        PlacedNotice(e, o, u, items);
      }
      var payload := DecodeNotice(e.payload);
      if payload.None? { return Some(Undecodable); }
      var message := NotificationMessage(e.kind, payload.value.order, payload.value.reason);
      if message == "" { return None; }
      if outcome.Fails? { return Some(CreateFailed); }
      var notification := Notification(payload.value.user, payload.value.order, e.kind, message);
      created := created + [notification];
      journal := journal + [Entry(e.id, notification)];
      if outcome.LostAck? { return Some(CreateFailed); }
      pushed := pushed + [notification];
      return None;
    }

    method Commit(p: nat, offset: nat, outcome: CallResult) returns (err: Option<Error>)
      requires p < |offsets|
      modifies this`offsets
      ensures offsets == if outcome.Fails? then old(offsets) else old(offsets)[p := offset]
      ensures err == if outcome.Works? then None else Some(CommitFailed)
    {
      if !outcome.Fails? {
        offsets := offsets[p := offset];
      }
      return if outcome.Works? then None else Some(CommitFailed);
    }

    /** The loop body after a fetch of `e`, which is at offset `k`. */
    method Handle(e: Event, p: nat, k: nat, mark: CallResult, create: CallResult, commit: CallResult) returns (err: Option<Error>)
      requires p < |offsets|
      modifies this`processed, this`created, this`pushed, this`journal, this`offsets
      ensures processed == Claimed(old(processed), e, !mark.Fails?)
      ensures created == old(created) + Written(old(processed), e, mark.Works? && !create.Fails?)
      ensures journal == Journaled(old(journal), old(processed), e, mark.Works? && !create.Fails?)
      ensures pushed == old(pushed) + Written(old(processed), e, mark.Works? && create.Works?)
      ensures offsets == old(offsets) || (mark.Works? && offsets == old(offsets)[p := k + 1])
      ensures err.None? ==> mark.Works? && offsets == old(offsets)[p := k + 1]
      ensures mark.Works? && create.Works? && commit.Works? && k == old(offsets)[p] && DecodeNotice(e.payload).Some? ==>
                err.None? && Now() == After(old(Now()), e, p)
    {
      var first := MarkProcessed(e.id, mark);
      if first.Failure? { return Some(MarkFailed); }
      if !first.value {
        err := Commit(p, k + 1, commit);
        return;
      }
      err := ProcessEvent(e, create);
      if err.Some? { return; }
      err := Commit(p, k + 1, commit);
    }

    /** The next message of partition p.  A consumer fetches again only after its commit, so its fetch
        position is the committed offset. */
    method HandleNext(p: nat, mark: CallResult, create: CallResult, commit: CallResult) returns (err: Option<Error>)
      requires Valid() && Fits(log, offsets, p)
      modifies this`processed, this`created, this`pushed, this`journal, this`offsets
      ensures Valid() && OnlyNew(old(Now()), Now())
      ensures mark.Works? && create.Works? && commit.Works? && Ready(log, old(offsets), p) ==>
                err.None? && Now() == After(old(Now()), log[p][old(offsets)[p]], p)
    {
      var k := offsets[p];
      EntriesKeep(log, processed, created, journal, pushed, p, k,
                  !mark.Fails?, mark.Works? && !create.Fails?, mark.Works? && create.Works?);
      ghost var was := processed;
      err := Handle(log[p][k], p, k, mark, create, commit);
      MarkCovers(log, was, processed, old(offsets));
      OnlyNewStep(old(Now()), Now(), log[p][k]);
      if mark.Works? {
        CoverNext(log, processed, old(offsets), p);
      }
    }

    ghost function Now(): Books
      reads this
    {
      Books(processed, journal, pushed, offsets)
    }

    /** One turn of the loop: fetch from the partition picked, and handle the message. */
    method TakeNext(picks: seq<nat>, i: nat, fault: nat -> CallResult, ghost start: Books) returns (err: Option<Error>)
      requires Valid() && i < |picks| && OnlyNew(start, Now())
      modifies this`processed, this`created, this`pushed, this`journal, this`offsets
      ensures Valid() && OnlyNew(start, Now())
      ensures Smooth(log, start, picks, fault) && old(Now()) == Replay(log, start, picks[..i]) ==>
                err.None? && Now() == Replay(log, start, picks[..i + 1])
    {
      var p := picks[i];
      if Smooth(log, start, picks, fault) {
        SmoothAt(log, start, picks, fault, i);
      }
      if !fault(4 * i).Works? || !Fits(log, offsets, p) { return Some(FetchFailed); }
      ghost var before := Now();
      err := HandleNext(p, fault(4 * i + 1), fault(4 * i + 2), fault(4 * i + 3));
      OnlyNewTransitive(start, before, Now());
    }

    /** One run: take the next message of each partition in `picks`, then the fetch fails or is cancelled. */
    method ConsumeOrderEvents(picks: seq<nat>, fault: nat -> CallResult) returns (err: Error)
      requires Valid()
      modifies this`processed, this`created, this`pushed, this`journal, this`offsets
      ensures Valid() && OnlyNew(old(Now()), Now())
      ensures Smooth(log, old(Now()), picks, fault) ==> err == FetchFailed && Now() == Replay(log, old(Now()), picks)
    {
      ghost var start, smooth := Now(), Smooth(log, Now(), picks, fault);
      for i := 0 to |picks|
        invariant Valid() && OnlyNew(start, Now())
        invariant smooth ==> Now() == Replay(log, start, picks[..i])
      {
        var failed := TakeNext(picks, i, fault, start);
        if failed.Some? { return failed.value; }
      }
      assert picks[..|picks|] == picks;
      return FetchFailed;
    }
  }
}
