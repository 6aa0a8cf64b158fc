/**
 Cache-aside product reads, each call on its own: a read fills the cache on a miss, a write deletes the
 entry.  While every deletion succeeds, the cache never disagrees with the database.
 */
module ProductService {
  import opened Basics

  /** A row of `products`; updated_at and ids are left to the database. */
  datatype Product = Product(name: string, description: string, price: real, category: Option<int>, status: string)

  datatype Entry = Entry(product: Product, expires: int)

  datatype Error = NotFound | InvalidName | InvalidPrice | DatabaseError

  /** Five minutes, in milliseconds. */
  const TTL := 300_000

  predicate Live(cache: map<int, Entry>, id: int, now: int) {
    id in cache && now < cache[id].expires
  }

  predicate Agrees(cache: map<int, Entry>, rows: map<int, Product>, id: int) {
    id in cache ==> id in rows && cache[id].product == rows[id]
  }

  ghost predicate Coherent(cache: map<int, Entry>, rows: map<int, Product>) {
    forall id :: Agrees(cache, rows, id)
  }

  /** A direct read of the database. */
  function Find(rows: map<int, Product>, id: int): Result<Product, Error> {
    if id in rows then Success(rows[id]) else Failure(NotFound)
  }

  /******* What a request writes *******/

  predicate Blank(c: char) {
    c == ' ' || '\t' <= c <= '\r'
  }

  /** The blanks of ASCII text. */
  lemma BlankExactly(c: char)
    ensures Blank(c) <==> c == ' ' || c == '\t' || c == '\n' || c == '\U{0B}' || c == '\U{0C}' || c == '\r'
  {
  }

  function Trim(text: string): (r: string)
    ensures r != "" ==> !Blank(r[0]) && !Blank(r[|r| - 1])
    ensures r == "" <==> forall i | 0 <= i < |text| :: Blank(text[i])
    decreases |text|
  {
    if text == "" then ""
    else if Blank(text[0]) then Trim(text[1..])
    else if Blank(text[|text| - 1]) then Trim(text[..|text| - 1])
    else text
  }

  /** `trimmed` is `text` without the blanks at its ends, and with everything in between. */
  ghost predicate Trims(trimmed: string, text: string) {
    exists i, j :: CutAt(trimmed, text, i, j)
  }

  ghost predicate CutAt(trimmed: string, text: string, i: int, j: int) {
    && 0 <= i <= j <= |text| && trimmed == text[i..j]
    && (forall k | 0 <= k < i || j <= k < |text| :: Blank(text[k]))
    && (trimmed != "" ==> !Blank(trimmed[0]) && !Blank(trimmed[|trimmed| - 1]))
  }

  lemma CutAfterBlank(trimmed: string, text: string)
    requires text != "" && Blank(text[0]) && Trims(trimmed, text[1..])
    ensures Trims(trimmed, text)
  {
    var rest := text[1..];
    var i, j :| CutAt(trimmed, rest, i, j);
    assert rest[i..j] == text[i + 1..j + 1];
    forall k | 0 <= k < i + 1 || j + 1 <= k < |text| ensures Blank(text[k]) {
      if k > 0 { assert Blank(rest[k - 1]); }
    }
    assert CutAt(trimmed, text, i + 1, j + 1);
  }

  lemma CutBeforeBlank(trimmed: string, text: string)
    requires text != "" && Blank(text[|text| - 1]) && Trims(trimmed, text[..|text| - 1])
    ensures Trims(trimmed, text)
  {
    var init := text[..|text| - 1];
    var i, j :| CutAt(trimmed, init, i, j);
    assert init[i..j] == text[i..j];
    forall k | 0 <= k < i || j <= k < |text| ensures Blank(text[k]) {
      if k < |init| { assert Blank(init[k]); }
    }
    assert CutAt(trimmed, text, i, j);
  }

  lemma {:induction false} TrimCuts(text: string)
    ensures Trims(Trim(text), text)
    decreases |text|
  {
    if text == "" {
      assert CutAt("", text, 0, 0);
    } else if Blank(text[0]) {
      TrimCuts(text[1..]);
      CutAfterBlank(Trim(text[1..]), text);
    } else if Blank(text[|text| - 1]) {
      TrimCuts(text[..|text| - 1]);
      CutBeforeBlank(Trim(text[..|text| - 1]), text);
    } else {
      assert text[0..|text|] == text;
      assert CutAt(text, text, 0, |text|);
    }
  }

  /** The same text with every lower-case letter raised. */
  predicate Raises(upper: string, text: string) {
    && |upper| == |text|
    && forall i | 0 <= i < |text| ::
         if 'a' <= text[i] <= 'z' then 'A' <= upper[i] <= 'Z' && upper[i] as int - 'A' as int == text[i] as int - 'a' as int
         else upper[i] == text[i]
  }

  function Upper(text: string): (upper: string)
    ensures Raises(upper, text)
  {
    seq(|text|, i requires 0 <= i < |text| =>
      if 'a' <= text[i] <= 'z' then text[i] - ('a' - 'A') else text[i])
  }

  /** Field by field what is stored of a request. */
  ghost predicate Stores(row: Product, request: Product) {
    && Trims(row.name, request.name) && Trims(row.description, request.description)
    && row.price == request.price && row.category == request.category
    && (if request.status == "" then row.status == "ACTIVE" else RaisesTrimmed(row.status, request.status))
  }

  ghost predicate RaisesTrimmed(upper: string, text: string) {
    exists trimmed :: Trims(trimmed, text) && Raises(upper, trimmed)
  }

  lemma UpperTrim(text: string)
    ensures RaisesTrimmed(Upper(Trim(text)), text)
  {
    TrimCuts(text);
    assert Raises(Upper(Trim(text)), Trim(text));
  }

  lemma AcceptedStores(request: Product)
    ensures Stores(Accepted(request), request)
  {
    TrimCuts(request.name);
    TrimCuts(request.description);
    UpperTrim(request.status);
  }

  /** A new product is active whatever the request says. */
  lemma ActiveStays(request: Product)
    ensures Accepted(request.(status := "ACTIVE")).status == "ACTIVE"
  {
    assert Trim("ACTIVE") == "ACTIVE";
    assert Upper("ACTIVE") == "ACTIVE";
  }

  /** The row an accepted update writes. */
  function Accepted(request: Product): Product {
    Product(Trim(request.name), Trim(request.description), request.price, request.category,
            if request.status == "" then "ACTIVE" else Upper(Trim(request.status)))
  }

  function Rejection(request: Product): (r: Option<Error>)
    ensures r.Some? ==> r.value == InvalidName || r.value == InvalidPrice
  {
    if Trim(request.name) == "" then Some(InvalidName)
    else if request.price < 0.0 then Some(InvalidPrice)
    else None
  }

  /** A request is refused for a blank name, or else for a negative price, and for nothing else. */
  lemma RejectionExactly(request: Product)
    ensures Rejection(request) == Some(InvalidName) <==> forall i | 0 <= i < |request.name| :: Blank(request.name[i])
    ensures Rejection(request) == Some(InvalidPrice) <==>
            request.price < 0.0 && exists i :: 0 <= i < |request.name| && !Blank(request.name[i])
  {
  }

  class Service {
    const hasCache: bool
    var rows: map<int, Product>
    var cache: map<int, Entry>
    var nextId: int

    constructor (hasCache: bool)
      ensures this.hasCache == hasCache && rows == map[] && cache == map[] && Valid() && Coherent(cache, rows)
    {
      this.hasCache, rows, cache, nextId := hasCache, map[], map[], 1;
    }

    /** Ids are serial: a row or entry, also one left behind by a deleted row, has an id already given out. */
    ghost predicate Valid()
      reads this
    {
      forall id | id in rows || id in cache :: id < nextId
    }

    method Create(request: Product, dbFails: bool) returns (r: Result<int, Error>)
      requires Valid()
      modifies this`rows, this`nextId
      ensures Valid()
      ensures Rejection(request).Some? ==> r == Failure(Rejection(request).value)
      ensures r.Failure? ==> rows == old(rows)
      ensures r.Success? <==> Rejection(request).None? && !dbFails
      ensures Rejection(request).None? && dbFails ==> r == Failure(DatabaseError)
      ensures r.Success? ==>
                && r.value !in old(rows) && rows == old(rows)[r.value := Accepted(request.(status := "ACTIVE"))]
                && Stores(rows[r.value], request.(status := "ACTIVE")) && rows[r.value].status == "ACTIVE"
      ensures Coherent(cache, old(rows)) ==> Coherent(cache, rows)
    {
      if Rejection(request).Some? { return Failure(Rejection(request).value); }
      nextId := nextId + 1;  // a failed insert uses up its id
      if dbFails { return Failure(DatabaseError); }
      AcceptedStores(request.(status := "ACTIVE"));
      ActiveStays(request);
      ghost var before := rows;
      rows := rows[nextId - 1 := Accepted(request.(status := "ACTIVE"))];
      if Coherent(cache, before) {
        OthersAgree(cache, cache, before, rows, nextId - 1);
      }
      return Success(nextId - 1);
    }

    /** `cacheFails(0)` and `(1)` are the failures of the cache's Get and Set; both are ignored. */
    method GetByID(id: int, now: int, cacheFails: nat -> bool, dbFails: bool) returns (r: Result<Product, Error>)
      requires Valid()
      modifies this`cache
      ensures Valid()
      ensures Coherent(old(cache), rows) ==> Coherent(cache, rows)
      ensures Coherent(old(cache), rows) ==> r == Find(rows, id) || (dbFails && r == Failure(DatabaseError))
      ensures hasCache && !cacheFails(0) && id in old(cache) && now < old(cache)[id].expires ==>
                r == Success(old(cache)[id].product) && cache == old(cache)
      ensures !(hasCache && !cacheFails(0) && id in old(cache) && now < old(cache)[id].expires) ==>
                && r == (if dbFails then Failure(DatabaseError) else if id in rows then Success(rows[id]) else Failure(NotFound))
                && cache == if r.Success? && hasCache && !cacheFails(1) then old(cache)[id := Entry(rows[id], now + 300_000)] else old(cache)
    {
      if hasCache && !cacheFails(0) && Live(cache, id, now) {
        assert Agrees(cache, rows, id) ==> cache[id].product == rows[id];
        return Success(cache[id].product);
      }
      if dbFails { return Failure(DatabaseError); }
      if id !in rows { return Failure(NotFound); }
      var product := rows[id];
      if hasCache && !cacheFails(1) {
        ghost var before := cache;
        cache := cache[id := Entry(product, now + TTL)];
        assert forall x | x != id :: Agrees(before, rows, x) ==> Agrees(cache, rows, x);
        assert Agrees(cache, rows, id);
      }
      return Success(product);
    }

    method InvalidateCache(id: int, fails: bool)
      modifies this`cache
      ensures cache == if hasCache && !fails then old(cache) - {id} else old(cache)
    {
      if hasCache && !fails {
        cache := cache - {id};
      }
    }

    /** The row write and the deletion of its entry. */
    method Replace(id: int, row: Product, delFails: bool)
      requires Valid() && id in rows
      modifies this`rows, this`cache
      ensures Valid() && rows == old(rows)[id := row]
      ensures cache == if hasCache && !delFails then old(cache) - {id} else old(cache)
      ensures Coherent(old(cache), old(rows)) ==>
                (Coherent(cache, rows) <==> (hasCache && !delFails) || id !in old(cache) || old(cache)[id].product == row)
    {
      ghost var before := rows;
      rows := rows[id := row];
      InvalidateCache(id, delFails);
      WriteAgrees(old(cache), cache, before, row, id, hasCache && !delFails);
    }

    /** `dbFails(0)` and `(1)` are the failures of the update and of the read behind the answer: after
        the second one the caller sees an error although the row has changed.  A coherent cache stays
        coherent exactly when the deletion worked, or there was no entry, or the entry happened to hold
        the new row. */
    method Update(id: int, request: Product, dbFails: nat -> bool, delFails: bool) returns (r: Result<Product, Error>)
      requires Valid()
      modifies this`rows, this`cache
      ensures Valid()
      ensures Rejection(request).Some? <==> r == Failure(InvalidName) || r == Failure(InvalidPrice)
      ensures Rejection(request).Some? ==> r == Failure(Rejection(request).value)
      ensures r == Failure(NotFound) <==> Rejection(request).None? && !dbFails(0) && id !in old(rows)
      ensures r.Success? <==> Rejection(request).None? && !dbFails(0) && id in old(rows) && !dbFails(1)
      ensures r.Success? ==> id in rows && r.value == rows[id]
      ensures r.Success? || (r == Failure(DatabaseError) && !dbFails(0)) ==> id in rows && Stores(rows[id], request)
      ensures r.Success? || (r == Failure(DatabaseError) && !dbFails(0)) ==>
                && id in old(rows) && rows == old(rows)[id := Accepted(request)]
                && cache == (if hasCache && !delFails then old(cache) - {id} else old(cache))
                && (Coherent(old(cache), old(rows)) ==>
                      (Coherent(cache, rows) <==>
                        (hasCache && !delFails) || id !in old(cache) || old(cache)[id].product == Accepted(request)))
      ensures !(r.Success? || (r == Failure(DatabaseError) && !dbFails(0))) ==> rows == old(rows) && cache == old(cache)
    {
      if Rejection(request).Some? { return Failure(Rejection(request).value); }
      if dbFails(0) { return Failure(DatabaseError); }
      if id !in rows { return Failure(NotFound); }
      AcceptedStores(request);
      Replace(id, Accepted(request), delFails);
      if dbFails(1) { return Failure(DatabaseError); }
      return Success(rows[id]);
    }

    method Delete(id: int, dbFails: bool, delFails: bool) returns (err: Option<Error>)
      requires Valid()
      modifies this`rows, this`cache
      ensures Valid()
      ensures err == if dbFails then Some(DatabaseError) else if id !in old(rows) then Some(NotFound) else None
      ensures err.Some? ==> rows == old(rows) && cache == old(cache)
      ensures err.None? ==>
                && rows == old(rows) - {id}
                && cache == (if hasCache && !delFails then old(cache) - {id} else old(cache))
                && (Coherent(old(cache), old(rows)) ==>
                      (Coherent(cache, rows) <==> (hasCache && !delFails) || id !in old(cache)))
    {
      if dbFails { return Some(DatabaseError); }
      if id !in rows { return Some(NotFound); }
      ghost var before := rows;
      rows := rows - {id};
      InvalidateCache(id, delFails);
      if Coherent(old(cache), before) {
        OthersAgree(old(cache), cache, before, rows, id);
      }
      return None;
    }
  }

  /** ON DELETE SET NULL on products.category_id. */
  function ClearCategory(rows: map<int, Product>, c: int): map<int, Product> {
    map id | id in rows :: if rows[id].category == Some(c) then rows[id].(category := None) else rows[id]
  }

  /** Deleting a category rewrites its products behind the cache: coherence survives exactly when none of
      them is cached. */
  lemma CategoryDeletedBehindCache(cache: map<int, Entry>, rows: map<int, Product>, c: int)
    requires Coherent(cache, rows)
    ensures Coherent(cache, ClearCategory(rows, c)) <==> forall id | id in cache :: cache[id].product.category != Some(c)
  {
    forall id ensures Agrees(cache, ClearCategory(rows, c), id) <==> id !in cache || cache[id].product.category != Some(c) {
      assert Agrees(cache, rows, id);
    }
  }

  /** After a write a coherent cache is coherent exactly if the entry is gone or holds the new row. */
  lemma WriteAgrees(cache: map<int, Entry>, cache': map<int, Entry>, rows: map<int, Product>, row: Product, id: int, deleted: bool)
    requires cache' == if deleted then cache - {id} else cache
    ensures Coherent(cache, rows) ==>
              (Coherent(cache', rows[id := row]) <==> deleted || id !in cache || cache[id].product == row)
  {
    if Coherent(cache, rows) {
      OthersAgree(cache, cache', rows, rows[id := row], id);
    }
  }

  /** A write to one id leaves the other entries in agreement. */
  lemma OthersAgree(cache: map<int, Entry>, cache': map<int, Entry>, rows: map<int, Product>, rows': map<int, Product>, id: int)
    requires Coherent(cache, rows)
    requires forall x | x != id :: (x in cache' ==> x in cache && cache'[x] == cache[x])
    requires forall x | x != id && x in rows :: x in rows' && rows'[x] == rows[x]
    ensures Coherent(cache', rows') <==> Agrees(cache', rows', id)
  {
    forall x | x != id ensures Agrees(cache', rows', x) {
      assert Agrees(cache, rows, x);
    }
  }
}
