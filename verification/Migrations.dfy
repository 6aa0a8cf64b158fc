/**
 The migration runner: the .sql files of a directory in order of name, each executed and recorded in
 schema_migrations within one transaction.
 */
module Migrations {
  import opened Basics

  datatype DirEntry = DirEntry(name: string, isDir: bool)

  datatype Error = ReadDirFailed | TableFailed | QueryFailed | ReadFileFailed | BeginFailed
    | MigrationFailed(file: string) | InsertFailed | CommitFailed

  /** schema_migrations.version is VARCHAR(100). */
  const MAX_VERSION := 100

  /******* Which files, in which order *******/

  predicate IsMigration(entry: DirEntry) {
    !entry.isDir && |entry.name| >= 4 && entry.name[|entry.name| - 4..] == ".sql"
  }

  function Names(entries: seq<DirEntry>): seq<string> {
    if entries == [] then []
    else
      var last := entries[|entries| - 1];
      Names(entries[..|entries| - 1]) + if IsMigration(last) then [last.name] else []
  }

  /** The migrations are exactly the files, directories aside, whose names end in ".sql". */
  lemma {:induction false} NamesExactly(entries: seq<DirEntry>, file: string)
    ensures file in Names(entries) <==>
            exists i :: 0 <= i < |entries| && entries[i].name == file && !entries[i].isDir && |file| >= 4 && file[|file| - 4..] == ".sql"
  {
    if entries != [] {
      var n := |entries| - 1;
      NamesExactly(entries[..n], file);
      if file in Names(entries[..n]) {
        var i :| 0 <= i < n && entries[..n][i].name == file && !entries[..n][i].isDir && |file| >= 4 && file[|file| - 4..] == ".sql";
        assert entries[i] == entries[..n][i];
      }
      forall i | 0 <= i < n ensures entries[i] == entries[..n][i] {}
    }
  }

  /** The order of Go strings. */
  predicate Leq(a: string, b: string) {
    a == "" || (b != "" && (a[0] < b[0] || (a[0] == b[0] && Leq(a[1..], b[1..]))))
  }

  /** `a` is a beginning of `b`, or smaller at the first character in which they differ. */
  ghost predicate Smaller(a: string, b: string) {
    || (|a| <= |b| && b[..|a|] == a)
    || exists i :: SmallerAt(a, b, i)
  }

  ghost predicate SmallerAt(a: string, b: string, i: int) {
    0 <= i < |a| && i < |b| && a[..i] == b[..i] && a[i] < b[i]
  }

  lemma {:induction false} LeqExactly(a: string, b: string)
    ensures Leq(a, b) <==> Smaller(a, b)
  {
    if a != "" && b != "" && a[0] == b[0] {
      LeqExactly(a[1..], b[1..]);
      SmallerTail(a, b);
    } else if a != "" && b != "" {
      FirstDecides(a, b);
    }
  }

  lemma FirstDecides(a: string, b: string)
    requires a != "" && b != "" && a[0] != b[0]
    ensures Smaller(a, b) <==> a[0] < b[0]
  {
    if a[0] < b[0] {
      assert SmallerAt(a, b, 0);
    }
    forall i | 0 < i <= |a| && i <= |b| ensures a[..i] != b[..i] {
      assert a[..i][0] == a[0] && b[..i][0] == b[0];
    }
    assert a[..|a|] == a;
  }

  lemma SmallerTail(a: string, b: string)
    requires a != "" && b != "" && a[0] == b[0]
    ensures Smaller(a, b) <==> Smaller(a[1..], b[1..])
  {
    assert a == [a[0]] + a[1..] && b == [b[0]] + b[1..];
    if |a| <= |b| {
      assert b[..|a|] == [b[0]] + b[1..][..|a| - 1];
    }
    if i :| SmallerAt(a, b, i) {
      assert a[1..][..i - 1] == a[..i][1..] && b[1..][..i - 1] == b[..i][1..];
      assert SmallerAt(a[1..], b[1..], i - 1);
    }
    if i :| SmallerAt(a[1..], b[1..], i) {
      assert a[..i + 1] == [a[0]] + a[1..][..i] && b[..i + 1] == [b[0]] + b[1..][..i];
      assert SmallerAt(a, b, i + 1);
    }
  }

  lemma {:induction false} LeqTotal(a: string, b: string)
    ensures Leq(a, b) || Leq(b, a)
  {
    if a != "" && b != "" {
      LeqTotal(a[1..], b[1..]);
    }
  }

  lemma {:induction false} LeqTransitive(a: string, b: string, c: string)
    requires Leq(a, b) && Leq(b, c)
    ensures Leq(a, c)
  {
    if a != "" && a[0] == b[0] == c[0] {
      LeqTransitive(a[1..], b[1..], c[1..]);
    }
  }

  ghost predicate InOrder(files: seq<string>) {
    forall i, j | 0 <= i < j < |files| :: Leq(files[i], files[j])
  }

  ghost predicate Distinct(files: seq<string>) {
    forall i, j | 0 <= i < j < |files| :: files[i] != files[j]
  }

  function Insert(file: string, files: seq<string>): seq<string> {
    if files == [] || Leq(file, files[0]) then [file] + files
    else [files[0]] + Insert(file, files[1..])
  }

  function Sorted(files: seq<string>): seq<string> {
    if files == [] then [] else Insert(files[0], Sorted(files[1..]))
  }

  lemma {:induction false} InsertSorts(file: string, files: seq<string>)
    requires InOrder(files)
    ensures InOrder(Insert(file, files))
    ensures multiset(Insert(file, files)) == multiset(files) + multiset{file}
  {
    if files == [] {
    } else if Leq(file, files[0]) {
      forall j | 0 < j < |files| ensures Leq(file, files[j]) {
        LeqTransitive(file, files[0], files[j]);
      }
    } else {
      var rest := files[1..];
      InsertSorts(file, rest);
      LeqTotal(file, files[0]);
      var inserted := Insert(file, rest);
      assert files == [files[0]] + rest;
      forall j | 0 <= j < |inserted| ensures Leq(files[0], inserted[j]) {
        assert inserted[j] in multiset(inserted);
        assert inserted[j] == file || inserted[j] in rest;
      }
    }
  }

  lemma {:induction false} SortedSorts(files: seq<string>)
    ensures InOrder(Sorted(files)) && multiset(Sorted(files)) == multiset(files)
  {
    if files != [] {
      SortedSorts(files[1..]);
      InsertSorts(files[0], Sorted(files[1..]));
      assert files == [files[0]] + files[1..];
    }
  }

  function Files(entries: seq<DirEntry>): seq<string> {
    Sorted(Names(entries))
  }

  /** What a run has left to do. */
  function Pending(files: seq<string>, versions: set<string>): seq<string> {
    if files == [] then []
    else if files[0] in versions then Pending(files[1..], versions)
    else [files[0]] + Pending(files[1..], versions + {files[0]})
  }

  lemma {:induction false} PendingInOrder(files: seq<string>, versions: set<string>)
    requires InOrder(files)
    ensures InOrder(Pending(files, versions)) && forall f | f in Pending(files, versions) :: f in files && f !in versions
  {
    if files != [] {
      var rest := files[1..];
      PendingInOrder(rest, if files[0] in versions then versions else versions + {files[0]});
      assert forall f | f in rest :: f in files && Leq(files[0], f);
    }
  }

  /** A file of the directory that is a migration and not recorded yet. */
  ghost predicate IsPending(entries: seq<DirEntry>, versions: set<string>, file: string) {
    && file !in versions && |file| >= 4 && file[|file| - 4..] == ".sql"
    && exists i :: 0 <= i < |entries| && entries[i].name == file && !entries[i].isDir
  }

  lemma PendingFiles(entries: seq<DirEntry>, versions: set<string>)
    ensures var pending := Pending(Files(entries), versions);
            && (forall i, j | 0 <= i < j < |pending| :: Smaller(pending[i], pending[j]))
            && (forall i | 0 <= i < |pending| :: IsPending(entries, versions, pending[i]))
  {
    var pending := Pending(Files(entries), versions);
    SortedSorts(Names(entries));
    PendingInOrder(Files(entries), versions);
    forall i, j | 0 <= i < j < |pending| ensures Smaller(pending[i], pending[j]) {
      LeqExactly(pending[i], pending[j]);
    }
    forall i | 0 <= i < |pending| ensures IsPending(entries, versions, pending[i]) {
      assert pending[i] in pending;
      FileIsMigration(entries, pending[i]);
    }
  }

  lemma FileIsMigration(entries: seq<DirEntry>, file: string)
    requires file in Files(entries)
    ensures |file| >= 4 && file[|file| - 4..] == ".sql"
    ensures exists i :: 0 <= i < |entries| && entries[i].name == file && !entries[i].isDir
  {
    SortedSorts(Names(entries));
    assert file in multiset(Files(entries));
    NamesExactly(entries, file);
  }

  lemma PendingStep(files: seq<string>, i: nat, versions: set<string>, done: seq<string>)
    requires i < |files|
    ensures files[i] in versions ==> Pending(files[i..], versions) == Pending(files[i + 1..], versions)
    ensures files[i] !in versions ==>
              && done + Pending(files[i..], versions) == (done + [files[i]]) + Pending(files[i + 1..], versions + {files[i]})
              && files[i] in done + Pending(files[i..], versions)
  {
    assert files[i..][0] == files[i] && files[i..][1..] == files[i + 1..];
  }

  /** A run that stops anywhere has applied a prefix of what was pending. */
  ghost predicate Advanced(files: seq<string>, before: seq<string>, after: seq<string>, succeeded: bool) {
    var pending := Pending(files, Elements(before));
    exists k | 0 <= k <= |pending| :: after == before + pending[..k] && (succeeded ==> k == |pending|)
  }

  function Elements(applied: seq<string>): set<string> {
    set file | file in applied
  }

  ghost predicate Faultless(fault: nat -> CallResult) {
    forall n :: fault(n).Works?
  }

  /** Every version fits its column. */
  ghost predicate Recordable(files: seq<string>) {
    forall i | 0 <= i < |files| :: |files[i]| <= MAX_VERSION
  }

  class Database {
    /** None until the table exists. */
    var versions: Option<set<string>>
    /** Every migration whose statements were committed, oldest first. */
    ghost var applied: seq<string>

    constructor ()
      ensures Valid() && applied == []
    {
      versions, applied := None, [];
    }

    ghost predicate Valid()
      reads this
    {
      && Distinct(applied)
      && Elements(applied) == if versions.Some? then versions.value else {}
    }

    /** `fault(n)` is the outcome of the n-th call that can fail. */
    method RunMigrations(directory: Option<seq<DirEntry>>, fault: nat -> CallResult) returns (err: Option<Error>)
      requires Valid()
      modifies this
      ensures Valid()
      ensures directory.None? ==> err == Some(ReadDirFailed) && applied == old(applied)
      ensures directory.Some? ==> Advanced(Files(directory.value), old(applied), applied, err.None?)
      ensures directory.Some? ==>
                && (forall i, j | |old(applied)| <= i < j < |applied| :: Smaller(applied[i], applied[j]))
                && (forall i | |old(applied)| <= i < |applied| :: IsPending(directory.value, Elements(old(applied)), applied[i]))
      ensures directory.Some? && Faultless(fault) ==>
                (err.None? <==> Recordable(Pending(Files(directory.value), Elements(old(applied)))))
      ensures directory.Some? && Faultless(fault) && err.Some? ==> err == Some(InsertFailed)
    {
      if directory.None? { return Some(ReadDirFailed); }
      var files := ListFiles(directory.value);
      files := Sorted(files);
      PendingFiles(directory.value, Elements(applied));

      assert applied == applied + Pending(files, Elements(applied))[..0];
      if !fault(0).Works? { return Some(TableFailed); }
      if versions.None? { versions := Some({}); }
      ghost var pending := Pending(files, Elements(applied));
      ghost var done;
      err, done := ApplyAll(files, fault);
      assert done == pending[..|done|];
    }

    method ApplyAll(files: seq<string>, fault: nat -> CallResult) returns (err: Option<Error>, ghost done: seq<string>)
      requires Valid() && versions.Some?
      modifies this
      ensures Valid()
      ensures applied == old(applied) + done && done <= Pending(files, Elements(old(applied)))
      ensures err.None? ==> done == Pending(files, Elements(old(applied)))
      ensures Faultless(fault) ==> (err.None? <==> Recordable(Pending(files, Elements(old(applied)))))
      ensures Faultless(fault) && err.Some? ==> err == Some(InsertFailed)
    {
      ghost var pending := Pending(files, versions.value);
      done := [];
      for i := 0 to |files|
        invariant Valid() && versions.Some?
        invariant applied == old(applied) + done && pending == done + Pending(files[i..], versions.value)
        invariant Faultless(fault) ==> Recordable(done)
      {
        var file := files[i];
        ghost var todo := file !in versions.value;
        PendingStep(files, i, versions.value, done);
        err := ApplyFile(file, fault, 1 + 6 * i);
        if todo && file in versions.value {
          done := done + [file];
        }
        if err.Some? {
          return;
        }
      }
      return None, done;
    }

    method ListFiles(entries: seq<DirEntry>) returns (files: seq<string>)
      ensures files == Names(entries)
    {
      files := [];
      for i := 0 to |entries|
        invariant files == Names(entries[..i])
      {
        assert entries[..i + 1][..i] == entries[..i];
        if !IsMigration(entries[i]) { continue; }
        files := files + [entries[i].name];
      }
      assert entries[..|entries|] == entries;
    }

    /** One turn of the loop.  A migration whose version cannot be recorded is rolled back. */
    method ApplyFile(file: string, fault: nat -> CallResult, call: nat) returns (err: Option<Error>)
      requires Valid() && versions.Some?
      modifies this
      ensures Valid() && versions.Some?
      ensures file in old(versions.value) ==> versions == old(versions) && applied == old(applied)
      ensures file !in old(versions.value) ==>
                || (versions == old(versions) && applied == old(applied) && err.Some?)
                || (versions.value == old(versions.value) + {file} && applied == old(applied) + [file] && |file| <= 100)
      ensures Faultless(fault) ==>
                err == if file !in old(versions.value) && |file| > 100 then Some(InsertFailed) else None
    {
      if !fault(call).Works? { return Some(QueryFailed); }
      if file in versions.value { return None; }
      if !fault(call + 1).Works? { return Some(ReadFileFailed); }
      if !fault(call + 2).Works? { return Some(BeginFailed); }
      if !fault(call + 3).Works? { return Some(MigrationFailed(file)); }
      if |file| > MAX_VERSION || !fault(call + 4).Works? { return Some(InsertFailed); }
      if fault(call + 5).Fails? { return Some(CommitFailed); }
      Record(file);
      return if fault(call + 5).LostAck? then Some(CommitFailed) else None;
    }

    /** The commit: the statements take effect and the version is recorded. */
    method Record(file: string)
      requires Valid() && versions.Some? && file !in versions.value
      modifies this
      ensures Valid() && versions.Some?
      ensures versions.value == old(versions.value) + {file} && applied == old(applied) + [file]
    {
      versions := Some(versions.value + {file});
      applied := applied + [file];
      assert Elements(applied) == Elements(old(applied)) + {file};
      assert forall i | 0 <= i < |old(applied)| :: old(applied)[i] in Elements(old(applied));
    }
  }

  /******* Any sequence of runs over one directory *******/

  lemma {:induction false} PendingAfter(files: seq<string>, n: nat, versions: set<string>)
    requires n <= |files| && Distinct(files)
    requires forall i | 0 <= i < |files| :: files[i] in versions <==> i < n
    ensures Pending(files, versions) == files[n..]
  {
    if files == [] {
    } else if n > 0 {
      PendingAfter(files[1..], n - 1, versions);
    } else {
      PendingFresh(files, versions);
    }
  }

  lemma {:induction false} PendingFresh(files: seq<string>, versions: set<string>)
    requires Distinct(files) && forall i | 0 <= i < |files| :: files[i] !in versions
    ensures Pending(files, versions) == files
  {
    if files != [] {
      PendingFresh(files[1..], versions + {files[0]});
    }
  }

  /** One run keeps the applied migrations a prefix of the directory, and completes it if it succeeds. */
  lemma RunExtendsPrefix(files: seq<string>, before: seq<string>, after: seq<string>, succeeded: bool)
    requires Distinct(files) && before <= files && Advanced(files, before, after, succeeded)
    ensures before <= after <= files && (succeeded ==> after == files)
  {
    forall i | 0 <= i < |files| ensures files[i] in Elements(before) <==> i < |before| {
      if i < |before| {
        assert before[i] == files[i];
      }
    }
    PendingAfter(files, |before|, Elements(before));
    assert files == before + files[|before|..];
  }

  /** `trace[n]` is what has been applied after n runs over one directory, each stopped anywhere. */
  ghost predicate Runs(files: seq<string>, trace: seq<seq<string>>, succeeded: seq<bool>) {
    && |trace| == |succeeded| + 1 && trace[0] == []
    && forall m | 0 <= m < |succeeded| :: Advanced(files, trace[m], trace[m + 1], succeeded[m])
  }

  lemma {:induction false} PrefixAfterRuns(files: seq<string>, trace: seq<seq<string>>, succeeded: seq<bool>, n: nat)
    requires Distinct(files) && Runs(files, trace, succeeded) && n < |trace|
    ensures trace[n] <= files
    ensures forall m | 0 <= m < n && succeeded[m] :: trace[n] == files
  {
    if n > 0 {
      PrefixAfterRuns(files, trace, succeeded, n - 1);
      RunExtendsPrefix(files, trace[n - 1], trace[n], succeeded[n - 1]);
    }
  }

  /** What has been applied is always a prefix of the sorted files, each at most once; a success applies
      them all, and nothing changes from then on. */
  lemma MigrationsInOrder(entries: seq<DirEntry>, trace: seq<seq<string>>, succeeded: seq<bool>, n: nat)
    requires Distinct(Names(entries)) && Runs(Files(entries), trace, succeeded) && n < |trace|
    ensures trace[n] <= Files(entries) && Distinct(trace[n])
    ensures forall i, j | 0 <= i < j < |trace[n]| :: Smaller(trace[n][i], trace[n][j])
    ensures forall m | 0 <= m < n && succeeded[m] :: trace[n] == Files(entries)
    ensures multiset(Files(entries)) == multiset(Names(entries))
  {
    SortedSorts(Names(entries));
    DistinctPermutation(Names(entries), Files(entries));
    PrefixAfterRuns(Files(entries), trace, succeeded, n);
    forall i, j | 0 <= i < j < |trace[n]| ensures Smaller(trace[n][i], trace[n][j]) {
      assert Leq(Files(entries)[i], Files(entries)[j]);
      LeqExactly(trace[n][i], trace[n][j]);
    }
  }

  lemma DistinctPermutation(a: seq<string>, b: seq<string>)
    requires Distinct(a) && multiset(a) == multiset(b)
    ensures Distinct(b)
  {
    forall i, j | 0 <= i < j < |b| ensures b[i] != b[j] {
      if b[i] == b[j] {
        assert b == b[..j] + [b[j]] + b[j + 1..];
        assert b[i] in b[..j];
        assert multiset(b)[b[i]] >= 2;
        DistinctCounts(a, b[i]);
      }
    }
  }

  lemma {:induction false} DistinctCounts(a: seq<string>, x: string)
    requires Distinct(a)
    ensures multiset(a)[x] <= 1
  {
    if a != [] {
      DistinctCounts(a[1..], x);
      assert a == [a[0]] + a[1..];
      assert a[0] !in a[1..];
    }
  }
}
