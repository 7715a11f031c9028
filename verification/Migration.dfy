/** Cross-contract migration: remittances leave in numbered batches and are imported strictly in order. */
module Migration {
  import opened Common
  import opened Types

  const MAX_MIGRATION_BATCH_SIZE: nat := 100
  const TWO_32: nat := 0x1_0000_0000

  type Digest = nat

  /** The digest of a batch: any function of its content and number. */
  type Hasher = (seq<Remittance>, nat) -> Digest

  datatype Batch = Batch(number: nat, total: nat, remittances: seq<Remittance>, hash: Digest)

  /**
   What a contract instance stores. The migration module and the rest of the contract each name the
   progress flag in an enum of their own; a stored key holds the variant's name only, so both name
   the same entry, `inProgress`.
   */
  datatype Store = Store(
    remittances: map<nat, Remittance>,
    counter: nat,
    expectedNext: nat,
    inProgress: bool)

  // ----- export -----

  function StoredAt(remittances: map<nat, Remittance>, id: nat): seq<Remittance> {
    if id in remittances then [remittances[id]] else []
  }

  /** The stored remittances with ids lo+1, .., hi, in order. */
  function Present(remittances: map<nat, Remittance>, lo: nat, hi: nat): seq<Remittance> {
    if hi <= lo then [] else Present(remittances, lo, hi - 1) + StoredAt(remittances, hi)
  }

  function CeilDiv(a: nat, b: nat): nat
    requires b > 0
  {
    (a + b - 1) / b
  }

  /** The counter after the cast to 32 bits. */
  function Truncated(counter: nat): nat {
    counter % TWO_32
  }

  function Export(s: Store, hash: Hasher, number: nat, size: nat): Result<Batch> {
    if size < 1 || size > MAX_MIGRATION_BATCH_SIZE then Err(InvalidAmount) else
    var total := CeilDiv(Truncated(s.counter), size);
    :- Need(number < total, InvalidAmount);
    :- Need((number + 1) * size <= U32_MAX, HostTrap);
    var content := Present(s.remittances, number * size, Min((number + 1) * size, Truncated(s.counter)));
    Ok(Batch(number, total, content, hash(content, number)))
  }

  method ExportBatch(s: Store, hash: Hasher, batchNumber: nat, batchSize: nat) returns (r: Result<Batch>)
    ensures r == Export(s, hash, batchNumber, batchSize)
  {
    if batchSize == 0 || batchSize > MAX_MIGRATION_BATCH_SIZE {
      return Err(InvalidAmount);
    }
    var counter := s.counter % TWO_32;
    var totalBatches := CeilDiv(counter, batchSize);
    if batchNumber >= totalBatches {
      return Err(InvalidAmount);
    }
    if batchNumber * batchSize > U32_MAX || (batchNumber + 1) * batchSize > U32_MAX {
      assert (batchNumber + 1) * batchSize == batchNumber * batchSize + batchSize;
      return Err(HostTrap);
    }
    var startId := batchNumber * batchSize + 1;
    var endId := Min((batchNumber + 1) * batchSize, counter);
    BatchStart(counter, batchNumber, batchSize);
    var remittances: seq<Remittance> := [];
    for id := startId to endId + 1
      invariant remittances == Present(s.remittances, startId - 1, id - 1)
    {
      if id in s.remittances {
        remittances := remittances + [s.remittances[id]];
      }
    }
    r := Ok(Batch(batchNumber, totalBatches, remittances, hash(remittances, batchNumber)));
  }

  lemma Quotient(a: nat, b: nat)
    requires b > 0
    ensures a / b * b <= a < a / b * b + b
  {
    assert a == b * (a / b) + a % b;
  }

  lemma TimesMonotone(a: nat, b: nat, m: nat)
    requires a <= b
    ensures a * m <= b * m
  {
    assert b * m == a * m + (b - a) * m;
  }

  /** An existing batch starts before the last id, and only the last batch reaches it. */
  lemma BatchStart(counter: nat, number: nat, size: nat)
    requires size > 0 && number < CeilDiv(counter, size)
    ensures number * size < counter
    ensures (number + 1) * size == number * size + size
    ensures number + 1 < CeilDiv(counter, size) ==> (number + 1) * size < counter
    ensures number + 1 == CeilDiv(counter, size) ==> (number + 1) * size >= counter
  {
    var total := CeilDiv(counter, size);
    Quotient(counter + size - 1, size);
    TimesMonotone(number + 1, total, size);
    Successor(number, size);
    if number + 1 < total {
      Successor(number + 1, size);
      TimesMonotone(number + 2, total, size);
    }
  }

  lemma Successor(n: nat, m: nat)
    ensures (n + 1) * m == n * m + m
  {
  }

  // ----- import -----

  function Put(remittances: map<nat, Remittance>, content: seq<Remittance>): map<nat, Remittance> {
    if content == [] then remittances else
      var r := content[|content| - 1];
      Put(remittances, content[..|content| - 1])[r.id := r]
  }

  function Import(s: Store, hash: Hasher, b: Batch): Result<Store> {
    if b.number >= b.total then Err(InvalidMigrationBatch) else
    :- Need(hash(b.remittances, b.number) == b.hash, InvalidMigrationHash);
    :- Need(b.number == s.expectedNext, InvalidMigrationBatch);
    :- Need(s.expectedNext + 1 <= U32_MAX, HostTrap);
    var last := b.number == b.total - 1;
    Ok(s.(remittances := Put(s.remittances, b.remittances),
          expectedNext := if last then 0 else s.expectedNext + 1,
          inProgress := if last then false else b.number == 0 || s.inProgress))
  }

  /** Exporting the contract's state locks it for the duration of the migration. */
  function Lock(s: Store): Result<Store> {
    if s.inProgress then Err(MigrationInProgress) else Ok(s.(inProgress := true))
  }

  function Abort(s: Store): Result<Store> {
    if !s.inProgress then Err(NotFound) else Ok(s.(inProgress := false, expectedNext := 0))
  }

  class MigrationStore {
    var remittances: map<nat, Remittance>
    var counter: nat
    var expectedNext: nat
    var inProgress: bool

    function Snapshot(): Store
      reads this
    {
      Store(remittances, counter, expectedNext, inProgress)
    }

    /** The answer and the stored state agree with the specification; an error stores nothing. */
    ghost predicate Follows(was: Store, spec: Result<Store>, answer: Result<()>)
      reads this
    {
      match spec
      case Ok(s') => answer == Ok(()) && Snapshot() == s'
      case Err(error) => answer == Err(error) && Snapshot() == was
    }

    constructor (counter: nat)
      ensures Snapshot() == Store(map[], counter, 0, false)
    {
      remittances, this.counter, expectedNext, inProgress := map[], counter, 0, false;
    }

    method ImportMigrationBatch(hash: Hasher, batch: Batch) returns (r: Result<()>)
      modifies this
      ensures Follows(old(Snapshot()), Import(old(Snapshot()), hash, batch), r)
    {
      if batch.number >= batch.total {
        return Err(InvalidMigrationBatch);
      }
      var computedHash := hash(batch.remittances, batch.number);
      if computedHash != batch.hash {
        return Err(InvalidMigrationHash);
      }
      var expected := expectedNext;
      if batch.number != expected {
        return Err(InvalidMigrationBatch);
      }
      if expected + 1 > U32_MAX {
        return Err(HostTrap);
      }
      if batch.number == 0 {
        inProgress := true;
      }
      for i := 0 to |batch.remittances|
        invariant remittances == Put(old(remittances), batch.remittances[..i])
        invariant counter == old(counter) && expectedNext == expected
        invariant inProgress == (batch.number == 0 || old(inProgress))
      {
        assert batch.remittances[..i + 1][..i] == batch.remittances[..i];
        var remittance := batch.remittances[i];
        remittances := remittances[remittance.id := remittance];
      }
      assert batch.remittances[..|batch.remittances|] == batch.remittances;
      expectedNext := expected + 1;
      if batch.number == SaturatingSub(batch.total, 1) {
        expectedNext := 0;
        inProgress := false;
      }
      r := Ok(());
    }

    method LockForExport() returns (r: Result<()>)
      modifies this
      ensures Follows(old(Snapshot()), Lock(old(Snapshot())), r)
    {
      if inProgress {
        return Err(MigrationInProgress);
      }
      inProgress := true;
      r := Ok(());
    }

    method AbortMigration() returns (r: Result<()>)
      modifies this
      ensures Follows(old(Snapshot()), Abort(old(Snapshot())), r)
    {
      if !inProgress {
        return Err(NotFound);
      }
      inProgress := false;
      expectedNext := 0;
      r := Ok(());
    }
  }

  // ----- laws -----

  lemma Associative<T>(a: seq<T>, b: seq<T>, c: seq<T>)
    ensures (a + b) + c == a + (b + c)
  {
  }

  lemma {:induction false} PresentConcat(remittances: map<nat, Remittance>, lo: nat, mid: nat, hi: nat)
    requires lo <= mid <= hi
    ensures Present(remittances, lo, hi) == Present(remittances, lo, mid) + Present(remittances, mid, hi)
    decreases hi
  {
    if mid < hi {
      PresentConcat(remittances, lo, mid, hi - 1);
      Associative(Present(remittances, lo, mid), Present(remittances, mid, hi - 1), StoredAt(remittances, hi));
    } else {
      assert Present(remittances, mid, hi) == [];
    }
  }

  /** The first `n` batches, in order. */
  function ExportFirst(s: Store, hash: Hasher, size: nat, n: nat): Result<seq<Batch>> {
    if n == 0 then Ok([]) else
      var batches :- ExportFirst(s, hash, size, n - 1);
      var b :- Export(s, hash, n - 1, size);
      Ok(batches + [b])
  }

  function Contents(batches: seq<Batch>): seq<Remittance> {
    if batches == [] then [] else Contents(batches[..|batches| - 1]) + batches[|batches| - 1].remittances
  }

  function TotalBatches(s: Store, size: nat): nat
    requires size > 0
  {
    CeilDiv(Truncated(s.counter), size)
  }

  /** Exporting fits 32 bits when the end of the last batch does. */
  ghost predicate Exportable(s: Store, size: nat) {
    && 1 <= size <= MAX_MIGRATION_BATCH_SIZE
    && s.counter <= U32_MAX
    && TotalBatches(s, size) * size <= U32_MAX
  }

  lemma ExportOne(s: Store, hash: Hasher, size: nat, number: nat)
    requires Exportable(s, size) && number < TotalBatches(s, size)
    ensures Export(s, hash, number, size).Ok?
    ensures var b := Export(s, hash, number, size).value;
            && b.number == number && b.total == TotalBatches(s, size)
            && b.hash == hash(b.remittances, number)
            && b.remittances == Present(s.remittances, number * size, Min((number + 1) * size, s.counter))
  {
    Untruncated(s);
    TimesMonotone(number + 1, TotalBatches(s, size), size);
  }

  lemma Untruncated(s: Store)
    requires s.counter <= U32_MAX
    ensures Truncated(s.counter) == s.counter
  {
  }

  lemma BatchEnds(s: Store, size: nat, n: nat)
    requires Exportable(s, size) && n <= TotalBatches(s, size)
    ensures n > 0 ==> (n - 1) * size < s.counter && (n - 1) * size <= n * size
    ensures n == TotalBatches(s, size) ==> s.counter <= n * size
  {
    Untruncated(s);
    if n > 0 {
      BatchStart(s.counter, n - 1, size);
    } else if n == TotalBatches(s, size) {
      Quotient(s.counter + size - 1, size);
    }
  }

  lemma ContentsSnoc(batches: seq<Batch>, b: Batch)
    ensures Contents(batches + [b]) == Contents(batches) + b.remittances
  {
    assert (batches + [b])[..|batches|] == batches;
  }

  lemma NextContents(remittances: map<nat, Remittance>, batches: seq<Batch>, b: Batch, lo: nat, hi: nat)
    requires lo <= hi
    requires Contents(batches) == Present(remittances, 0, lo) && b.remittances == Present(remittances, lo, hi)
    ensures Contents(batches + [b]) == Present(remittances, 0, hi)
  {
    ContentsSnoc(batches, b);
    PresentConcat(remittances, 0, lo, hi);
  }

  lemma ExportFirstSnoc(s: Store, hash: Hasher, size: nat, n: nat)
    requires n > 0 && ExportFirst(s, hash, size, n - 1).Ok? && Export(s, hash, n - 1, size).Ok?
    ensures ExportFirst(s, hash, size, n)
         == Ok(ExportFirst(s, hash, size, n - 1).value + [Export(s, hash, n - 1, size).value])
  {
  }

  /** The last id of the first `n` batches. */
  function EndOf(s: Store, size: nat, n: nat): nat {
    Min(n * size, s.counter)
  }

  lemma EndsMeet(s: Store, size: nat, n: nat)
    requires Exportable(s, size) && 0 < n <= TotalBatches(s, size)
    ensures EndOf(s, size, n - 1) == (n - 1) * size <= EndOf(s, size, n)
  {
    BatchEnds(s, size, n);
  }

  lemma PartitionStep(s: Store, hash: Hasher, size: nat, n: nat, batches: seq<Batch>)
    requires Exportable(s, size) && 0 < n <= TotalBatches(s, size)
    requires Contents(batches) == Present(s.remittances, 0, EndOf(s, size, n - 1))
    ensures Export(s, hash, n - 1, size).Ok?
    ensures Contents(batches + [Export(s, hash, n - 1, size).value]) == Present(s.remittances, 0, EndOf(s, size, n))
  {
    ExportOne(s, hash, size, n - 1);
    EndsMeet(s, size, n);
    NextContents(s.remittances, batches, Export(s, hash, n - 1, size).value, EndOf(s, size, n - 1), EndOf(s, size, n));
  }

  lemma PartitionNext(s: Store, hash: Hasher, size: nat, n: nat)
    requires Exportable(s, size) && 0 < n <= TotalBatches(s, size)
    requires ExportFirst(s, hash, size, n - 1).Ok?
    requires Contents(ExportFirst(s, hash, size, n - 1).value) == Present(s.remittances, 0, EndOf(s, size, n - 1))
    ensures ExportFirst(s, hash, size, n).Ok?
    ensures |ExportFirst(s, hash, size, n).value| == |ExportFirst(s, hash, size, n - 1).value| + 1
    ensures Contents(ExportFirst(s, hash, size, n).value) == Present(s.remittances, 0, EndOf(s, size, n))
  {
    PartitionStep(s, hash, size, n, ExportFirst(s, hash, size, n - 1).value);
    ExportFirstSnoc(s, hash, size, n);
  }

  /** The batches partition the ids 1 .. counter, in order and without repetition. */
  lemma {:induction false} BatchesPartition(s: Store, hash: Hasher, size: nat, n: nat)
    requires Exportable(s, size) && n <= TotalBatches(s, size)
    ensures ExportFirst(s, hash, size, n).Ok? && |ExportFirst(s, hash, size, n).value| == n
    ensures Contents(ExportFirst(s, hash, size, n).value) == Present(s.remittances, 0, EndOf(s, size, n))
  {
    if n > 0 {
      BatchesPartition(s, hash, size, n - 1);
      PartitionNext(s, hash, size, n);
    }
  }

  /** The batches are imported in turn; the first failure stops. */
  function ImportAll(s: Store, hash: Hasher, batches: seq<Batch>): Result<Store> {
    if batches == [] then Ok(s) else
      var s' :- ImportAll(s, hash, batches[..|batches| - 1]);
      Import(s', hash, batches[|batches| - 1])
  }

  lemma {:induction false} PutConcat(remittances: map<nat, Remittance>, xs: seq<Remittance>, ys: seq<Remittance>)
    ensures Put(remittances, xs + ys) == Put(Put(remittances, xs), ys)
    decreases |ys|
  {
    if ys == [] {
      assert xs + ys == xs;
    } else {
      assert (xs + ys)[..|xs + ys| - 1] == xs + ys[..|ys| - 1];
      PutConcat(remittances, xs, ys[..|ys| - 1]);
    }
  }

  lemma ImportNext(s: Store, hash: Hasher, b: Batch)
    requires b.number == s.expectedNext < b.total <= U32_MAX
    requires b.hash == hash(b.remittances, b.number)
    ensures Import(s, hash, b).Ok?
    ensures var s' := Import(s, hash, b).value;
            && s'.remittances == Put(s.remittances, b.remittances) && s'.counter == s.counter
            && (b.number + 1 < b.total ==> s'.expectedNext == b.number + 1)
            && (b.number + 1 == b.total ==> s'.expectedNext == 0 && !s'.inProgress)
  {
  }

  lemma ImportAllSnoc(t: Store, hash: Hasher, batches: seq<Batch>, b: Batch)
    requires ImportAll(t, hash, batches).Ok?
    ensures ImportAll(t, hash, batches + [b]) == Import(ImportAll(t, hash, batches).value, hash, b)
  {
    assert (batches + [b])[..|batches|] == batches;
  }

  /** The store `done` after the first `n` of `total` batches with these contents. */
  ghost predicate Imported(t: Store, done: Store, contents: seq<Remittance>, n: nat, total: nat) {
    && done.remittances == Put(t.remittances, contents) && done.counter == t.counter
    && (n < total ==> done.expectedNext == n)
    && (n == total > 0 ==> done.expectedNext == 0 && !done.inProgress)
  }

  lemma ImportedNext(t: Store, done: Store, hash: Hasher, contents: seq<Remittance>, n: nat, total: nat, b: Batch)
    requires Imported(t, done, contents, n, total) && n < total <= U32_MAX
    requires b.number == n && b.total == total && b.hash == hash(b.remittances, n)
    ensures Import(done, hash, b).Ok?
    ensures Imported(t, Import(done, hash, b).value, contents + b.remittances, n + 1, total)
  {
    ImportNext(done, hash, b);
    PutConcat(t.remittances, contents, b.remittances);
  }

  lemma {:induction false} ImportPrefix(s: Store, t: Store, hash: Hasher, size: nat, n: nat)
    requires Exportable(s, size) && n <= TotalBatches(s, size) && t.expectedNext == 0
    ensures ExportFirst(s, hash, size, n).Ok?
    ensures ImportAll(t, hash, ExportFirst(s, hash, size, n).value).Ok?
    ensures var batches := ExportFirst(s, hash, size, n).value;
            Imported(t, ImportAll(t, hash, batches).value, Contents(batches), n, TotalBatches(s, size))
  {
    if n > 0 {
      ImportPrefix(s, t, hash, size, n - 1);
      ExportOne(s, hash, size, n - 1);
      ExportFirstSnoc(s, hash, size, n);
      var batches, b := ExportFirst(s, hash, size, n - 1).value, Export(s, hash, n - 1, size).value;
      SmallTotal(s, size);
      ImportedNext(t, ImportAll(t, hash, batches).value, hash, Contents(batches), n - 1, TotalBatches(s, size), b);
      ImportAllSnoc(t, hash, batches, b);
      ContentsSnoc(batches, b);
    }
  }

  lemma SmallTotal(s: Store, size: nat)
    requires Exportable(s, size)
    ensures TotalBatches(s, size) <= U32_MAX
  {
    TimesMonotone(1, size, TotalBatches(s, size));
  }

  ghost predicate WellKeyed(s: Store) {
    forall id | id in s.remittances :: 1 <= id <= s.counter && s.remittances[id].id == id
  }

  /** The remittances with ids up to `hi`. */
  function UpTo(remittances: map<nat, Remittance>, hi: nat): map<nat, Remittance> {
    map id | id in remittances && id <= hi :: remittances[id]
  }

  lemma UpToNext(remittances: map<nat, Remittance>, hi: nat)
    requires hi > 0
    ensures UpTo(remittances, hi)
         == if hi in remittances then UpTo(remittances, hi - 1)[hi := remittances[hi]] else UpTo(remittances, hi - 1)
  {
  }

  lemma {:induction false} PutPresent(s: Store, hi: nat)
    requires WellKeyed(s)
    ensures Put(map[], Present(s.remittances, 0, hi)) == UpTo(s.remittances, hi)
  {
    if hi == 0 {
      assert Put(map[], []) == map[];
      assert UpTo(s.remittances, 0) == map[];
    } else {
      PutPresent(s, hi - 1);
      UpToNext(s.remittances, hi);
      if hi in s.remittances {
        PutSnoc(map[], Present(s.remittances, 0, hi - 1), s.remittances[hi]);
      } else {
        assert Present(s.remittances, 0, hi) == Present(s.remittances, 0, hi - 1);
      }
    }
  }

  lemma PutSnoc(remittances: map<nat, Remittance>, content: seq<Remittance>, r: Remittance)
    ensures Put(remittances, content + [r]) == Put(remittances, content)[r.id := r]
  {
    assert (content + [r])[..|content|] == content;
  }

  /** Exporting every batch and importing them in order reproduces the remittance map. */
  lemma RoundTrip(s: Store, t: Store, hash: Hasher, size: nat)
    requires Exportable(s, size) && WellKeyed(s)
    requires t.remittances == map[] && t.expectedNext == 0
    ensures ExportFirst(s, hash, size, TotalBatches(s, size)).Ok?
    ensures var batches := ExportFirst(s, hash, size, TotalBatches(s, size)).value;
            && ImportAll(t, hash, batches).Ok?
            && ImportAll(t, hash, batches).value.remittances == s.remittances
  {
    var n := TotalBatches(s, size);
    ImportPrefix(s, t, hash, size, n);
    BatchesPartition(s, hash, size, n);
    BatchEnds(s, size, n);
    PutPresent(s, s.counter);
    assert EndOf(s, size, n) == s.counter;
    assert UpTo(s.remittances, s.counter) == s.remittances;
  }

  /** Only the expected batch, with its digest intact, is ever accepted. */
  lemma OnlyExpectedBatch(s: Store, hash: Hasher, b: Batch)
    requires s.expectedNext < U32_MAX
    ensures var fits := b.number == s.expectedNext < b.total && b.hash == hash(b.remittances, b.number);
            Import(s, hash, b).Ok? <==> fits
  {
  }

  /**
   Having been accepted a batch is accepted again at once only when it was the whole migration:
   the last batch resets the counter, and batch 0 of 1 is then expected once more.
   */
  lemma RepeatedBatch(s: Store, hash: Hasher, b: Batch)
    requires Import(s, hash, b).Ok?
    ensures Import(Import(s, hash, b).value, hash, b).Ok? <==> b.total == 1
  {
    var s' := Import(s, hash, b).value;
    if b.number == b.total - 1 {
      assert s'.expectedNext == 0;
    } else {
      assert s'.expectedNext == b.number + 1;
    }
  }

  /** Beyond 32 bits the cast drops ids: with a counter of 2^32 no batch can be exported at all. */
  lemma TruncationLosesAll(s: Store, hash: Hasher, number: nat, size: nat)
    requires s.counter == TWO_32
    ensures Export(s, hash, number, size).Err?
  {
  }

  /** An export of every batch succeeds exactly when the end of the last one fits 32 bits. */
  lemma AllExportedIff(s: Store, hash: Hasher, size: nat)
    requires 1 <= size <= MAX_MIGRATION_BATCH_SIZE && 1 <= s.counter <= U32_MAX
    ensures ExportFirst(s, hash, size, TotalBatches(s, size)).Ok? <==> TotalBatches(s, size) * size <= U32_MAX
  {
    if TotalBatches(s, size) * size <= U32_MAX {
      BatchesPartition(s, hash, size, TotalBatches(s, size));
    } else {
      assert Export(s, hash, TotalBatches(s, size) - 1, size).Err?;
    }
  }
}
