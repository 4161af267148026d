/**
  What the bridge keeps in every run: files and rows stay aligned, so orphaned files are always a
  tail, reconciliation always succeeds in repairing the ledger, and committed evidence is permanent.
 */
module EvidenceProofs {
  import opened Wrappers
  import opened EvidenceManifest
  import opened Evidence

  // ---------------------------------------------------------------- the invariant

  predicate DistinctRows(ops: seq<Operation>) {
    forall i, j :: 0 <= i < j < |ops| ==> ops[i].recordId != ops[j].recordId
  }

  /** A row that the bridge itself created: its payload leaves the metadata fields alone. */
  predicate RowOk(chainId: Identifier, op: Operation) {
    && op.recordId == DeterministicRecordId(chainId, op.key)
    && op.recordType != ""
    && op.payload.Keys !! METADATA
  }

  /** The file was written for the row, and a complete row holds that file's digest. */
  predicate Wrote(op: Operation, file: LedgerFile) {
    && file.record.recordId == op.recordId
    && file.record.recordType == op.recordType
    && file.record.payload == OperationPayload(op)
    && (op.state == Complete ==> op.digest == Some(Sha(file.record)) && op.auditTail == file.record.auditTail)
  }

  /** Every file is named after its record, and its record id is derived from its own metadata. */
  predicate FileOk(file: LedgerFile) {
    && file.fileId == file.record.recordId
    && METADATA <= file.record.payload.Keys
    && file.record.recordId == DeterministicRecordId(file.record.chainId, KeyOf(file.record.payload))
  }

  function KeyOf(payload: Payload): Key
    requires METADATA <= payload.Keys
  {
    Key(payload[WORKFLOW_TYPE], payload[WORKFLOW_ID], payload[OPERATION_TYPE])
  }

  /** A ledger that starts with a genesis record and holds each record id once. */
  predicate LedgerOk(key: string, files: seq<LedgerFile>) {
    && ChainOk(files, key)
    && DistinctFileIds(files)
    && (forall i :: 0 <= i < |files| ==> FileOk(files[i]))
    && GenesisRecord(files[0].record)
  }

  /** The first `n` files belong to the first `n` rows, in order; no other file has a row. */
  predicate Aligned(key: string, files: seq<LedgerFile>, db: Database, n: nat) {
    var ops := db.operations;
    && db.chain.Some?
    && LedgerOk(key, files)
    && files[0].record.chainId == db.chain.value.chainId
    && files[0].record.instanceId == db.chain.value.instanceId
    && 0 < n <= |files|
    && n <= |ops|
    && DistinctRows(ops)
    && (forall i :: 0 <= i < |ops| ==> RowOk(db.chain.value.chainId, ops[i]))
    && (forall i :: 0 <= i < n ==> Wrote(ops[i], files[i]))
    && (forall i :: n <= i < |ops| ==> ops[i].state != Complete)
    && (forall i, k :: n <= i < |files| && 0 <= k < |ops| ==> ops[k].recordId != files[i].record.recordId)
  }

  /** A later version of the same row: a complete row never changes its digest. */
  predicate SameRow(a: Operation, b: Operation) {
    && a.operationId == b.operationId
    && a.key == b.key
    && a.recordId == b.recordId
    && a.recordType == b.recordType
    && a.payload == b.payload
    && (a.state == Complete ==> b.state == Complete && b.digest == a.digest && b.auditTail == a.auditTail)
  }

  predicate RowsExtend(a: seq<Operation>, b: seq<Operation>) {
    && |a| <= |b|
    && forall i :: 0 <= i < |a| ==> SameRow(a[i], b[i])
  }

  // ---------------------------------------------------------------- metadata round trip

  /** A record written for a row matches that row exactly when the caller's payload avoided the metadata fields. */
  lemma MetadataRoundTrip(op: Operation, record: Record)
    requires record.payload == OperationPayload(op) && record.recordType == op.recordType
    ensures ContentMatches(op, record) <==> op.payload.Keys !! METADATA
  {
    if op.payload.Keys !! METADATA {
      assert WithoutMetadata(OperationPayload(op)) == op.payload;
    } else {
      var field :| field in op.payload.Keys && field in METADATA;
      assert field !in WithoutMetadata(OperationPayload(op));
    }
  }

  lemma WroteMatches(chainId: Identifier, op: Operation, file: LedgerFile)
    requires RowOk(chainId, op) && Wrote(op, file)
    ensures ContentMatches(op, file.record)
  {
    MetadataRoundTrip(op, file.record);
  }

  // ---------------------------------------------------------------- finding rows

  lemma FindRowIs(ops: seq<Operation>, k: nat)
    requires DistinctRows(ops) && k < |ops|
    ensures FindRow(ops, ops[k].recordId) == Some(k)
  {
  }

  /** The rows after the first `m` files have been adopted. */
  function Adopted(ops: seq<Operation>, files: seq<LedgerFile>, m: nat): (adopted: seq<Operation>)
    requires m <= |ops| && m <= |files|
    ensures |adopted| == |ops|
    ensures forall i :: 0 <= i < |ops| ==> adopted[i] == if i < m then Adopt(ops[i], files[i].record) else ops[i]
  {
    seq(|ops|, i requires 0 <= i < |ops| => if i < m then Adopt(ops[i], files[i].record) else ops[i])
  }

  // ---------------------------------------------------------------- classification

  /** Files without a row all join the orphaned tail. */
  lemma {:induction false} ClassifyOrphans(files: seq<LedgerFile>, ops: seq<Operation>, retained: seq<LedgerFile>, orphaned: seq<LedgerFile>)
    requires forall i, k :: 0 <= i < |files| && 0 <= k < |ops| ==> ops[k].recordId != files[i].record.recordId
    ensures Classify(files, ops, retained, orphaned) == Classified(ops, retained, orphaned + files)
    decreases |files|
  {
    if files == [] {
      assert orphaned + files == orphaned;
    } else {
      assert FindRow(ops, files[0].record.recordId).None?;
      ClassifyOrphans(files[1..], ops, retained, orphaned + [files[0]]);
      assert orphaned + [files[0]] + files[1..] == orphaned + files;
    }
  }

  /** What classification needs to know: the first `n` files answer the first `n` rows, the others none. */
  predicate Paired(ops: seq<Operation>, files: seq<LedgerFile>, n: nat) {
    && n <= |ops| && n <= |files|
    && DistinctRows(ops)
    && (forall i :: 0 <= i < n ==> files[i].record.recordId == ops[i].recordId && ContentMatches(ops[i], files[i].record))
    && (forall i, k :: n <= i < |files| && 0 <= k < |ops| ==> ops[k].recordId != files[i].record.recordId)
  }

  lemma AlignedPaired(key: string, files: seq<LedgerFile>, db: Database, n: nat)
    requires Aligned(key, files, db, n)
    ensures Paired(db.operations, files, n)
  {
    forall i | 0 <= i < n
      ensures ContentMatches(db.operations[i], files[i].record)
    {
      WroteMatches(db.chain.value.chainId, db.operations[i], files[i]);
    }
  }

  lemma ClassifyRetained(files: seq<LedgerFile>, ops: seq<Operation>, retained: seq<LedgerFile>, k: nat)
    requires files != [] && k < |ops| && DistinctRows(ops)
    requires ops[k].recordId == files[0].record.recordId && ContentMatches(ops[k], files[0].record)
    ensures Classify(files, ops, retained, [])
      == Classify(files[1..], ops[k := Adopt(ops[k], files[0].record)], retained + [files[0]], [])
  {
    FindRowIs(ops, k);
  }

  /** Paired files are classified without error: the first `n` are retained, the rest are the orphans. */
  lemma {:induction false} ClassifyPaired(ops: seq<Operation>, files: seq<LedgerFile>, n: nat, i: nat)
    requires Paired(ops, files, n) && i <= n
    ensures Classify(files[i..], Adopted(ops, files, i), files[..i], [])
      == Classified(Adopted(ops, files, n), files[..n], files[n..])
    decreases n - i
  {
    hide Classify, ContentMatches;
    var current := Adopted(ops, files, i);
    if i == n {
      ClassifyOrphans(files[n..], current, files[..n], []);
      assert [] + files[n..] == files[n..];
    } else {
      ClassifyPaired(ops, files, n, i + 1);
      assert files[i..][1..] == files[i + 1..] && files[i..][0] == files[i];
      assert current[i] == ops[i];
      ClassifyRetained(files[i..], current, files[..i], i);
      assert current[i := Adopt(ops[i], files[i].record)] == Adopted(ops, files, i + 1);
      assert files[..i] + [files[i]] == files[..i + 1];
    }
  }

  /** Quarantining the orphans and adopting the retained rows leaves files and rows aligned. */
  lemma RetainAligned(key: string, files: seq<LedgerFile>, db: Database, n: nat)
    requires Aligned(key, files, db, n)
    ensures var ops := Flush(Adopted(db.operations, files, n));
      && Aligned(key, files[..n], db.(operations := ops), n)
      && RowsExtend(db.operations, ops)
      && (forall i :: 0 <= i < n ==> ops[i].state == Complete && ops[i].storedState == Complete)
      && (forall i :: n <= i < |ops| ==> ops[i].storedState != Complete)
  {
    ChainPrefix(files, key, n);
    var ops := Flush(Adopted(db.operations, files, n));
    forall i | 0 <= i < |ops|
      ensures RowOk(db.chain.value.chainId, ops[i]) && SameRow(db.operations[i], ops[i])
    {
      assert RowOk(db.chain.value.chainId, db.operations[i]);
      assert i < n ==> Wrote(db.operations[i], files[i]);
    }
    forall i | 0 <= i < n
      ensures Wrote(ops[i], files[..n][i]) && FileOk(files[..n][i])
    {
      assert Wrote(db.operations[i], files[i]) && FileOk(files[i]);
    }
  }

  // ---------------------------------------------------------------- appending missing records

  lemma KeyOfOperation(op: Operation)
    ensures METADATA <= OperationPayload(op).Keys
    ensures KeyOf(OperationPayload(op)) == op.key
  {
  }

  lemma IdUnused(files: seq<LedgerFile>, ops: seq<Operation>, k: nat)
    requires k == |files| < |ops| && DistinctRows(ops)
    requires forall i :: 0 <= i < k ==> FileOk(files[i]) && files[i].record.recordId == ops[i].recordId
    ensures !IdInUse(files, ops[k].recordId)
  {
  }

  /** The file written for the next row extends the ledger and the alignment by one. */
  lemma NextFileAligned(key: string, files: seq<LedgerFile>, db: Database, clock: nat)
    requires |files| < |db.operations| && Aligned(key, files, db, |files|)
    ensures var request := AppendRequestFor(db.chain.value, db.operations[|files|], clock);
      && !IdInUse(files, request.recordId)
      && AppendAccepted(files, request, key)
      && AppendedFiles(files, request, key) == files + [NextFile(files, request, key)]
      && Aligned(key, files + [NextFile(files, request, key)], db, |files| + 1)
  {
    var k := |files|;
    var ops := db.operations;
    var request := AppendRequestFor(db.chain.value, ops[k], clock);
    forall i | 0 <= i < k
      ensures FileOk(files[i]) && files[i].record.recordId == ops[i].recordId
    {
      assert Wrote(ops[i], files[i]);
    }
    IdUnused(files, ops, k);
    AppendKeepsChain(files, request, key);
    var file := NextFile(files, request, key);
    var files' := files + [file];
    KeyOfOperation(ops[k]);
    assert RowOk(db.chain.value.chainId, ops[k]);
    assert FileOk(file);
    assert Wrote(ops[k], file);
    forall i | 0 <= i < |files'|
      ensures FileOk(files'[i])
    {
    }
    assert DistinctFileIds(files') by {
      forall i, j | 0 <= i < j < |files'|
        ensures files'[i].record.recordId != files'[j].record.recordId
      {
        assert Wrote(ops[i], files[i]);
        assert j < k ==> Wrote(ops[j], files[j]);
        assert ops[i].recordId != ops[j].recordId;
      }
    }
    assert files'[0] == files[0];
    forall i | 0 <= i < k + 1
      ensures Wrote(ops[i], files'[i])
    {
    }
  }

  /** Alignment ignores the cached head and accepts a later version of a written row. */
  lemma CompleteRow(key: string, files: seq<LedgerFile>, db: Database, n: nat, k: nat, op: Operation, chain: ChainState)
    requires Aligned(key, files, db, n) && k < n
    requires SameRow(db.operations[k], op)
    requires op.state == Complete ==> op.digest == Some(Sha(files[k].record)) && op.auditTail == files[k].record.auditTail
    requires chain.instanceId == db.chain.value.instanceId && chain.chainId == db.chain.value.chainId
    ensures Aligned(key, files, db.(chain := Some(chain), operations := db.operations[k := op]), n)
  {
    hide LedgerOk;
    var ops := db.operations[k := op];
    assert Wrote(db.operations[k], files[k]) && RowOk(db.chain.value.chainId, db.operations[k]);
    forall i | 0 <= i < |ops|
      ensures RowOk(chain.chainId, ops[i]) && (i < n ==> Wrote(ops[i], files[i]))
    {
      assert RowOk(db.chain.value.chainId, db.operations[i]);
      assert i < n ==> Wrote(db.operations[i], files[i]);
    }
  }

  lemma AppendNext(key: string, store: Store, clock: nat, faults: seq<Fault>)
    requires |store.files| < |store.db.operations| && Aligned(key, store.files, store.db, |store.files|)
    requires store.db.operations[|store.files|].state != Complete
    ensures var k := |store.files|;
      var o := AppendOperation(key, store, k, clock, faults);
      && o.store.quarantine == store.quarantine
      && (o.result.Failure? ==>
        && o.result.error == AppendFailed
        && o.store.db == store.db
        && (o.store.files == store.files
            || (|o.store.files| == k + 1 && o.store.files[..k] == store.files && Aligned(key, o.store.files, o.store.db, k + 1))))
      && (o.result.Success? ==>
        && |o.store.files| == k + 1
        && o.store.files[..k] == store.files
        && Aligned(key, o.store.files, o.store.db, k + 1)
        && o.result.value == Sha(o.store.files[k].record)
        && o.store.db.instanceId == store.db.instanceId
        && o.store.db.operations ==
           store.db.operations[k := store.db.operations[k].(state := Complete, digest := Some(Sha(o.store.files[k].record)))])
      && (faults != [] && faults[0] == NotWritten ==> o.result.Failure? && o.store.files == store.files)
      && (faults == [] ==> o.result.Success? && o.faults == [])
  {
    hide LedgerOk, Wrote, DistinctRows, FirstUse;
    var k := |store.files|;
    var op := store.db.operations[k];
    NextFileAligned(key, store.files, store.db, clock);
    var request := AppendRequestFor(store.db.chain.value, op, clock);
    var files' := AppendedFiles(store.files, request, key);
    var record := NextRecord(store.files, request);
    assert RowOk(store.db.chain.value.chainId, op);
    assert files'[..k] == store.files;
    CompleteRow(key, files', store.db, k + 1, k, op.(state := Complete, digest := Some(Sha(record))),
                store.db.chain.value.(lastSequence := record.sequence, head := Some(Sha(record))));
  }

  /** `after` holds `before`'s files and rows, later versions of the rows that gained a file, and more files. */
  predicate Advanced(before: Store, after: Store) {
    var a, b := before.db.operations, after.db.operations;
    && |before.files| <= |after.files| <= |b|
    && after.files[..|before.files|] == before.files
    && after.quarantine == before.quarantine
    && after.db.instanceId == before.db.instanceId
    && |b| == |a|
    && RowsExtend(a, b)
    && (forall i :: 0 <= i < |before.files| && i < |b| ==> b[i] == a[i])
    && (forall i :: 0 <= i < |b| ==> b[i].storedState == a[i].storedState)
  }

  lemma AdvancedReflexive(a: Store)
    requires |a.files| <= |a.db.operations|
    ensures Advanced(a, a)
  {
    assert a.files[..|a.files|] == a.files;
  }

  lemma AdvancedTransitive(a: Store, b: Store, c: Store)
    requires Advanced(a, b) && Advanced(b, c)
    ensures Advanced(a, c)
  {
    assert c.files[..|a.files|] == c.files[..|b.files|][..|a.files|];
    forall i | 0 <= i < |a.db.operations|
      ensures SameRow(a.db.operations[i], c.db.operations[i])
    {
      assert SameRow(a.db.operations[i], b.db.operations[i]) && SameRow(b.db.operations[i], c.db.operations[i]);
    }
  }

  lemma AppendNextAdvances(key: string, store: Store, clock: nat, faults: seq<Fault>)
    requires |store.files| < |store.db.operations| && Aligned(key, store.files, store.db, |store.files|)
    requires store.db.operations[|store.files|].state != Complete
    ensures var o := AppendOperation(key, store, |store.files|, clock, faults);
      && Advanced(store, o.store)
      && Aligned(key, o.store.files, o.store.db, |o.store.files|)
      && (o.result.Failure? ==> o.result.error == AppendFailed)
      && (o.result.Success? ==>
          |o.store.files| == |store.files| + 1 && o.store.db.operations[|store.files|].state == Complete)
      && (faults == [] ==> o.result.Success? && o.faults == [])
  {
    hide AppendOperation, LedgerOk, RowOk, Wrote, DistinctRows;
    AppendNext(key, store, clock, faults);
    var o := AppendOperation(key, store, |store.files|, clock, faults);
    assert o.store.files[..|store.files|] == store.files;
    assert Advanced(store, o.store);
  }

  /** Appending the missing records repairs the ledger up to the first tool failure. */
  lemma {:induction false} AppendMissingAligned(key: string, store: Store, seen: seq<LedgerFile>, clock: nat, faults: seq<Fault>)
    requires |store.files| <= |store.db.operations| && Aligned(key, store.files, store.db, |store.files|)
    requires forall i :: |store.files| <= i < |store.db.operations| ==> !Present(seen, store.db.operations[i].recordId)
    ensures var o := AppendMissing(key, store, seen, |store.files|, clock, faults);
      && Advanced(store, o.store)
      && Aligned(key, o.store.files, o.store.db, |o.store.files|)
      && (o.result.Failure? ==> o.result.error == AppendFailed)
      && (o.result.Success? ==>
        && |o.store.files| == |store.db.operations|
        && forall i :: |store.files| <= i < |o.store.files| ==> o.store.db.operations[i].state == Complete)
      && (faults == [] ==> o.result.Success? && o.faults == [])
      && (|store.files| == |store.db.operations| ==> o == Outcome(store, faults, Success(())))
    decreases |store.db.operations| - |store.files|
  {
    hide AppendOperation, LedgerOk, RowOk, Wrote, DistinctRows, SameRow;
    var k := |store.files|;
    if k == |store.db.operations| {
      AdvancedReflexive(store);
    } else {
      assert store.db.operations[k].state != Complete;
      AppendNextAdvances(key, store, clock, faults);
      var o := AppendOperation(key, store, k, clock, faults);
      if o.result.Success? {
        MissingStays(store, o.store, seen);
        AppendMissingAligned(key, o.store, seen, clock, o.faults);
        var final := AppendMissing(key, o.store, seen, k + 1, clock, o.faults);
        AdvancedTransitive(store, o.store, final.store);
      }
    }
  }

  lemma MissingStays(before: Store, after: Store, seen: seq<LedgerFile>)
    requires Advanced(before, after)
    requires forall i :: |before.files| <= i < |before.db.operations| ==> !Present(seen, before.db.operations[i].recordId)
    ensures forall i :: |after.files| <= i < |after.db.operations| ==> !Present(seen, after.db.operations[i].recordId)
  {
    forall i | |after.files| <= i < |after.db.operations|
      ensures !Present(seen, after.db.operations[i].recordId)
    {
      assert SameRow(before.db.operations[i], after.db.operations[i]);
    }
  }

  lemma {:induction false} SkipPresent(key: string, store: Store, seen: seq<LedgerFile>, k: nat, n: nat, clock: nat, faults: seq<Fault>)
    requires store.db.chain.Some? && k <= n <= |store.db.operations|
    requires forall i :: k <= i < n ==> Present(seen, store.db.operations[i].recordId)
    ensures AppendMissing(key, store, seen, k, clock, faults) == AppendMissing(key, store, seen, n, clock, faults)
    decreases n - k
  {
    if k < n {
      SkipPresent(key, store, seen, k + 1, n, clock, faults);
    }
  }

  // ---------------------------------------------------------------- ledger against database

  lemma {:induction false} LedgerMapKeys(files: seq<LedgerFile>, id: RecordId)
    ensures id in LedgerMap(files) <==> Present(files, id)
  {
    if files != [] {
      var front, last := files[..|files| - 1], |files| - 1;
      LedgerMapKeys(front, id);
      if Present(files, id) {
        var i :| 0 <= i < |files| && files[i].record.recordId == id;
        assert i < last ==> front[i].record.recordId == id;
      }
      if Present(front, id) {
        var i :| 0 <= i < |front| && front[i].record.recordId == id;
        assert files[i].record.recordId == id;
      }
      assert files[last].record.recordId == id ==> Present(files, id);
    }
  }

  lemma {:induction false} CompleteMapKeys(ops: seq<Operation>, id: RecordId)
    requires id in CompleteMap(ops)
    ensures exists i :: 0 <= i < |ops| && ops[i].recordId == id && ops[i].storedState == Complete
  {
    var front, last := ops[..|ops| - 1], |ops| - 1;
    if ops[last].storedState == Complete && ops[last].recordId == id {
    } else {
      CompleteMapKeys(front, id);
      var i :| 0 <= i < |front| && front[i].recordId == id && front[i].storedState == Complete;
      assert ops[i].recordId == id && ops[i].storedState == Complete;
    }
  }

  /** The row at each position is complete and holds the digest of the file at that position. */
  predicate Mirrors(ops: seq<Operation>, files: seq<LedgerFile>) {
    && |ops| == |files|
    && forall i :: 0 <= i < |ops| ==>
      ops[i].recordId == files[i].record.recordId && ops[i].digest == Some(Sha(files[i].record))
  }

  lemma {:induction false} MirrorMapsAgree(ops: seq<Operation>, files: seq<LedgerFile>)
    requires Mirrors(ops, files)
    requires forall i :: 0 <= i < |ops| ==> ops[i].storedState == Complete
    ensures LedgerMap(files) == CompleteMap(ops)
  {
    if ops != [] {
      MirrorMapsAgree(ops[..|ops| - 1], files[..|files| - 1]);
    }
  }

  /** The ledger agrees with a query for complete rows exactly when every row has been flushed as complete. */
  lemma {:induction false} MapsAgreeIffStored(ops: seq<Operation>, files: seq<LedgerFile>)
    requires Mirrors(ops, files) && DistinctRows(ops)
    ensures LedgerMap(files) == CompleteMap(ops) <==> forall i :: 0 <= i < |ops| ==> ops[i].storedState == Complete
  {
    if forall i :: 0 <= i < |ops| ==> ops[i].storedState == Complete {
      MirrorMapsAgree(ops, files);
    } else {
      var i :| 0 <= i < |ops| && ops[i].storedState != Complete;
      var id := ops[i].recordId;
      assert files[i].record.recordId == id;
      LedgerMapKeys(files, id);
      if id in CompleteMap(ops) {
        CompleteMapKeys(ops, id);
      }
    }
  }

  lemma AlignedMirrors(key: string, files: seq<LedgerFile>, db: Database)
    requires |files| == |db.operations| && Aligned(key, files, db, |files|)
    requires forall i :: 0 <= i < |files| ==> db.operations[i].state == Complete
    ensures Mirrors(db.operations, files)
  {
    forall i | 0 <= i < |files|
      ensures db.operations[i].recordId == files[i].record.recordId && db.operations[i].digest == Some(Sha(files[i].record))
    {
      assert Wrote(db.operations[i], files[i]);
    }
  }

  // ---------------------------------------------------------------- reconciliation

  /** What reconciliation keeps: committed files stay, orphans move to quarantine, rows only progress. */
  predicate Reconciled(key: string, before: Store, n: nat, after: Store)
    requires n <= |before.files|
  {
    && n <= |after.files| <= |after.db.operations|
    && Aligned(key, after.files, after.db, |after.files|)
    && after.files[..n] == before.files[..n]
    && after.quarantine == (if n == |before.files| then before.quarantine else before.quarantine + [before.files[n..]])
    && after.db.instanceId == before.db.instanceId
    && |after.db.operations| == |before.db.operations|
    && RowsExtend(before.db.operations, after.db.operations)
  }

  /** Every row has a file and is complete, and every file has a row. */
  predicate CaughtUp(key: string, store: Store) {
    && |store.files| == |store.db.operations|
    && Aligned(key, store.files, store.db, |store.files|)
    && forall i :: 0 <= i < |store.files| ==> store.db.operations[i].state == Complete
  }

  /** Caught up, flushed to the database, and with the head cached. */
  predicate Settled(key: string, store: Store) {
    && CaughtUp(key, store)
    && (forall i :: 0 <= i < |store.files| ==> store.db.operations[i].storedState == Complete)
    && store.db.chain.value.head == Some(Head(store.files))
    && store.db.chain.value.lastSequence == |store.files|
  }

  /** The store after classification, quarantine and flush. */
  function Cleaned(store: Store, n: nat): Store
    requires n <= |store.files| && n <= |store.db.operations|
  {
    Store(store.files[..n],
          if n == |store.files| then store.quarantine else store.quarantine + [store.files[n..]],
          store.db.(operations := Flush(Adopted(store.db.operations, store.files, n))))
  }

  /** On aligned files, reconciliation cleans the store, appends what is missing and verifies. */
  lemma ReconcileSteps(key: string, store: Store, n: nat, clock: nat, faults: seq<Fault>)
    requires Aligned(key, store.files, store.db, n)
    ensures var appended := AppendMissing(key, Cleaned(store, n), store.files, n, clock, faults);
      Reconcile(key, store, clock, faults) ==
      if appended.result.Failure? then Outcome(appended.store, appended.faults, Failure(appended.result.error))
      else
        var (verified, result) := VerifyLocalChain(key, appended.store);
        Outcome(verified, appended.faults, result)
  {
    hide AppendMissing, VerifyLocalChain;
    var ops := store.db.operations;
    AlignedPaired(key, store.files, store.db, n);
    ClassifyPaired(ops, store.files, n, 0);
    assert Adopted(ops, store.files, 0) == ops;
    assert store.files[0..] == store.files && store.files[..0] == [];
    assert store.files[n..] == [] <==> n == |store.files|;
    assert n == |store.files| ==> store.files[..n] == store.files;
    forall i | 0 <= i < n
      ensures Present(store.files, Cleaned(store, n).db.operations[i].recordId)
    {
      assert Wrote(ops[i], store.files[i]);
    }
    SkipPresent(key, Cleaned(store, n), store.files, 0, n, clock, faults);
  }

  lemma MissingAreAbsent(key: string, store: Store, n: nat)
    requires Aligned(key, store.files, store.db, n)
    ensures forall i :: n <= i < |store.db.operations| ==> !Present(store.files, store.db.operations[i].recordId)
  {
    forall i | n <= i < |store.db.operations|
      ensures !Present(store.files, store.db.operations[i].recordId)
    {
      forall j | 0 <= j < |store.files|
        ensures store.files[j].record.recordId != store.db.operations[i].recordId
      {
        assert j < n ==> Wrote(store.db.operations[j], store.files[j]);
      }
    }
  }

  /** Once the missing records are written, verification succeeds exactly when none was missing. */
  lemma VerifyAppended(key: string, store: Store, n: nat)
    requires |store.files| == |store.db.operations| && Aligned(key, store.files, store.db, |store.files|)
    requires forall i :: 0 <= i < |store.files| ==> store.db.operations[i].state == Complete
    requires n <= |store.files|
    requires forall i :: 0 <= i < n ==> store.db.operations[i].storedState == Complete
    requires forall i :: n <= i < |store.files| ==> store.db.operations[i].storedState != Complete
    ensures var (verified, result) := VerifyLocalChain(key, store);
      && verified.files == store.files && verified.quarantine == store.quarantine
      && verified.db.operations == store.db.operations && verified.db.instanceId == store.db.instanceId
      && Aligned(key, verified.files, verified.db, |verified.files|)
      && (n < |store.files| ==> result == Failure(LedgerDatabaseMismatch))
      && (n == |store.files| ==> result == Success(Summary(store.files)) && Settled(key, verified))
  {
    AlignedMirrors(key, store.files, store.db);
    MapsAgreeIffStored(store.db.operations, store.files);
    assert n < |store.files| ==> store.db.operations[n].storedState != Complete;
  }

  /**
    Reconciliation of aligned files never meets a committed record behind an orphan. It succeeds
    exactly when no row was without a file; otherwise it writes the missing records, up to the first
    tool failure, and reports a mismatch because the new completions are not flushed.
   */
  lemma ReconcileRepairs(key: string, store: Store, n: nat, clock: nat, faults: seq<Fault>)
    requires Aligned(key, store.files, store.db, n)
    ensures var o := Reconcile(key, store, clock, faults);
      && Reconciled(key, store, n, o.store)
      && (o.result.Success? <==> n == |store.db.operations|)
      && (o.result.Success? ==> Settled(key, o.store) && o.result.value == Summary(o.store.files) && o.faults == faults)
      && (o.result.Failure? ==> o.result.error == AppendFailed || o.result.error == LedgerDatabaseMismatch)
      && (faults == [] ==>
        && o.faults == []
        && CaughtUp(key, o.store)
        && (o.result.Failure? ==> o.result.error == LedgerDatabaseMismatch))
  {
    hide AppendMissing, VerifyLocalChain, Reconcile, LedgerOk, RowOk, Wrote, DistinctRows, SameRow;
    var cleaned := Cleaned(store, n);
    var appended := AppendMissing(key, cleaned, store.files, n, clock, faults);
    RetainAligned(key, store.files, store.db, n);
    MissingAreAbsent(key, store, n);
    assert forall i :: n <= i < |cleaned.db.operations| ==> cleaned.db.operations[i].recordId == store.db.operations[i].recordId;
    AppendMissingAligned(key, cleaned, store.files, clock, faults);
    ReconcileSteps(key, store, n, clock, faults);
    ReconciledBy(key, store, n, appended.store);
    if appended.result.Success? {
      VerifyAppended(key, appended.store, n);
    }
  }

  lemma ReconciledBy(key: string, store: Store, n: nat, after: Store)
    requires Aligned(key, store.files, store.db, n)
    requires Advanced(Cleaned(store, n), after)
    requires Aligned(key, after.files, after.db, |after.files|)
    ensures Reconciled(key, store, n, after)
  {
    RetainAligned(key, store.files, store.db, n);
    var cleaned := Cleaned(store, n);
    forall i | 0 <= i < |store.db.operations|
      ensures SameRow(store.db.operations[i], after.db.operations[i])
    {
      assert SameRow(store.db.operations[i], cleaned.db.operations[i]) && SameRow(cleaned.db.operations[i], after.db.operations[i]);
    }
  }

  /** On a settled store reconciliation changes nothing. */
  lemma ReconcileIdempotent(key: string, store: Store, clock: nat, faults: seq<Fault>)
    requires Settled(key, store)
    ensures Reconcile(key, store, clock, faults) == Outcome(store, faults, Success(Summary(store.files)))
  {
    hide VerifyLocalChain, Reconcile;
    var n := |store.files|;
    var ops := store.db.operations;
    ReconcileSteps(key, store, n, clock, faults);
    var cleaned := Cleaned(store, n);
    forall i | 0 <= i < n
      ensures cleaned.db.operations[i] == ops[i]
    {
      assert Wrote(ops[i], store.files[i]);
    }
    assert cleaned.db.operations == ops;
    assert cleaned == store;
    VerifySettled(key, store);
  }

  lemma VerifySettled(key: string, store: Store)
    requires Settled(key, store)
    ensures VerifyLocalChain(key, store) == (store, Success(Summary(store.files)))
  {
    AlignedMirrors(key, store.files, store.db);
    MapsAgreeIffStored(store.db.operations, store.files);
  }
}
