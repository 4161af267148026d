/**
  Whole runs of the evidence bridge: any order of workflow appends, reconciliations,
  initialisations, commits and rollbacks, with tool faults at any append.
 */
module EvidenceRuns {
  import opened Wrappers
  import opened EvidenceManifest
  import opened Evidence
  import opened EvidenceProofs

  // ---------------------------------------------------------------- one workflow append

  /** What callers owe: a record type, and a payload that leaves the metadata fields alone. */
  predicate RequestOk(request: Request) {
    request.recordType != "" && request.payload.Keys !! METADATA
  }

  /** Database `b` is a later version of `a`: the chain's identity is fixed, rows progress and grow. */
  predicate Extends(a: Database, b: Database) {
    && (a.instanceId.Some? ==> b.instanceId == a.instanceId)
    && (a.chain.Some? ==>
        && b.chain.Some?
        && b.chain.value.instanceId == a.chain.value.instanceId
        && b.chain.value.chainId == a.chain.value.chainId)
    && RowsExtend(a.operations, b.operations)
  }

  lemma ExtendsTransitive(a: Database, b: Database, c: Database)
    requires Extends(a, b) && Extends(b, c)
    ensures Extends(a, c)
  {
    forall i | 0 <= i < |a.operations|
      ensures SameRow(a.operations[i], c.operations[i])
    {
      assert SameRow(a.operations[i], b.operations[i]) && SameRow(b.operations[i], c.operations[i]);
    }
  }

  /** A row without a file may change, as long as it stays an incomplete row of the same id. */
  lemma TailRow(key: string, files: seq<LedgerFile>, db: Database, n: nat, k: nat, op: Operation)
    requires Aligned(key, files, db, n) && n <= k < |db.operations|
    requires op.recordId == db.operations[k].recordId && RowOk(db.chain.value.chainId, op) && op.state != Complete
    ensures Aligned(key, files, db.(operations := db.operations[k := op]), n)
  {
    hide LedgerOk, Wrote;
  }

  /** A row with an unused id may be inserted. */
  lemma InsertRow(key: string, files: seq<LedgerFile>, db: Database, op: Operation)
    requires Aligned(key, files, db, |files|)
    requires FindRow(db.operations, op.recordId).None?
    requires RowOk(db.chain.value.chainId, op) && op.state != Complete
    ensures Aligned(key, files, db.(operations := Flush(db.operations + [op])), |files|)
    ensures RowsExtend(db.operations, Flush(db.operations + [op]))
  {
    hide LedgerOk;
    var ops := Flush(db.operations + [op]);
    forall i | 0 <= i < |files|
      ensures Wrote(ops[i], files[i])
    {
      assert Wrote(db.operations[i], files[i]);
    }
    forall i | 0 <= i < |ops|
      ensures RowOk(db.chain.value.chainId, ops[i])
    {
      assert i < |db.operations| ==> RowOk(db.chain.value.chainId, db.operations[i]);
    }
  }

  /** `after` keeps the files and rows of `before` and adds at most records of new rows. */
  predicate Grown(key: string, before: Store, after: Store) {
    && |before.files| <= |after.files|
    && after.files[..|before.files|] == before.files
    && after.quarantine == before.quarantine
    && Extends(before.db, after.db)
    && after.db.chain.Some?
    && Aligned(key, after.files, after.db, |after.files|)
  }

  /** Writing the record of a last, incomplete row: aligned whether or not the tool fails. */
  lemma AppendAuditedAligned(key: string, store: Store, request: Request, env: Environment, faults: seq<Fault>)
    requires |store.db.operations| == |store.files| + 1
    requires Aligned(key, store.files, store.db, |store.files|)
    requires store.db.operations[|store.files|].recordType == request.recordType
    requires RequestOk(request)
    ensures var k := |store.files|;
      var o := AppendAudited(key, store, k, request, env, faults);
      && Grown(key, store, o.store)
      && |o.store.db.operations| == k + 1
      && o.store.db.operations[k].key == store.db.operations[k].key
      && o.store.db.operations[k].payload == store.db.operations[k].payload
      && o.store.db.operations[..k] == store.db.operations[..k]
      && (o.result.Success? ==>
          && |o.store.files| == k + 1
          && o.store.db.operations[k].state == Complete
          && o.store.db.operations[k].digest == Some(o.result.value)
          && o.result.value == Sha(o.store.files[k].record))
      && (o.result.Failure? ==> o.store.db.operations[k].state == Failed && |o.store.files| <= k + 1)
      && (faults != [] && faults[0] == NotWritten ==> o.result.Failure? && o.store.files == store.files)
      && (faults == [] && (env.auditTail.Some? || request.allowMissingAudit) ==> o.result.Success? && o.faults == [])
  {
    hide AppendOperation, LedgerOk, DistinctRows;
    var k := |store.files|;
    var op := store.db.operations[k];
    assert store.files[..k] == store.files;
    assert RowOk(store.db.chain.value.chainId, op);
    if env.auditTail.None? && !request.allowMissingAudit {
      TailRow(key, store.files, store.db, k, k, op.(state := Failed));
      GrownBy(key, store, WithRow(store, k, op.(state := Failed)));
    } else {
      var stampedOp := op.(recordType := request.recordType, auditTail := env.auditTail);
      var stamped := WithRow(store, k, stampedOp);
      TailRow(key, store.files, store.db, k, k, stampedOp);
      AppendNext(key, stamped, env.clock, faults);
      var o := AppendOperation(key, stamped, k, env.clock, faults);
      if o.result.Failure? {
        var failed := stampedOp.(state := Failed);
        if o.store.files == stamped.files {
          TailRow(key, store.files, stamped.db, k, k, failed);
        } else {
          CompleteRow(key, o.store.files, stamped.db, k + 1, k, failed, stamped.db.chain.value);
        }
        var after := WithRow(o.store, k, failed);
        assert after.db == stamped.db.(chain := Some(stamped.db.chain.value), operations := stamped.db.operations[k := failed]);
        GrownBy(key, store, after);
      } else {
        GrownBy(key, store, o.store);
      }
    }
  }

  lemma GrownBy(key: string, before: Store, after: Store)
    requires |before.db.operations| == |before.files| + 1 == |after.db.operations|
    requires Aligned(key, before.files, before.db, |before.files|) && Aligned(key, after.files, after.db, |after.files|)
    requires after.files == before.files || (|after.files| == |before.files| + 1 && after.files[..|before.files|] == before.files)
    requires after.quarantine == before.quarantine && after.db.instanceId == before.db.instanceId
    requires after.db.operations[..|before.files|] == before.db.operations[..|before.files|]
    requires SameRow(before.db.operations[|before.files|], after.db.operations[|before.files|])
    ensures Grown(key, before, after)
  {
    hide LedgerOk, Wrote, RowOk, DistinctRows;
    var k := |before.files|;
    assert after.files[..k] == before.files;
    forall i | 0 <= i < k + 1
      ensures SameRow(before.db.operations[i], after.db.operations[i])
    {
      assert i < k ==> after.db.operations[..k][i] == before.db.operations[..k][i];
    }
    assert after.files[0] == before.files[0];
  }

  predicate SameContent(op: Operation, request: Request) {
    op.payload == request.payload && op.recordType == request.recordType
  }

  /**
    A workflow append on a store that is caught up. A replay with equal content returns the first digest; one
    with different content, or a key whose record id another key already took, is refused; neither
    writes anything. A new key gets exactly one row and, without faults, exactly one record.
   */
  lemma RecordWhenCaughtUp(key: string, store: Store, request: Request, env: Environment, faults: seq<Fault>)
    requires CaughtUp(key, store) && RequestOk(request)
    ensures var n, o := |store.files|, RecordOperation(key, store, request, env, faults);
      var row := FindKey(store.db.operations, request.key);
      var taken := FindRow(store.db.operations, DeterministicRecordId(store.db.chain.value.chainId, request.key)).Some?;
      && Grown(key, store, o.store)
      && (row.Some? ==>
          && o.store == store
          && o.result == (if SameContent(store.db.operations[row.value], request)
                          then Success(Sha(store.files[row.value].record)) else Failure(ReplayedDifferently)))
      && (row.None? && taken ==> o.store == store && o.result == Failure(RecordIdTaken))
      && (row.None? && !taken ==>
          && |o.store.db.operations| == n + 1
          && o.store.db.operations[n].key == request.key
          && o.store.db.operations[n].payload == request.payload
          && (o.result.Success? ==>
              && |o.store.files| == n + 1
              && o.store.db.operations[n].state == Complete
              && o.result.value == Sha(o.store.files[n].record))
          && (o.result.Failure? ==> o.store.db.operations[n].state == Failed)
          && (faults != [] && faults[0] == NotWritten ==> o.result.Failure? && o.store.files == store.files)
          && (faults == [] && (env.auditTail.Some? || request.allowMissingAudit) ==> o.result.Success?))
  {
    hide LedgerOk, AppendAudited;
    var ops := store.db.operations;
    var row := FindKey(ops, request.key);
    var id := DeterministicRecordId(store.db.chain.value.chainId, request.key);
    GrownReflexive(key, store);
    if row.Some? {
      assert Wrote(ops[row.value], store.files[row.value]);
      assert RowOk(store.db.chain.value.chainId, ops[row.value]);
    } else if FindRow(ops, id).None? {
      var op := Operation(env.operationId, request.key, id, request.recordType, request.payload, None, Pending, None, Pending);
      InsertRow(key, store.files, store.db, op);
      var inserted := store.(db := store.db.(operations := Flush(ops + [op])));
      AppendAuditedAligned(key, inserted, request, env, faults);
      var o := AppendAudited(key, inserted, |ops|, request, env, faults);
      ExtendsTransitive(store.db, inserted.db, o.store.db);
    }
  }

  lemma GrownReflexive(key: string, store: Store)
    requires Aligned(key, store.files, store.db, |store.files|)
    ensures Grown(key, store, store)
  {
    assert store.files[..|store.files|] == store.files;
  }

  // ---------------------------------------------------------------- initialisation

  /** Before the first commit the ledger is empty or holds a chain that a lost transaction began. */
  predicate Lost(key: string, files: seq<LedgerFile>) {
    files == [] || LedgerOk(key, files)
  }

  /** The store just before a first initialisation writes its record. */
  function GenesisStore(key: string, store: Store, env: Environment): Store {
    var instanceId := if store.db.instanceId.Some? then store.db.instanceId.value else env.instanceId;
    var request := GenesisRequest(instanceId, key);
    var op := Operation(env.operationId, request.key, DeterministicRecordId(env.chainId, request.key),
                        request.recordType, request.payload, env.auditTail, Pending, None, Pending);
    store.(db := Database(Some(ChainState(instanceId, env.chainId, 0, None)), Some(instanceId), [op]))
  }

  lemma InitialiseSteps(key: string, store: Store, env: Environment)
    requires store.files == [] && store.db.chain.None? && store.db.operations == []
    ensures var o := AppendOperation(key, GenesisStore(key, store, env), 0, env.clock, env.faults);
      o.store.db.operations != [] ==>
      Initialise(key, store, env) ==
      if o.result.Success? then Outcome(o.store, o.faults, Success(()))
      else Outcome(WithRow(o.store, 0, o.store.db.operations[0].(state := Failed)), o.faults, Failure(o.result.error))
  {
    hide AppendOperation;
    var genesis := GenesisStore(key, store, env);
    var op := genesis.db.operations[0];
    assert Flush([] + [op.(auditTail := None)]) == [op.(auditTail := None)];
    assert [op.(auditTail := None)][0 := op] == [op];
    var inserted := genesis.(db := genesis.db.(operations := [op.(auditTail := None)]));
    assert genesis == WithRow(inserted, 0, op);
    var db := store.db.(chain := genesis.db.chain, instanceId := genesis.db.instanceId);
    assert store.(db := db.(operations := Flush(db.operations + [op.(auditTail := None)]))) == inserted;
  }

  /** A first initialisation either writes the genesis record or leaves the ledger empty. */
  lemma FreshInitialisation(key: string, store: Store, env: Environment)
    requires store.files == [] && store.db.chain.None? && store.db.operations == []
    ensures var o := Initialise(key, store, env);
      && o.store.db.chain.Some?
      && o.store.quarantine == store.quarantine
      && Extends(store.db, o.store.db)
      && (o.store.files == [] || (|o.store.files| == 1 && Aligned(key, o.store.files, o.store.db, 1) && |o.store.db.operations| == 1))
      && (o.result.Success? ==> |o.store.files| == 1 && o.store.db.operations[0].state == Complete)
      && (env.faults == [] ==> o.result.Success? && o.faults == [])
  {
    hide Initialise, LedgerOk, RowOk, Wrote, Aligned, NextRecord, AppendRequestFor;
    var genesis := GenesisStore(key, store, env);
    var chain, op := genesis.db.chain.value, genesis.db.operations[0];
    GenesisAligned(key, chain, genesis.db.instanceId, op, env.clock, env.operationId);
    var record := NextRecord([], AppendRequestFor(chain, op, env.clock));
    var complete, failed := op.(state := Complete, digest := Some(Sha(record))), op.(state := Failed);
    assert SameRow(op, complete) && SameRow(op, failed);
    assert [op][0 := complete] == [complete] && [op][0 := failed] == [failed];
    InitialiseSteps(key, store, env);
  }

  /** The genesis file, alone, is aligned with its row in whatever state the tool left that row. */
  lemma GenesisAligned(key: string, chain: ChainState, instanceId: Option<Identifier>, op: Operation, clock: nat, operationId: Identifier)
    requires op.operationId == operationId && op.key == Key("instance", chain.instanceId, "initialised")
    requires op.recordType == GENESIS_TYPE && op.recordId == DeterministicRecordId(chain.chainId, op.key)
    requires op.payload.Keys !! METADATA
    ensures var request := AppendRequestFor(chain, op, clock);
      var record := NextRecord([], request);
      && AppendAccepted([], request, key)
      && !IdInUse([], request.recordId)
      && AppendedFiles([], request, key) == [NextFile([], request, key)]
      && (forall row: Operation, cached: ChainState ::
          SameRow(op, row) && row.auditTail == op.auditTail
          && (row.state == Complete ==> row.digest == Some(Sha(record)))
          && cached.chainId == chain.chainId && cached.instanceId == chain.instanceId
          ==> Aligned(key, [NextFile([], request, key)], Database(Some(cached), instanceId, [row]), 1))
  {
    var request := AppendRequestFor(chain, op, clock);
    AppendKeepsChain([], request, key);
    var file := NextFile([], request, key);
    assert AppendedFiles([], request, key) == [file];
    KeyOfOperation(op);
    assert file.record.payload == OperationPayload(op);
    assert GenesisRecord(file.record);
    assert FileOk(file);
    assert LedgerOk(key, [file]);
  }

  /**
    An interrupted initialisation is recovered exactly when no other instance id was committed in
    the meantime: same chain, same instance, the genesis record alone retained, the rest quarantined.
   */
  lemma RecoveryIsRestartSafe(key: string, store: Store, env: Environment)
    requires store.files != [] && LedgerOk(key, store.files)
    requires store.db.chain.None? && store.db.operations == []
    ensures var o, first := Initialise(key, store, env), store.files[0].record;
      && (o.result.Success? <==> store.db.instanceId == None || store.db.instanceId == Some(first.instanceId))
      && (o.result.Failure? ==> o.store == store && o.result.error == ForeignLedger)
      && (o.result.Success? ==>
          && Settled(key, o.store)
          && o.store.files == [store.files[0]]
          && o.store.quarantine == (if |store.files| == 1 then store.quarantine else store.quarantine + [store.files[1..]])
          && o.store.db.chain.value.chainId == first.chainId
          && o.store.db.chain.value.instanceId == first.instanceId
          && o.store.db.instanceId == Some(first.instanceId)
          && Extends(store.db, o.store.db))
  {
    var first := store.files[0].record;
    if store.db.instanceId.None? || store.db.instanceId.value == first.instanceId {
      var chain := ChainState(first.instanceId, first.chainId, 0, None);
      var op := RecoveredGenesis(first);
      var ops := Flush(store.db.operations + [op]);
      assert ops == [op];
      var db := Database(Some(chain), Some(first.instanceId), [op]);
      assert db == store.db.(chain := Some(chain), instanceId := Some(first.instanceId), operations := ops);
      RecoveredAligned(key, store.files, db);
      ReconcileRepairs(key, store.(db := db), 1, env.clock, env.faults);
      assert store.files[..1] == [store.files[0]];
      var o := Reconcile(key, store.(db := db), env.clock, env.faults);
      assert o.store.files == o.store.files[..1];
      assert o.store.db.operations[0] == o.store.db.operations[0];
    }
  }

  lemma RecoveredAligned(key: string, files: seq<LedgerFile>, db: Database)
    requires files != [] && LedgerOk(key, files)
    requires db.operations == [RecoveredGenesis(files[0].record)]
    requires db.chain.Some? && db.chain.value.chainId == files[0].record.chainId && db.chain.value.instanceId == files[0].record.instanceId
    ensures Aligned(key, files, db, 1)
  {
    var first := files[0].record;
    var op := RecoveredGenesis(first);
    assert FileOk(files[0]);
    assert OperationPayload(op) == first.payload by {
      assert first.payload == WithoutMetadata(first.payload) + map[
        OPERATION_ID := first.payload[OPERATION_ID],
        WORKFLOW_TYPE := first.payload[WORKFLOW_TYPE],
        WORKFLOW_ID := first.payload[WORKFLOW_ID],
        OPERATION_TYPE := first.payload[OPERATION_TYPE]];
    }
    assert Wrote(op, files[0]) && RowOk(first.chainId, op);
  }

  // ---------------------------------------------------------------- runs

  /** The state on disk and in the open transaction, and the last committed database. */
  datatype System = System(store: Store, committed: Database)

  /** Rollback also stands for a crash and restart: the open transaction is lost, the files stay. */
  datatype Step =
    | Append(request: Request, env: Environment)
    | Repair(env: Environment)
    | Start(env: Environment)
    | Identify(instanceId: Identifier)
    | Commit
    | Rollback

  function Apply(key: string, s: System, step: Step): System {
    match step
    case Append(request, env) => s.(store := AppendRecord(key, s.store, request, env).store)
    case Repair(env) => s.(store := Reconcile(key, s.store, env.clock, env.faults).store)
    case Start(env) => s.(store := Initialise(key, s.store, env).store)
    case Identify(id) =>
      if s.store.db.instanceId.Some? then s else s.(store := s.store.(db := s.store.db.(instanceId := Some(id))))
    case Commit =>
      var db := s.store.db.(operations := Flush(s.store.db.operations));
      System(s.store.(db := db), db)
    case Rollback => s.(store := s.store.(db := s.committed))
  }

  /** The chain row exists but no record was ever written: a first initialisation failed. */
  predicate Interrupted(s: System) {
    s.store.db.chain.Some? && s.store.files == []
  }

  /** Callers keep their payloads clear of the metadata, and roll a failed first initialisation back. */
  predicate Enabled(s: System, step: Step) {
    && (Interrupted(s) ==> step == Rollback)
    && (step.Append? ==> RequestOk(step.request))
  }

  function Run(key: string, s: System, steps: seq<Step>): System
    decreases |steps|
  {
    if steps == [] then s else Run(key, Apply(key, s, steps[0]), steps[1..])
  }

  predicate AllEnabled(key: string, s: System, steps: seq<Step>)
    decreases |steps|
  {
    steps == [] || (Enabled(s, steps[0]) && AllEnabled(key, Apply(key, s, steps[0]), steps[1..]))
  }

  const EMPTY_DATABASE := Database(None, None, [])
  const EMPTY_SYSTEM := System(Store([], [], EMPTY_DATABASE), EMPTY_DATABASE)

  /** Files and rows of the open transaction are aligned, for some number of rows with files. */
  ghost predicate SomeAligned(key: string, files: seq<LedgerFile>, db: Database) {
    exists n :: Aligned(key, files, db, n)
  }

  ghost predicate WorkingOk(key: string, files: seq<LedgerFile>, db: Database) {
    if db.chain.None? then db.operations == [] && Lost(key, files)
    else files == [] || SomeAligned(key, files, db)
  }

  /** What every run keeps. */
  ghost predicate Inv(key: string, s: System) {
    && Extends(s.committed, s.store.db)
    && (s.committed.chain.None? ==> s.committed.operations == [])
    && (s.committed.chain.Some? ==> s.committed.operations != [] && s.store.files != [])
    && WorkingOk(key, s.store.files, s.store.db)
  }

  /** Files aligned with the open transaction are aligned with every database it extends. */
  lemma CommittedView(key: string, files: seq<LedgerFile>, working: Database, committed: Database, n: nat)
    requires Aligned(key, files, working, n)
    requires Extends(committed, working) && committed.chain.Some? && committed.operations != []
    ensures Aligned(key, files, committed, if n <= |committed.operations| then n else |committed.operations|)
  {
    hide LedgerOk;
    var m := if n <= |committed.operations| then n else |committed.operations|;
    var ops := committed.operations;
    forall i | 0 <= i < |ops|
      ensures RowOk(committed.chain.value.chainId, ops[i])
      ensures ops[i].recordId == working.operations[i].recordId
      ensures i < m ==> Wrote(ops[i], files[i])
      ensures i >= m ==> ops[i].state != Complete
    {
      assert SameRow(ops[i], working.operations[i]) && RowOk(working.chain.value.chainId, working.operations[i]);
      assert i < m ==> Wrote(working.operations[i], files[i]);
    }
    forall i, k | m <= i < |files| && 0 <= k < |ops|
      ensures ops[k].recordId != files[i].record.recordId
    {
      assert i < n ==> Wrote(working.operations[i], files[i]);
    }
  }

  lemma RollbackKeepsInv(key: string, s: System)
    requires Inv(key, s)
    ensures Inv(key, Apply(key, s, Rollback))
  {
    hide LedgerOk, Aligned;
    if s.committed.chain.Some? {
      var n :| Aligned(key, s.store.files, s.store.db, n);
      CommittedView(key, s.store.files, s.store.db, s.committed, n);
    } else if s.store.db.chain.Some? && s.store.files != [] {
      var n :| Aligned(key, s.store.files, s.store.db, n);
      AlignedLedger(key, s.store.files, s.store.db, n);
    }
    forall i | 0 <= i < |s.committed.operations|
      ensures SameRow(s.committed.operations[i], s.committed.operations[i])
    {
    }
  }

  lemma AlignedLedger(key: string, files: seq<LedgerFile>, db: Database, n: nat)
    requires Aligned(key, files, db, n)
    ensures LedgerOk(key, files) && files != [] && db.operations != []
  {
  }

  lemma FlushAligned(key: string, files: seq<LedgerFile>, db: Database, n: nat)
    requires Aligned(key, files, db, n)
    ensures Aligned(key, files, db.(operations := Flush(db.operations)), n)
  {
    hide LedgerOk;
    forall i | 0 <= i < |db.operations|
      ensures RowOk(db.chain.value.chainId, Flush(db.operations)[i])
      ensures i < n ==> Wrote(Flush(db.operations)[i], files[i])
    {
      assert RowOk(db.chain.value.chainId, db.operations[i]);
      assert i < n ==> Wrote(db.operations[i], files[i]);
    }
  }

  lemma CommitKeepsInv(key: string, s: System)
    requires Inv(key, s) && Enabled(s, Commit)
    ensures Inv(key, Apply(key, s, Commit))
    ensures Extends(s.committed, Apply(key, s, Commit).committed)
  {
    hide LedgerOk, Aligned;
    var flushed := Flush(s.store.db.operations);
    if s.store.db.chain.Some? {
      var n :| Aligned(key, s.store.files, s.store.db, n);
      FlushAligned(key, s.store.files, s.store.db, n);
      AlignedLedger(key, s.store.files, s.store.db, n);
    } else {
      assert flushed == [];
    }
    assert RowsExtend(s.store.db.operations, flushed);
    ExtendsTransitive(s.committed, s.store.db, Apply(key, s, Commit).committed);
  }

  /** A later store of the same transaction. */
  lemma WorkingKeepsInv(key: string, s: System, store: Store)
    requires Inv(key, s) && Extends(s.store.db, store.db)
    requires s.committed.chain.Some? ==> store.files != []
    requires WorkingOk(key, store.files, store.db)
    ensures Inv(key, s.(store := store))
  {
    ExtendsTransitive(s.committed, s.store.db, store.db);
  }

  /** A workflow append on aligned files: aligned again, whatever its outcome. */
  lemma AppendRecordAligned(key: string, store: Store, n: nat, request: Request, env: Environment)
    requires Aligned(key, store.files, store.db, n) && RequestOk(request)
    ensures var o := AppendRecord(key, store, request, env);
      && o.store.files != []
      && Extends(store.db, o.store.db)
      && SomeAligned(key, o.store.files, o.store.db)
  {
    hide LedgerOk, Reconcile, RecordOperation;
    ReconcileRepairs(key, store, n, env.clock, env.faults);
    var repaired := Reconcile(key, store, env.clock, env.faults);
    ReconciledExtends(key, store, n, repaired.store);
    assert SomeAligned(key, repaired.store.files, repaired.store.db);
    if repaired.result.Success? {
      RecordWhenCaughtUp(key, repaired.store, request, env, repaired.faults);
      var o := RecordOperation(key, repaired.store, request, env, repaired.faults);
      ExtendsTransitive(store.db, repaired.store.db, o.store.db);
      assert SomeAligned(key, o.store.files, o.store.db);
    }
  }

  lemma ReconciledExtends(key: string, store: Store, n: nat, after: Store)
    requires Aligned(key, store.files, store.db, n) && Reconciled(key, store, n, after)
    ensures Extends(store.db, after.db) && after.files != []
  {
    hide LedgerOk, Wrote, RowOk;
    assert after.files[..n][0] == store.files[..n][0];
  }

  /** Initialising, from nothing or from an interrupted initialisation, keeps the working state sound. */
  lemma InitialiseWorking(key: string, store: Store, env: Environment)
    requires store.db.chain.None? && store.db.operations == [] && Lost(key, store.files)
    ensures var o := Initialise(key, store, env);
      && Extends(store.db, o.store.db)
      && WorkingOk(key, o.store.files, o.store.db)
      && (o.result.Success? ==> o.store.db.chain.Some? && CaughtUp(key, o.store))
  {
    hide LedgerOk, Initialise;
    if store.files == [] {
      FreshInitialisation(key, store, env);
    } else {
      RecoveryIsRestartSafe(key, store, env);
    }
    var o := Initialise(key, store, env);
    if o.store.files != [] && o.store.db.chain.Some? {
      assert Aligned(key, o.store.files, o.store.db, 1);
    }
  }

  /** Every enabled step keeps the invariant and every committed row. */
  lemma StepKeepsInv(key: string, s: System, step: Step)
    requires Inv(key, s) && Enabled(s, step)
    ensures Inv(key, Apply(key, s, step))
    ensures Extends(s.committed, Apply(key, s, step).committed)
  {
    hide LedgerOk, Aligned, Reconcile, Initialise, RecordOperation, AppendRecord, CaughtUp;
    RowsExtendReflexive(s.committed.operations);
    match step
    case Commit => CommitKeepsInv(key, s);
    case Rollback => RollbackKeepsInv(key, s);
    case Identify(_) => RowsExtendReflexive(s.store.db.operations); IdentifyKeepsInv(key, s, step);
    case Repair(env) =>
      if s.store.db.chain.Some? {
        var n :| Aligned(key, s.store.files, s.store.db, n);
        RepairAligned(key, s.store, n, env);
        WorkingKeepsInv(key, s, Apply(key, s, step).store);
      } else {
        RepairUninitialised(key, s.store, env);
      }
    case Start(env) =>
      if s.store.db.chain.Some? {
        var n :| Aligned(key, s.store.files, s.store.db, n);
        RepairAligned(key, s.store, n, env);
        StartIsRepair(key, s.store, env);
      } else {
        InitialiseWorking(key, s.store, env);
      }
      WorkingKeepsInv(key, s, Apply(key, s, step).store);
    case Append(request, env) =>
      if s.store.db.chain.Some? {
        var n :| Aligned(key, s.store.files, s.store.db, n);
        AppendRecordAligned(key, s.store, n, request, env);
      } else {
        AppendUninitialised(key, s.store, request, env);
      }
      WorkingKeepsInv(key, s, Apply(key, s, step).store);
  }

  lemma RowsExtendReflexive(ops: seq<Operation>)
    ensures RowsExtend(ops, ops)
  {
  }

  lemma IdentifyKeepsInv(key: string, s: System, step: Step)
    requires Inv(key, s) && step.Identify?
    ensures Inv(key, Apply(key, s, step))
  {
    hide LedgerOk;
    if s.store.db.chain.Some? && s.store.files != [] {
      var n :| Aligned(key, s.store.files, s.store.db, n);
      assert Aligned(key, s.store.files, Apply(key, s, step).store.db, n);
    }
  }

  lemma RepairAligned(key: string, store: Store, n: nat, env: Environment)
    requires Aligned(key, store.files, store.db, n)
    ensures var after := Reconcile(key, store, env.clock, env.faults).store;
      after.files != [] && Extends(store.db, after.db) && SomeAligned(key, after.files, after.db)
  {
    hide LedgerOk, Reconcile;
    ReconcileRepairs(key, store, n, env.clock, env.faults);
    ReconciledExtends(key, store, n, Reconcile(key, store, env.clock, env.faults).store);
  }

  lemma RepairUninitialised(key: string, store: Store, env: Environment)
    requires store.db.chain.None?
    ensures Reconcile(key, store, env.clock, env.faults).store == store
  {
  }

  lemma StartIsRepair(key: string, store: Store, env: Environment)
    requires store.db.chain.Some?
    ensures Initialise(key, store, env).store == Reconcile(key, store, env.clock, env.faults).store
  {
  }

  lemma AppendUninitialised(key: string, store: Store, request: Request, env: Environment)
    requires store.db.chain.None? && store.db.operations == [] && Lost(key, store.files) && RequestOk(request)
    ensures var o := AppendRecord(key, store, request, env);
      Extends(store.db, o.store.db) && WorkingOk(key, o.store.files, o.store.db)
  {
    hide LedgerOk, Initialise, RecordOperation;
    InitialiseWorking(key, store, env);
    var started := Initialise(key, store, env);
    if started.result.Success? {
      RecordWhenCaughtUp(key, started.store, request, env, started.faults);
      var o := RecordOperation(key, started.store, request, env, started.faults);
      ExtendsTransitive(store.db, started.store.db, o.store.db);
      assert SomeAligned(key, o.store.files, o.store.db);
    }
  }

  /** Every run of enabled steps keeps the invariant and every committed row. */
  lemma {:induction false} RunKeepsInv(key: string, s: System, steps: seq<Step>)
    requires Inv(key, s) && AllEnabled(key, s, steps)
    ensures Inv(key, Run(key, s, steps))
    ensures Extends(s.committed, Run(key, s, steps).committed)
    decreases |steps|
  {
    hide Inv, Apply;
    if steps != [] {
      StepKeepsInv(key, s, steps[0]);
      var next := Apply(key, s, steps[0]);
      RunKeepsInv(key, next, steps[1..]);
      ExtendsTransitive(s.committed, next.committed, Run(key, next, steps[1..]).committed);
    } else {
      RowsExtendReflexive(s.committed.operations);
    }
  }
}
