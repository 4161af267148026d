/**
  The promises of the evidence bridge, over every run from an empty installation, and the exact
  limits of those promises.
 */
module EvidenceTheorems {
  import opened Wrappers
  import opened EvidenceManifest
  import opened Evidence
  import opened EvidenceProofs
  import opened EvidenceRuns

  lemma EmptySystemOk(key: string)
    ensures Inv(key, EMPTY_SYSTEM)
  {
  }

  /** Every row of the database already has a file in the ledger. */
  predicate AllWritten(store: Store) {
    forall k :: 0 <= k < |store.db.operations| ==> Present(store.files, store.db.operations[k].recordId)
  }

  lemma AllWrittenIff(key: string, store: Store, n: nat)
    requires Aligned(key, store.files, store.db, n)
    ensures AllWritten(store) <==> n == |store.db.operations|
  {
    hide LedgerOk;
    MissingAreAbsent(key, store, n);
    if n < |store.db.operations| {
      assert !Present(store.files, store.db.operations[n].recordId);
    } else {
      forall k | 0 <= k < n
        ensures Present(store.files, store.db.operations[k].recordId)
      {
        assert Wrote(store.db.operations[k], store.files[k]);
      }
    }
  }

  /**
    In every run the ledger is a valid chain whose unowned files are a tail. Reconciliation therefore
    never finds a committed record behind an orphan and never a record that contradicts its row. It
    keeps every file that has a row, and it succeeds exactly when every row had a file.
   */
  lemma ReconciliationNeverStuck(key: string, steps: seq<Step>, env: Environment)
    requires AllEnabled(key, EMPTY_SYSTEM, steps)
    ensures var s := Run(key, EMPTY_SYSTEM, steps);
      s.store.db.chain.Some? && !Interrupted(s) ==>
      var o := Reconcile(key, s.store, env.clock, env.faults);
      && LedgerOk(key, s.store.files)
      && (o.result.Success? <==> AllWritten(s.store))
      && (o.result.Failure? ==> o.result.error == AppendFailed || o.result.error == LedgerDatabaseMismatch)
      && (forall i, k ::
          (0 <= i < |s.store.files| && 0 <= k < |s.store.db.operations|
           && s.store.files[i].record.recordId == s.store.db.operations[k].recordId)
          ==> i < |o.store.files| && o.store.files[i] == s.store.files[i])
  {
    hide LedgerOk, Reconcile, Inv, Run, AllEnabled;
    EmptySystemOk(key);
    RunKeepsInv(key, EMPTY_SYSTEM, steps);
    var s := Run(key, EMPTY_SYSTEM, steps);
    if s.store.db.chain.Some? && !Interrupted(s) {
      var n := RowsWithFiles(key, s);
      AlignedLedger(key, s.store.files, s.store.db, n);
      AllWrittenIff(key, s.store, n);
      ReconcileRepairs(key, s.store, n, env.clock, env.faults);
      var o := Reconcile(key, s.store, env.clock, env.faults);
      forall i, k | 0 <= i < |s.store.files| && 0 <= k < |s.store.db.operations|
                    && s.store.files[i].record.recordId == s.store.db.operations[k].recordId
        ensures i < |o.store.files| && o.store.files[i] == s.store.files[i]
      {
        assert i < n;
        assert o.store.files[..n][i] == s.store.files[..n][i];
      }
    }
  }

  lemma RowsWithFiles(key: string, s: System) returns (n: nat)
    requires Inv(key, s) && s.store.db.chain.Some? && !Interrupted(s)
    ensures Aligned(key, s.store.files, s.store.db, n)
  {
    hide Aligned;
    n :| Aligned(key, s.store.files, s.store.db, n);
  }

  /**
    Without tool faults, one reconciliation writes every missing record exactly once, a second one
    succeeds with the ledger equal to the complete rows and the head cached, and a third changes nothing.
   */
  lemma ReconciliationConverges(key: string, s: System, first: nat, second: nat, third: nat)
    requires Inv(key, s) && s.store.db.chain.Some? && !Interrupted(s)
    ensures var once := Reconcile(key, s.store, first, []);
      var twice := Reconcile(key, once.store, second, []);
      && CaughtUp(key, once.store)
      && (once.result.Failure? ==> once.result.error == LedgerDatabaseMismatch && !AllWritten(s.store))
      && |once.store.db.operations| == |s.store.db.operations|
      && RowsExtend(s.store.db.operations, once.store.db.operations)
      && twice.result == Success(Summary(once.store.files))
      && twice.store.files == once.store.files
      && twice.store.quarantine == once.store.quarantine
      && Settled(key, twice.store)
      && LedgerMap(twice.store.files) == CompleteMap(twice.store.db.operations)
      && Reconcile(key, twice.store, third, []) == Outcome(twice.store, [], Success(Summary(twice.store.files)))
  {
    hide LedgerOk, Reconcile, Inv, LedgerMap, CompleteMap;
    var n := RowsWithFiles(key, s);
    AllWrittenIff(key, s.store, n);
    ReconcileRepairs(key, s.store, n, first, []);
    var once := Reconcile(key, s.store, first, []);
    var m := |once.store.files|;
    ReconcileRepairs(key, once.store, m, second, []);
    var twice := Reconcile(key, once.store, second, []);
    assert twice.store.files == twice.store.files[..m] == once.store.files[..m] == once.store.files;
    AlignedMirrors(key, twice.store.files, twice.store.db);
    MapsAgreeIffStored(twice.store.db.operations, twice.store.files);
    ReconcileIdempotent(key, twice.store, third, []);
  }

  /** A committed complete row keeps its digest, and the very same record keeps its place in the ledger. */
  lemma CommittedEvidenceIsPermanent(key: string, s: System, steps: seq<Step>, i: nat)
    requires Inv(key, s) && AllEnabled(key, s, steps)
    requires s.committed.chain.Some? && i < |s.committed.operations| && s.committed.operations[i].state == Complete
    ensures var s' := Run(key, s, steps);
      && i < |s'.committed.operations|
      && s'.committed.operations[i].state == Complete
      && s'.committed.operations[i].digest == s.committed.operations[i].digest
      && i < |s.store.files| && i < |s'.store.files|
      && s'.store.files[i].record == s.store.files[i].record
      && s.committed.operations[i].digest == Some(Sha(s'.store.files[i].record))
  {
    hide Inv, LedgerOk, Run, AllEnabled;
    RunKeepsInv(key, s, steps);
    var s' := Run(key, s, steps);
    CommittedFile(key, s, i);
    assert SameRow(s.committed.operations[i], s'.committed.operations[i]);
    CommittedFile(key, s', i);
  }

  lemma CommittedFile(key: string, s: System, i: nat)
    requires Inv(key, s) && s.committed.chain.Some?
    requires i < |s.committed.operations| && s.committed.operations[i].state == Complete
    ensures i < |s.store.files| && s.committed.operations[i].digest == Some(Sha(s.store.files[i].record))
  {
    hide LedgerOk;
    var n := RowsWithFiles(key, s);
    CommittedView(key, s.store.files, s.store.db, s.committed, n);
    var m := if n <= |s.committed.operations| then n else |s.committed.operations|;
    assert i < m;
    assert Wrote(s.committed.operations[i], s.store.files[i]);
  }

  /** In every run each workflow key has at most one record in the ledger, committed or orphaned. */
  lemma OneRecordPerKey(key: string, steps: seq<Step>, i: nat, j: nat)
    requires AllEnabled(key, EMPTY_SYSTEM, steps)
    requires i < j < |Run(key, EMPTY_SYSTEM, steps).store.files|
    ensures var files := Run(key, EMPTY_SYSTEM, steps).store.files;
      && METADATA <= files[i].record.payload.Keys
      && METADATA <= files[j].record.payload.Keys
      && KeyOf(files[i].record.payload) != KeyOf(files[j].record.payload)
  {
    hide Inv, Run, AllEnabled, Aligned;
    EmptySystemOk(key);
    RunKeepsInv(key, EMPTY_SYSTEM, steps);
    var s := Run(key, EMPTY_SYSTEM, steps);
    InvLedger(key, s);
    assert FileOk(s.store.files[i]) && FileOk(s.store.files[j]);
    assert LinkOk(s.store.files, key, i) && LinkOk(s.store.files, key, j);
  }

  lemma InvLedger(key: string, s: System)
    requires Inv(key, s) && s.store.files != []
    ensures LedgerOk(key, s.store.files)
  {
    hide Aligned, LedgerOk;
    if s.store.db.chain.Some? {
      var n :| Aligned(key, s.store.files, s.store.db, n);
      AlignedLedger(key, s.store.files, s.store.db, n);
    }
  }

  /**
    Replaying a committed workflow step: equal content can only return the digest of its one record;
    different content is always refused; in both cases no record is written for the step.
   */
  lemma ReplayIsExactlyOnce(key: string, s: System, i: nat, request: Request, env: Environment)
    requires Inv(key, s) && RequestOk(request) && s.committed.chain.Some?
    requires i < |s.committed.operations| && s.committed.operations[i].key == request.key
    ensures var o, repaired := AppendRecord(key, s.store, request, env), Reconcile(key, s.store, env.clock, env.faults);
      && o.store == repaired.store
      && |o.store.db.operations| == |s.store.db.operations|
      && (repaired.result.Success? ==>
          && i < |o.store.files|
          && o.result == (if SameContent(s.committed.operations[i], request)
                          then Success(Sha(o.store.files[i].record)) else Failure(ReplayedDifferently))
          && (s.committed.operations[i].state == Complete ==>
              s.committed.operations[i].digest == Some(Sha(o.store.files[i].record))))
      && (repaired.result.Failure? ==> o.result == Failure(repaired.result.error))
  {
    hide LedgerOk, Reconcile, RecordOperation;
    var n := RowsWithFiles(key, s);
    ReconcileRepairs(key, s.store, n, env.clock, env.faults);
    var repaired := Reconcile(key, s.store, env.clock, env.faults);
    if repaired.result.Success? {
      var ops := repaired.store.db.operations;
      assert SameRow(s.committed.operations[i], s.store.db.operations[i]) && SameRow(s.store.db.operations[i], ops[i]);
      KeyFound(key, repaired.store, i);
      RecordWhenCaughtUp(key, repaired.store, request, env, repaired.faults);
      assert Wrote(ops[i], repaired.store.files[i]);
    }
  }

  lemma KeyFound(key: string, store: Store, i: nat)
    requires Aligned(key, store.files, store.db, |store.files|) && i < |store.db.operations|
    ensures FindKey(store.db.operations, store.db.operations[i].key) == Some(i)
  {
    hide LedgerOk, Wrote;
    var ops := store.db.operations;
    var row := FindKey(ops, ops[i].key);
    assert RowOk(store.db.chain.value.chainId, ops[i]);
    if row.Some? {
      assert RowOk(store.db.chain.value.chainId, ops[row.value]);
    }
  }

  /** No row of the database, and no other key with the same joined name, stands for the request. */
  predicate Unrecorded(db: Database, request: Request)
    requires db.chain.Some?
  {
    && FindKey(db.operations, request.key).None?
    && FindRow(db.operations, DeterministicRecordId(db.chain.value.chainId, request.key)).None?
  }

  /**
    After any rollback the lost workflow step can be redone under the same record id: at once when
    every committed row has its record, and otherwise at the second attempt, the first having written
    the missing records.
   */
  lemma RolledBackStepCanBeRedone(key: string, s: System, request: Request, env: Environment, retry: Environment)
    requires Inv(key, s) && s.committed.chain.Some? && RequestOk(request)
    requires Unrecorded(s.committed, request)
    requires env.faults == retry.faults == []
    requires request.allowMissingAudit || (env.auditTail.Some? && retry.auditTail.Some?)
    ensures var s0 := Apply(key, s, Rollback);
      var s1 := Apply(key, s0, Append(request, env));
      var s2 := Apply(key, Apply(key, s1, Rollback), Append(request, retry));
      var first, second := AppendRecord(key, s0.store, request, env), AppendRecord(key, Apply(key, s1, Rollback).store, request, retry);
      && (first.result.Success? <==> AllWritten(s0.store))
      && (first.result.Success? ==> WroteRequest(s1.store, s.committed, request, first.result.value))
      && (first.result.Failure? ==>
          && first.result.error == LedgerDatabaseMismatch
          && second.result.Success?
          && WroteRequest(s2.store, s.committed, request, second.result.value))
  {
    hide LedgerOk, Reconcile, RecordOperation, AppendRecord, Inv;
    RollbackKeepsInv(key, s);
    var s0 := Apply(key, s, Rollback);
    CommittedRunning(key, s);
    var n := RowsWithFiles(key, s0);
    AllWrittenIff(key, s0.store, n);
    AppendUnrecorded(key, s0.store, n, request, env);
    var first := AppendRecord(key, s0.store, request, env);
    if first.result.Failure? {
      var s1 := Apply(key, s0, Append(request, env));
      StepKeepsInv(key, s0, Append(request, env));
      RollbackKeepsInv(key, s1);
      var s1' := Apply(key, s1, Rollback);
      var m := |first.store.files|;
      CommittedView(key, first.store.files, first.store.db, s.committed, m);
      AppendUnrecorded(key, s1'.store, m, request, retry);
    }
  }

  lemma CommittedRunning(key: string, s: System)
    requires Inv(key, s) && s.committed.chain.Some?
    ensures s.store.files != [] && s.committed.operations != []
  {
  }

  /** The last file is the request's record, under the record id that its key determines. */
  predicate WroteRequest(store: Store, committed: Database, request: Request, digest: Digest) {
    && committed.chain.Some?
    && store.files != []
    && var record := store.files[|store.files| - 1].record;
      && digest == Sha(record)
      && record.recordId == DeterministicRecordId(committed.chain.value.chainId, request.key)
      && METADATA <= record.payload.Keys
      && WithoutMetadata(record.payload) == request.payload
  }

  /** The outcome of a workflow step on aligned files is that of its second phase, on the reconciled store. */
  lemma AppendSteps(key: string, store: Store, request: Request, env: Environment)
    requires store.db.chain.Some? && store.files != []
    ensures var repaired, o := Reconcile(key, store, env.clock, env.faults), AppendRecord(key, store, request, env);
      && (repaired.result.Failure? ==> o == Outcome(repaired.store, repaired.faults, Failure(repaired.result.error)))
      && (repaired.result.Success? && repaired.store.db.chain.Some? ==>
          o == RecordOperation(key, repaired.store, request, env, repaired.faults))
  {
    hide Reconcile, RecordOperation;
  }

  /** A new workflow step on a caught-up store, without faults, is written. */
  lemma RecordUnrecorded(key: string, store: Store, db: Database, request: Request, env: Environment)
    requires CaughtUp(key, store) && RequestOk(request) && Extends(db, store.db) && db.chain.Some?
    requires Unrecorded(store.db, request)
    requires request.allowMissingAudit || env.auditTail.Some?
    ensures var o := RecordOperation(key, store, request, env, []);
      o.result.Success? && WroteRequest(o.store, db, request, o.result.value)
  {
    hide LedgerOk, RecordOperation, FindRow, FindKey, Wrote, RowOk, WroteRequest;
    RecordWhenCaughtUp(key, store, request, env, []);
    var after := RecordOperation(key, store, request, env, []).store;
    ExtendsTransitive(db, store.db, after.db);
    LastRowWritten(key, after, db, request);
  }

  /** A new workflow step on aligned files, without faults: written, unless older rows had to be written first. */
  lemma AppendUnrecorded(key: string, store: Store, n: nat, request: Request, env: Environment)
    requires Aligned(key, store.files, store.db, n) && RequestOk(request)
    requires Unrecorded(store.db, request)
    requires env.faults == [] && (request.allowMissingAudit || env.auditTail.Some?)
    ensures var o := AppendRecord(key, store, request, env);
      && (n == |store.db.operations| ==> o.result.Success? && WroteRequest(o.store, store.db, request, o.result.value))
      && (n < |store.db.operations| ==>
          && o.result == Failure(LedgerDatabaseMismatch)
          && |o.store.files| == |store.db.operations|
          && Extends(store.db, o.store.db)
          && Aligned(key, o.store.files, o.store.db, |o.store.files|))
  {
    hide LedgerOk, Reconcile, RecordOperation, AppendRecord, Unrecorded, WroteRequest, SameContent, RowOk, Wrote;
    AppendSteps(key, store, request, env);
    ReconcileRepairs(key, store, n, env.clock, []);
    var repaired := Reconcile(key, store, env.clock, []);
    ReconciledExtends(key, store, n, repaired.store);
    if n == |store.db.operations| {
      StillUnrecorded(store.db, repaired.store.db, request);
      RecordUnrecorded(key, repaired.store, store.db, request, env);
    }
  }

  lemma StillUnrecorded(before: Database, after: Database, request: Request)
    requires before.chain.Some? && Extends(before, after) && |after.operations| == |before.operations|
    requires Unrecorded(before, request)
    ensures Unrecorded(after, request)
  {
    forall i | 0 <= i < |after.operations|
      ensures after.operations[i].key != request.key
      ensures after.operations[i].recordId != DeterministicRecordId(after.chain.value.chainId, request.key)
    {
      assert SameRow(before.operations[i], after.operations[i]);
    }
  }

  lemma LastRowWritten(key: string, store: Store, db: Database, request: Request)
    requires |store.files| == |store.db.operations| && Aligned(key, store.files, store.db, |store.files|)
    requires Extends(db, store.db) && db.chain.Some?
    requires store.db.operations[|store.files| - 1].key == request.key
    requires store.db.operations[|store.files| - 1].payload == request.payload
    ensures WroteRequest(store, db, request, Sha(store.files[|store.files| - 1].record))
  {
    hide LedgerOk;
    var n := |store.files|;
    var op := store.db.operations[n - 1];
    assert Wrote(op, store.files[n - 1]) && RowOk(store.db.chain.value.chainId, op);
    KeyOfOperation(op);
    WroteMatches(store.db.chain.value.chainId, op, store.files[n - 1]);
  }

  // ---------------------------------------------------------------- limits

  predicate NoColon(text: string) {
    ':' !in text
  }

  /** Record ids tell keys apart as long as the first two parts of a key hold no colon. */
  lemma RecordIdsTellKeysApart(chainId: Identifier, a: Key, b: Key)
    requires NoColon(a.workflowType) && NoColon(a.workflowId) && NoColon(b.workflowType) && NoColon(b.workflowId)
    ensures DeterministicRecordId(chainId, a) == DeterministicRecordId(chainId, b) <==> a == b
  {
    if DeterministicRecordId(chainId, a) == DeterministicRecordId(chainId, b) {
      var restA, restB := a.workflowId + ":" + a.operationType, b.workflowId + ":" + b.operationType;
      assert a.workflowType + ":" + restA == a.workflowType + ":" + a.workflowId + ":" + a.operationType;
      assert b.workflowType + ":" + restB == b.workflowType + ":" + b.workflowId + ":" + b.operationType;
      FirstColonSplits(a.workflowType, restA, b.workflowType, restB);
      FirstColonSplits(a.workflowId, a.operationType, b.workflowId, b.operationType);
    }
  }

  lemma FirstColon(a: string, rest: string)
    requires NoColon(a)
    ensures (a + ":" + rest)[|a|] == ':'
    ensures forall i :: 0 <= i < |a| ==> (a + ":" + rest)[i] != ':'
  {
    forall i | 0 <= i < |a|
      ensures (a + ":" + rest)[i] != ':'
    {
      assert (a + ":" + rest)[i] == a[i];
    }
  }

  lemma FirstColonSplits(a: string, restA: string, b: string, restB: string)
    requires NoColon(a) && NoColon(b) && a + ":" + restA == b + ":" + restB
    ensures a == b && restA == restB
  {
    var s := a + ":" + restA;
    FirstColon(a, restA);
    FirstColon(b, restB);
    assert a == s[..|a|] && b == s[..|b|];
    assert restA == s[|a| + 1..] && restB == s[|b| + 1..];
  }

  /** With a colon in the workflow type two different keys share a record id. */
  lemma ColonsCollide(chainId: Identifier)
    ensures var a, b := Key("a:b", "c", "d"), Key("a", "b:c", "d");
      a != b && DeterministicRecordId(chainId, a) == DeterministicRecordId(chainId, b)
  {
    assert "a:b" + ":" + "c" + ":" + "d" == "a" + ":" + "b:c" + ":" + "d";
  }

  /** A ledger none of whose records has a row, under a committed chain row. */
  predicate Wedged(key: string, store: Store) {
    && store.db.chain.Some?
    && ChainOk(store.files, key)
    && forall i, k :: 0 <= i < |store.files| && 0 <= k < |store.db.operations| ==>
        store.db.operations[k].recordId != store.files[i].record.recordId
  }

  /** Such a ledger is beyond repair: every operation is refused and changes nothing. */
  lemma WedgedForever(key: string, store: Store, request: Request, env: Environment)
    requires Wedged(key, store)
    ensures Reconcile(key, store, env.clock, env.faults) == Outcome(store, env.faults, Failure(GenesisNotCommitted))
    ensures Initialise(key, store, env) == Outcome(store, env.faults, Failure(GenesisNotCommitted))
    ensures AppendRecord(key, store, request, env) == Outcome(store, env.faults, Failure(GenesisNotCommitted))
  {
    ClassifyOrphans(store.files, store.db.operations, [], []);
    assert [] + store.files == store.files;
  }

  /**
    Why a failed first initialisation has to be rolled back: committing it, then losing the next
    transaction, wedges the ledger.
   */
  lemma CommittedInterruptionWedges(key: string, env: Environment, request: Request, later: Environment)
    requires env.faults == [NotWritten] && later.faults == []
    requires RequestOk(request) && (request.allowMissingAudit || later.auditTail.Some?)
    requires request.key != Key("instance", env.instanceId, "initialised")
    requires DeterministicRecordId(env.chainId, request.key) != DeterministicRecordId(env.chainId, Key("instance", env.instanceId, "initialised"))
    ensures Wedged(key, Run(key, EMPTY_SYSTEM, [Start(env), Commit, Append(request, later), Rollback]).store)
  {
    hide Run, AppendRecord, Initialise;
    InterruptedStart(key, env);
    RunOfFour(key, Start(env), Commit, Append(request, later), Rollback);
    var committed := Apply(key, Apply(key, EMPTY_SYSTEM, Start(env)), Commit);
    FirstRecordMisplaced(key, committed.store, request, later);
  }

  /**
    A committed row whose record was never written: the next reconciliation writes the record and still
    reports a mismatch; the one after it succeeds and writes nothing.
   */
  lemma UnwrittenRowIsReported(key: string, env: Environment, request: Request, failing: Environment, clock: nat, later: nat)
    requires env.faults == [] && failing.faults == [NotWritten]
    requires RequestOk(request) && (request.allowMissingAudit || failing.auditTail.Some?)
    requires request.key != Key("instance", env.instanceId, "initialised")
    requires DeterministicRecordId(env.chainId, request.key) != DeterministicRecordId(env.chainId, Key("instance", env.instanceId, "initialised"))
    ensures var s := Run(key, EMPTY_SYSTEM, [Start(env), Commit, Append(request, failing), Commit]);
      var once := Reconcile(key, s.store, clock, []);
      var twice := Reconcile(key, once.store, later, []);
      && |s.store.files| == 1
      && once.result == Failure(LedgerDatabaseMismatch)
      && |once.store.files| == 2 && once.store.files[0] == s.store.files[0]
      && once.store.files[1].record.recordId == DeterministicRecordId(env.chainId, request.key)
      && WithoutMetadata(once.store.files[1].record.payload) == request.payload
      && twice.result == Success(Summary(once.store.files))
      && twice.store.files == once.store.files
  {
    hide Run, AppendRecord, Initialise, Reconcile, LedgerOk, RowOk, Wrote;
    RunOfFour(key, Start(env), Commit, Append(request, failing), Commit);
    var s1 := Apply(key, EMPTY_SYSTEM, Start(env));
    FreshInitialisation(key, EMPTY_SYSTEM.store, env);
    StartedRow(key, env);
    var s2 := Apply(key, s1, Commit);
    FlushAligned(key, s1.store.files, s1.store.db, 1);
    AppendNotWritten(key, s2.store, request, failing);
    var s3 := Apply(key, s2, Append(request, failing));
    FlushAligned(key, s3.store.files, s3.store.db, 1);
    var s4 := Apply(key, s3, Commit);
    OneRowBehind(key, s4.store, request, clock, later);
  }

  lemma OneRowBehind(key: string, store: Store, request: Request, clock: nat, later: nat)
    requires Aligned(key, store.files, store.db, 1) && |store.files| == 1 && |store.db.operations| == 2
    requires store.db.operations[1].key == request.key && store.db.operations[1].payload == request.payload
    ensures var once := Reconcile(key, store, clock, []);
      var twice := Reconcile(key, once.store, later, []);
      && once.result == Failure(LedgerDatabaseMismatch)
      && |once.store.files| == 2 && once.store.files[0] == store.files[0]
      && once.store.files[1].record.recordId == DeterministicRecordId(store.db.chain.value.chainId, request.key)
      && WithoutMetadata(once.store.files[1].record.payload) == request.payload
      && twice.result == Success(Summary(once.store.files))
      && twice.store.files == once.store.files
  {
    hide Reconcile, LedgerOk, RowOk, Wrote, WithoutMetadata;
    ReconcileRepairs(key, store, 1, clock, []);
    var once := Reconcile(key, store, clock, []);
    assert once.store.files[..1][0] == store.files[..1][0];
    ReconcileRepairs(key, once.store, 2, later, []);
    var twice := Reconcile(key, once.store, later, []);
    assert twice.store.files == twice.store.files[..2] == once.store.files[..2] == once.store.files;
    ReconciledExtends(key, store, 1, once.store);
    assert SameRow(store.db.operations[1], once.store.db.operations[1]);
    LastRowWritten(key, once.store, store.db, request);
  }

  lemma StartedRow(key: string, env: Environment)
    requires env.faults == []
    ensures var db := Initialise(key, EMPTY_SYSTEM.store, env).store.db;
      && db.chain.Some? && db.chain.value.chainId == env.chainId
      && |db.operations| == 1
      && db.operations[0].key == Key("instance", env.instanceId, "initialised")
      && db.operations[0].recordId == DeterministicRecordId(env.chainId, db.operations[0].key)
  {
    hide LedgerOk, Aligned;
    FreshInitialisation(key, EMPTY_SYSTEM.store, env);
    InitialiseSteps(key, EMPTY_SYSTEM.store, env);
  }

  lemma AppendNotWritten(key: string, store: Store, request: Request, env: Environment)
    requires |store.db.operations| == 1 && |store.files| == 1 && Aligned(key, store.files, store.db, 1)
    requires store.db.operations[0].state == Complete && store.db.operations[0].key != request.key
    requires store.db.operations[0].recordId != DeterministicRecordId(store.db.chain.value.chainId, request.key)
    requires env.faults == [NotWritten] && RequestOk(request) && (request.allowMissingAudit || env.auditTail.Some?)
    ensures var o := AppendRecord(key, store, request, env).store;
      && o.files == store.files
      && |o.db.operations| == 2
      && o.db.operations[1].key == request.key && o.db.operations[1].payload == request.payload
      && Aligned(key, o.files, o.db, 1)
      && o.db.chain.value.chainId == store.db.chain.value.chainId
  {
    hide Reconcile, RecordOperation, LedgerOk, AppendRecord, RowOk, Wrote;
    AppendSteps(key, store, request, env);
    ReconcileRepairs(key, store, 1, env.clock, env.faults);
    var repaired := Reconcile(key, store, env.clock, env.faults);
    assert repaired.store.files == repaired.store.files[..1] == store.files[..1] == store.files;
    assert SameRow(store.db.operations[0], repaired.store.db.operations[0]);
    ReconciledExtends(key, store, 1, repaired.store);
    assert FindKey(repaired.store.db.operations, request.key).None?;
    RecordWhenCaughtUp(key, repaired.store, request, env, repaired.faults);
  }

  lemma RunOfFour(key: string, a: Step, b: Step, c: Step, d: Step)
    ensures Run(key, EMPTY_SYSTEM, [a, b, c, d]) ==
      Apply(key, Apply(key, Apply(key, Apply(key, EMPTY_SYSTEM, a), b), c), d)
  {
    hide Apply;
    var s := EMPTY_SYSTEM;
    assert [a, b, c, d][1..] == [b, c, d] && [b, c, d][1..] == [c, d] && [c, d][1..] == [d] && [d][1..] == [];
    var s1 := Apply(key, s, a);
    var s2 := Apply(key, s1, b);
    var s3 := Apply(key, s2, c);
    assert Run(key, s3, [d]) == Run(key, Apply(key, s3, d), []);
    assert Run(key, s2, [c, d]) == Run(key, s3, [d]);
    assert Run(key, s1, [b, c, d]) == Run(key, s2, [c, d]);
    assert Run(key, s, [a, b, c, d]) == Run(key, s1, [b, c, d]);
  }

  lemma InterruptedStart(key: string, env: Environment)
    requires env.faults == [NotWritten]
    ensures var o := Initialise(key, EMPTY_SYSTEM.store, env).store;
      && o.files == []
      && o.db.chain == Some(ChainState(env.instanceId, env.chainId, 0, None))
      && |o.db.operations| == 1
      && o.db.operations[0].key == Key("instance", env.instanceId, "initialised")
      && o.db.operations[0].recordId == DeterministicRecordId(env.chainId, o.db.operations[0].key)
  {
    InitialiseSteps(key, EMPTY_SYSTEM.store, env);
  }

  lemma FirstRecordMisplaced(key: string, store: Store, request: Request, env: Environment)
    requires store.files == [] && store.db.chain.Some? && |store.db.operations| == 1
    requires store.db.operations[0].key != request.key
    requires store.db.operations[0].recordId != DeterministicRecordId(store.db.chain.value.chainId, request.key)
    requires env.faults == [] && RequestOk(request) && (request.allowMissingAudit || env.auditTail.Some?)
    ensures var o := AppendRecord(key, store, request, env).store;
      && ChainOk(o.files, key) && |o.files| == 1
      && o.files[0].record.recordId == DeterministicRecordId(store.db.chain.value.chainId, request.key)
  {
    var chain := store.db.chain.value;
    var id := DeterministicRecordId(chain.chainId, request.key);
    var op := Operation(env.operationId, request.key, id, request.recordType, request.payload, None, Pending, None, Pending);
    var ops := Flush(store.db.operations + [op]);
    assert ops[1] == op;
    var stamped := op.(auditTail := env.auditTail);
    var append := AppendRequestFor(chain, stamped, env.clock);
    AppendKeepsChain([], append, key);
    assert FindKey(store.db.operations, request.key).None? && FindRow(store.db.operations, id).None?;
    assert AppendedFiles([], append, key) == [NextFile([], append, key)];
    assert ops[1 := stamped][1] == stamped;
  }
}
