/**
  The evidence bridge as the server runs it: rows updated in place, ledger files appended and moved
  to quarantine, and one open transaction at a time. Every method does exactly what the functions of
  module Evidence say, so what is proved about their runs holds of any sequence of these calls.
 */
module EvidenceService {
  import opened Wrappers
  import opened EvidenceManifest
  import opened Evidence
  import opened EvidenceProofs
  import opened EvidenceRuns

  class Service {
    const ledger: Ledger
    var quarantine: seq<seq<LedgerFile>>
    var committed: Database
    var working: Database

    constructor (key: string)
      ensures fresh(ledger) && ledger.key == key
      ensures State() == EMPTY_SYSTEM
    {
      ledger := new Ledger(key);
      quarantine := [];
      committed := EMPTY_DATABASE;
      working := EMPTY_DATABASE;
    }

    ghost function Current(): Store
      reads this, ledger
    {
      Store(ledger.files, quarantine, working)
    }

    ghost function State(): System
      reads this, ledger
    {
      System(Current(), committed)
    }

    method CommitTransaction()
      modifies this
      ensures State() == Apply(ledger.key, old(State()), Commit)
    {
      working := working.(operations := Flush(working.operations));
      committed := working;
    }

    method RollbackTransaction()
      modifies this
      ensures State() == Apply(ledger.key, old(State()), Rollback)
    {
      working := committed;
    }

    /** Write the record of row `k` and complete the row. */
    method AppendOperationFile(k: nat, clock: nat, faults: seq<Fault>) returns (r: Result<Digest, EvidenceError>, rest: seq<Fault>)
      requires working.chain.Some? && k < |working.operations|
      modifies this, ledger
      ensures committed == old(committed)
      ensures Outcome(Current(), rest, r) == AppendOperation(ledger.key, old(Current()), k, clock, faults)
    {
      var op, chain := working.operations[k], working.chain.value;
      if op.recordType == "" {
        return Failure(AppendFailed), faults;
      }
      var fault := if faults == [] then NoFault else faults[0];
      rest := if faults == [] then [] else faults[1..];
      if fault == NotWritten {
        return Failure(AppendFailed), rest;
      }
      var appended := ledger.Append(AppendRequestFor(chain, op, clock));
      if appended.Failure? || fault == ReplyLost {
        return Failure(AppendFailed), rest;
      }
      var record := appended.value;
      working := working.(
        operations := working.operations[k := op.(state := Complete, digest := Some(Sha(record)))],
        chain := Some(chain.(lastSequence := record.sequence, head := Some(Sha(record)))));
      return Success(Sha(record)), rest;
    }

    /** Record id to digest, unless two files carry the same record id. */
    static method CollectRecords(files: seq<LedgerFile>) returns (records: Option<map<RecordId, Option<Digest>>>)
      ensures records.Some? <==> DistinctFileIds(files)
      ensures records.Some? ==> records.value == LedgerMap(files)
    {
      var found: map<RecordId, Option<Digest>> := map[];
      var i := 0;
      while i < |files|
        invariant 0 <= i <= |files|
        invariant found == LedgerMap(files[..i])
        invariant DistinctFileIds(files[..i])
      {
        var record := files[i].record;
        assert files[..i + 1][..i] == files[..i];
        LedgerMapKeys(files[..i], record.recordId);
        if record.recordId in found {
          var j :| 0 <= j < i && files[..i][j].record.recordId == record.recordId;
          assert files[j].record.recordId == files[i].record.recordId;
          return None;
        }
        assert forall j :: 0 <= j < i ==> files[..i][j] == files[j];
        found := found[record.recordId := Some(Sha(record))];
        i := i + 1;
      }
      assert files[..i] == files;
      return Some(found);
    }

    /** Record id to digest over the rows that a query for complete rows returns. */
    static method CollectComplete(ops: seq<Operation>) returns (complete: map<RecordId, Option<Digest>>)
      ensures complete == CompleteMap(ops)
    {
      complete := map[];
      var i := 0;
      while i < |ops|
        invariant 0 <= i <= |ops|
        invariant complete == CompleteMap(ops[..i])
      {
        assert ops[..i + 1][..i] == ops[..i];
        if ops[i].storedState == Complete {
          complete := complete[ops[i].recordId := ops[i].digest];
        }
        i := i + 1;
      }
      assert ops[..i] == ops;
    }

    /** The strict comparison of the ledger with the complete rows; refreshes the cached head. */
    method VerifyLocal() returns (r: Result<ChainSummary, EvidenceError>)
      modifies this
      ensures committed == old(committed)
      ensures (Current(), r) == VerifyLocalChain(ledger.key, old(Current()))
    {
      if working.chain.None? {
        return Failure(NotInitialised);
      }
      var chain := working.chain.value;
      var verified := ledger.VerifyChain();
      if verified.Failure? {
        return Failure(InvalidChain);
      }
      var summary := verified.value;
      if summary.instanceId != chain.instanceId || summary.chainId != chain.chainId {
        return Failure(ForeignLedger);
      }
      var records := CollectRecords(ledger.files);
      if records.None? {
        return Failure(LedgerDatabaseMismatch);
      }
      var complete := CollectComplete(working.operations);
      if records.value != complete {
        return Failure(LedgerDatabaseMismatch);
      }
      working := working.(chain := Some(chain.(lastSequence := summary.records, head := Some(summary.head))));
      return Success(summary);
    }

    /** Sort the ledger files, adopting every row that has one; a refusal keeps the adoptions made so far. */
    method ClassifyLedger() returns (error: Option<EvidenceError>, retained: seq<LedgerFile>, orphaned: seq<LedgerFile>)
      modifies this`working
      ensures working == old(working).(operations := working.operations)
      ensures Classify(ledger.files, old(working).operations, [], []) ==
        if error.Some? then Rejected(working.operations, error.value) else Classified(working.operations, retained, orphaned)
    {
      var files := ledger.files;
      retained, orphaned := [], [];
      ghost var classified := Classify(files, working.operations, [], []);
      var i := 0;
      assert files[0..] == files;
      while i < |files|
        invariant 0 <= i <= |files|
        invariant working == old(working).(operations := working.operations)
        invariant Classify(files[i..], working.operations, retained, orphaned) == classified
      {
        var file := files[i];
        assert files[i..][0] == file && files[i..][1..] == files[i + 1..];
        var row := FindRow(working.operations, file.record.recordId);
        if row.None? {
          orphaned := orphaned + [file];
        } else if orphaned != [] {
          return Some(DependsOnOrphan), retained, orphaned;
        } else if !ContentMatches(working.operations[row.value], file.record) {
          return Some(ContentMismatch), retained, orphaned;
        } else {
          working := working.(operations := working.operations[row.value := Adopt(working.operations[row.value], file.record)]);
          retained := retained + [file];
        }
        i := i + 1;
      }
      assert files[i..] == [];
      error := None;
    }

    /** Write the record of every row that had no file in `seen`. */
    method AppendMissingFiles(seen: seq<LedgerFile>, clock: nat, faults: seq<Fault>) returns (r: Result<(), EvidenceError>, rest: seq<Fault>)
      requires working.chain.Some?
      modifies this, ledger
      ensures committed == old(committed)
      ensures Outcome(Current(), rest, r) == AppendMissing(ledger.key, old(Current()), seen, 0, clock, faults)
    {
      rest := faults;
      ghost var missing := AppendMissing(ledger.key, Current(), seen, 0, clock, faults);
      var k := 0;
      while k < |working.operations|
        invariant 0 <= k <= |working.operations| && working.chain.Some?
        invariant committed == old(committed)
        invariant AppendMissing(ledger.key, Current(), seen, k, clock, rest) == missing
        decreases |working.operations| - k
      {
        if !Present(seen, working.operations[k].recordId) {
          if working.operations[k].state == Complete {
            return Failure(RecordMissing), rest;
          }
          var appended;
          appended, rest := AppendOperationFile(k, clock, rest);
          if appended.Failure? {
            return Failure(appended.error), rest;
          }
        }
        k := k + 1;
      }
      r := Success(());
    }

    /** Quarantine the orphaned tail, adopt written rows, write missing records, then verify. */
    method ReconcileLocalChain(clock: nat, faults: seq<Fault>) returns (r: Result<ChainSummary, EvidenceError>, rest: seq<Fault>)
      modifies this, ledger
      ensures committed == old(committed)
      ensures Outcome(Current(), rest, r) == Reconcile(ledger.key, old(Current()), clock, faults)
    {
      if working.chain.None? {
        return Failure(NotInitialised), faults;
      }
      var verified := ledger.VerifyChain();
      if verified.Failure? {
        return Failure(InvalidChain), faults;
      }
      var seen := ledger.files;
      var error, retained, orphaned := ClassifyLedger();
      if error.Some? {
        return Failure(error.value), faults;
      }
      if orphaned != [] {
        if retained == [] {
          return Failure(GenesisNotCommitted), faults;
        }
        quarantine := quarantine + [orphaned];
        ledger.files := retained;
      }
      working := working.(operations := Flush(working.operations));
      var appended;
      appended, rest := AppendMissingFiles(seen, clock, faults);
      if appended.Failure? {
        return Failure(appended.error), rest;
      }
      r := VerifyLocal();
    }

    /** The part of a workflow append that follows reconciliation. */
    method RecordWorkflowOperation(request: Request, env: Environment, faults: seq<Fault>) returns (r: Result<Digest, EvidenceError>, rest: seq<Fault>)
      requires working.chain.Some?
      modifies this, ledger
      ensures committed == old(committed)
      ensures Outcome(Current(), rest, r) == RecordOperation(ledger.key, old(Current()), request, env, faults)
    {
      var row := FindKey(working.operations, request.key);
      var k;
      if row.Some? {
        k := row.value;
        var existing := working.operations[k];
        if existing.payload != request.payload || (existing.recordType != "" && existing.recordType != request.recordType) {
          return Failure(ReplayedDifferently), faults;
        }
        if existing.state == Complete && existing.digest.Some? {
          return Success(existing.digest.value), faults;
        }
      } else {
        var id := DeterministicRecordId(working.chain.value.chainId, request.key);
        if FindRow(working.operations, id).Some? {
          return Failure(RecordIdTaken), faults;
        }
        k := |working.operations|;
        var op := Operation(env.operationId, request.key, id, request.recordType, request.payload, None, Pending, None, Pending);
        working := working.(operations := Flush(working.operations + [op]));
      }
      if env.auditTail.None? && !request.allowMissingAudit {
        SetRow(k, working.operations[k].(state := Failed));
        return Failure(AuditHeadMissing), faults;
      }
      SetRow(k, working.operations[k].(recordType := request.recordType, auditTail := env.auditTail));
      r, rest := AppendOperationFile(k, env.clock, faults);
      if r.Failure? {
        SetRow(k, working.operations[k].(state := Failed));
      }
    }

    method SetRow(k: nat, op: Operation)
      requires k < |working.operations|
      modifies this`working
      ensures Current() == WithRow(old(Current()), k, op)
    {
      working := working.(operations := working.operations[k := op]);
    }

    /** Take over a chain whose first transaction was lost after it wrote the genesis record. */
    method RecoverUncommittedInitialisation(env: Environment) returns (r: Result<(), EvidenceError>, rest: seq<Fault>)
      requires ledger.files != [] && working.chain.None?
      modifies this, ledger
      ensures committed == old(committed)
      ensures Outcome(Current(), rest, r) == Recover(ledger.key, old(Current()), env)
    {
      var verified := ledger.VerifyChain();
      if verified.Failure? {
        return Failure(InvalidChain), env.faults;
      }
      var first := ledger.files[0].record;
      if first.recordType != GENESIS_TYPE {
        return Failure(InvalidInitialisation), env.faults;
      }
      if working.instanceId.Some? && working.instanceId.value != first.instanceId {
        return Failure(ForeignLedger), env.faults;
      }
      working := working.(
        chain := Some(ChainState(verified.value.instanceId, verified.value.chainId, 0, None)),
        instanceId := Some(verified.value.instanceId));
      if !GenesisRecord(first) {
        return Failure(InvalidInitialisation), env.faults;
      }
      working := working.(operations := Flush(working.operations + [RecoveredGenesis(first)]));
      var reconciled;
      reconciled, rest := ReconcileLocalChain(env.clock, env.faults);
      r := if reconciled.Success? then Success(()) else Failure(reconciled.error);
    }

    method InitialiseEvidence(env: Environment) returns (r: Result<(), EvidenceError>, rest: seq<Fault>)
      modifies this, ledger
      ensures Outcome(Current(), rest, r) == Initialise(ledger.key, old(Current()), env)
      ensures State() == Apply(ledger.key, old(State()), Start(env))
    {
      if working.chain.Some? {
        var reconciled;
        reconciled, rest := ReconcileLocalChain(env.clock, env.faults);
        return if reconciled.Success? then Success(()) else Failure(reconciled.error), rest;
      }
      if ledger.files != [] {
        r, rest := RecoverUncommittedInitialisation(env);
        return;
      }
      var instanceId := if working.instanceId.Some? then working.instanceId.value else env.instanceId;
      working := working.(chain := Some(ChainState(instanceId, env.chainId, 0, None)), instanceId := Some(instanceId));
      var recorded;
      recorded, rest := RecordWorkflowOperation(GenesisRequest(instanceId, ledger.key), env, env.faults);
      r := if recorded.Success? then Success(()) else Failure(recorded.error);
    }

    /** One idempotent workflow append. */
    method AppendWorkflowRecord(request: Request, env: Environment) returns (r: Result<Digest, EvidenceError>)
      modifies this, ledger
      ensures r == AppendRecord(ledger.key, old(Current()), request, env).result
      ensures State() == Apply(ledger.key, old(State()), Append(request, env))
    {
      var rest := env.faults;
      if working.chain.None? {
        var started;
        started, rest := InitialiseEvidence(env);
        if started.Failure? {
          return Failure(started.error);
        }
      } else if ledger.files != [] {
        var reconciled;
        reconciled, rest := ReconcileLocalChain(env.clock, env.faults);
        if reconciled.Failure? {
          return Failure(reconciled.error);
        }
      }
      if working.chain.None? {
        return Failure(NotInitialised);
      }
      r, rest := RecordWorkflowOperation(request, env, rest);
    }
  }
}
