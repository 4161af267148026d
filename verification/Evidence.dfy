/**
  The bridge between evidence-operation rows in the database and the signed ledger files.

  A ledger file is written before the transaction that owns its row commits, so a rollback leaves
  an orphaned tail of files, and a crash can leave committed rows without a file. This module gives
  the meaning of every operation of the bridge on values; EvidenceService holds the state they work
  on. Database sessions do not flush before a query, so a row has the state the program sees
  (`state`) and the state a query filter sees (`storedState`).
 */
module Evidence {
  import opened Wrappers
  import opened EvidenceManifest

  const GENESIS_TYPE := "instance.initialised"
  const OPERATION_ID := "evidence_operation_id"
  const WORKFLOW_TYPE := "evidence_workflow_type"
  const WORKFLOW_ID := "evidence_workflow_id"
  const OPERATION_TYPE := "evidence_operation_type"
  const METADATA := {OPERATION_ID, WORKFLOW_TYPE, WORKFLOW_ID, OPERATION_TYPE}

  datatype OperationState = Pending | Failed | Complete

  datatype Key = Key(workflowType: string, workflowId: string, operationType: string)

  datatype Operation = Operation(
    operationId: string,
    key: Key,
    recordId: RecordId,
    recordType: string,
    payload: Payload,
    auditTail: Option<string>,
    state: OperationState,
    digest: Option<Digest>,
    storedState: OperationState)

  /** The cached summary of the ledger. */
  datatype ChainState = ChainState(instanceId: Identifier, chainId: Identifier, lastSequence: nat, head: Option<Digest>)

  /** What one transaction sees: the chain row, the installation's identity, the rows by id. */
  datatype Database = Database(chain: Option<ChainState>, instanceId: Option<Identifier>, operations: seq<Operation>)

  /** The ledger directory, the quarantined tails, and the database as the open transaction sees it. */
  datatype Store = Store(files: seq<LedgerFile>, quarantine: seq<seq<LedgerFile>>, db: Database)

  /** How one run of the append tool goes wrong: before it wrote, or after. */
  datatype Fault = NoFault | NotWritten | ReplyLost

  /** Everything a call takes from outside: time, tool faults, the audit head, fresh identifiers. */
  datatype Environment = Environment(
    clock: nat,
    faults: seq<Fault>,
    auditTail: Option<string>,
    operationId: Identifier,
    chainId: Identifier,
    instanceId: Identifier)

  datatype Request = Request(key: Key, recordType: string, payload: Payload, allowMissingAudit: bool)

  datatype EvidenceError =
    | NotInitialised
    | InvalidChain
    | DependsOnOrphan
    | ContentMismatch
    | GenesisNotCommitted
    | RecordMissing
    | AppendFailed
    | ForeignLedger
    | LedgerDatabaseMismatch
    | ReplayedDifferently
    | AuditHeadMissing
    | RecordIdTaken
    | InvalidInitialisation

  datatype Outcome<+T> = Outcome(store: Store, faults: seq<Fault>, result: Result<T, EvidenceError>)

  // ---------------------------------------------------------------- rows and payloads

  function DeterministicRecordId(chainId: Identifier, key: Key): RecordId {
    RecordId(chainId, key.workflowType + ":" + key.workflowId + ":" + key.operationType)
  }

  function OperationPayload(op: Operation): Payload {
    op.payload + map[
      OPERATION_ID := op.operationId,
      WORKFLOW_TYPE := op.key.workflowType,
      WORKFLOW_ID := op.key.workflowId,
      OPERATION_TYPE := op.key.operationType]
  }

  function WithoutMetadata(payload: Payload): Payload {
    payload - METADATA
  }

  function Lookup(payload: Payload, field: string): Option<string> {
    if field in payload then Some(payload[field]) else None
  }

  /** Reconciliation's test that a file says what its row asked for. */
  predicate ContentMatches(op: Operation, record: Record) {
    var tagged := OPERATION_ID in record.payload;
    && op.payload == (if tagged then WithoutMetadata(record.payload) else record.payload)
    && (op.recordType == "" || op.recordType == record.recordType)
    && (tagged ==>
        && Lookup(record.payload, OPERATION_ID) == Some(op.operationId)
        && Lookup(record.payload, WORKFLOW_TYPE) == Some(op.key.workflowType)
        && Lookup(record.payload, WORKFLOW_ID) == Some(op.key.workflowId)
        && Lookup(record.payload, OPERATION_TYPE) == Some(op.key.operationType))
  }

  function Adopt(op: Operation, record: Record): Operation {
    op.(recordType := record.recordType, auditTail := record.auditTail, state := Complete, digest := Some(Sha(record)))
  }

  function Flush(ops: seq<Operation>): (flushed: seq<Operation>)
    ensures |flushed| == |ops|
    ensures forall i :: 0 <= i < |ops| ==> flushed[i] == ops[i].(storedState := ops[i].state)
  {
    seq(|ops|, i requires 0 <= i < |ops| => ops[i].(storedState := ops[i].state))
  }

  function FindRow(ops: seq<Operation>, id: RecordId): (row: Option<nat>)
    ensures row.Some? ==> row.value < |ops| && ops[row.value].recordId == id
    ensures row.None? ==> forall i :: 0 <= i < |ops| ==> ops[i].recordId != id
  {
    if ops == [] then None
    else if ops[0].recordId == id then Some(0)
    else match FindRow(ops[1..], id)
      case None => None
      case Some(i) => Some(i + 1)
  }

  function FindKey(ops: seq<Operation>, key: Key): (row: Option<nat>)
    ensures row.Some? ==> row.value < |ops| && ops[row.value].key == key
    ensures row.None? ==> forall i :: 0 <= i < |ops| ==> ops[i].key != key
  {
    if ops == [] then None
    else if ops[0].key == key then Some(0)
    else match FindKey(ops[1..], key)
      case None => None
      case Some(i) => Some(i + 1)
  }

  // ---------------------------------------------------------------- appending one row's record

  function AppendRequestFor(chain: ChainState, op: Operation, clock: nat): AppendRequest {
    AppendRequest(chain.instanceId, chain.chainId, op.recordType, OperationPayload(op), op.auditTail, op.recordId, clock)
  }

  /** Write the record of row `k` and mark the row complete, unless the tool fails. */
  function AppendOperation(key: string, store: Store, k: nat, clock: nat, faults: seq<Fault>): Outcome<Digest>
    requires store.db.chain.Some? && k < |store.db.operations|
  {
    var op, chain := store.db.operations[k], store.db.chain.value;
    var request := AppendRequestFor(chain, op, clock);
    var fault := if faults == [] then NoFault else faults[0];
    var rest := if faults == [] then [] else faults[1..];
    if op.recordType == "" then
      Outcome(store, faults, Failure(AppendFailed))
    else if fault == NotWritten || !AppendAccepted(store.files, request, key) then
      Outcome(store, rest, Failure(AppendFailed))
    else
      var written := store.(files := AppendedFiles(store.files, request, key));
      if fault == ReplyLost then
        Outcome(written, rest, Failure(AppendFailed))
      else
        var record := WrittenRecord(store.files, request);
        var db := store.db.(
          chain := Some(chain.(lastSequence := record.sequence, head := Some(Sha(record)))),
          operations := store.db.operations[k := op.(state := Complete, digest := Some(Sha(record)))]);
        Outcome(written.(db := db), rest, Success(Sha(record)))
  }

  // ---------------------------------------------------------------- reconciliation

  datatype Classification =
    | Classified(operations: seq<Operation>, retained: seq<LedgerFile>, orphaned: seq<LedgerFile>)
    | Rejected(operations: seq<Operation>, error: EvidenceError)

  /** Sort ledger files into those with a row, whose rows are adopted, and the orphaned tail. */
  function Classify(files: seq<LedgerFile>, ops: seq<Operation>, retained: seq<LedgerFile>, orphaned: seq<LedgerFile>): Classification
    decreases |files|
  {
    if files == [] then Classified(ops, retained, orphaned)
    else
      var row := FindRow(ops, files[0].record.recordId);
      if row.None? then Classify(files[1..], ops, retained, orphaned + [files[0]])
      else if orphaned != [] then Rejected(ops, DependsOnOrphan)
      else if !ContentMatches(ops[row.value], files[0].record) then Rejected(ops, ContentMismatch)
      else Classify(files[1..], ops[row.value := Adopt(ops[row.value], files[0].record)], retained + [files[0]], orphaned)
  }

  predicate Present(files: seq<LedgerFile>, id: RecordId) {
    exists i :: 0 <= i < |files| && files[i].record.recordId == id
  }

  /** Append the record of every row from `k` on that had no file in `seen`. */
  function AppendMissing(key: string, store: Store, seen: seq<LedgerFile>, k: nat, clock: nat, faults: seq<Fault>): Outcome<()>
    requires store.db.chain.Some? && k <= |store.db.operations|
    decreases |store.db.operations| - k
  {
    if k == |store.db.operations| then
      Outcome(store, faults, Success(()))
    else if Present(seen, store.db.operations[k].recordId) then
      AppendMissing(key, store, seen, k + 1, clock, faults)
    else if store.db.operations[k].state == Complete then
      Outcome(store, faults, Failure(RecordMissing))
    else
      var o := AppendOperation(key, store, k, clock, faults);
      if o.result.Failure? then Outcome(o.store, o.faults, Failure(o.result.error))
      else AppendMissing(key, o.store, seen, k + 1, clock, o.faults)
  }

  /** Record id to digest over the ledger, and over the rows a query for complete rows returns. */
  function LedgerMap(files: seq<LedgerFile>): map<RecordId, Option<Digest>> {
    if files == [] then map[]
    else LedgerMap(files[..|files| - 1])[files[|files| - 1].record.recordId := Some(Sha(files[|files| - 1].record))]
  }

  function CompleteMap(ops: seq<Operation>): map<RecordId, Option<Digest>> {
    if ops == [] then map[]
    else
      var rest, last := CompleteMap(ops[..|ops| - 1]), ops[|ops| - 1];
      if last.storedState == Complete then rest[last.recordId := last.digest] else rest
  }

  predicate DistinctFileIds(files: seq<LedgerFile>) {
    forall i, j :: 0 <= i < j < |files| ==> files[i].record.recordId != files[j].record.recordId
  }

  function VerifyLocalChain(key: string, store: Store): (Store, Result<ChainSummary, EvidenceError>) {
    if store.db.chain.None? then
      (store, Failure(NotInitialised))
    else if !ChainOk(store.files, key) then
      (store, Failure(InvalidChain))
    else
      var chain, summary := store.db.chain.value, Summary(store.files);
      if summary.instanceId != chain.instanceId || summary.chainId != chain.chainId then
        (store, Failure(ForeignLedger))
      else if !DistinctFileIds(store.files) || LedgerMap(store.files) != CompleteMap(store.db.operations) then
        (store, Failure(LedgerDatabaseMismatch))
      else
        var cached := chain.(lastSequence := summary.records, head := Some(summary.head));
        (store.(db := store.db.(chain := Some(cached))), Success(summary))
  }

  function Reconcile(key: string, store: Store, clock: nat, faults: seq<Fault>): Outcome<ChainSummary> {
    if store.db.chain.None? then
      Outcome(store, faults, Failure(NotInitialised))
    else if !ChainOk(store.files, key) then
      Outcome(store, faults, Failure(InvalidChain))
    else match Classify(store.files, store.db.operations, [], [])
      case Rejected(ops, error) =>
        Outcome(store.(db := store.db.(operations := ops)), faults, Failure(error))
      case Classified(ops, retained, orphaned) =>
        if orphaned != [] && retained == [] then
          Outcome(store.(db := store.db.(operations := ops)), faults, Failure(GenesisNotCommitted))
        else
          var cleaned := Store(
            if orphaned == [] then store.files else retained,
            if orphaned == [] then store.quarantine else store.quarantine + [orphaned],
            store.db.(operations := Flush(ops)));
          var appended := AppendMissing(key, cleaned, store.files, 0, clock, faults);
          if appended.result.Failure? then
            Outcome(appended.store, appended.faults, Failure(appended.result.error))
          else
            var (verified, result) := VerifyLocalChain(key, appended.store);
            Outcome(verified, appended.faults, result)
  }

  // ---------------------------------------------------------------- workflow appends

  /** The part of a workflow append that follows reconciliation. */
  function RecordOperation(key: string, store: Store, request: Request, env: Environment, faults: seq<Fault>): Outcome<Digest>
    requires store.db.chain.Some?
  {
    var row := FindKey(store.db.operations, request.key);
    if row.Some? then
      var op := store.db.operations[row.value];
      if op.payload != request.payload || (op.recordType != "" && op.recordType != request.recordType) then
        Outcome(store, faults, Failure(ReplayedDifferently))
      else if op.state == Complete && op.digest.Some? then
        Outcome(store, faults, Success(op.digest.value))
      else
        AppendAudited(key, store, row.value, request, env, faults)
    else
      var id := DeterministicRecordId(store.db.chain.value.chainId, request.key);
      if FindRow(store.db.operations, id).Some? then
        Outcome(store, faults, Failure(RecordIdTaken))
      else
        var op := Operation(env.operationId, request.key, id, request.recordType, request.payload, None, Pending, None, Pending);
        var inserted := store.(db := store.db.(operations := Flush(store.db.operations + [op])));
        AppendAudited(key, inserted, |store.db.operations|, request, env, faults)
  }

  /** Stamp the audit head on row `k` and write its record; a failure marks the row failed. */
  function AppendAudited(key: string, store: Store, k: nat, request: Request, env: Environment, faults: seq<Fault>): Outcome<Digest>
    requires store.db.chain.Some? && k < |store.db.operations|
  {
    var op := store.db.operations[k];
    if env.auditTail.None? && !request.allowMissingAudit then
      Outcome(WithRow(store, k, op.(state := Failed)), faults, Failure(AuditHeadMissing))
    else
      var stamped := WithRow(store, k, op.(recordType := request.recordType, auditTail := env.auditTail));
      var o := AppendOperation(key, stamped, k, env.clock, faults);
      if o.result.Failure? then
        Outcome(WithRow(o.store, k, o.store.db.operations[k].(state := Failed)), o.faults, o.result)
      else
        o
  }

  function WithRow(store: Store, k: nat, op: Operation): Store
    requires k < |store.db.operations|
  {
    store.(db := store.db.(operations := store.db.operations[k := op]))
  }

  // ---------------------------------------------------------------- initialisation

  /** The genesis payload names the signing key twice, by its identifier and by its digest; both stand as the key itself. */
  function GenesisRequest(instanceId: Identifier, key: string): Request {
    Request(Key("instance", instanceId, "initialised"), GENESIS_TYPE,
            map["status" := "initialised", "key_id" := key, "public_key_sha256" := key], true)
  }

  /** The row that an interrupted initialisation is recovered into. */
  function RecoveredGenesis(record: Record): Operation
    requires METADATA <= record.payload.Keys
  {
    Operation(
      record.payload[OPERATION_ID],
      Key(record.payload[WORKFLOW_TYPE], record.payload[WORKFLOW_ID], record.payload[OPERATION_TYPE]),
      record.recordId, record.recordType, WithoutMetadata(record.payload), record.auditTail,
      Complete, Some(Sha(record)), Complete)
  }

  predicate GenesisRecord(record: Record) {
    && record.recordType == GENESIS_TYPE
    && METADATA <= record.payload.Keys
    && (forall field :: field in METADATA ==> record.payload[field] != "")
    && record.recordId == DeterministicRecordId(record.chainId, RecoveredGenesis(record).key)
  }

  function Recover(key: string, store: Store, env: Environment): Outcome<()>
    requires store.files != [] && store.db.chain.None?
  {
    if !ChainOk(store.files, key) then
      Outcome(store, env.faults, Failure(InvalidChain))
    else
      var first := store.files[0].record;
      if first.recordType != GENESIS_TYPE then
        Outcome(store, env.faults, Failure(InvalidInitialisation))
      else if store.db.instanceId.Some? && store.db.instanceId.value != first.instanceId then
        Outcome(store, env.faults, Failure(ForeignLedger))
      else
        var db := store.db.(
          chain := Some(ChainState(first.instanceId, first.chainId, 0, None)),
          instanceId := Some(first.instanceId));
        if !GenesisRecord(first) then
          Outcome(store.(db := db), env.faults, Failure(InvalidInitialisation))
        else
          var recovered := db.(operations := Flush(db.operations + [RecoveredGenesis(first)]));
          var o := Reconcile(key, store.(db := recovered), env.clock, env.faults);
          Outcome(o.store, o.faults, if o.result.Success? then Success(()) else Failure(o.result.error))
  }

  function Initialise(key: string, store: Store, env: Environment): Outcome<()> {
    if store.db.chain.Some? then
      var o := Reconcile(key, store, env.clock, env.faults);
      Outcome(o.store, o.faults, if o.result.Success? then Success(()) else Failure(o.result.error))
    else if store.files != [] then
      Recover(key, store, env)
    else
      var instanceId := if store.db.instanceId.Some? then store.db.instanceId.value else env.instanceId;
      var db := store.db.(
        chain := Some(ChainState(instanceId, env.chainId, 0, None)),
        instanceId := Some(instanceId));
      var o := RecordOperation(key, store.(db := db), GenesisRequest(instanceId, key), env, env.faults);
      Outcome(o.store, o.faults, if o.result.Success? then Success(()) else Failure(o.result.error))
  }

  /** One idempotent workflow append, reconciling the ledger first. */
  function AppendRecord(key: string, store: Store, request: Request, env: Environment): Outcome<Digest> {
    if store.db.chain.None? then
      var o := Initialise(key, store, env);
      if o.result.Failure? || o.store.db.chain.None? then
        Outcome(o.store, o.faults, Failure(if o.result.Failure? then o.result.error else NotInitialised))
      else
        RecordOperation(key, o.store, request, env, o.faults)
    else if store.files != [] then
      var o := Reconcile(key, store, env.clock, env.faults);
      if o.result.Failure? || o.store.db.chain.None? then
        Outcome(o.store, o.faults, Failure(if o.result.Failure? then o.result.error else NotInitialised))
      else
        RecordOperation(key, o.store, request, env, o.faults)
    else
      RecordOperation(key, store, request, env, env.faults)
  }
}
