/**
  One deletion case: its Desktop work orders, the purge, the confirmations, the checklist and the
  completion gate. Every step is one transaction: it happens as a whole, with its evidence record, or
  not at all. Steps may come in any order.
 */
module DeletionCases {
  import opened Wrappers

  datatype CaseState = Submitted | Accepted | AwaitingDesktopReport | ReadyForLivePurge | LivePurgeInProgress | PeerReplicationPending
    | AwaitingCleanBackup | AwaitingBackupResolution | AwaitingChecklist | AwaitingApprovals | ReadyForCompletion
    | Complete | RestrictedRetention | Rejected | Withdrawn

  datatype CaseType = EventErasure | SubjectErasure

  /** What one evidence record says; its digest is idealised as the record itself. */
  datatype Statement = OrderCreated(event: string, subject: Option<string>, processor: string, key: string)
    | DesktopReported(order: string, report: string)
    | CopiesResolved(order: string, resolution: string)
    | ActionsResolved(actions: set<string>)
    | LivePurged(at: nat)
    | PeerConfirmed(bundle: string)
    | CleanBackup(packageSha: string, peerResolution: Option<string>, at: nat)
    | NoBackups
    | ChecklistCreated(checklist: Checklist)
    | ChecklistApproved(checklist: Checklist, approval: Approval)
    | Completed(checklist: Checklist, approval: Approval, receipts: Receipts, processors: map<(string, string), Requirement>, at: nat)
    | PeerRemediated(resolution: string)

  datatype Entry = Entry(operation: string, statement: Statement)

  /** The digest under which an evidence record is referred to. */
  datatype Digest = DigestOf(entry: Entry)

  datatype Receipts = Receipts(
    livePurge: Option<Digest>,
    peerConfirmation: Option<Digest>,
    cleanBackup: Option<string>,
    peerResolution: Option<string>,
    notApplicable: Option<Digest>)

  datatype Checklist = Checklist(
    caseType: CaseType,
    scopes: set<(string, Option<string>)>,
    receipts: Receipts,
    desktopRequired: bool,
    processors: map<(string, string), Requirement>)

  datatype Approval = Approval(userId: nat, credential: string, at: nat)

  /** What one processor must deliver for one event. */
  datatype Requirement = Requirement(key: string, completedKey: Option<string>, deletion: Option<string>, copies: Option<string>, complete: bool)

  datatype OrderState = Open | Claimed | ReportReceived

  datatype WorkOrder = WorkOrder(event: string, subject: Option<string>, processor: string, state: OrderState, report: Option<string>, copies: Option<string>)

  datatype PackageStatus = Active | SupersededPending | ConfirmedDeleted

  datatype Package = Package(sha: string, status: PackageStatus)

  datatype Case = Case(
    caseType: CaseType,
    state: CaseState,
    desktopRequired: bool,
    desktopReport: Option<string>,
    desktopAbsence: Option<string>,
    outstanding: set<string>,
    livePurge: Option<Digest>,
    peerConfirmation: Option<Digest>,
    replacement: Option<string>,
    peerResolution: Option<string>,
    notApplicable: Option<Digest>,
    checklist: Option<Checklist>,
    executorApproval: Option<Approval>,
    finalReceipt: Option<Digest>)

  datatype System = System(
    ha: bool,
    case_: Case,
    requirements: map<(string, string), Requirement>,
    orders: map<string, WorkOrder>,
    scopes: set<(string, Option<string>)>,
    approvals: map<Checklist, Approval>,
    inventory: map<string, Package>,
    log: seq<Entry>)

  function Opened(ha: bool, caseType: CaseType, inventory: map<string, Package>): System {
    System(ha, Case(caseType, Submitted, true, None, None, {}, None, None, None, None, None, None, None, None),
           map[], map[], {}, map[], inventory, [])
  }

  datatype CaseError = Unavailable | NotReady | Mismatch | Missing | Invalid

  // ---------------------------------------------------------------------------------------------
  // The evidence log of the case

  predicate Has(log: seq<Entry>, operation: string) {
    exists i :: 0 <= i < |log| && log[i].operation == operation
  }

  /** Append a record, or find the same one under its operation; another one there is refused. */
  function Append(log: seq<Entry>, operation: string, statement: Statement): Option<seq<Entry>> {
    var entry := Entry(operation, statement);
    if entry in log then Some(log)
    else if Has(log, operation) then None
    else Some(log + [entry])
  }

  /** The outcome of appending the one record of a step: the step with the new log, or nothing. */
  function WithRecord(s: System, operation: string, statement: Statement): Result<System, CaseError> {
    var log := Append(s.log, operation, statement);
    if log.None? then Failure(Unavailable) else Success(s.(log := log.value))
  }

  // ---------------------------------------------------------------------------------------------
  // Desktop work orders

  /** An event that was never linked to a processor needs no Desktop receipt. */
  function EnsureNone(s: System, event: string, subject: Option<string>): Result<System, CaseError> {
    Success(s.(scopes := s.scopes + {(event, subject)}, case_ := s.case_.(desktopRequired := false)))
  }

  predicate Serves(order: WorkOrder, event: string, subject: Option<string>, processor: string) {
    order.event == event && order.subject == subject && order.processor == processor
  }

  /** The requirement and the work order of one active processor of an event; `id` is the identifier of a new order. */
  function EnsureOrder(s: System, event: string, subject: Option<string>, processor: string, key: string, id: string): Result<System, CaseError> {
    var row := (event, processor);
    var scoped := s.(scopes := s.scopes + {(event, subject)},
                     case_ := s.case_.(desktopRequired := true),
                     requirements := if row in s.requirements then s.requirements
                                     else s.requirements[row := Requirement(key, None, None, None, false)]);
    if exists other | other in s.orders :: Serves(s.orders[other], event, subject, processor) then Success(scoped)
    else if id in s.orders then Failure(Invalid)
    else WithRecord(scoped.(orders := s.orders[id := WorkOrder(event, subject, processor, Open, None, None)]),
                    "desktop_work_order_created_" + id, OrderCreated(event, subject, processor, key))
  }

  /** A processor identity of an event: whether it is active, its active key, and whether that key is verifiable. */
  datatype Processor = Processor(entity: string, active: bool, activeKey: Option<string>, verifiable: bool, orderId: string)

  function ActiveOf(known: seq<Processor>): (active: seq<Processor>)
    ensures forall k :: 0 <= k < |active| ==> active[k] in known && active[k].active && active[k].activeKey.Some?
  {
    if known == [] then []
    else (if known[0].active && known[0].activeKey.Some? then [known[0]] else []) + ActiveOf(known[1..])
  }

  /** One order for each active processor, in turn; a key that cannot be verified refuses the whole call. */
  function EnsureEach(s: System, event: string, subject: Option<string>, active: seq<Processor>): Result<System, CaseError>
    requires forall k :: 0 <= k < |active| ==> active[k].activeKey.Some?
    decreases active
  {
    if active == [] then Success(s)
    else if !active[0].verifiable then Failure(Invalid)
    else
      var ensured := EnsureOrder(s, event, subject, active[0].entity, active[0].activeKey.value, active[0].orderId);
      if ensured.Failure? then ensured else EnsureEach(ensured.value, event, subject, active[1..])
  }

  /**
    The work orders of an event. No processor identity at all means that no Desktop copy can exist; known
    identities without an active key block instead.
   */
  function EnsureWorkOrders(s: System, event: string, subject: Option<string>, known: seq<Processor>): Result<System, CaseError> {
    if known == [] then EnsureNone(s, event, subject)
    else if ActiveOf(known) == [] then Failure(Missing)
    else EnsureEach(s, event, subject, ActiveOf(known))
  }

  /** Claim an order; an active claim of somebody else blocks. */
  function Claim(s: System, id: string, expired: bool): Result<System, CaseError> {
    if id !in s.orders then Failure(Missing)
    else
      var order := s.orders[id];
      if order.state.ReportReceived? || (order.state.Claimed? && !expired) then Failure(NotReady)
      else Success(s.(orders := s.orders[id := order.(state := Claimed)]))
  }

  /** The deletion report of a claimed order; `authorised` is whether the claim is present, current and the caller's. */
  function ApplyReport(s: System, id: string, authorised: bool, report: string, remaining: set<string>, completedKey: string): Result<System, CaseError> {
    if id !in s.orders then Failure(Missing)
    else
      var order := s.orders[id];
      var row := (order.event, order.processor);
      if order.report.Some? then (if order.report.value == report then Success(s) else Failure(Mismatch))
      else if !order.state.Claimed? || !authorised then Failure(NotReady)
      else if (order.event, order.subject) !in s.scopes || row !in s.requirements then Failure(Missing)
      else
        var requirement := s.requirements[row].(deletion := Some(report), completedKey := Some(completedKey), complete := false);
        var requirements := s.requirements[row := requirement];
        var pending := exists r | r in requirements :: requirements[r].deletion.None?;
        var state := if pending then AwaitingDesktopReport else ReadyForLivePurge;
        var c := s.case_.(desktopReport := Some(report), outstanding := s.case_.outstanding + remaining, state := state);
        WithRecord(s.(orders := s.orders[id := order.(state := ReportReceived, report := Some(report))],
                      requirements := requirements, case_ := c),
                   "desktop_report_received_" + id, DesktopReported(id, report))
  }

  /** The processor's statement about local copies, after the deletion report. */
  function ApplyCopyResolution(s: System, id: string, resolution: string, completedKey: string): Result<System, CaseError> {
    if id !in s.orders then Failure(Missing)
    else
      var order := s.orders[id];
      var row := (order.event, order.processor);
      if order.report.None? then Failure(NotReady)
      else if order.copies.Some? then (if order.copies.value == resolution then Success(s) else Failure(Mismatch))
      else if row !in s.requirements then Failure(Missing)
      else
        var requirement := s.requirements[row].(copies := Some(resolution), completedKey := Some(completedKey), complete := true);
        WithRecord(s.(orders := s.orders[id := order.(copies := Some(resolution))], requirements := s.requirements[row := requirement]),
                   "desktop_copy_resolution_" + id, CopiesResolved(id, resolution))
  }

  predicate InventoryResolved(inventory: map<string, Package>) {
    forall id :: id in inventory ==> !inventory[id].status.SupersededPending?
  }

  function ResolveActions(s: System, actions: set<string>): Result<System, CaseError> {
    if actions != s.case_.outstanding || actions == {} then Failure(Mismatch)
    else
      var state := if s.case_.livePurge.None? then ReadyForLivePurge
        else if s.case_.replacement.None? then AwaitingCleanBackup
        else if !InventoryResolved(s.inventory) then AwaitingBackupResolution
        else AwaitingChecklist;
      WithRecord(s.(case_ := s.case_.(outstanding := {}, state := state)), "desktop_actions_resolved", ActionsResolved(actions))
  }

  // ---------------------------------------------------------------------------------------------
  // Purge and confirmations

  function PurgeLiveData(s: System, at: nat): Result<System, CaseError> {
    if s.case_.livePurge.Some? then Success(s)
    else if !s.case_.state.ReadyForLivePurge? && !s.case_.state.LivePurgeInProgress? then Failure(NotReady)
    else if s.case_.desktopRequired && s.case_.desktopReport.None? && s.case_.desktopAbsence.None? then Failure(Missing)
    else
      var entry := Entry("live_data_purged", LivePurged(at));
      var state := if s.ha then PeerReplicationPending else AwaitingCleanBackup;
      WithRecord(s.(case_ := s.case_.(livePurge := Some(DigestOf(entry)), state := state)), entry.operation, entry.statement)
  }

  function ConfirmPeer(s: System, bundle: Option<string>): Result<System, CaseError> {
    if !s.ha || s.case_.livePurge.None? then Failure(NotReady)
    else if s.case_.peerConfirmation.Some? then Success(s)
    else if bundle.None? then Failure(Missing)
    else
      var entry := Entry("peer_confirmed", PeerConfirmed(bundle.value));
      WithRecord(s.(case_ := s.case_.(peerConfirmation := Some(DigestOf(entry)), state := AwaitingCleanBackup)), entry.operation, entry.statement)
  }

  /** One older package after it was marked: a confirmed deletion is never undone. */
  function MarkedPackage(inventory: map<string, Package>, id: string, sha: string): Package {
    if id !in inventory then Package(sha, SupersededPending)
    else if inventory[id].status.ConfirmedDeleted? then inventory[id]
    else inventory[id].(status := SupersededPending)
  }

  /** Mark older workstation packages as superseded; a package known under another digest is refused. */
  function Superseded(inventory: map<string, Package>, packages: map<string, string>): Option<map<string, Package>> {
    if exists id | id in packages :: id in inventory && inventory[id].sha != packages[id] then None
    else Some(map id | id in inventory.Keys + packages.Keys ::
      if id in packages then MarkedPackage(inventory, id, packages[id]) else inventory[id])
  }

  function Displaced(package: Package): Package {
    if package.status.Active? then package.(status := SupersededPending) else package
  }

  /** Register the clean package as the one active package. */
  function Registered(inventory: map<string, Package>, id: string, sha: string): Option<map<string, Package>> {
    if id in inventory && inventory[id].sha != sha then None
    else Some(map other | other in inventory.Keys + {id} :: if other == id then Package(sha, Active) else Displaced(inventory[other]))
  }

  function ConfirmCleanBackup(s: System, id: string, sha: string, packages: map<string, string>, peer: Option<string>, at: nat): Result<System, CaseError> {
    if s.case_.livePurge.None? || (s.ha && s.case_.peerConfirmation.None?) then Failure(NotReady)
    else if s.ha && peer.None? then Failure(Missing)
    else
      var superseded := Superseded(s.inventory, packages);
      if superseded.None? then Failure(Mismatch)
      else
        var registered := Registered(superseded.value, id, sha);
        if registered.None? then Failure(Mismatch)
        else
          var c := s.case_.(replacement := Some(sha), peerResolution := if s.ha then peer else s.case_.peerResolution, state := AwaitingBackupResolution);
          WithRecord(s.(inventory := registered.value, case_ := c), "clean_backup_verified", CleanBackup(sha, peer, at))
  }

  /** The explicit statement that there is no controlled backup; `snapshots` is the host's count, when it is known. */
  function ConfirmNoBackups(s: System, snapshots: Option<nat>): Result<System, CaseError> {
    if s.case_.replacement.Some? then Failure(Mismatch)
    else if s.case_.notApplicable.Some? then Success(s)
    else if s.case_.livePurge.None? || (s.ha && s.case_.peerConfirmation.None?) then Failure(NotReady)
    else if s.inventory != map[] || (snapshots.Some? && snapshots.value > 0) then Failure(Mismatch)
    else
      var entry := Entry("backup_not_applicable", NoBackups);
      WithRecord(s.(case_ := s.case_.(notApplicable := Some(DigestOf(entry)), state := AwaitingChecklist)), entry.operation, entry.statement)
  }

  // ---------------------------------------------------------------------------------------------
  // The completion gate

  predicate ProcessorsDone(s: System) {
    s.case_.desktopRequired ==> s.requirements != map[] && forall row :: row in s.requirements ==> s.requirements[row].complete
  }

  /** Every machine-verifiable prerequisite of a checklist. */
  predicate PrerequisitesMet(s: System) {
    && ProcessorsDone(s)
    && s.case_.livePurge.Some?
    && (s.ha ==> s.case_.peerConfirmation.Some?)
    && (s.ha && s.case_.replacement.Some? ==> s.case_.peerResolution.Some?)
    && (s.case_.replacement.Some? || s.case_.notApplicable.Some?)
    && InventoryResolved(s.inventory)
    && s.case_.outstanding == {}
  }

  function ReceiptsOf(c: Case): Receipts {
    Receipts(c.livePurge, c.peerConfirmation, c.replacement, c.peerResolution, c.notApplicable)
  }

  function ExpectedChecklist(s: System): Checklist {
    Checklist(s.case_.caseType, s.scopes, ReceiptsOf(s.case_), s.case_.desktopRequired, s.requirements)
  }

  /** Freeze the checklist. What a refused attempt writes is returned too: the caller may commit it. */
  function BuildChecklist(s: System): (Result<System, CaseError>, System) {
    if s.case_.checklist.Some? then (Success(s), s)
    else if !PrerequisitesMet(s) then (Failure(Missing), s.(case_ := s.case_.(state := RestrictedRetention)))
    else
      var checklist := ExpectedChecklist(s);
      var built := WithRecord(s.(case_ := s.case_.(checklist := Some(checklist), state := AwaitingApprovals)),
                              "checklist_created", ChecklistCreated(checklist));
      (built, s)
  }

  function Approve(s: System, executor: bool, approval: Approval): Result<System, CaseError> {
    if !executor || s.case_.checklist.None? || !(s.case_.state.AwaitingApprovals? || s.case_.state.ReadyForCompletion?) then Failure(NotReady)
    else
      var checklist := s.case_.checklist.value;
      if checklist in s.approvals then Success(s)
      else
        WithRecord(s.(approvals := s.approvals[checklist := approval],
                      case_ := s.case_.(executorApproval := Some(approval), state := ReadyForCompletion)),
                   "checklist_approved_executor", ChecklistApproved(checklist, approval))
  }

  function CompleteCase(s: System, at: nat): Result<System, CaseError> {
    if !s.case_.state.ReadyForCompletion? || !PrerequisitesMet(s) || s.case_.checklist.None? then Failure(NotReady)
    else
      var checklist := s.case_.checklist.value;
      if checklist != ExpectedChecklist(s) then Failure(Mismatch)
      else if checklist !in s.approvals || s.case_.executorApproval != Some(s.approvals[checklist]) then Failure(Missing)
      else
        var entry := Entry("completed", Completed(checklist, s.case_.executorApproval.value, checklist.receipts, checklist.processors, at));
        WithRecord(s.(case_ := s.case_.(finalReceipt := Some(DigestOf(entry)), state := Complete)), entry.operation, entry.statement)
  }

  /** Remedy a case that was completed before peer resolutions existed. */
  function ReconcilePeer(s: System, resolution: string): Result<System, CaseError> {
    if !s.ha || !s.case_.state.Complete? || s.case_.finalReceipt.None? || s.case_.replacement.None? then Failure(NotReady)
    else if s.case_.peerResolution.Some? then Success(s)
    else WithRecord(s.(case_ := s.case_.(peerResolution := Some(resolution))), "peer_snapshot_resolution_remediated", PeerRemediated(resolution))
  }

  // ---------------------------------------------------------------------------------------------
  // Steps in any order

  /** One step, or something that other code does: review states, packages of other cases, confirmed deletions. */
  datatype Step = StepNone(event: string, subject: Option<string>)
    | StepOrder(event: string, subject: Option<string>, processor: string, key: string, id: string)
    | StepClaim(id: string, expired: bool)
    | StepReport(id: string, authorised: bool, report: string, remaining: set<string>, completedKey: string)
    | StepCopies(id: string, resolution: string, completedKey: string)
    | StepActions(actions: set<string>)
    | StepPurge(at: nat)
    | StepPeer(bundle: Option<string>)
    | StepBackup(package: string, sha: string, packages: map<string, string>, peer: Option<string>, at: nat)
    | StepNoBackups(snapshots: Option<nat>)
    | StepBuild(commitRefusal: bool)
    | StepApprove(executor: bool, approval: Approval)
    | StepComplete(at: nat)
    | StepReconcile(resolution: string)
    | Review(state: CaseState)
    | Packages(inventory: map<string, Package>)

  function Attempt(s: System, step: Step): Result<System, CaseError> {
    match step
    case StepNone(event, subject) => EnsureNone(s, event, subject)
    case StepOrder(event, subject, processor, key, id) => EnsureOrder(s, event, subject, processor, key, id)
    case StepClaim(id, expired) => Claim(s, id, expired)
    case StepReport(id, authorised, report, remaining, completedKey) => ApplyReport(s, id, authorised, report, remaining, completedKey)
    case StepCopies(id, resolution, completedKey) => ApplyCopyResolution(s, id, resolution, completedKey)
    case StepActions(actions) => ResolveActions(s, actions)
    case StepPurge(at) => PurgeLiveData(s, at)
    case StepPeer(bundle) => ConfirmPeer(s, bundle)
    case StepBackup(package, sha, packages, peer, at) => ConfirmCleanBackup(s, package, sha, packages, peer, at)
    case StepNoBackups(snapshots) => ConfirmNoBackups(s, snapshots)
    case StepBuild(commitRefusal) =>
      var (built, refused) := BuildChecklist(s);
      if built.Failure? && commitRefusal then Success(refused) else built
    case StepApprove(executor, approval) => Approve(s, executor, approval)
    case StepComplete(at) => CompleteCase(s, at)
    case StepReconcile(resolution) => ReconcilePeer(s, resolution)
    case Review(state) =>
      if state.ReadyForCompletion? || state.Complete? then Failure(Invalid) else Success(s.(case_ := s.case_.(state := state)))
    case Packages(inventory) => Success(s.(inventory := inventory))
  }

  /** A refused step, or one whose evidence is unavailable, changes nothing. */
  function Next(s: System, step: Step, evidence: bool): System {
    var attempt := Attempt(s, step);
    if attempt.Failure? then s
    else if !evidence && attempt.value.log != s.log then s
    else attempt.value
  }

  /** The single steps that a call for several processors amounts to. */
  function EnsureSteps(event: string, subject: Option<string>, active: seq<Processor>): seq<(Step, bool)>
    requires forall k :: 0 <= k < |active| ==> active[k].activeKey.Some?
    decreases active
  {
    if active == [] then []
    else [(StepOrder(event, subject, active[0].entity, active[0].activeKey.value, active[0].orderId), true)] + EnsureSteps(event, subject, active[1..])
  }

  function Run(s: System, steps: seq<(Step, bool)>): System {
    if steps == [] then s
    else
      var n := |steps| - 1;
      Next(Run(s, steps[..n]), steps[n].0, steps[n].1)
  }
}
