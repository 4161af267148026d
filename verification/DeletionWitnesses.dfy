/** The runs in which a case closes over an undelivered order, and when such runs exist. */
module DeletionWitnesses {
  import opened Wrappers
  import opened DeletionCases
  import opened DeletionDelivery

  // ---------------------------------------------------------------------------------------------
  // From a case that is ready for its purge to its completion

  const CLOSING_OPERATIONS: set<string> := {"live_data_purged", "peer_confirmed", "backup_not_applicable", "checklist_created",
                                            "checklist_approved_executor", "completed"}

  predicate Unused(log: seq<Entry>, operations: set<string>) {
    forall i :: 0 <= i < |log| ==> log[i].operation !in operations
  }

  lemma RecordNew(changed: System, operation: string, statement: Statement, operations: set<string>)
    requires Unused(changed.log, operations) && operation in operations
    ensures WithRecord(changed, operation, statement) == Success(changed.(log := changed.log + [Entry(operation, statement)]))
    ensures Unused(changed.log + [Entry(operation, statement)], operations - {operation})
  {
  }

  /** Nothing is in the way of the purge, and nothing after it has happened yet. */
  predicate Ready(s: System) {
    && s.case_.state.ReadyForLivePurge? && ProcessorsDone(s) && (s.case_.desktopRequired ==> s.case_.desktopReport.Some?)
    && s.case_.livePurge.None? && s.case_.peerConfirmation.None? && s.case_.replacement.None? && s.case_.notApplicable.None?
    && s.case_.checklist.None? && s.case_.outstanding == {} && s.inventory == map[] && s.approvals == map[]
    && Unused(s.log, CLOSING_OPERATIONS)
  }

  const APPROVAL := Approval(1, "credential", 0)

  function Purged(s: System): System {
    var entry := Entry("live_data_purged", LivePurged(0));
    s.(case_ := s.case_.(livePurge := Some(DigestOf(entry)), state := if s.ha then PeerReplicationPending else AwaitingCleanBackup), log := s.log + [entry])
  }

  function Confirmed(s: System): System {
    var entry := Entry("peer_confirmed", PeerConfirmed("bundle"));
    s.(case_ := s.case_.(peerConfirmation := Some(DigestOf(entry)), state := AwaitingCleanBackup), log := s.log + [entry])
  }

  function WithoutBackups(s: System): System {
    var entry := Entry("backup_not_applicable", NoBackups);
    s.(case_ := s.case_.(notApplicable := Some(DigestOf(entry)), state := AwaitingChecklist), log := s.log + [entry])
  }

  function Frozen(s: System): System {
    var entry := Entry("checklist_created", ChecklistCreated(ExpectedChecklist(s)));
    s.(case_ := s.case_.(checklist := Some(ExpectedChecklist(s)), state := AwaitingApprovals), log := s.log + [entry])
  }

  function Approved(s: System): System
    requires s.case_.checklist.Some?
  {
    var checklist := s.case_.checklist.value;
    var entry := Entry("checklist_approved_executor", ChecklistApproved(checklist, APPROVAL));
    s.(approvals := s.approvals[checklist := APPROVAL], case_ := s.case_.(executorApproval := Some(APPROVAL), state := ReadyForCompletion),
       log := s.log + [entry])
  }

  lemma PurgeStep(s: System)
    requires Ready(s)
    ensures Next(s, StepPurge(0), true) == Purged(s) && Unused(Purged(s).log, CLOSING_OPERATIONS - {"live_data_purged"})
  {
    hide WithRecord;
    RecordNew(Purged(s).(log := s.log), "live_data_purged", LivePurged(0), CLOSING_OPERATIONS);
  }

  lemma PeerStep(s: System, operations: set<string>)
    requires s.ha && s.case_.livePurge.Some? && s.case_.peerConfirmation.None?
    requires Unused(s.log, operations) && "peer_confirmed" in operations
    ensures Next(s, StepPeer(Some("bundle")), true) == Confirmed(s) && Unused(Confirmed(s).log, operations - {"peer_confirmed"})
  {
    hide WithRecord;
    RecordNew(Confirmed(s).(log := s.log), "peer_confirmed", PeerConfirmed("bundle"), operations);
  }

  lemma NoBackupsStep(s: System, operations: set<string>)
    requires s.case_.livePurge.Some? && (s.ha ==> s.case_.peerConfirmation.Some?) && s.inventory == map[]
    requires s.case_.replacement.None? && s.case_.notApplicable.None?
    requires Unused(s.log, operations) && "backup_not_applicable" in operations
    ensures Next(s, StepNoBackups(None), true) == WithoutBackups(s) && Unused(WithoutBackups(s).log, operations - {"backup_not_applicable"})
  {
    hide WithRecord;
    RecordNew(WithoutBackups(s).(log := s.log), "backup_not_applicable", NoBackups, operations);
  }

  lemma BuildStep(s: System, operations: set<string>)
    requires s.case_.checklist.None? && PrerequisitesMet(s)
    requires Unused(s.log, operations) && "checklist_created" in operations
    ensures Next(s, StepBuild(false), true) == Frozen(s) && Unused(Frozen(s).log, operations - {"checklist_created"})
  {
    hide WithRecord, PrerequisitesMet, ExpectedChecklist;
    RecordNew(Frozen(s).(log := s.log), "checklist_created", ChecklistCreated(ExpectedChecklist(s)), operations);
  }

  lemma ApproveStep(s: System, operations: set<string>)
    requires s.case_.checklist.Some? && s.case_.state.AwaitingApprovals? && s.approvals == map[]
    requires Unused(s.log, operations) && "checklist_approved_executor" in operations
    ensures Next(s, StepApprove(true, APPROVAL), true) == Approved(s) && Unused(Approved(s).log, operations - {"checklist_approved_executor"})
  {
    hide WithRecord;
    RecordNew(Approved(s).(log := s.log), "checklist_approved_executor", ChecklistApproved(s.case_.checklist.value, APPROVAL), operations);
  }

  lemma CompleteStep(s: System, operations: set<string>)
    requires s.case_.state.ReadyForCompletion? && PrerequisitesMet(s) && s.case_.checklist == Some(ExpectedChecklist(s))
    requires s.case_.checklist.value in s.approvals && s.case_.executorApproval == Some(s.approvals[s.case_.checklist.value])
    requires Unused(s.log, operations) && "completed" in operations
    ensures Next(s, StepComplete(0), true).case_.state.Complete? && Next(s, StepComplete(0), true).orders == s.orders
  {
    hide WithRecord, PrerequisitesMet, ExpectedChecklist;
    var checklist := s.case_.checklist.value;
    var statement := Completed(checklist, s.case_.executorApproval.value, checklist.receipts, checklist.processors, 0);
    RecordNew(s.(case_ := s.case_.(finalReceipt := Some(DigestOf(Entry("completed", statement))), state := Complete)), "completed", statement, operations);
  }

  /** The case right before its checklist. */
  function Cleared(s: System): System {
    WithoutBackups(if s.ha then Confirmed(Purged(s)) else Purged(s))
  }

  function ClearingSteps(ha: bool): seq<(Step, bool)> {
    [(StepPurge(0), true)] + (if ha then [(StepPeer(Some("bundle")), true)] else []) + [(StepNoBackups(None), true)]
  }

  const GATE_OPERATIONS: set<string> := {"checklist_created", "checklist_approved_executor", "completed"}

  lemma {:induction false} Clearing(s: System)
    requires Ready(s)
    ensures Run(s, ClearingSteps(s.ha)) == Cleared(s) && Unused(Cleared(s).log, GATE_OPERATIONS)
    ensures PrerequisitesMet(Cleared(s)) && Cleared(s).orders == s.orders && Cleared(s).approvals == map[] && Cleared(s).case_.checklist.None?
  {
    hide Next, Run, ProcessorsDone;
    var purged := Purged(s);
    PurgeStep(s);
    var confirmed := if s.ha then Confirmed(purged) else purged;
    if s.ha {
      PeerStep(purged, CLOSING_OPERATIONS - {"live_data_purged"});
      RunCons(purged, (StepPeer(Some("bundle")), true), [(StepNoBackups(None), true)]);
    }
    NoBackupsStep(confirmed, CLOSING_OPERATIONS - {"live_data_purged", "peer_confirmed"});
    OneStep(confirmed, (StepNoBackups(None), true));
    var rest := (if s.ha then [(StepPeer(Some("bundle")), true)] else []) + [(StepNoBackups(None), true)];
    RunCons(s, (StepPurge(0), true), rest);
    assert [(StepPurge(0), true)] + rest == ClearingSteps(s.ha);
    assert ([] + [(StepNoBackups(None), true)]) == [(StepNoBackups(None), true)];
    SameProcessors(s, Cleared(s));
  }

  lemma SameProcessors(s: System, r: System)
    requires ProcessorsDone(s) && r.requirements == s.requirements && r.case_.desktopRequired == s.case_.desktopRequired
    ensures ProcessorsDone(r)
  {
  }

  lemma OneStep(s: System, step: (Step, bool))
    ensures Run(s, [step]) == Next(s, step.0, step.1)
  {
    assert [step][..0] == [];
    assert Run(s, []) == s;
  }

  lemma {:induction false} RunConcat(s: System, a: seq<(Step, bool)>, b: seq<(Step, bool)>)
    ensures Run(s, a + b) == Run(Run(s, a), b)
    decreases b
  {
    hide Next;
    if b == [] {
      assert a + b == a;
    } else {
      var n := |b| - 1;
      RunConcat(s, a, b[..n]);
      assert (a + b)[..|a| + n] == a + b[..n];
    }
  }

  const GATE_STEPS: seq<(Step, bool)> := [(StepBuild(false), true), (StepApprove(true, APPROVAL), true)]

  lemma {:induction false} Gate(s: System)
    requires PrerequisitesMet(s) && s.approvals == map[] && s.case_.checklist.None? && Unused(s.log, GATE_OPERATIONS)
    ensures Run(s, GATE_STEPS) == Approved(Frozen(s)) && Unused(Approved(Frozen(s)).log, {"completed"})
    ensures PrerequisitesMet(Approved(Frozen(s))) && ExpectedChecklist(Approved(Frozen(s))) == ExpectedChecklist(s)
  {
    hide Next, Run;
    BuildStep(s, GATE_OPERATIONS);
    ApproveStep(Frozen(s), GATE_OPERATIONS - {"checklist_created"});
    OneStep(Frozen(s), (StepApprove(true, APPROVAL), true));
    RunCons(s, (StepBuild(false), true), [(StepApprove(true, APPROVAL), true)]);
    assert [(StepBuild(false), true)] + [(StepApprove(true, APPROVAL), true)] == GATE_STEPS;
  }

  function FinishSteps(ha: bool): seq<(Step, bool)> {
    ClearingSteps(ha) + GATE_STEPS
  }

  const COMPLETION: (Step, bool) := (StepComplete(0), true)

  /** A case that is ready for its purge can be closed, whatever its orders. */
  lemma {:induction false} Finish(s: System)
    requires Ready(s)
    ensures !Run(s, FinishSteps(s.ha)).case_.state.Complete?
    ensures var closed := Next(Run(s, FinishSteps(s.ha)), COMPLETION.0, COMPLETION.1); closed.case_.state.Complete? && closed.orders == s.orders
  {
    hide Next, Run, PrerequisitesMet, ExpectedChecklist, ProcessorsDone;
    Clearing(s);
    Gate(Cleared(s));
    RunConcat(s, ClearingSteps(s.ha), GATE_STEPS);
    CompleteStep(Approved(Frozen(Cleared(s))), {"completed"});
  }

  lemma {:induction false} FinishAfter(ha: bool, caseType: CaseType, start: seq<(Step, bool)>)
    requires var s := Run(Opened(ha, caseType, map[]), start); s.ha == ha && Ready(s)
    ensures var steps := start + FinishSteps(ha) + [COMPLETION];
            Closes(Opened(ha, caseType, map[]), steps)
            && Run(Opened(ha, caseType, map[]), steps).orders == Run(Opened(ha, caseType, map[]), start).orders
  {
    hide Ready, Next;
    var begun := Opened(ha, caseType, map[]);
    Finish(Run(begun, start));
    RunConcat(begun, start, FinishSteps(ha));
    RunConcat(begun, start + FinishSteps(ha), [COMPLETION]);
    OneStep(Run(begun, start + FinishSteps(ha)), COMPLETION);
    var steps := start + FinishSteps(ha) + [COMPLETION];
    assert steps[..|steps| - 1] == start + FinishSteps(ha);
  }

  lemma FinishFollows(start: seq<(Step, bool)>, ha: bool, plan: Plan)
    requires Follows(start, plan)
    ensures Follows(start + FinishSteps(ha) + [COMPLETION], plan)
  {
  }

  // ---------------------------------------------------------------------------------------------
  // Two ways to be ready with an undelivered order

  /** An order, then a call for an event without processors, and the review that follows it. */
  function WaivedStart(order: (string, Option<string>, string), none: (string, Option<string>)): seq<(Step, bool)> {
    [(StepOrder(order.0, order.1, order.2, "key", "1"), true)] + ([(StepNone(none.0, none.1), true)] + [(Review(ReadyForLivePurge), true)])
  }

  lemma FirstOrder(ha: bool, caseType: CaseType, order: (string, Option<string>, string))
    ensures var s := Opened(ha, caseType, map[]);
            var r := Next(s, StepOrder(order.0, order.1, order.2, "key", "1"), true);
            r == s.(scopes := {(order.0, order.1)}, requirements := map[(order.0, order.2) := Requirement("key", None, None, None, false)],
                    orders := map["1" := WorkOrder(order.0, order.1, order.2, Open, None, None)],
                    log := [Entry("desktop_work_order_created_" + "1", OrderCreated(order.0, order.1, order.2, "key"))])
  {
    var s := Opened(ha, caseType, map[]);
    assert s.scopes + {(order.0, order.1)} == {(order.0, order.1)};
  }

  lemma WaivedReady(first: System, none: (string, Option<string>), entry: Entry)
    requires first.log == [entry] && entry.operation == "desktop_work_order_created_" + "1"
    requires first.case_ == Opened(first.ha, first.case_.caseType, map[]).case_ && first.inventory == map[] && first.approvals == map[]
    ensures var s := Next(Next(first, StepNone(none.0, none.1), true), Review(ReadyForLivePurge), true);
            s.ha == first.ha && Ready(s) && s.orders == first.orders
  {
    CreatedUnused(entry);
    hide Unused;
  }

  lemma {:induction false} Waived(ha: bool, caseType: CaseType, order: (string, Option<string>, string), none: (string, Option<string>))
    ensures var s := Run(Opened(ha, caseType, map[]), WaivedStart(order, none));
            s.ha == ha && Ready(s) && "1" in s.orders && !Delivered(s.orders["1"])
  {
    var begun := Opened(ha, caseType, map[]);
    var step := StepOrder(order.0, order.1, order.2, "key", "1");
    FirstOrder(ha, caseType, order);
    var first := Next(begun, step, true);
    WaivedReady(first, none, first.log[0]);
    hide Run, Next, Ready;
    RunCons(begun, (step, true), [(StepNone(none.0, none.1), true)] + [(Review(ReadyForLivePurge), true)]);
    RunCons(first, (StepNone(none.0, none.1), true), [(Review(ReadyForLivePurge), true)]);
    OneStep(Next(first, StepNone(none.0, none.1), true), (Review(ReadyForLivePurge), true));
  }

  lemma CreatedUnused(entry: Entry)
    requires entry.operation == "desktop_work_order_created_" + "1"
    ensures Unused([entry], CLOSING_OPERATIONS)
  {
    assert entry.operation[0] == 'd';
  }

  /** Orders of one processor for two subjects of an event, of which only the first is delivered. */
  function SharedStart(a: (string, Option<string>, string), b: (string, Option<string>, string)): seq<(Step, bool)> {
    [(StepOrder(a.0, a.1, a.2, "key", "1"), true)] + ([(StepOrder(b.0, b.1, b.2, "key", "2"), true)] + ([(StepClaim("1", true), true)]
      + ([(StepReport("1", true, "report", {}, "key"), true)] + [(StepCopies("1", "copies", "key"), true)])))
  }

  /** The case after the steps of a shared start, one after the other. */
  function TwoOrders(ha: bool, caseType: CaseType, a: (string, Option<string>, string), b: (string, Option<string>, string)): System {
    Opened(ha, caseType, map[]).(
      scopes := {(a.0, a.1), (b.0, b.1)}, requirements := map[(a.0, a.2) := Requirement("key", None, None, None, false)],
      orders := map["1" := WorkOrder(a.0, a.1, a.2, Open, None, None), "2" := WorkOrder(b.0, b.1, b.2, Open, None, None)],
      log := [Entry("desktop_work_order_created_" + "1", OrderCreated(a.0, a.1, a.2, "key")),
              Entry("desktop_work_order_created_" + "2", OrderCreated(b.0, b.1, b.2, "key"))])
  }

  function FirstReported(s: System, a: (string, Option<string>, string)): System {
    s.(orders := s.orders["1" := WorkOrder(a.0, a.1, a.2, ReportReceived, Some("report"), None)],
       requirements := map[(a.0, a.2) := Requirement("key", Some("key"), Some("report"), None, false)],
       case_ := s.case_.(desktopReport := Some("report"), state := ReadyForLivePurge),
       log := s.log + [Entry("desktop_report_received_" + "1", DesktopReported("1", "report"))])
  }

  function FirstDelivered(s: System, a: (string, Option<string>, string)): System {
    s.(orders := s.orders["1" := WorkOrder(a.0, a.1, a.2, ReportReceived, Some("report"), Some("copies"))],
       requirements := map[(a.0, a.2) := Requirement("key", Some("key"), Some("report"), Some("copies"), true)],
       log := s.log + [Entry("desktop_copy_resolution_" + "1", CopiesResolved("1", "copies"))])
  }

  lemma SecondOrder(ha: bool, caseType: CaseType, a: (string, Option<string>, string), b: (string, Option<string>, string))
    requires a.0 == b.0 && a.2 == b.2 && a.1 != b.1
    ensures var first := Next(Opened(ha, caseType, map[]), StepOrder(a.0, a.1, a.2, "key", "1"), true);
            Next(first, StepOrder(b.0, b.1, b.2, "key", "2"), true) == TwoOrders(ha, caseType, a, b)
  {
    FirstOrder(ha, caseType, a);
    var first := Next(Opened(ha, caseType, map[]), StepOrder(a.0, a.1, a.2, "key", "1"), true);
    var operation, statement := "desktop_work_order_created_" + "2", OrderCreated(b.0, b.1, b.2, "key");
    assert first.log[0].operation[27] == '1' && operation[27] == '2';
    var changed := TwoOrders(ha, caseType, a, b).(log := first.log);
    RecordNew(changed, operation, statement, {operation});
    hide WithRecord;
    assert first.scopes + {(b.0, b.1)} == changed.scopes;
    assert first.orders["2" := WorkOrder(b.0, b.1, b.2, Open, None, None)] == changed.orders;
    assert changed.log + [Entry(operation, statement)] == TwoOrders(ha, caseType, a, b).log;
  }

  function FirstClaimed(s: System, a: (string, Option<string>, string)): System {
    s.(orders := s.orders["1" := WorkOrder(a.0, a.1, a.2, Claimed, None, None)])
  }

  lemma ClaimStep(ha: bool, caseType: CaseType, a: (string, Option<string>, string), b: (string, Option<string>, string))
    ensures var s := TwoOrders(ha, caseType, a, b); Next(s, StepClaim("1", true), true) == FirstClaimed(s, a)
  {
  }

  lemma ReportStep(ha: bool, caseType: CaseType, a: (string, Option<string>, string), b: (string, Option<string>, string))
    requires a.0 == b.0 && a.2 == b.2 && a.1 != b.1
    ensures var s := TwoOrders(ha, caseType, a, b);
            Next(FirstClaimed(s, a), StepReport("1", true, "report", {}, "key"), true) == FirstReported(s, a)
  {
    hide WithRecord;
    var s := TwoOrders(ha, caseType, a, b);
    var claimed, changed := FirstClaimed(s, a), FirstReported(s, a).(log := s.log);
    var operation, statement := "desktop_report_received_" + "1", DesktopReported("1", "report");
    assert Unused(s.log, {operation}) by {
      assert s.log[0].operation[8] == 'w' && s.log[1].operation[8] == 'w' && operation[8] == 'r';
    }
    RecordNew(changed, operation, statement, {operation});
    hide Unused;
    assert claimed.orders["1" := WorkOrder(a.0, a.1, a.2, ReportReceived, Some("report"), None)] == changed.orders;
    assert claimed.requirements[(a.0, a.2) := Requirement("key", Some("key"), Some("report"), None, false)] == changed.requirements;
    assert !exists row | row in changed.requirements :: changed.requirements[row].deletion.None?;
    assert s.case_.outstanding + {} == s.case_.outstanding;
    assert ApplyReport(claimed, "1", true, "report", {}, "key") == WithRecord(changed, operation, statement);
  }

  lemma CopiesOn(s: System, a: (string, Option<string>, string))
    requires "1" in s.orders && s.orders["1"] == WorkOrder(a.0, a.1, a.2, ReportReceived, Some("report"), None)
    requires s.requirements == map[(a.0, a.2) := Requirement("key", Some("key"), Some("report"), None, false)]
    requires Unused(s.log, {"desktop_copy_resolution_" + "1"})
    ensures Next(s, StepCopies("1", "copies", "key"), true) == FirstDelivered(s, a)
  {
    var operation, statement := "desktop_copy_resolution_" + "1", CopiesResolved("1", "copies");
    var changed := FirstDelivered(s, a).(log := s.log);
    RecordNew(changed, operation, statement, {operation});
    hide WithRecord, Unused;
    assert s.requirements[(a.0, a.2) := Requirement("key", Some("key"), Some("report"), Some("copies"), true)] == changed.requirements;
  }

  lemma CopiesStep(ha: bool, caseType: CaseType, a: (string, Option<string>, string), b: (string, Option<string>, string))
    ensures var s := FirstReported(TwoOrders(ha, caseType, a, b), a);
            Next(s, StepCopies("1", "copies", "key"), true) == FirstDelivered(s, a)
  {
    hide Next, FirstDelivered;
    var s := FirstReported(TwoOrders(ha, caseType, a, b), a);
    var operation := "desktop_copy_resolution_" + "1";
    assert s.log[0].operation[8] == 'w' && s.log[1].operation[8] == 'w' && s.log[2].operation[8] == 'r' && operation[8] == 'c';
    CopiesOn(s, a);
  }

  lemma {:induction false} Shared(ha: bool, caseType: CaseType, a: (string, Option<string>, string), b: (string, Option<string>, string))
    requires a.0 == b.0 && a.2 == b.2 && a.1 != b.1
    ensures var s := Run(Opened(ha, caseType, map[]), SharedStart(a, b));
            s.ha == ha && Ready(s) && "2" in s.orders && !Delivered(s.orders["2"])
  {
    var begun := Opened(ha, caseType, map[]);
    var first := Next(begun, StepOrder(a.0, a.1, a.2, "key", "1"), true);
    var two := TwoOrders(ha, caseType, a, b);
    var claimed := Next(two, StepClaim("1", true), true);
    var reported := FirstReported(two, a);
    SecondOrder(ha, caseType, a, b);
    ClaimStep(ha, caseType, a, b);
    ReportStep(ha, caseType, a, b);
    CopiesStep(ha, caseType, a, b);
    hide Next, Run;
    var order2, claim, report, copies := StepOrder(b.0, b.1, b.2, "key", "2"), StepClaim("1", true), StepReport("1", true, "report", {}, "key"), StepCopies("1", "copies", "key");
    RunCons(begun, (StepOrder(a.0, a.1, a.2, "key", "1"), true), [(order2, true)] + ([(claim, true)] + ([(report, true)] + [(copies, true)])));
    RunCons(first, (order2, true), [(claim, true)] + ([(report, true)] + [(copies, true)]));
    RunCons(two, (claim, true), [(report, true)] + [(copies, true)]);
    RunCons(claimed, (report, true), [(copies, true)]);
    OneStep(reported, (copies, true));
    SharedReady(ha, caseType, a, b);
  }

  lemma SharedReady(ha: bool, caseType: CaseType, a: (string, Option<string>, string), b: (string, Option<string>, string))
    ensures Ready(FirstDelivered(FirstReported(TwoOrders(ha, caseType, a, b), a), a))
  {
    var s := FirstDelivered(FirstReported(TwoOrders(ha, caseType, a, b), a), a);
    assert (a.0, a.2) in s.requirements;
    forall i | 0 <= i < |s.log|
      ensures s.log[i].operation !in CLOSING_OPERATIONS
    {
      assert i == 0 || i == 1 || i == 2 || i == 3;
      assert s.log[i].operation[0] == 'd';
    }
  }

  // ---------------------------------------------------------------------------------------------
  // Exactly when everything is delivered

  /** Every run of the plan that closes a case has delivered every order. */
  ghost predicate Delivers(ha: bool, caseType: CaseType, plan: Plan) {
    forall inventory, steps :: Follows(steps, plan) && Closes(Opened(ha, caseType, inventory), steps) ==>
      AllDelivered(Run(Opened(ha, caseType, inventory), steps))
  }

  lemma NotDelivered(ha: bool, caseType: CaseType, plan: Plan, start: seq<(Step, bool)>, id: string)
    requires Follows(start, plan)
    requires var s := Run(Opened(ha, caseType, map[]), start); s.ha == ha && Ready(s) && id in s.orders && !Delivered(s.orders[id])
    ensures !Delivers(ha, caseType, plan)
  {
    FinishAfter(ha, caseType, start);
    FinishFollows(start, ha, plan);
    hide Follows, Closes, Run, Ready;
    var steps := start + FinishSteps(ha) + [COMPLETION];
    assert !AllDelivered(Run(Opened(ha, caseType, map[]), steps));
  }

  /**
    Closing means that every work order was delivered, in every run of the calls of a plan, if and only
    if calls with and without processors are not mixed and no processor serves two subjects of an event.
   */
  lemma DeliveredIff(ha: bool, caseType: CaseType, plan: Plan)
    ensures Delivers(ha, caseType, plan) <==> Separate(plan)
  {
    if Separate(plan) {
      hide Separate, Follows, Closes, AllDelivered;
      forall inventory, steps | Follows(steps, plan) && Closes(Opened(ha, caseType, inventory), steps)
        ensures AllDelivered(Run(Opened(ha, caseType, inventory), steps))
      {
        SeparateDelivers(ha, caseType, inventory, steps, plan);
      }
    } else if plan.orders != {} && plan.none != {} {
      hide Delivers, Run, Ready;
      var order :| order in plan.orders;
      var none :| none in plan.none;
      Waived(ha, caseType, order, none);
      NotDelivered(ha, caseType, plan, WaivedStart(order, none), "1");
    } else {
      var a, b :| a in plan.orders && b in plan.orders && a.0 == b.0 && a.2 == b.2 && a.1 != b.1;
      hide Delivers, Run, Ready, Separate;
      Shared(ha, caseType, a, b);
      NotDelivered(ha, caseType, plan, SharedStart(a, b), "2");
    }
  }
}
