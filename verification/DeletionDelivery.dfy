/**
  Which work orders are delivered when a case closes. The gate reads one requirement for an event and a
  processor, and one switch for the whole case; this module says exactly for which calls that is enough.
 */
module DeletionDelivery {
  import opened Wrappers
  import opened DeletionCases

  // ---------------------------------------------------------------------------------------------
  // Calls for several processors are single steps

  lemma {:induction false} RunCons(s: System, first: (Step, bool), rest: seq<(Step, bool)>)
    ensures Run(s, [first] + rest) == Run(Next(s, first.0, first.1), rest)
  {
    hide Next;
    var all := [first] + rest;
    if rest == [] {
      assert all[..0] == [];
      assert Run(s, []) == s;
    } else {
      var n := |rest| - 1;
      RunCons(s, first, rest[..n]);
      assert all[..n + 1] == [first] + rest[..n];
    }
  }

  lemma {:induction false} EnsureEachIsSteps(s: System, event: string, subject: Option<string>, active: seq<Processor>)
    requires forall k :: 0 <= k < |active| ==> active[k].activeKey.Some?
    requires EnsureEach(s, event, subject, active).Success?
    ensures EnsureEach(s, event, subject, active).value == Run(s, EnsureSteps(event, subject, active))
    decreases active
  {
    hide EnsureOrder;
    if active != [] {
      var step := StepOrder(event, subject, active[0].entity, active[0].activeKey.value, active[0].orderId);
      var next := EnsureOrder(s, event, subject, active[0].entity, active[0].activeKey.value, active[0].orderId).value;
      assert Next(s, step, true) == next;
      EnsureEachIsSteps(next, event, subject, active[1..]);
      RunCons(s, (step, true), EnsureSteps(event, subject, active[1..]));
    }
  }

  /** A call that succeeds is the step without processors, or one step for each active processor. */
  lemma EnsureIsSteps(s: System, event: string, subject: Option<string>, known: seq<Processor>)
    requires EnsureWorkOrders(s, event, subject, known).Success?
    ensures EnsureWorkOrders(s, event, subject, known).value ==
      Run(s, if known == [] then [(StepNone(event, subject), true)] else EnsureSteps(event, subject, ActiveOf(known)))
  {
    if known == [] {
      assert [(StepNone(event, subject), true)][..0] == [];
      assert Run(s, []) == s;
    } else {
      EnsureEachIsSteps(s, event, subject, ActiveOf(known));
    }
  }

  // ---------------------------------------------------------------------------------------------
  // Deliveries

  /** The calls that may be made for a case: with a processor, and without any. */
  datatype Plan = Plan(orders: set<(string, Option<string>, string)>, none: set<(string, Option<string>)>)

  predicate Follows(steps: seq<(Step, bool)>, plan: Plan) {
    forall k :: 0 <= k < |steps| ==> Allowed(steps[k].0, plan)
  }

  predicate Allowed(step: Step, plan: Plan) {
    && (step.StepOrder? ==> (step.event, step.subject, step.processor) in plan.orders)
    && (step.StepNone? ==> (step.event, step.subject) in plan.none)
  }

  /** Calls with and without processors are not mixed, and a processor serves one subject of an event. */
  predicate Separate(plan: Plan) {
    (plan.orders == {} || plan.none == {}) && OneSubject(plan)
  }

  predicate OneSubject(plan: Plan) {
    forall a, b :: a in plan.orders && b in plan.orders && a.0 == b.0 && a.2 == b.2 ==> a.1 == b.1
  }

  predicate Delivered(order: WorkOrder) {
    order.report.Some? && order.copies.Some?
  }

  predicate AllDelivered(s: System) {
    forall id :: id in s.orders ==> Delivered(s.orders[id])
  }

  /** The last step of the run closes the case. */
  predicate Closes(s: System, steps: seq<(Step, bool)>) {
    steps != [] && !Run(s, steps[..|steps| - 1]).case_.state.Complete? && Run(s, steps).case_.state.Complete?
  }

  predicate HasDelivered(orders: map<string, WorkOrder>, row: (string, string)) {
    exists id :: id in orders && (orders[id].event, orders[id].processor) == row && Delivered(orders[id])
  }

  /** What every run of the plan keeps: orders come from it, one for each call, and requirements reflect deliveries. */
  ghost predicate Tracked(s: System, plan: Plan) {
    && (forall id :: id in s.orders ==> OrderTracked(s, s.orders[id], plan))
    && (forall id, other :: id in s.orders && other in s.orders && SameCall(s.orders[id], s.orders[other]) ==> id == other)
    && (forall row :: row in s.requirements && s.requirements[row].complete ==> HasDelivered(s.orders, row))
    && (plan.none == {} ==> s.case_.desktopRequired)
  }

  predicate OrderTracked(s: System, order: WorkOrder, plan: Plan) {
    (order.event, order.subject, order.processor) in plan.orders && (order.event, order.processor) in s.requirements
  }

  predicate SameCall(a: WorkOrder, b: WorkOrder) {
    a.event == b.event && a.subject == b.subject && a.processor == b.processor
  }

  /** Orders that keep their calls, and only get further. */
  predicate Progress(before: map<string, WorkOrder>, after: map<string, WorkOrder>) {
    after.Keys == before.Keys && forall id :: id in before ==>
      SameCall(before[id], after[id]) && (Delivered(before[id]) ==> Delivered(after[id]))
  }

  lemma ProgressKeepsDelivered(before: map<string, WorkOrder>, after: map<string, WorkOrder>, row: (string, string))
    requires Progress(before, after) && HasDelivered(before, row)
    ensures HasDelivered(after, row)
  {
    var id :| id in before && (before[id].event, before[id].processor) == row && Delivered(before[id]);
    assert Delivered(after[id]);
  }

  lemma ProgressKeepsTracked(s: System, r: System, plan: Plan)
    requires Tracked(s, plan) && Progress(s.orders, r.orders)
    requires s.requirements.Keys <= r.requirements.Keys
    requires forall row :: row in r.requirements && r.requirements[row].complete ==>
      (row in s.requirements && s.requirements[row].complete) || HasDelivered(r.orders, row)
    requires plan.none == {} ==> r.case_.desktopRequired
    ensures Tracked(r, plan)
  {
    hide HasDelivered;
    forall row | row in r.requirements && r.requirements[row].complete
      ensures HasDelivered(r.orders, row)
    {
      if row in s.requirements && s.requirements[row].complete {
        ProgressKeepsDelivered(s.orders, r.orders, row);
      }
    }
    forall id, other | id in r.orders && other in r.orders && SameCall(r.orders[id], r.orders[other])
      ensures id == other
    {
      assert SameCall(s.orders[id], s.orders[other]);
    }
    forall id | id in r.orders
      ensures OrderTracked(r, r.orders[id], plan)
    {
      assert OrderTracked(s, s.orders[id], plan);
    }
  }

  lemma NewOrderTracked(s: System, r: System, id: string, order: WorkOrder, plan: Plan)
    requires Tracked(s, plan) && id !in s.orders && r.orders == s.orders[id := order] && OrderTracked(r, order, plan)
    requires forall other :: other in s.orders ==> !SameCall(s.orders[other], order)
    requires s.requirements.Keys <= r.requirements.Keys
    requires forall row :: row in r.requirements && r.requirements[row].complete ==> row in s.requirements && s.requirements[row].complete
    requires plan.none == {} ==> r.case_.desktopRequired
    ensures Tracked(r, plan)
  {
    hide HasDelivered;
    forall row | row in r.requirements && r.requirements[row].complete
      ensures HasDelivered(r.orders, row)
    {
      MoreOrders(s.orders, id, order, row);
    }
    forall other | other in r.orders
      ensures OrderTracked(r, r.orders[other], plan)
    {
      assert other != id ==> OrderTracked(s, s.orders[other], plan);
    }
    forall a, b | a in r.orders && b in r.orders && SameCall(r.orders[a], r.orders[b])
      ensures a == b
    {
      if a != id && b != id {
        assert SameCall(s.orders[a], s.orders[b]);
      }
    }
  }

  lemma ServedCases(s: System, step: Step)
    requires step.StepOrder? && EnsureOrder(s, step.event, step.subject, step.processor, step.key, step.id).Success?
    ensures var r := EnsureOrder(s, step.event, step.subject, step.processor, step.key, step.id).value;
            || r.orders == s.orders
            || (step.id !in s.orders && r.orders == s.orders[step.id := WorkOrder(step.event, step.subject, step.processor, Open, None, None)]
                && forall other :: other in s.orders ==> !Serves(s.orders[other], step.event, step.subject, step.processor))
  {
    hide Append;
  }

  lemma {:induction false} RequirementCases(s: System, step: Step)
    requires step.StepOrder? && EnsureOrder(s, step.event, step.subject, step.processor, step.key, step.id).Success?
    ensures var r := EnsureOrder(s, step.event, step.subject, step.processor, step.key, step.id).value;
            && (r.requirements == s.requirements || r.requirements == s.requirements[(step.event, step.processor) := Requirement(step.key, None, None, None, false)])
            && (step.event, step.processor) in r.requirements && ((step.event, step.processor) in s.requirements ==> r.requirements == s.requirements)
            && r.case_.desktopRequired
  {
    hide Append, Serves;
  }

  lemma OrderCases(s: System, step: Step)
    requires step.StepOrder? && EnsureOrder(s, step.event, step.subject, step.processor, step.key, step.id).Success?
    ensures var r := EnsureOrder(s, step.event, step.subject, step.processor, step.key, step.id).value;
            var order := WorkOrder(step.event, step.subject, step.processor, Open, None, None);
            && (r.orders == s.orders
                || (step.id !in s.orders && r.orders == s.orders[step.id := order]
                    && forall other :: other in s.orders ==> !SameCall(s.orders[other], order)))
            && s.requirements.Keys <= r.requirements.Keys && (step.event, step.processor) in r.requirements
            && (forall row :: row in r.requirements && r.requirements[row].complete ==> row in s.requirements && s.requirements[row].complete)
            && r.case_.desktopRequired
  {
    hide EnsureOrder;
    ServedCases(s, step);
    RequirementCases(s, step);
  }

  lemma OrderKeepsTracked(s: System, step: Step, plan: Plan)
    requires Tracked(s, plan) && step.StepOrder? && Allowed(step, plan)
    requires EnsureOrder(s, step.event, step.subject, step.processor, step.key, step.id).Success?
    ensures Tracked(EnsureOrder(s, step.event, step.subject, step.processor, step.key, step.id).value, plan)
  {
    hide EnsureOrder, Tracked, SameCall, HasDelivered, Progress;
    OrderCases(s, step);
    var r := EnsureOrder(s, step.event, step.subject, step.processor, step.key, step.id).value;
    if r.orders == s.orders {
      SameOrders(s.orders);
      ProgressKeepsTracked(s, r, plan);
    } else {
      NewOrderTracked(s, r, step.id, WorkOrder(step.event, step.subject, step.processor, Open, None, None), plan);
    }
  }

  lemma SameOrders(orders: map<string, WorkOrder>)
    ensures Progress(orders, orders)
  {
  }

  lemma MoreOrders(orders: map<string, WorkOrder>, id: string, order: WorkOrder, row: (string, string))
    requires id !in orders
    ensures HasDelivered(orders, row) ==> HasDelivered(orders[id := order], row)
  {
    if HasDelivered(orders, row) {
      var other :| other in orders && (orders[other].event, orders[other].processor) == row && Delivered(orders[other]);
      assert orders[id := order][other] == orders[other];
    }
  }

  lemma ReportKeepsTracked(s: System, step: Step, plan: Plan)
    requires Tracked(s, plan) && step.StepReport?
    requires ApplyReport(s, step.id, step.authorised, step.report, step.remaining, step.completedKey).Success?
    ensures Tracked(ApplyReport(s, step.id, step.authorised, step.report, step.remaining, step.completedKey).value, plan)
  {
    hide Append, HasDelivered;
    var r := ApplyReport(s, step.id, step.authorised, step.report, step.remaining, step.completedKey).value;
    if r != s {
      assert Progress(s.orders, r.orders);
      ProgressKeepsTracked(s, r, plan);
    }
  }

  lemma CopiesKeepTracked(s: System, step: Step, plan: Plan)
    requires Tracked(s, plan) && step.StepCopies?
    requires ApplyCopyResolution(s, step.id, step.resolution, step.completedKey).Success?
    ensures Tracked(ApplyCopyResolution(s, step.id, step.resolution, step.completedKey).value, plan)
  {
    hide Append;
    var r := ApplyCopyResolution(s, step.id, step.resolution, step.completedKey).value;
    if r != s {
      var order := s.orders[step.id];
      assert Progress(s.orders, r.orders);
      assert HasDelivered(r.orders, (order.event, order.processor)) by {
        assert Delivered(r.orders[step.id]);
      }
      hide HasDelivered;
      ProgressKeepsTracked(s, r, plan);
    }
  }

  lemma ClaimKeepsTracked(s: System, id: string, expired: bool, plan: Plan)
    requires Tracked(s, plan) && Claim(s, id, expired).Success?
    ensures Tracked(Claim(s, id, expired).value, plan)
  {
    hide HasDelivered;
    var r := Claim(s, id, expired).value;
    assert Progress(s.orders, r.orders);
    ProgressKeepsTracked(s, r, plan);
  }

  /** The other steps change neither orders nor requirements, and only the one without processors touches the switch. */
  lemma {:induction false} OtherKeepsTracked(s: System, step: Step, plan: Plan)
    requires Tracked(s, plan) && Attempt(s, step).Success? && Allowed(step, plan)
    requires !step.StepOrder? && !step.StepReport? && !step.StepCopies? && !step.StepClaim?
    ensures Tracked(Attempt(s, step).value, plan)
  {
    hide Attempt, HasDelivered;
    OtherRows(s, step);
    SameOrders(s.orders);
    ProgressKeepsTracked(s, Attempt(s, step).value, plan);
  }

  predicate SameRows(s: System, r: System) {
    r.requirements == s.requirements && r.orders == s.orders && r.case_.desktopRequired == s.case_.desktopRequired
  }

  lemma {:induction false} ConfirmationRows(s: System, step: Step)
    requires Attempt(s, step).Success? && (step.StepActions? || step.StepPurge? || step.StepPeer? || step.StepBackup? || step.StepNoBackups?)
    ensures SameRows(s, Attempt(s, step).value)
    ensures Attempt(s, step).value.case_.state.Complete? ==> s.case_.state.Complete?
  {
    hide Append, Superseded, Registered, InventoryResolved, EnsureOrder, ApplyReport, ApplyCopyResolution, BuildChecklist, Approve, CompleteCase;
  }

  lemma BuildRows(s: System)
    ensures var (built, refused) := BuildChecklist(s);
            (built.Success? ==> SameRows(s, built.value) && (built.value.case_.state.Complete? ==> s.case_.state.Complete?))
            && (built.Failure? ==> SameRows(s, refused) && (refused.case_.state.Complete? ==> s.case_.state.Complete?))
  {
    hide Append, PrerequisitesMet, ExpectedChecklist;
  }

  lemma ApproveRows(s: System, executor: bool, approval: Approval)
    requires Approve(s, executor, approval).Success?
    ensures var r := Approve(s, executor, approval).value; SameRows(s, r) && (r.case_.state.Complete? ==> s.case_.state.Complete?)
  {
    hide Append;
  }

  lemma CompleteRows(s: System, at: nat)
    requires CompleteCase(s, at).Success?
    ensures SameRows(s, CompleteCase(s, at).value) && ProcessorsDone(s)
  {
    hide Append, ExpectedChecklist, InventoryResolved;
  }

  lemma ReconcileRows(s: System, resolution: string)
    requires ReconcilePeer(s, resolution).Success?
    ensures var r := ReconcilePeer(s, resolution).value; SameRows(s, r) && r.case_.state == s.case_.state
  {
    hide Append;
  }

  lemma {:induction false} GateRows(s: System, step: Step)
    requires Attempt(s, step).Success? && (step.StepBuild? || step.StepApprove? || step.StepComplete? || step.StepReconcile?)
    ensures SameRows(s, Attempt(s, step).value)
    ensures Attempt(s, step).value.case_.state.Complete? && !s.case_.state.Complete? ==> ProcessorsDone(s)
  {
    hide EnsureOrder, ApplyReport, ApplyCopyResolution, BuildChecklist, Approve, CompleteCase, ReconcilePeer, ResolveActions, PurgeLiveData, ConfirmPeer, ConfirmCleanBackup, ConfirmNoBackups, SameRows, ProcessorsDone;
    if step.StepBuild? {
      BuildRows(s);
    } else if step.StepApprove? {
      ApproveRows(s, step.executor, step.approval);
    } else if step.StepComplete? {
      CompleteRows(s, step.at);
    } else {
      ReconcileRows(s, step.resolution);
    }
  }

  lemma {:induction false} OtherRows(s: System, step: Step)
    requires Attempt(s, step).Success? && !step.StepOrder? && !step.StepReport? && !step.StepCopies? && !step.StepClaim?
    ensures var r := Attempt(s, step).value;
            r.requirements == s.requirements && r.orders == s.orders
            && (!step.StepNone? ==> r.case_.desktopRequired == s.case_.desktopRequired)
  {
    hide BuildChecklist, Approve, CompleteCase, ReconcilePeer, ResolveActions, PurgeLiveData, ConfirmPeer, ConfirmCleanBackup, ConfirmNoBackups;
    if step.StepActions? || step.StepPurge? || step.StepPeer? || step.StepBackup? || step.StepNoBackups? {
      ConfirmationRows(s, step);
    } else if step.StepBuild? || step.StepApprove? || step.StepComplete? || step.StepReconcile? {
      GateRows(s, step);
    }
  }

  lemma {:induction false} NextKeepsTracked(s: System, step: Step, evidence: bool, plan: Plan)
    requires Tracked(s, plan) && Allowed(step, plan)
    ensures Tracked(Next(s, step, evidence), plan)
  {
    hide Tracked, EnsureOrder, ApplyReport, ApplyCopyResolution;
    if Attempt(s, step).Success? {
      if step.StepOrder? {
        OrderKeepsTracked(s, step, plan);
      } else if step.StepReport? {
        ReportKeepsTracked(s, step, plan);
      } else if step.StepCopies? {
        CopiesKeepTracked(s, step, plan);
      } else if step.StepClaim? {
        ClaimKeepsTracked(s, step.id, step.expired, plan);
      } else {
        OtherKeepsTracked(s, step, plan);
      }
    }
  }

  lemma {:induction false} RunKeepsTracked(ha: bool, caseType: CaseType, inventory: map<string, Package>, steps: seq<(Step, bool)>, plan: Plan)
    requires Follows(steps, plan)
    ensures Tracked(Run(Opened(ha, caseType, inventory), steps), plan)
  {
    hide Next, Allowed;
    if steps != [] {
      var n := |steps| - 1;
      RunKeepsTracked(ha, caseType, inventory, steps[..n], plan);
      hide Tracked;
      NextKeepsTracked(Run(Opened(ha, caseType, inventory), steps[..n]), steps[n].0, steps[n].1, plan);
    }
  }

  /** Where there are orders, the switch of the case is on. */
  predicate Switched(s: System) {
    s.orders != map[] ==> s.case_.desktopRequired
  }

  /** When the gate opens and processors have one subject for an event, every order is delivered. */
  lemma GateDelivers(s: System, plan: Plan)
    requires Tracked(s, plan) && OneSubject(plan) && Switched(s) && ProcessorsDone(s)
    ensures AllDelivered(s)
  {
    forall id | id in s.orders
      ensures Delivered(s.orders[id])
    {
      var order := s.orders[id];
      assert OrderTracked(s, order, plan);
      var row := (order.event, order.processor);
      assert s.case_.desktopRequired && s.requirements[row].complete;
      var other :| other in s.orders && (s.orders[other].event, s.orders[other].processor) == row && Delivered(s.orders[other]);
      assert OrderTracked(s, s.orders[other], plan);
      assert SameCall(order, s.orders[other]);
    }
  }

  lemma {:induction false} DesktopStates(s: System, step: Step)
    requires Attempt(s, step).Success? && (step.StepNone? || step.StepOrder? || step.StepClaim? || step.StepReport? || step.StepCopies? || step.Review? || step.Packages?)
    ensures Attempt(s, step).value.case_.state.Complete? ==> s.case_.state.Complete?
  {
    hide Append, Serves, BuildChecklist, Approve, CompleteCase, ReconcilePeer, ResolveActions, PurgeLiveData, ConfirmPeer, ConfirmCleanBackup, ConfirmNoBackups;
  }

  /** Only the completion step closes a case, through the gate, and it leaves the orders alone. */
  lemma {:induction false} ClosingStep(s: System, step: Step, evidence: bool)
    requires !s.case_.state.Complete? && Next(s, step, evidence).case_.state.Complete?
    ensures ProcessorsDone(s) && Next(s, step, evidence).orders == s.orders
  {
    hide Attempt, ProcessorsDone;
    if step.StepActions? || step.StepPurge? || step.StepPeer? || step.StepBackup? || step.StepNoBackups? {
      ConfirmationRows(s, step);
    } else if step.StepBuild? || step.StepApprove? || step.StepComplete? || step.StepReconcile? {
      GateRows(s, step);
    } else {
      DesktopStates(s, step);
    }
  }

  /** A closing run whose orders keep the switch on, with one subject for an event and a processor, delivers. */
  lemma ClosingDelivers(ha: bool, caseType: CaseType, inventory: map<string, Package>, steps: seq<(Step, bool)>, plan: Plan)
    requires OneSubject(plan) && Follows(steps, plan) && Closes(Opened(ha, caseType, inventory), steps)
    requires Switched(Run(Opened(ha, caseType, inventory), steps[..|steps| - 1]))
    ensures AllDelivered(Run(Opened(ha, caseType, inventory), steps))
  {
    hide Tracked, OneSubject, Switched, Next, AllDelivered, Allowed;
    var n := |steps| - 1;
    var before := Run(Opened(ha, caseType, inventory), steps[..n]);
    RunKeepsTracked(ha, caseType, inventory, steps[..n], plan);
    ClosingStep(before, steps[n].0, steps[n].1);
    GateDelivers(before, plan);
    SameDelivered(before, Run(Opened(ha, caseType, inventory), steps));
  }

  lemma SameDelivered(s: System, r: System)
    requires AllDelivered(s) && r.orders == s.orders
    ensures AllDelivered(r)
  {
  }

  lemma SeparateSwitched(s: System, plan: Plan)
    requires Tracked(s, plan) && Separate(plan)
    ensures Switched(s)
  {
    if s.orders != map[] {
      var id :| id in s.orders;
      assert OrderTracked(s, s.orders[id], plan);
    }
  }

  lemma SeparateDelivers(ha: bool, caseType: CaseType, inventory: map<string, Package>, steps: seq<(Step, bool)>, plan: Plan)
    requires Separate(plan) && Follows(steps, plan) && Closes(Opened(ha, caseType, inventory), steps)
    ensures AllDelivered(Run(Opened(ha, caseType, inventory), steps))
  {
    hide Tracked, OneSubject, Switched, Run, AllDelivered, Allowed;
    var n := |steps| - 1;
    RunKeepsTracked(ha, caseType, inventory, steps[..n], plan);
    SeparateSwitched(Run(Opened(ha, caseType, inventory), steps[..n]), plan);
    ClosingDelivers(ha, caseType, inventory, steps, plan);
  }

  // ---------------------------------------------------------------------------------------------
  // The calls the application makes

  /** Every call is for one event and one subject. */
  predicate OneScope(steps: seq<(Step, bool)>, event: string, subject: Option<string>) {
    forall k :: 0 <= k < |steps| && (steps[k].0.StepOrder? || steps[k].0.StepNone?) ==> steps[k].0.event == event && steps[k].0.subject == subject
  }

  predicate Ordered(steps: seq<(Step, bool)>) {
    exists k :: 0 <= k < |steps| && steps[k].0.StepOrder?
  }

  /** Once an event has a processor it always has one: no call without processors follows a call with one. */
  predicate ProcessorsRemain(steps: seq<(Step, bool)>) {
    forall k :: 0 <= k < |steps| && steps[k].0.StepNone? ==> !Ordered(steps[..k])
  }

  lemma {:induction false} RowStepSwitch(s: System, step: Step)
    requires Attempt(s, step).Success? && (step.StepReport? || step.StepCopies? || step.StepClaim?)
    ensures var r := Attempt(s, step).value; r.orders.Keys == s.orders.Keys && r.case_.desktopRequired == s.case_.desktopRequired
  {
    hide Append, EnsureOrder, BuildChecklist, Approve, CompleteCase, ReconcilePeer, ResolveActions, PurgeLiveData, ConfirmPeer, ConfirmCleanBackup, ConfirmNoBackups;
  }

  lemma {:induction false} StepSwitched(s: System, step: Step, evidence: bool)
    requires Switched(s) && (step.StepNone? ==> s.orders == map[])
    ensures var r := Next(s, step, evidence); Switched(r) && (!step.StepOrder? && s.orders == map[] ==> r.orders == map[])
  {
    hide Append, EnsureOrder, ApplyReport, ApplyCopyResolution, Claim, BuildChecklist, Approve, CompleteCase, ReconcilePeer, ResolveActions, PurgeLiveData, ConfirmPeer, ConfirmCleanBackup, ConfirmNoBackups;
    if Attempt(s, step).Success? {
      if step.StepOrder? {
        OrderCases(s, step);
      } else if step.StepReport? || step.StepCopies? || step.StepClaim? {
        RowStepSwitch(s, step);
      } else {
        OtherRows(s, step);
      }
    }
  }

  lemma {:induction false} RunSwitched(ha: bool, caseType: CaseType, inventory: map<string, Package>, steps: seq<(Step, bool)>)
    requires ProcessorsRemain(steps)
    ensures var s := Run(Opened(ha, caseType, inventory), steps); Switched(s) && (!Ordered(steps) ==> s.orders == map[])
  {
    hide Next;
    if steps != [] {
      var n := |steps| - 1;
      assert forall k :: 0 <= k <= n ==> steps[..n][..k] == steps[..k];
      RunSwitched(ha, caseType, inventory, steps[..n]);
      StepSwitched(Run(Opened(ha, caseType, inventory), steps[..n]), steps[n].0, steps[n].1);
    }
  }

  /**
    One event and one subject, and processors that remain: whatever the order of the steps, a case
    that closes has had every work order delivered.
   */
  lemma OneScopeDelivers(ha: bool, caseType: CaseType, inventory: map<string, Package>, steps: seq<(Step, bool)>, event: string, subject: Option<string>)
    requires OneScope(steps, event, subject) && ProcessorsRemain(steps) && Closes(Opened(ha, caseType, inventory), steps)
    ensures AllDelivered(Run(Opened(ha, caseType, inventory), steps))
  {
    hide Switched, Run, AllDelivered, Ordered;
    var plan := Plan(set k | 0 <= k < |steps| && steps[k].0.StepOrder? :: (event, subject, steps[k].0.processor), {(event, subject)});
    var n := |steps| - 1;
    assert Follows(steps, plan);
    assert ProcessorsRemain(steps[..n]) by {
      assert forall k :: 0 <= k <= n ==> steps[..n][..k] == steps[..k];
    }
    RunSwitched(ha, caseType, inventory, steps[..n]);
    ClosingDelivers(ha, caseType, inventory, steps, plan);
  }
}
