/** The steps of a deletion case as the service makes them: rows changed field by field inside one transaction. */
module DeletionService {
  import opened Wrappers
  import opened DeletionCases

  lemma SupersededIs(inventory: map<string, Package>, packages: map<string, string>, marked: map<string, Package>)
    requires forall id :: id in packages && id in inventory ==> inventory[id].sha == packages[id]
    requires forall id :: id in marked <==> id in inventory || id in packages
    requires forall id :: id in marked ==> marked[id] == if id in packages then MarkedPackage(inventory, id, packages[id]) else inventory[id]
    ensures Superseded(inventory, packages) == Some(marked)
  {
    hide MarkedPackage;
    var target := Superseded(inventory, packages).value;
    assert target == marked;
  }

  lemma RegisteredIs(inventory: map<string, Package>, package: string, sha: string, kept: map<string, Package>)
    requires package in inventory ==> inventory[package].sha == sha
    requires forall id :: id in kept <==> id in inventory || id == package
    requires forall id :: id in kept ==> kept[id] == if id == package then Package(sha, Active) else Displaced(inventory[id])
    ensures Registered(inventory, package, sha) == Some(kept)
  {
    hide Displaced;
    var target := Registered(inventory, package, sha).value;
    assert target == kept;
  }

  lemma OrderKeepsRest(s: System, event: string, subject: Option<string>, processor: string, key: string, id: string)
    ensures var r := EnsureOrder(s, event, subject, processor, key, id);
            r.Success? ==> r.value.approvals == s.approvals && r.value.inventory == s.inventory && r.value.ha == s.ha
  {
    hide Append, Serves;
  }

  lemma ActiveStart(known: seq<Processor>)
    ensures [] + ActiveOf(known[0..]) == ActiveOf(known) && ActiveOf(known[|known|..]) == []
  {
    assert known[0..] == known;
  }

  lemma ActiveStep(known: seq<Processor>, i: nat)
    requires i < |known|
    ensures ActiveOf(known[i..]) ==
      if known[i].active && known[i].activeKey.Some? then [known[i]] + ActiveOf(known[i + 1..]) else ActiveOf(known[i + 1..])
  {
    assert known[i..][0] == known[i] && known[i..][1..] == known[i + 1..];
  }

  class CaseRecord {
    const ha: bool
    var case_: Case
    var requirements: map<(string, string), Requirement>
    var orders: map<string, WorkOrder>
    var scopes: set<(string, Option<string>)>
    var approvals: map<Checklist, Approval>
    var inventory: map<string, Package>
    var log: seq<Entry>

    function Current(): System
      reads this
    {
      System(ha, case_, requirements, orders, scopes, approvals, inventory, log)
    }

    constructor (ha: bool, caseType: CaseType, inventory: map<string, Package>)
      ensures Current() == Opened(ha, caseType, inventory)
    {
      this.ha := ha;
      case_ := Case(caseType, Submitted, true, None, None, {}, None, None, None, None, None, None, None, None);
      requirements, orders, scopes, approvals := map[], map[], {}, map[];
      this.inventory := inventory;
      log := [];
    }

    /** Append one evidence record, or find the same one. */
    method AppendRecord(operation: string, statement: Statement) returns (ok: bool)
      modifies this`log
      ensures ok <==> Append(old(log), operation, statement).Some?
      ensures log == if ok then Append(old(log), operation, statement).value else old(log)
    {
      var entry := Entry(operation, statement);
      for i := 0 to |log|
        invariant log == old(log)
        invariant forall k :: 0 <= k < i ==> log[k] != entry
      {
        if log[i] == entry {
          return true;
        }
      }
      if exists i :: 0 <= i < |log| && log[i].operation == operation {
        return false;
      }
      log := log + [entry];
      return true;
    }

    method RecordReport(id: string, authorised: bool, report: string, remaining: set<string>, completedKey: string) returns (r: Result<(), CaseError>)
      modifies this
      ensures var step := ApplyReport(old(Current()), id, authorised, report, remaining, completedKey);
              (r.Success? <==> step.Success?) && Current() == if r.Success? then step.value else old(Current())
    {
      hide Append;
      if id !in orders {
        return Failure(Missing);
      }
      var order := orders[id];
      if order.report.Some? {
        return if order.report.value == report then Success(()) else Failure(Mismatch);
      }
      if !order.state.Claimed? || !authorised {
        return Failure(NotReady);
      }
      var row := (order.event, order.processor);
      if (order.event, order.subject) !in scopes || row !in requirements {
        return Failure(Missing);
      }
      var before := (orders, requirements, case_);
      orders := orders[id := order.(state := ReportReceived, report := Some(report))];
      requirements := requirements[row := requirements[row].(deletion := Some(report), completedKey := Some(completedKey), complete := false)];
      var pending := exists other | other in requirements :: requirements[other].deletion.None?;
      case_ := case_.(desktopReport := Some(report), outstanding := case_.outstanding + remaining,
                      state := if pending then AwaitingDesktopReport else ReadyForLivePurge);
      var recorded := AppendRecord("desktop_report_received_" + id, DesktopReported(id, report));
      if !recorded {
        orders, requirements, case_ := before.0, before.1, before.2;
        return Failure(Unavailable);
      }
      return Success(());
    }

    method RecordCopyResolution(id: string, resolution: string, completedKey: string) returns (r: Result<(), CaseError>)
      modifies this
      ensures var step := ApplyCopyResolution(old(Current()), id, resolution, completedKey);
              (r.Success? <==> step.Success?) && Current() == if r.Success? then step.value else old(Current())
    {
      hide Append;
      if id !in orders {
        return Failure(Missing);
      }
      var order := orders[id];
      if order.report.None? {
        return Failure(NotReady);
      }
      if order.copies.Some? {
        return if order.copies.value == resolution then Success(()) else Failure(Mismatch);
      }
      var row := (order.event, order.processor);
      if row !in requirements {
        return Failure(Missing);
      }
      var before := (orders, requirements);
      orders := orders[id := order.(copies := Some(resolution))];
      requirements := requirements[row := requirements[row].(copies := Some(resolution), completedKey := Some(completedKey), complete := true)];
      var recorded := AppendRecord("desktop_copy_resolution_" + id, CopiesResolved(id, resolution));
      if !recorded {
        orders, requirements := before.0, before.1;
        return Failure(Unavailable);
      }
      return Success(());
    }

    /** The missing prerequisites, by the checks in their order. */
    method MissingPrerequisites() returns (missing: seq<string>)
      ensures missing == [] <==> PrerequisitesMet(Current())
    {
      missing := [];
      if case_.desktopRequired && (requirements == map[] || exists row | row in requirements :: !requirements[row].complete) {
        missing := missing + ["desktop_processor_receipts"];
      }
      if case_.livePurge.None? {
        missing := missing + ["live_purge_receipt"];
      }
      if ha && case_.peerConfirmation.None? {
        missing := missing + ["peer_replication_receipt"];
      }
      if ha && case_.replacement.Some? && case_.peerResolution.None? {
        missing := missing + ["peer_snapshot_resolution_receipt"];
      }
      if case_.replacement.None? && case_.notApplicable.None? {
        missing := missing + ["clean_backup_receipt"];
      }
      if exists id | id in inventory :: inventory[id].status.SupersededPending? {
        missing := missing + ["backup_inventory_resolution"];
      }
      if case_.outstanding != {} {
        missing := missing + ["outstanding_desktop_actions"];
      }
    }

    /** Freeze the checklist; a refusal leaves the case in restricted retention for the caller to commit or not. */
    method FreezeChecklist() returns (r: Result<(), CaseError>)
      modifies this
      ensures var (built, refused) := BuildChecklist(old(Current()));
              (r.Success? <==> built.Success?)
              && Current() == if built.Success? then built.value else refused
    {
      hide Append, PrerequisitesMet;
      if case_.checklist.Some? {
        return Success(());
      }
      var missing := MissingPrerequisites();
      if missing != [] {
        case_ := case_.(state := RestrictedRetention);
        return Failure(Missing);
      }
      var before := case_;
      var checklist := ExpectedChecklist(Current());
      case_ := case_.(checklist := Some(checklist), state := AwaitingApprovals);
      var recorded := AppendRecord("checklist_created", ChecklistCreated(checklist));
      if !recorded {
        case_ := before;
        return Failure(Unavailable);
      }
      return Success(());
    }

    method RecordApproval(executor: bool, approval: Approval) returns (r: Result<(), CaseError>)
      modifies this
      ensures var step := Approve(old(Current()), executor, approval);
              (r.Success? <==> step.Success?) && Current() == if r.Success? then step.value else old(Current())
    {
      hide Append;
      if !executor || case_.checklist.None? || !(case_.state.AwaitingApprovals? || case_.state.ReadyForCompletion?) {
        return Failure(NotReady);
      }
      var checklist := case_.checklist.value;
      if checklist in approvals {
        return Success(());
      }
      var before := (approvals, case_);
      approvals := approvals[checklist := approval];
      case_ := case_.(executorApproval := Some(approval), state := ReadyForCompletion);
      var recorded := AppendRecord("checklist_approved_executor", ChecklistApproved(checklist, approval));
      if !recorded {
        approvals, case_ := before.0, before.1;
        return Failure(Unavailable);
      }
      return Success(());
    }

    method Close(at: nat) returns (r: Result<(), CaseError>)
      modifies this
      ensures var step := CompleteCase(old(Current()), at);
              (r.Success? <==> step.Success?) && Current() == if r.Success? then step.value else old(Current())
    {
      hide Append, PrerequisitesMet;
      if !case_.state.ReadyForCompletion? {
        return Failure(NotReady);
      }
      var missing := MissingPrerequisites();
      if missing != [] || case_.checklist.None? {
        return Failure(NotReady);
      }
      var checklist := case_.checklist.value;
      if checklist != ExpectedChecklist(Current()) {
        return Failure(Mismatch);
      }
      if checklist !in approvals || case_.executorApproval != Some(approvals[checklist]) {
        return Failure(Missing);
      }
      var before := case_;
      var statement := Completed(checklist, case_.executorApproval.value, checklist.receipts, checklist.processors, at);
      case_ := case_.(finalReceipt := Some(DigestOf(Entry("completed", statement))), state := Complete);
      var recorded := AppendRecord("completed", statement);
      if !recorded {
        case_ := before;
        return Failure(Unavailable);
      }
      return Success(());
    }

    /** The requirement and the work order of one active processor of an event. */
    method EnsureWorkOrder(event: string, subject: Option<string>, processor: string, key: string, id: string) returns (r: Result<(), CaseError>)
      modifies this
      ensures var step := EnsureOrder(old(Current()), event, subject, processor, key, id);
              (r.Success? <==> step.Success?) && Current() == if r.Success? then step.value else old(Current())
    {
      hide Append, Serves;
      var before := (scopes, case_, requirements, orders);
      scopes := scopes + {(event, subject)};
      case_ := case_.(desktopRequired := true);
      if (event, processor) !in requirements {
        requirements := requirements[(event, processor) := Requirement(key, None, None, None, false)];
      }
      if exists other | other in orders :: Serves(orders[other], event, subject, processor) {
        return Success(());
      }
      if id in orders {
        scopes, case_, requirements := before.0, before.1, before.2;
        return Failure(Invalid);
      }
      orders := orders[id := WorkOrder(event, subject, processor, Open, None, None)];
      var recorded := AppendRecord("desktop_work_order_created_" + id, OrderCreated(event, subject, processor, key));
      if !recorded {
        scopes, case_, requirements, orders := before.0, before.1, before.2, before.3;
        return Failure(Unavailable);
      }
      return Success(());
    }

    /** One order for each of these processors, or none of them. */
    method EnsureOrders(event: string, subject: Option<string>, active: seq<Processor>) returns (r: Result<(), CaseError>)
      requires forall k :: 0 <= k < |active| ==> active[k].activeKey.Some?
      modifies this
      ensures var step := EnsureEach(old(Current()), event, subject, active);
              (r.Success? <==> step.Success?) && Current() == if r.Success? then step.value else old(Current())
    {
      hide EnsureOrder;
      var before := (scopes, case_, requirements, orders, log);
      for i := 0 to |active|
        invariant EnsureEach(Current(), event, subject, active[i..]) == EnsureEach(old(Current()), event, subject, active)
        invariant approvals == old(approvals) && inventory == old(inventory)
      {
        assert active[i..][0] == active[i] && active[i..][1..] == active[i + 1..];
        if !active[i].verifiable {
          scopes, case_, requirements, orders, log := before.0, before.1, before.2, before.3, before.4;
          return Failure(Invalid);
        }
        OrderKeepsRest(Current(), event, subject, active[i].entity, active[i].activeKey.value, active[i].orderId);
        var ensured := EnsureWorkOrder(event, subject, active[i].entity, active[i].activeKey.value, active[i].orderId);
        if ensured.Failure? {
          scopes, case_, requirements, orders, log := before.0, before.1, before.2, before.3, before.4;
          return ensured;
        }
      }
      return Success(());
    }

    /** The active processors among the known ones. */
    static method SelectActive(known: seq<Processor>) returns (active: seq<Processor>)
      ensures active == ActiveOf(known)
    {
      hide ActiveOf;
      active := [];
      ActiveStart(known);
      for i := 0 to |known|
        invariant active + ActiveOf(known[i..]) == ActiveOf(known)
      {
        ActiveStep(known, i);
        if known[i].active && known[i].activeKey.Some? {
          assert active + [known[i]] + ActiveOf(known[i + 1..]) == active + ([known[i]] + ActiveOf(known[i + 1..]));
          active := active + [known[i]];
        }
      }
    }

    /** The work orders of an event, from all its known processor identities. */
    method EnsureAll(event: string, subject: Option<string>, known: seq<Processor>) returns (r: Result<(), CaseError>)
      modifies this
      ensures var step := EnsureWorkOrders(old(Current()), event, subject, known);
              (r.Success? <==> step.Success?) && Current() == if r.Success? then step.value else old(Current())
    {
      hide EnsureEach, ActiveOf;
      if known == [] {
        scopes := scopes + {(event, subject)};
        case_ := case_.(desktopRequired := false);
        return Success(());
      }
      var active := SelectActive(known);
      if active == [] {
        return Failure(Missing);
      }
      r := EnsureOrders(event, subject, active);
    }

    method PurgeData(at: nat) returns (r: Result<(), CaseError>)
      modifies this
      ensures var step := PurgeLiveData(old(Current()), at);
              (r.Success? <==> step.Success?) && Current() == if r.Success? then step.value else old(Current())
    {
      hide Append;
      if case_.livePurge.Some? {
        return Success(());
      }
      if !case_.state.ReadyForLivePurge? && !case_.state.LivePurgeInProgress? {
        return Failure(NotReady);
      }
      if case_.desktopRequired && case_.desktopReport.None? && case_.desktopAbsence.None? {
        return Failure(Missing);
      }
      var recorded := AppendRecord("live_data_purged", LivePurged(at));
      if !recorded {
        return Failure(Unavailable);
      }
      case_ := case_.(livePurge := Some(DigestOf(Entry("live_data_purged", LivePurged(at)))), state := if ha then PeerReplicationPending else AwaitingCleanBackup);
      return Success(());
    }

    method ConfirmPeerReplication(bundle: Option<string>) returns (r: Result<(), CaseError>)
      modifies this
      ensures var step := ConfirmPeer(old(Current()), bundle);
              (r.Success? <==> step.Success?) && Current() == if r.Success? then step.value else old(Current())
    {
      hide Append;
      if !ha || case_.livePurge.None? {
        return Failure(NotReady);
      }
      if case_.peerConfirmation.Some? {
        return Success(());
      }
      if bundle.None? {
        return Failure(Missing);
      }
      var recorded := AppendRecord("peer_confirmed", PeerConfirmed(bundle.value));
      if !recorded {
        return Failure(Unavailable);
      }
      case_ := case_.(peerConfirmation := Some(DigestOf(Entry("peer_confirmed", PeerConfirmed(bundle.value)))), state := AwaitingCleanBackup);
      return Success(());
    }

    /** Register every older workstation package as superseded, one after the other. */
    method RegisterSuperseded(packages: map<string, string>) returns (ok: bool)
      modifies this`inventory
      ensures ok <==> Superseded(old(inventory), packages).Some?
      ensures inventory == if ok then Superseded(old(inventory), packages).value else old(inventory)
    {
      if exists id | id in packages :: id in inventory && inventory[id].sha != packages[id] {
        return false;
      }
      hide Superseded, MarkedPackage;
      var first := inventory;
      var marked, pending := first, packages.Keys;
      while pending != {}
        invariant pending <= packages.Keys
        invariant forall id :: id in marked <==> id in first || (id in packages && id !in pending)
        invariant forall id :: id in marked ==>
          marked[id] == if id in packages && id !in pending then MarkedPackage(first, id, packages[id]) else first[id]
        decreases |pending|
      {
        var id :| id in pending;
        assert id in packages;
        marked := marked[id := MarkedPackage(first, id, packages[id])];
        pending := pending - {id};
      }
      SupersededIs(first, packages, marked);
      inventory := marked;
      return true;
    }

    /** Register the clean package as active and every other active one as superseded. */
    method RegisterClean(package: string, sha: string) returns (ok: bool)
      modifies this`inventory
      ensures ok <==> Registered(old(inventory), package, sha).Some?
      ensures inventory == if ok then Registered(old(inventory), package, sha).value else old(inventory)
    {
      if package in inventory && inventory[package].sha != sha {
        return false;
      }
      hide Registered, Displaced;
      var first := inventory;
      var kept, pending := first, first.Keys - {package};
      while pending != {}
        invariant pending <= first.Keys - {package}
        invariant forall id :: id in kept <==> id in first
        invariant forall id :: id in kept && id != package ==> kept[id] == if id in pending then first[id] else Displaced(first[id])
        decreases |pending|
      {
        var id :| id in pending;
        kept := kept[id := Displaced(first[id])];
        pending := pending - {id};
      }
      RegisteredIs(first, package, sha, kept[package := Package(sha, Active)]);
      inventory := kept[package := Package(sha, Active)];
      return true;
    }

    method ConfirmBackup(package: string, sha: string, packages: map<string, string>, peer: Option<string>, at: nat) returns (r: Result<(), CaseError>)
      modifies this
      ensures var step := ConfirmCleanBackup(old(Current()), package, sha, packages, peer, at);
              (r.Success? <==> step.Success?) && Current() == if r.Success? then step.value else old(Current())
    {
      hide Append, Superseded, Registered;
      if case_.livePurge.None? || (ha && case_.peerConfirmation.None?) {
        return Failure(NotReady);
      }
      if ha && peer.None? {
        return Failure(Missing);
      }
      var before := (inventory, case_);
      var marked := RegisterSuperseded(packages);
      if !marked {
        return Failure(Mismatch);
      }
      var registered := RegisterClean(package, sha);
      if !registered {
        inventory := before.0;
        return Failure(Mismatch);
      }
      case_ := case_.(replacement := Some(sha), state := AwaitingBackupResolution);
      if ha {
        case_ := case_.(peerResolution := peer);
      }
      var recorded := AppendRecord("clean_backup_verified", CleanBackup(sha, peer, at));
      if !recorded {
        inventory, case_ := before.0, before.1;
        return Failure(Unavailable);
      }
      return Success(());
    }

    method ConfirmNoControlledBackups(snapshots: Option<nat>) returns (r: Result<(), CaseError>)
      modifies this
      ensures var step := ConfirmNoBackups(old(Current()), snapshots);
              (r.Success? <==> step.Success?) && Current() == if r.Success? then step.value else old(Current())
    {
      hide Append;
      if case_.replacement.Some? {
        return Failure(Mismatch);
      }
      if case_.notApplicable.Some? {
        return Success(());
      }
      if case_.livePurge.None? || (ha && case_.peerConfirmation.None?) {
        return Failure(NotReady);
      }
      if inventory != map[] || (snapshots.Some? && snapshots.value > 0) {
        return Failure(Mismatch);
      }
      var recorded := AppendRecord("backup_not_applicable", NoBackups);
      if !recorded {
        return Failure(Unavailable);
      }
      case_ := case_.(notApplicable := Some(DigestOf(Entry("backup_not_applicable", NoBackups))), state := AwaitingChecklist);
      return Success(());
    }
  }
}
