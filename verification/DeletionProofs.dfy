/** What every order of the steps of a deletion case keeps, and what a completed case therefore carries. */
module DeletionProofs {
  import opened Wrappers
  import opened DeletionCases

  // ---------------------------------------------------------------------------------------------
  // The evidence log: what each record presupposes

  predicate UniqueOperations(log: seq<Entry>) {
    forall i, j :: 0 <= i < j < |log| ==> log[i].operation != log[j].operation
  }

  /** A digest of a record with this operation that was made before position `j`. */
  predicate Cites(log: seq<Entry>, j: nat, digest: Option<Digest>, operation: string)
    requires j <= |log|
  {
    digest.Some? && digest.value.entry in log[..j] && digest.value.entry.operation == operation
  }

  predicate Clean(entry: Entry, sha: string, ha: bool) {
    entry.operation == "clean_backup_verified" && entry.statement.CleanBackup? && entry.statement.packageSha == sha
    && (ha ==> entry.statement.peerResolution.Some?)
  }

  predicate CleanBefore(log: seq<Entry>, j: nat, sha: string, ha: bool)
    requires j <= |log|
  {
    exists i :: 0 <= i < j && Clean(log[i], sha, ha)
  }

  predicate ReportedBefore(log: seq<Entry>, j: nat, report: string)
    requires j <= |log|
  {
    exists i :: 0 <= i < j && log[i].statement.DesktopReported? && log[i].statement.report == report
  }

  predicate ResolvedBefore(log: seq<Entry>, j: nat, resolution: string)
    requires j <= |log|
  {
    exists i :: 0 <= i < j && log[i].statement.CopiesResolved? && log[i].statement.resolution == resolution
  }

  /** The receipts of a frozen checklist: purge, peer, and either a clean backup or the statement that there is none. */
  predicate ReceiptsOk(log: seq<Entry>, j: nat, receipts: Receipts, ha: bool)
    requires j <= |log|
  {
    && Cites(log, j, receipts.livePurge, "live_data_purged")
    && (ha ==> Cites(log, j, receipts.peerConfirmation, "peer_confirmed"))
    && ((receipts.cleanBackup.Some? && CleanBefore(log, j, receipts.cleanBackup.value, ha) && (ha ==> receipts.peerResolution.Some?))
        || Cites(log, j, receipts.notApplicable, "backup_not_applicable"))
  }

  /** Every required processor delivered both its reports, and both are on record. */
  predicate ProcessorsOk(log: seq<Entry>, j: nat, checklist: Checklist)
    requires j <= |log|
  {
    checklist.desktopRequired ==>
      checklist.processors != map[] && forall row :: row in checklist.processors ==> Delivered(log, j, checklist.processors[row])
  }

  predicate Delivered(log: seq<Entry>, j: nat, requirement: Requirement)
    requires j <= |log|
  {
    && requirement.deletion.Some? && ReportedBefore(log, j, requirement.deletion.value)
    && requirement.copies.Some? && ResolvedBefore(log, j, requirement.copies.value)
  }

  predicate ChecklistOk(log: seq<Entry>, j: nat, checklist: Checklist, ha: bool)
    requires j <= |log|
  {
    ReceiptsOk(log, j, checklist.receipts, ha) && ProcessorsOk(log, j, checklist)
  }

  predicate HasBefore(log: seq<Entry>, j: nat, operation: string)
    requires j <= |log|
  {
    exists i :: 0 <= i < j && log[i].operation == operation
  }

  /** What must be on record before an entry. */
  predicate EntryOk(log: seq<Entry>, j: nat, ha: bool)
    requires j < |log|
  {
    var entry := log[j];
    match entry.statement
    case PeerConfirmed(_) => HasBefore(log, j, "live_data_purged")
    case CleanBackup(_, _, _) => HasBefore(log, j, "live_data_purged") && (ha ==> HasBefore(log, j, "peer_confirmed"))
    case NoBackups => HasBefore(log, j, "live_data_purged") && (ha ==> HasBefore(log, j, "peer_confirmed"))
    case ChecklistCreated(checklist) => ChecklistOk(log, j, checklist, ha)
    case ChecklistApproved(checklist, _) => Entry("checklist_created", ChecklistCreated(checklist)) in log[..j]
    case Completed(checklist, approval, receipts, processors, _) =>
      && Entry("checklist_approved_executor", ChecklistApproved(checklist, approval)) in log[..j]
      && receipts == checklist.receipts && processors == checklist.processors
      && ChecklistOk(log, j, checklist, ha)
    case _ => true
  }

  predicate LogOk(log: seq<Entry>, ha: bool) {
    UniqueOperations(log) && forall j :: 0 <= j < |log| ==> EntryOk(log, j, ha)
  }

  lemma PastKept(log: seq<Entry>, more: seq<Entry>, j: nat, ha: bool)
    requires j < |log|
    ensures EntryOk(log + more, j, ha) == EntryOk(log, j, ha)
  {
    var all := log + more;
    assert all[..j] == log[..j];
    assert forall i :: 0 <= i <= j ==> all[i] == log[i];
    forall operation
      ensures HasBefore(all, j, operation) == HasBefore(log, j, operation)
    {
    }
    forall checklist
      ensures ChecklistOk(all, j, checklist, ha) == ChecklistOk(log, j, checklist, ha)
    {
      SamePast(log, all, j, checklist, ha);
    }
    hide ChecklistOk, HasBefore;
  }

  lemma SamePast(a: seq<Entry>, b: seq<Entry>, j: nat, checklist: Checklist, ha: bool)
    requires j <= |a| && j <= |b| && a[..j] == b[..j]
    ensures ChecklistOk(a, j, checklist, ha) == ChecklistOk(b, j, checklist, ha)
  {
    forall i | 0 <= i < j
      ensures a[i] == b[i]
    {
      assert a[..j][i] == b[..j][i];
    }
    forall sha
      ensures CleanBefore(a, j, sha, ha) == CleanBefore(b, j, sha, ha)
      ensures ReportedBefore(a, j, sha) == ReportedBefore(b, j, sha)
      ensures ResolvedBefore(a, j, sha) == ResolvedBefore(b, j, sha)
    {
    }
    hide CleanBefore, ReportedBefore, ResolvedBefore;
  }

  /** A new record that has what it presupposes keeps the log in order. */
  lemma AppendKeepsLog(log: seq<Entry>, entry: Entry, ha: bool)
    requires LogOk(log, ha) && !Has(log, entry.operation) && EntryOk(log + [entry], |log|, ha)
    ensures LogOk(log + [entry], ha)
  {
    var all := log + [entry];
    forall j | 0 <= j < |all|
      ensures EntryOk(all, j, ha)
    {
      if j < |log| {
        PastKept(log, [entry], j, ha);
      }
    }
    assert forall i :: 0 <= i < |log| ==> all[i] == log[i];
  }

  // ---------------------------------------------------------------------------------------------
  // The rows: every stored digest is on record

  predicate RowsOk(s: System) {
    && (forall row :: row in s.requirements && s.requirements[row].complete ==> s.requirements[row].deletion.Some? && s.requirements[row].copies.Some?)
    && (forall row :: row in s.requirements && s.requirements[row].deletion.Some? ==> ReportedBefore(s.log, |s.log|, s.requirements[row].deletion.value))
    && (forall row :: row in s.requirements && s.requirements[row].copies.Some? ==> ResolvedBefore(s.log, |s.log|, s.requirements[row].copies.value))
    && (forall id :: id in s.orders && s.orders[id].report.Some? ==>
      (s.orders[id].event, s.orders[id].processor) in s.requirements && s.requirements[(s.orders[id].event, s.orders[id].processor)].deletion.Some?)
  }

  predicate CaseOk(c: Case, log: seq<Entry>, ha: bool) {
    && (c.livePurge.Some? ==> Cites(log, |log|, c.livePurge, "live_data_purged"))
    && (c.peerConfirmation.Some? ==> Cites(log, |log|, c.peerConfirmation, "peer_confirmed"))
    && (c.notApplicable.Some? ==> Cites(log, |log|, c.notApplicable, "backup_not_applicable"))
    && (c.replacement.Some? ==> CleanBefore(log, |log|, c.replacement.value, ha))
    && (c.checklist.Some? ==> Entry("checklist_created", ChecklistCreated(c.checklist.value)) in log)
    && (c.finalReceipt.Some? ==> c.finalReceipt.value.entry in log && c.finalReceipt.value.entry.operation == "completed" && c.finalReceipt.value.entry.statement.Completed?)
    && (c.state.Complete? ==> c.finalReceipt.Some?)
  }

  predicate ApprovalsOk(approvals: map<Checklist, Approval>, log: seq<Entry>) {
    forall checklist :: checklist in approvals ==> Entry("checklist_approved_executor", ChecklistApproved(checklist, approvals[checklist])) in log
  }

  ghost predicate Inv(s: System) {
    LogOk(s.log, s.ha) && RowsOk(s) && CaseOk(s.case_, s.log, s.ha) && ApprovalsOk(s.approvals, s.log)
  }

  lemma GrowCites(log: seq<Entry>, entry: Entry, digest: Option<Digest>, operation: string)
    requires Cites(log, |log|, digest, operation)
    ensures Cites(log + [entry], |log| + 1, digest, operation)
  {
    assert log[..|log|] == log && (log + [entry])[..|log| + 1] == log + [entry];
  }

  lemma GrowRecords(log: seq<Entry>, entry: Entry, text: string, ha: bool)
    ensures CleanBefore(log, |log|, text, ha) ==> CleanBefore(log + [entry], |log| + 1, text, ha)
    ensures ReportedBefore(log, |log|, text) ==> ReportedBefore(log + [entry], |log| + 1, text)
    ensures ResolvedBefore(log, |log|, text) ==> ResolvedBefore(log + [entry], |log| + 1, text)
  {
    assert forall i :: 0 <= i < |log| ==> (log + [entry])[i] == log[i];
  }

  lemma CaseOkGrows(c: Case, log: seq<Entry>, entry: Entry, ha: bool)
    requires CaseOk(c, log, ha)
    ensures CaseOk(c, log + [entry], ha)
  {
    if c.livePurge.Some? {
      GrowCites(log, entry, c.livePurge, "live_data_purged");
    }
    if c.peerConfirmation.Some? {
      GrowCites(log, entry, c.peerConfirmation, "peer_confirmed");
    }
    if c.notApplicable.Some? {
      GrowCites(log, entry, c.notApplicable, "backup_not_applicable");
    }
    if c.replacement.Some? {
      GrowRecords(log, entry, c.replacement.value, ha);
    }
    hide Cites, CleanBefore;
  }

  lemma RowsOkGrow(s: System, entry: Entry)
    requires RowsOk(s)
    ensures RowsOk(s.(log := s.log + [entry]))
  {
    forall text
      ensures ReportedBefore(s.log, |s.log|, text) ==> ReportedBefore(s.log + [entry], |s.log| + 1, text)
      ensures ResolvedBefore(s.log, |s.log|, text) ==> ResolvedBefore(s.log + [entry], |s.log| + 1, text)
    {
      GrowRecords(s.log, entry, text, false);
    }
    hide ReportedBefore, ResolvedBefore;
  }

  /** The invariant survives one more record by itself. */
  lemma InvGrows(s: System, entry: Entry)
    requires Inv(s) && !Has(s.log, entry.operation) && EntryOk(s.log + [entry], |s.log|, s.ha)
    ensures Inv(s.(log := s.log + [entry]))
  {
    AppendKeepsLog(s.log, entry, s.ha);
    RowsOkGrow(s, entry);
    CaseOkGrows(s.case_, s.log, entry, s.ha);
    hide LogOk, RowsOk, CaseOk, EntryOk;
  }

  /** The log after the record of a successful step, and the invariant for the state before it with that log. */
  lemma Recording(s: System, changed: System, operation: string, statement: Statement)
    requires Inv(s) && changed.log == s.log && changed.ha == s.ha && WithRecord(changed, operation, statement).Success?
    requires !Has(s.log, operation) ==> EntryOk(s.log + [Entry(operation, statement)], |s.log|, s.ha)
    ensures var log := WithRecord(changed, operation, statement).value.log;
            && WithRecord(changed, operation, statement).value == changed.(log := log)
            && Entry(operation, statement) in log && Inv(s.(log := log))
            && (Has(s.log, operation) ==> log == s.log) && (!Has(s.log, operation) ==> log == s.log + [Entry(operation, statement)])
  {
    hide Inv, EntryOk;
    var entry := Entry(operation, statement);
    if entry in s.log {
      assert s.(log := s.log) == s;
    } else {
      InvGrows(s, entry);
    }
  }

  // ---------------------------------------------------------------------------------------------
  // Each step

  lemma CitedNow(log: seq<Entry>, entry: Entry)
    requires entry in log
    ensures Cites(log, |log|, Some(DigestOf(entry)), entry.operation)
    ensures HasBefore(log, |log|, entry.operation)
    ensures entry.statement.DesktopReported? ==> ReportedBefore(log, |log|, entry.statement.report)
    ensures entry.statement.CopiesResolved? ==> ResolvedBefore(log, |log|, entry.statement.resolution)
    ensures forall sha, ha :: Clean(entry, sha, ha) ==> CleanBefore(log, |log|, sha, ha)
  {
    assert log[..|log|] == log;
    var i :| 0 <= i < |log| && log[i] == entry;
  }

  /** A cited record is before whatever is appended next. */
  lemma CitedBeforeNext(log: seq<Entry>, next: Entry, digest: Option<Digest>, operation: string)
    requires Cites(log, |log|, digest, operation)
    ensures HasBefore(log + [next], |log|, operation)
  {
    var i :| 0 <= i < |log| && log[i] == digest.value.entry;
    assert (log + [next])[i].operation == operation;
  }

  function WithRequirement(requirements: map<(string, string), Requirement>, row: (string, string), key: string): map<(string, string), Requirement> {
    if row in requirements then requirements else requirements[row := Requirement(key, None, None, None, false)]
  }

  lemma RequirementRows(t: System, row: (string, string), key: string)
    requires RowsOk(t)
    ensures RowsOk(t.(requirements := WithRequirement(t.requirements, row, key)))
  {
    hide ReportedBefore, ResolvedBefore;
  }

  lemma NewOrderRows(t: System, id: string, order: WorkOrder)
    requires RowsOk(t) && order.report.None?
    ensures RowsOk(t.(orders := t.orders[id := order]))
  {
    hide ReportedBefore, ResolvedBefore;
  }

  lemma SameRows(t: System, r: System)
    requires RowsOk(t) && r.requirements == t.requirements && r.orders == t.orders && r.log == t.log
    ensures RowsOk(r)
  {
    hide ReportedBefore, ResolvedBefore;
  }

  lemma OrderKeepsInv(s: System, event: string, subject: Option<string>, processor: string, key: string, id: string)
    requires Inv(s) && EnsureOrder(s, event, subject, processor, key, id).Success?
    ensures Inv(EnsureOrder(s, event, subject, processor, key, id).value)
  {
    hide LogOk, Cites, CleanBefore, RowsOk, EntryOk, WithRecord, Has, Serves;
    var requirements := WithRequirement(s.requirements, (event, processor), key);
    var scoped := s.(scopes := s.scopes + {(event, subject)}, case_ := s.case_.(desktopRequired := true), requirements := requirements);
    if exists other | other in s.orders :: Serves(s.orders[other], event, subject, processor) {
      RequirementRows(s, (event, processor), key);
      SameRows(s.(requirements := requirements), scoped);
    } else {
      var order := WorkOrder(event, subject, processor, Open, None, None);
      var changed := scoped.(orders := s.orders[id := order]);
      var operation, statement := "desktop_work_order_created_" + id, OrderCreated(event, subject, processor, key);
      OrderEntryOk(s, operation, statement);
      Recording(s, changed, operation, statement);
      var r := WithRecord(changed, operation, statement).value;
      var t := s.(log := r.log);
      RequirementRows(t, (event, processor), key);
      NewOrderRows(t.(requirements := requirements), id, order);
      SameRows(t.(requirements := requirements, orders := t.orders[id := order]), r);
    }
  }

  lemma OrderEntryOk(s: System, operation: string, statement: Statement)
    requires statement.OrderCreated? || statement.DesktopReported? || statement.CopiesResolved? || statement.ActionsResolved?
      || statement.LivePurged? || statement.PeerRemediated?
    ensures EntryOk(s.log + [Entry(operation, statement)], |s.log|, s.ha)
  {
  }

  lemma ReportRows(t: System, id: string, report: string, completedKey: string)
    requires RowsOk(t) && id in t.orders && (t.orders[id].event, t.orders[id].processor) in t.requirements
    requires ReportedBefore(t.log, |t.log|, report)
    ensures var row := (t.orders[id].event, t.orders[id].processor);
            var requirement := t.requirements[row].(deletion := Some(report), completedKey := Some(completedKey), complete := false);
            RowsOk(t.(orders := t.orders[id := t.orders[id].(state := ReportReceived, report := Some(report))], requirements := t.requirements[row := requirement]))
  {
    hide ReportedBefore, ResolvedBefore;
  }

  lemma ReportKeepsInv(s: System, id: string, authorised: bool, report: string, remaining: set<string>, completedKey: string)
    requires Inv(s) && ApplyReport(s, id, authorised, report, remaining, completedKey).Success?
    ensures Inv(ApplyReport(s, id, authorised, report, remaining, completedKey).value)
  {
    hide LogOk, Cites, CleanBefore, RowsOk, EntryOk, WithRecord, Has, ReportedBefore;
    var order := s.orders[id];
    if order.report.None? {
      var row := (order.event, order.processor);
      var requirement := s.requirements[row].(deletion := Some(report), completedKey := Some(completedKey), complete := false);
      var requirements := s.requirements[row := requirement];
      var pending := exists r | r in requirements :: requirements[r].deletion.None?;
      var c := s.case_.(desktopReport := Some(report), outstanding := s.case_.outstanding + remaining,
                        state := if pending then AwaitingDesktopReport else ReadyForLivePurge);
      var orders := s.orders[id := order.(state := ReportReceived, report := Some(report))];
      var changed := s.(orders := orders, requirements := requirements, case_ := c);
      var operation, statement := "desktop_report_received_" + id, DesktopReported(id, report);
      OrderEntryOk(s, operation, statement);
      Recording(s, changed, operation, statement);
      var r := WithRecord(changed, operation, statement).value;
      CitedNow(r.log, Entry(operation, statement));
      ReportRows(s.(log := r.log), id, report, completedKey);
      SameRows(s.(log := r.log, orders := orders, requirements := requirements), r);
    }
  }

  lemma CopiesKeepInv(s: System, id: string, resolution: string, completedKey: string)
    requires Inv(s) && ApplyCopyResolution(s, id, resolution, completedKey).Success?
    ensures Inv(ApplyCopyResolution(s, id, resolution, completedKey).value)
  {
    hide LogOk, Cites, CleanBefore, ReportedBefore, ResolvedBefore, EntryOk;
    var order := s.orders[id];
    if order.copies.None? {
      var row := (order.event, order.processor);
      var requirement := s.requirements[row].(copies := Some(resolution), completedKey := Some(completedKey), complete := true);
      var changed := s.(orders := s.orders[id := order.(copies := Some(resolution))], requirements := s.requirements[row := requirement]);
      var operation := "desktop_copy_resolution_" + id;
      OrderEntryOk(s, operation, CopiesResolved(id, resolution));
      Recording(s, changed, operation, CopiesResolved(id, resolution));
      CitedNow(WithRecord(changed, operation, CopiesResolved(id, resolution)).value.log, Entry(operation, CopiesResolved(id, resolution)));
    }
  }

  lemma ActionsKeepInv(s: System, actions: set<string>)
    requires Inv(s) && ResolveActions(s, actions).Success?
    ensures Inv(ResolveActions(s, actions).value)
  {
    hide LogOk, Cites, CleanBefore, ReportedBefore, ResolvedBefore, EntryOk;
    OrderEntryOk(s, "desktop_actions_resolved", ActionsResolved(actions));
    var changed := ActionsChange(s);
    Recording(s, changed, "desktop_actions_resolved", ActionsResolved(actions));
  }

  function ActionsChange(s: System): System {
    var state := if s.case_.livePurge.None? then ReadyForLivePurge
      else if s.case_.replacement.None? then AwaitingCleanBackup
      else if !InventoryResolved(s.inventory) then AwaitingBackupResolution
      else AwaitingChecklist;
    s.(case_ := s.case_.(outstanding := {}, state := state))
  }

  lemma PurgeKeepsInv(s: System, at: nat)
    requires Inv(s) && PurgeLiveData(s, at).Success?
    ensures Inv(PurgeLiveData(s, at).value)
  {
    hide LogOk, Cites, CleanBefore, ReportedBefore, ResolvedBefore, EntryOk;
    if s.case_.livePurge.None? {
      var entry := Entry("live_data_purged", LivePurged(at));
      var changed := s.(case_ := s.case_.(livePurge := Some(DigestOf(entry)), state := if s.ha then PeerReplicationPending else AwaitingCleanBackup));
      OrderEntryOk(s, entry.operation, entry.statement);
      Recording(s, changed, entry.operation, entry.statement);
      CitedNow(WithRecord(changed, entry.operation, entry.statement).value.log, entry);
    }
  }

  lemma PeerKeepsInv(s: System, bundle: Option<string>)
    requires Inv(s) && ConfirmPeer(s, bundle).Success?
    ensures Inv(ConfirmPeer(s, bundle).value)
  {
    hide LogOk, Cites, CleanBefore, ReportedBefore, ResolvedBefore, HasBefore;
    if s.case_.peerConfirmation.None? {
      var entry := Entry("peer_confirmed", PeerConfirmed(bundle.value));
      var changed := s.(case_ := s.case_.(peerConfirmation := Some(DigestOf(entry)), state := AwaitingCleanBackup));
      CitedBeforeNext(s.log, entry, s.case_.livePurge, "live_data_purged");
      Recording(s, changed, entry.operation, entry.statement);
      CitedNow(WithRecord(changed, entry.operation, entry.statement).value.log, entry);
    }
  }

  /** Before any statement about backups the purge is on record, and with a peer its confirmation. */
  lemma BackupEntryOk(s: System, entry: Entry)
    requires Inv(s) && s.case_.livePurge.Some? && (s.ha ==> s.case_.peerConfirmation.Some?)
    requires entry.statement.CleanBackup? || entry.statement.NoBackups?
    ensures EntryOk(s.log + [entry], |s.log|, s.ha)
  {
    hide LogOk, Cites, CleanBefore, ReportedBefore, ResolvedBefore, HasBefore;
    CitedBeforeNext(s.log, entry, s.case_.livePurge, "live_data_purged");
    if s.ha {
      CitedBeforeNext(s.log, entry, s.case_.peerConfirmation, "peer_confirmed");
    }
  }

  lemma BackupKeepsInv(s: System, id: string, sha: string, packages: map<string, string>, peer: Option<string>, at: nat)
    requires Inv(s) && ConfirmCleanBackup(s, id, sha, packages, peer, at).Success?
    ensures Inv(ConfirmCleanBackup(s, id, sha, packages, peer, at).value)
  {
    hide LogOk, Cites, CleanBefore, ReportedBefore, ResolvedBefore, EntryOk, Superseded, Registered;
    var entry := Entry("clean_backup_verified", CleanBackup(sha, peer, at));
    var inventory := Registered(Superseded(s.inventory, packages).value, id, sha).value;
    var c := s.case_.(replacement := Some(sha), peerResolution := if s.ha then peer else s.case_.peerResolution, state := AwaitingBackupResolution);
    var changed := s.(inventory := inventory, case_ := c);
    BackupEntryOk(s, entry);
    Recording(s, changed, entry.operation, entry.statement);
    CitedNow(WithRecord(changed, entry.operation, entry.statement).value.log, entry);
    assert Clean(entry, sha, s.ha);
  }

  lemma NoBackupsKeepInv(s: System, snapshots: Option<nat>)
    requires Inv(s) && ConfirmNoBackups(s, snapshots).Success?
    ensures Inv(ConfirmNoBackups(s, snapshots).value)
  {
    hide LogOk, Cites, CleanBefore, ReportedBefore, ResolvedBefore, EntryOk;
    if s.case_.notApplicable.None? {
      var entry := Entry("backup_not_applicable", NoBackups);
      var changed := s.(case_ := s.case_.(notApplicable := Some(DigestOf(entry)), state := AwaitingChecklist));
      BackupEntryOk(s, entry);
      Recording(s, changed, entry.operation, entry.statement);
      CitedNow(WithRecord(changed, entry.operation, entry.statement).value.log, entry);
    }
  }

  /** Whenever the prerequisites are met, the checklist that the rows call for is fully on record. */
  lemma ExpectedIsOk(s: System, next: Entry)
    requires Inv(s) && PrerequisitesMet(s)
    ensures ChecklistOk(s.log + [next], |s.log|, ExpectedChecklist(s), s.ha)
  {
    hide LogOk, Cites, CleanBefore, ReportedBefore, ResolvedBefore;
    assert (s.log + [next])[..|s.log|] == s.log[..|s.log|];
    SamePast(s.log, s.log + [next], |s.log|, ExpectedChecklist(s), s.ha);
  }

  lemma BuildKeepsInv(s: System)
    requires Inv(s) && BuildChecklist(s).0.Success?
    ensures Inv(BuildChecklist(s).0.value)
  {
    hide LogOk, Cites, CleanBefore, RowsOk, ChecklistOk, PrerequisitesMet, ExpectedChecklist, WithRecord, Has;
    if s.case_.checklist.None? {
      var checklist := ExpectedChecklist(s);
      var entry := Entry("checklist_created", ChecklistCreated(checklist));
      var changed := s.(case_ := s.case_.(checklist := Some(checklist), state := AwaitingApprovals));
      ExpectedIsOk(s, entry);
      Recording(s, changed, entry.operation, entry.statement);
      var r := WithRecord(changed, entry.operation, entry.statement).value;
      SameRows(s.(log := r.log), r);
    }
  }

  lemma ApproveKeepsInv(s: System, executor: bool, approval: Approval)
    requires Inv(s) && Approve(s, executor, approval).Success?
    ensures Inv(Approve(s, executor, approval).value)
  {
    hide LogOk, Cites, CleanBefore, RowsOk, ChecklistOk, WithRecord, Has;
    var checklist := s.case_.checklist.value;
    if checklist !in s.approvals {
      var entry := Entry("checklist_approved_executor", ChecklistApproved(checklist, approval));
      var changed := s.(approvals := s.approvals[checklist := approval],
                        case_ := s.case_.(executorApproval := Some(approval), state := ReadyForCompletion));
      assert (s.log + [entry])[..|s.log|] == s.log;
      Recording(s, changed, entry.operation, entry.statement);
      var r := WithRecord(changed, entry.operation, entry.statement).value;
      SameRows(s.(log := r.log), r);
    }
  }

  lemma CompleteKeepsInv(s: System, at: nat)
    requires Inv(s) && CompleteCase(s, at).Success?
    ensures Inv(CompleteCase(s, at).value)
  {
    hide LogOk, Cites, CleanBefore, RowsOk, ChecklistOk, PrerequisitesMet, ExpectedChecklist, WithRecord, Has;
    var checklist := s.case_.checklist.value;
    var entry := Entry("completed", Completed(checklist, s.case_.executorApproval.value, checklist.receipts, checklist.processors, at));
    var changed := s.(case_ := s.case_.(finalReceipt := Some(DigestOf(entry)), state := Complete));
    ExpectedIsOk(s, entry);
    assert (s.log + [entry])[..|s.log|] == s.log;
    Recording(s, changed, entry.operation, entry.statement);
    var r := WithRecord(changed, entry.operation, entry.statement).value;
    SameRows(s.(log := r.log), r);
  }

  lemma ReconcileKeepsInv(s: System, resolution: string)
    requires Inv(s) && ReconcilePeer(s, resolution).Success?
    ensures Inv(ReconcilePeer(s, resolution).value)
  {
    hide LogOk, Cites, CleanBefore, ReportedBefore, ResolvedBefore, EntryOk;
    if s.case_.peerResolution.None? {
      var changed := s.(case_ := s.case_.(peerResolution := Some(resolution)));
      OrderEntryOk(s, "peer_snapshot_resolution_remediated", PeerRemediated(resolution));
      Recording(s, changed, "peer_snapshot_resolution_remediated", PeerRemediated(resolution));
    }
  }

  lemma {:induction false} RowStepsKeepInv(s: System, step: Step)
    requires Inv(s) && Attempt(s, step).Success?
    requires step.StepNone? || step.StepClaim? || step.Review? || step.Packages?
    ensures Inv(Attempt(s, step).value)
  {
    hide LogOk, Cites, CleanBefore, RowsOk, WithRecord;
    var r := Attempt(s, step).value;
    if step.StepClaim? {
      ClaimRows(s, step.id);
    } else {
      SameRows(s, r);
    }
  }

  lemma ClaimRows(s: System, id: string)
    requires RowsOk(s) && id in s.orders
    ensures RowsOk(s.(orders := s.orders[id := s.orders[id].(state := Claimed)]))
  {
    hide ReportedBefore, ResolvedBefore;
  }

  lemma RefusalKeepsInv(s: System)
    requires Inv(s) && BuildChecklist(s).0.Failure?
    ensures Inv(BuildChecklist(s).1)
  {
    hide LogOk, Cites, CleanBefore, ReportedBefore, ResolvedBefore, PrerequisitesMet, WithRecord;
  }

  lemma AttemptKeepsInv(s: System, step: Step)
    requires Inv(s) && Attempt(s, step).Success?
    ensures Inv(Attempt(s, step).value)
  {
    hide Inv, EnsureOrder, ApplyReport, ApplyCopyResolution, ResolveActions, PurgeLiveData, ConfirmPeer, ConfirmCleanBackup, ConfirmNoBackups, BuildChecklist, Approve, CompleteCase, ReconcilePeer;
    match step {
      case StepOrder(event, subject, processor, key, id) => OrderKeepsInv(s, event, subject, processor, key, id);
      case StepReport(id, authorised, report, remaining, completedKey) => ReportKeepsInv(s, id, authorised, report, remaining, completedKey);
      case StepCopies(id, resolution, completedKey) => CopiesKeepInv(s, id, resolution, completedKey);
      case StepActions(actions) => ActionsKeepInv(s, actions);
      case StepPurge(at) => PurgeKeepsInv(s, at);
      case StepPeer(bundle) => PeerKeepsInv(s, bundle);
      case StepBackup(package, sha, packages, peer, at) => BackupKeepsInv(s, package, sha, packages, peer, at);
      case StepNoBackups(snapshots) => NoBackupsKeepInv(s, snapshots);
      case StepBuild(_) =>
        if BuildChecklist(s).0.Success? {
          BuildKeepsInv(s);
        } else {
          RefusalKeepsInv(s);
        }
      case StepApprove(executor, approval) => ApproveKeepsInv(s, executor, approval);
      case StepComplete(at) => CompleteKeepsInv(s, at);
      case StepReconcile(resolution) => ReconcileKeepsInv(s, resolution);
      case _ => RowStepsKeepInv(s, step);
    }
  }

  lemma {:induction false} RunKeepsInv(s: System, steps: seq<(Step, bool)>)
    requires Inv(s)
    ensures Inv(Run(s, steps))
  {
    hide Inv, Attempt;
    if steps != [] {
      var n := |steps| - 1;
      RunKeepsInv(s, steps[..n]);
      var before := Run(s, steps[..n]);
      if Attempt(before, steps[n].0).Success? {
        AttemptKeepsInv(before, steps[n].0);
      }
    }
  }

  lemma OpenedInv(ha: bool, caseType: CaseType, inventory: map<string, Package>)
    ensures Inv(Opened(ha, caseType, inventory))
  {
  }

  // ---------------------------------------------------------------------------------------------
  // What a completed case carries

  /**
    In every order of the steps: when a case is complete, its final receipt is on record; the record
    repeats the receipts and processors of the checklist that the executor approved, which was
    approved and frozen earlier; and that checklist cites a purge, with a peer its confirmation, a
    clean backup (with a peer its snapshot resolution) or the statement that there is none, and both
    reports of every required processor, all made before.
   */
  lemma {:induction false} CompletedCaseIsBacked(ha: bool, caseType: CaseType, inventory: map<string, Package>, steps: seq<(Step, bool)>)
    requires Run(Opened(ha, caseType, inventory), steps).case_.state.Complete?
    ensures var s := Run(Opened(ha, caseType, inventory), steps);
            && s.ha == ha && s.case_.finalReceipt.Some?
            && exists j :: 0 <= j < |s.log| && Closing(s.log, j, s.case_.finalReceipt.value, ha)
  {
    OpenedInv(ha, caseType, inventory);
    RunKeepsInv(Opened(ha, caseType, inventory), steps);
    RunKeepsMode(Opened(ha, caseType, inventory), steps);
    hide Run, EntryOk, ChecklistOk;
    var s := Run(Opened(ha, caseType, inventory), steps);
    var j :| 0 <= j < |s.log| && s.log[j] == s.case_.finalReceipt.value.entry;
    assert EntryOk(s.log, j, s.ha);
    ClosingFrom(s.log, j, s.case_.finalReceipt.value, ha);
  }

  /** Entry `j` closes the case, and everything it cites came before. */
  predicate Closing(log: seq<Entry>, j: nat, digest: Digest, ha: bool)
    requires j < |log|
  {
    && log[j] == digest.entry && digest.entry.operation == "completed" && digest.entry.statement.Completed?
    && var closing := digest.entry.statement;
    && closing.receipts == closing.checklist.receipts && closing.processors == closing.checklist.processors
    && Entry("checklist_approved_executor", ChecklistApproved(closing.checklist, closing.approval)) in log[..j]
    && ReceiptsOk(log, j, closing.receipts, ha)
    && ProcessorsOk(log, j, closing.checklist)
  }

  lemma ClosingFrom(log: seq<Entry>, j: nat, digest: Digest, ha: bool)
    requires j < |log| && log[j] == digest.entry && digest.entry.operation == "completed" && digest.entry.statement.Completed?
    requires EntryOk(log, j, ha)
    ensures Closing(log, j, digest, ha)
  {
  }

  lemma AttemptKeepsMode(s: System, step: Step)
    requires Attempt(s, step).Success?
    ensures Attempt(s, step).value.ha == s.ha
  {
    hide Append, PrerequisitesMet, ExpectedChecklist, Superseded, Registered, InventoryResolved, Serves;
  }

  lemma {:induction false} RunKeepsMode(s: System, steps: seq<(Step, bool)>)
    ensures Run(s, steps).ha == s.ha
  {
    hide Attempt;
    if steps != [] {
      var n := |steps| - 1;
      RunKeepsMode(s, steps[..n]);
      if Attempt(Run(s, steps[..n]), steps[n].0).Success? {
        AttemptKeepsMode(Run(s, steps[..n]), steps[n].0);
      }
    }
  }

  /**
    In every order of the steps the records come in the protocol's order: no peer confirmation
    or backup statement before the purge, no checklist before what it lists, no approval before the
    checklist, no completion before the approval; and no operation is recorded twice.
   */
  lemma {:induction false} RecordsComeInOrder(ha: bool, caseType: CaseType, inventory: map<string, Package>, steps: seq<(Step, bool)>)
    ensures LogOk(Run(Opened(ha, caseType, inventory), steps).log, ha)
  {
    OpenedInv(ha, caseType, inventory);
    RunKeepsInv(Opened(ha, caseType, inventory), steps);
    RunKeepsMode(Opened(ha, caseType, inventory), steps);
    hide Run, LogOk;
  }

  /** A completed requirement always carries both digests. */
  lemma {:induction false} CompleteRequirementHasBothReports(ha: bool, caseType: CaseType, inventory: map<string, Package>, steps: seq<(Step, bool)>, row: (string, string))
    requires row in Run(Opened(ha, caseType, inventory), steps).requirements
    requires Run(Opened(ha, caseType, inventory), steps).requirements[row].complete
    ensures var s := Run(Opened(ha, caseType, inventory), steps); Delivered(s.log, |s.log|, s.requirements[row])
  {
    OpenedInv(ha, caseType, inventory);
    RunKeepsInv(Opened(ha, caseType, inventory), steps);
    hide Run, LogOk, ReportedBefore, ResolvedBefore;
  }
}
