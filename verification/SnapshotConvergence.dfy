/** Runs that stop anywhere, followed by one that does not: what every prefix keeps and where it ends. */
module SnapshotConvergence {
  import opened Counting
  import opened Wrappers
  import opened Snapshots

  /** What stays fixed over all runs: the snapshots at the start, the clean replacement, and each job's purge time. */
  datatype Setting = Setting(original: map<string, Snapshot>, selected: Option<string>, cutoffs: map<string, int>)

  /** The snapshots taken before a purge. */
  function Stale(live: map<string, Snapshot>, cutoff: int): set<string> {
    set name | name in live && live[name].created < cutoff
  }

  ghost predicate WithinLimits(setting: Setting) {
    && |setting.original| <= INVENTORY_LIMIT
    && forall job :: job in setting.cutoffs ==> |Stale(setting.original, setting.cutoffs[job])| <= CANDIDATE_LIMIT
  }

  predicate StaleFor(setting: Setting, name: string, job: string) {
    name in setting.original && job in setting.cutoffs && setting.original[name].created < setting.cutoffs[job]
  }

  /** Two snapshots under one receipt. */
  predicate Twins(setting: Setting, m: string, n: string) {
    m in setting.original && n in setting.original && m != n && setting.original[m].receipt == setting.original[n].receipt
  }

  /** The time a snapshot was taken is part of its receipt. */
  ghost predicate ReceiptsDated(setting: Setting) {
    forall m, n :: Twins(setting, m, n) ==> setting.original[m].created == setting.original[n].created
  }

  /** No two snapshots under one receipt are stale for two jobs. */
  ghost predicate TwinsHaveOneJob(setting: Setting) {
    forall m, n, i, j :: Twins(setting, m, n) && StaleFor(setting, m, i) && StaleFor(setting, n, j) ==> i == j
  }

  /** The replacement is among the snapshots and was taken after every purge. */
  ghost predicate ReplacementOk(setting: Setting) {
    setting.selected.Some? ==>
      && setting.selected.value in setting.original
      && forall job :: job in setting.cutoffs ==> setting.original[setting.selected.value].created >= setting.cutoffs[job]
  }

  ghost predicate SettingOk(setting: Setting) {
    WithinLimits(setting) && ReceiptsDated(setting) && TwinsHaveOneJob(setting) && ReplacementOk(setting)
  }

  predicate HasCandidate(journal: Journal, name: string) {
    exists k :: 0 <= k < |journal.candidates| && journal.candidates[k].name == name
  }

  /** A candidate describes an original snapshot from before the cutoff. */
  predicate CandidateOk(candidate: Candidate, cutoff: int, setting: Setting) {
    && candidate.name in setting.original
    && setting.original[candidate.name].receipt == candidate.receipt
    && setting.original[candidate.name].created == candidate.created < cutoff
  }

  /** Of two twins in a journal the earlier one leaves first. */
  predicate TwinsInOrder(live: map<string, Snapshot>, journal: Journal) {
    forall k, l :: 0 <= k < l < |journal.candidates| && journal.candidates[k].receipt == journal.candidates[l].receipt ==>
      (journal.candidates[l].name !in live ==> journal.candidates[k].name !in live)
  }

  /** No earlier twin of the snapshot in the journal is still visible. */
  predicate FirstOfTwins(live: map<string, Snapshot>, journal: Journal, name: string) {
    forall k, l :: 0 <= k < l < |journal.candidates| && journal.candidates[k].receipt == journal.candidates[l].receipt ==>
      (journal.candidates[l].name == name ==> journal.candidates[k].name !in live)
  }

  ghost predicate JournalOk(disk: Disk, job: string, setting: Setting)
    requires job in disk.journals
  {
    var journal := disk.journals[job];
    && job in setting.cutoffs && journal.cutoff == setting.cutoffs[job] && journal.selected == setting.selected
    && |journal.candidates| <= CANDIDATE_LIMIT
    && (forall k :: 0 <= k < |journal.candidates| ==> CandidateOk(journal.candidates[k], journal.cutoff, setting))
    && DistinctNames(journal.candidates)
    && TwinsInOrder(disk.live, journal)
    && (forall name :: name in disk.live && disk.live[name].created < journal.cutoff ==> HasCandidate(journal, name))
    && (journal.resolved ==> Gone(disk, journal))
  }

  /** No candidate of the journal is left, neither visible nor as a tombstone. */
  predicate Gone(disk: Disk, journal: Journal) {
    forall k :: 0 <= k < |journal.candidates| ==> journal.candidates[k].name !in disk.live && journal.candidates[k].receipt !in disk.tombs
  }

  /** An unresolved journal still lists the snapshot. */
  ghost predicate Pending(journals: map<string, Journal>, name: string) {
    exists job :: job in journals && !journals[job].resolved && HasCandidate(journals[job], name)
  }

  ghost predicate Listed(journals: map<string, Journal>, name: string) {
    exists job :: job in journals && HasCandidate(journals[job], name)
  }

  ghost predicate TombOk(disk: Disk, receipt: string, setting: Setting) {
    exists name :: name in setting.original && name !in disk.live && setting.original[name].receipt == receipt && Pending(disk.journals, name)
  }

  ghost predicate Inv(disk: Disk, setting: Setting) {
    && (forall name :: name in disk.live ==> name in setting.original && disk.live[name] == setting.original[name])
    && (forall job :: job in disk.journals ==> JournalOk(disk, job, setting))
    && (forall name :: name in setting.original && name !in disk.live ==> Listed(disk.journals, name))
    && (forall receipt :: receipt in disk.tombs ==> TombOk(disk, receipt, setting))
  }

  /** When a write is part of the protocol. */
  ghost predicate OpOk(disk: Disk, op: Op, setting: Setting) {
    match op
    case WriteJournal(job, journal) =>
      && job !in disk.journals && !journal.resolved
      && JournalOk(disk.(journals := disk.journals[job := journal]), job, setting)
    case Entomb(name) =>
      && name in disk.live && disk.live[name].receipt !in disk.tombs && Pending(disk.journals, name)
      && forall job :: job in disk.journals ==> FirstOfTwins(disk.live, disk.journals[job], name)
    case RemoveFile(receipt) => receipt in disk.tombs && disk.tombs[receipt] > 0
    case RemoveTomb(receipt) => receipt in disk.tombs
    case MarkResolved(job) => job in disk.journals && Gone(disk, disk.journals[job])
  }

  ghost predicate OpsOk(disk: Disk, ops: seq<Op>, setting: Setting)
    decreases ops
  {
    ops == [] || (OpOk(disk, ops[0], setting) && OpsOk(Apply(disk, ops[0]), ops[1..], setting))
  }

  lemma WriteKeepsInv(disk: Disk, job: string, journal: Journal, setting: Setting)
    requires Inv(disk, setting) && OpOk(disk, WriteJournal(job, journal), setting)
    ensures Inv(Apply(disk, WriteJournal(job, journal)), setting)
  {
    hide HasCandidate, CandidateOk;
    var after := Apply(disk, WriteJournal(job, journal));
    forall name | Pending(disk.journals, name)
      ensures Pending(after.journals, name)
    {
      var other :| other in disk.journals && !disk.journals[other].resolved && HasCandidate(disk.journals[other], name);
      assert after.journals[other] == disk.journals[other];
    }
    forall name | Listed(disk.journals, name)
      ensures Listed(after.journals, name)
    {
      var other :| other in disk.journals && HasCandidate(disk.journals[other], name);
      assert after.journals[other] == disk.journals[other];
    }
    forall receipt | receipt in after.tombs
      ensures TombOk(after, receipt, setting)
    {
      assert TombOk(disk, receipt, setting);
    }
    forall other | other in after.journals
      ensures JournalOk(after, other, setting)
    {
      assert other != job ==> JournalOk(disk, other, setting);
    }
  }

  lemma InvJournal(disk: Disk, job: string, setting: Setting)
    requires Inv(disk, setting) && job in disk.journals
    ensures JournalOk(disk, job, setting)
  {
  }

  lemma CandidateSound(disk: Disk, job: string, k: nat, setting: Setting)
    requires Inv(disk, setting) && job in disk.journals && k < |disk.journals[job].candidates|
    ensures CandidateOk(disk.journals[job].candidates[k], disk.journals[job].cutoff, setting)
    ensures StaleFor(setting, disk.journals[job].candidates[k].name, job)
  {
    InvJournal(disk, job, setting);
  }

  /** Two candidates under one receipt are in one journal. */
  lemma TwinsShareJournal(disk: Disk, a: string, k: nat, b: string, l: nat, setting: Setting)
    requires SettingOk(setting) && Inv(disk, setting) && a in disk.journals && b in disk.journals
    requires k < |disk.journals[a].candidates| && l < |disk.journals[b].candidates|
    requires var m, n := disk.journals[a].candidates[k], disk.journals[b].candidates[l]; m.receipt == n.receipt && m.name != n.name
    ensures a == b
  {
    hide Inv;
    CandidateSound(disk, a, k, setting);
    CandidateSound(disk, b, l, setting);
    assert Twins(setting, disk.journals[a].candidates[k].name, disk.journals[b].candidates[l].name);
  }

  lemma EntombKeepsJournal(disk: Disk, name: string, job: string, setting: Setting)
    requires SettingOk(setting) && Inv(disk, setting) && OpOk(disk, Entomb(name), setting) && job in disk.journals
    ensures JournalOk(Apply(disk, Entomb(name)), job, setting)
  {
    var after, journal := Apply(disk, Entomb(name)), disk.journals[job];
    InvJournal(disk, job, setting);
    EntombKeepsOrder(disk.live, journal, name);
    if journal.resolved {
      EntombKeepsGone(disk, name, job, setting);
    }
    hide HasCandidate, Pending, Inv, SettingOk, DistinctNames, TwinsInOrder, FirstOfTwins, CandidateOk, Gone;
  }

  lemma EntombKeepsOrder(live: map<string, Snapshot>, journal: Journal, name: string)
    requires TwinsInOrder(live, journal) && FirstOfTwins(live, journal, name)
    ensures TwinsInOrder(live - {name}, journal)
  {
  }

  lemma EntombKeepsGone(disk: Disk, name: string, job: string, setting: Setting)
    requires SettingOk(setting) && Inv(disk, setting) && OpOk(disk, Entomb(name), setting)
    requires job in disk.journals && disk.journals[job].resolved
    ensures Gone(Apply(disk, Entomb(name)), disk.journals[job])
  {
    var after, journal := Apply(disk, Entomb(name)), disk.journals[job];
    InvJournal(disk, job, setting);
    var other :| other in disk.journals && !disk.journals[other].resolved && HasCandidate(disk.journals[other], name);
    var l :| 0 <= l < |disk.journals[other].candidates| && disk.journals[other].candidates[l].name == name;
    CandidateSound(disk, other, l, setting);
    assert disk.live[name] == setting.original[name];
    hide HasCandidate, Pending, Inv, SettingOk, FirstOfTwins, JournalOk;
    forall k | 0 <= k < |journal.candidates|
      ensures journal.candidates[k].name !in after.live && journal.candidates[k].receipt !in after.tombs
    {
      if journal.candidates[k].receipt == disk.live[name].receipt {
        TwinsShareJournal(disk, job, k, other, l, setting);
      }
    }
  }

  lemma EntombKeepsInv(disk: Disk, name: string, setting: Setting)
    requires SettingOk(setting) && Inv(disk, setting) && OpOk(disk, Entomb(name), setting)
    ensures Inv(Apply(disk, Entomb(name)), setting)
  {
    hide SettingOk, JournalOk;
    var after := Apply(disk, Entomb(name));
    forall job | job in after.journals
      ensures JournalOk(after, job, setting)
    {
      EntombKeepsJournal(disk, name, job, setting);
    }
    forall other | other in setting.original && other !in after.live
      ensures Listed(after.journals, other)
    {
      if other in disk.live {
        var job :| job in disk.journals && !disk.journals[job].resolved && HasCandidate(disk.journals[job], name);
        assert HasCandidate(after.journals[job], other);
      } else {
        assert Listed(disk.journals, other);
      }
    }
    forall receipt | receipt in after.tombs
      ensures TombOk(after, receipt, setting)
    {
      if receipt == setting.original[name].receipt {
        assert Pending(after.journals, name);
      } else {
        assert TombOk(disk, receipt, setting);
      }
    }
  }

  lemma FewerTombsKeepInv(disk: Disk, after: Disk, setting: Setting)
    requires Inv(disk, setting) && after == disk.(tombs := after.tombs) && after.tombs.Keys <= disk.tombs.Keys
    ensures Inv(after, setting)
  {
    hide HasCandidate, CandidateOk, Pending, Listed;
    forall job | job in after.journals
      ensures JournalOk(after, job, setting)
    {
      assert JournalOk(disk, job, setting);
    }
    forall receipt | receipt in after.tombs
      ensures TombOk(after, receipt, setting)
    {
      assert TombOk(disk, receipt, setting);
    }
  }

  lemma MarkedCandidates(journal: Journal)
    ensures forall name :: HasCandidate(journal.(resolved := true), name) <==> HasCandidate(journal, name)
  {
    var marked := journal.(resolved := true);
    assert marked.candidates == journal.candidates;
  }

  lemma MarkKeepsListed(disk: Disk, job: string, name: string)
    requires job in disk.journals && Listed(disk.journals, name)
    ensures Listed(Apply(disk, MarkResolved(job)).journals, name)
  {
    MarkedCandidates(disk.journals[job]);
    hide HasCandidate;
    var other :| other in disk.journals && HasCandidate(disk.journals[other], name);
    assert HasCandidate(Apply(disk, MarkResolved(job)).journals[other], name);
  }

  lemma MarkKeepsTomb(disk: Disk, job: string, receipt: string, setting: Setting)
    requires Inv(disk, setting) && job in disk.journals && Gone(disk, disk.journals[job]) && receipt in disk.tombs
    ensures TombOk(Apply(disk, MarkResolved(job)), receipt, setting)
  {
    hide HasCandidate, JournalOk, Gone, Inv, CandidateOk;
    InvTomb(disk, receipt, setting);
    var after := Apply(disk, MarkResolved(job));
    var name :| name in setting.original && name !in disk.live && setting.original[name].receipt == receipt && Pending(disk.journals, name);
    var other :| other in disk.journals && !disk.journals[other].resolved && HasCandidate(disk.journals[other], name);
    if other == job {
      CandidateReceipt(disk, job, name, setting);
    }
    assert after.journals[other] == disk.journals[other];
    assert Pending(after.journals, name);
  }

  lemma InvTomb(disk: Disk, receipt: string, setting: Setting)
    requires Inv(disk, setting) && receipt in disk.tombs
    ensures TombOk(disk, receipt, setting)
  {
  }

  lemma MarkKeepsJournal(disk: Disk, job: string, other: string, setting: Setting)
    requires Inv(disk, setting) && job in disk.journals && Gone(disk, disk.journals[job]) && other in disk.journals
    ensures JournalOk(Apply(disk, MarkResolved(job)), other, setting)
  {
    assert JournalOk(disk, other, setting);
    MarkedCandidates(disk.journals[job]);
    hide HasCandidate, CandidateOk, Inv;
  }

  lemma MarkKeepsInv(disk: Disk, job: string, setting: Setting)
    requires Inv(disk, setting) && OpOk(disk, MarkResolved(job), setting)
    ensures Inv(Apply(disk, MarkResolved(job)), setting)
  {
    hide JournalOk, TombOk, Listed, Gone;
    var after := Apply(disk, MarkResolved(job));
    forall other | other in after.journals
      ensures JournalOk(after, other, setting)
    {
      MarkKeepsJournal(disk, job, other, setting);
    }
    forall name | Listed(disk.journals, name)
      ensures Listed(after.journals, name)
    {
      MarkKeepsListed(disk, job, name);
    }
    forall receipt | receipt in after.tombs
      ensures TombOk(after, receipt, setting)
    {
      MarkKeepsTomb(disk, job, receipt, setting);
    }
  }

  lemma CandidateReceipt(disk: Disk, job: string, name: string, setting: Setting)
    requires Inv(disk, setting) && job in disk.journals && HasCandidate(disk.journals[job], name)
    ensures name in setting.original
    ensures Gone(disk, disk.journals[job]) ==> setting.original[name].receipt !in disk.tombs
  {
    var journal := disk.journals[job];
    var k :| 0 <= k < |journal.candidates| && journal.candidates[k].name == name;
    assert JournalOk(disk, job, setting);
    assert CandidateOk(journal.candidates[k], journal.cutoff, setting);
  }

  lemma OpKeepsInv(disk: Disk, op: Op, setting: Setting)
    requires SettingOk(setting) && Inv(disk, setting) && OpOk(disk, op, setting)
    ensures Inv(Apply(disk, op), setting)
  {
    match op {
      case WriteJournal(job, journal) => WriteKeepsInv(disk, job, journal, setting);
      case Entomb(name) => EntombKeepsInv(disk, name, setting);
      case RemoveFile(_) => FewerTombsKeepInv(disk, Apply(disk, op), setting);
      case RemoveTomb(_) => FewerTombsKeepInv(disk, Apply(disk, op), setting);
      case MarkResolved(job) => MarkKeepsInv(disk, job, setting);
    }
  }

  /** Stopping after any number of planned writes leaves the invariant in place. */
  lemma {:induction false} PrefixKeepsInv(disk: Disk, ops: seq<Op>, setting: Setting, n: nat)
    requires SettingOk(setting) && Inv(disk, setting) && OpsOk(disk, ops, setting) && n <= |ops|
    ensures Inv(ApplyAll(disk, ops[..n]), setting)
    decreases n
  {
    hide Inv, OpOk, SettingOk, Apply;
    if n > 0 {
      OpKeepsInv(disk, ops[0], setting);
      PrefixKeepsInv(Apply(disk, ops[0]), ops[1..], setting, n - 1);
      assert ops[..n][0] == ops[0] && ops[..n][1..] == ops[1..][..n - 1];
    }
  }

  lemma {:induction false} OpsOkConcat(disk: Disk, a: seq<Op>, b: seq<Op>, setting: Setting)
    requires OpsOk(disk, a, setting) && OpsOk(ApplyAll(disk, a), b, setting)
    ensures OpsOk(disk, a + b, setting)
    decreases a
  {
    hide OpOk, Apply;
    if a == [] {
      assert a + b == b;
    } else {
      OpsOkConcat(Apply(disk, a[0]), a[1..], b, setting);
      assert (a + b)[0] == a[0] && (a + b)[1..] == a[1..] + b;
    }
  }

  // ---------------------------------------------------------------------------------------------
  // Plans consist of protocol writes, succeed, and reach their goal

  /** Nothing but tombstones and snapshots changed, and nothing was added to them. */
  ghost predicate Shrinks(before: Disk, after: Disk) {
    && after.journals == before.journals
    && after.live.Keys <= before.live.Keys && (forall name :: name in after.live ==> after.live[name] == before.live[name])
  }

  lemma {:induction false} RemoveTreeOps(disk: Disk, receipt: string, files: nat, setting: Setting)
    requires receipt in disk.tombs && disk.tombs[receipt] == files
    ensures OpsOk(disk, RemoveTree(receipt, files), setting)
    ensures ApplyAll(disk, RemoveTree(receipt, files)) == disk.(tombs := disk.tombs - {receipt})
    decreases files
  {
    var ops := RemoveTree(receipt, files);
    if files == 0 {
      assert ops[1..] == [];
    } else {
      var next := Apply(disk, RemoveFile(receipt));
      RemoveTreeOps(next, receipt, files - 1, setting);
      assert ops[1..] == RemoveTree(receipt, files - 1);
      assert next.tombs - {receipt} == disk.tombs - {receipt};
    }
  }

  /** Every candidate before the `k`th is gone. */
  predicate DoneUpTo(disk: Disk, journal: Journal, k: nat)
    requires k <= |journal.candidates|
  {
    forall i :: 0 <= i < k ==> journal.candidates[i].name !in disk.live && journal.candidates[i].receipt !in disk.tombs
  }

  /** No tombstone carries the receipt of the next visible candidate: a twin of it belongs to the same journal, further down. */
  lemma LiveReceiptIsFree(disk: Disk, job: string, k: nat, setting: Setting)
    requires SettingOk(setting) && Inv(disk, setting) && job in disk.journals
    requires var journal := disk.journals[job];
             k < |journal.candidates| && DoneUpTo(disk, journal, k) && journal.candidates[k].name in disk.live
    ensures disk.journals[job].candidates[k].receipt !in disk.tombs
  {
    hide Inv, SettingOk, TwinsInOrder;
    var journal := disk.journals[job];
    if journal.candidates[k].receipt in disk.tombs {
      var other, l := TombCandidate(disk, journal.candidates[k].receipt, setting);
      TwinsShareJournal(disk, job, k, other, l, setting);
      if l > k {
        JournalInOrder(disk, job, k, l, setting);
      }
      assert false;
    }
  }

  lemma JournalInOrder(disk: Disk, job: string, k: nat, l: nat, setting: Setting)
    requires Inv(disk, setting) && job in disk.journals && k < l < |disk.journals[job].candidates|
    requires var candidates := disk.journals[job].candidates;
             candidates[k].receipt == candidates[l].receipt && candidates[l].name !in disk.live
    ensures disk.journals[job].candidates[k].name !in disk.live
  {
    InvJournal(disk, job, setting);
    hide Inv;
  }

  /** A tombstone belongs to a candidate that has left. */
  lemma TombCandidate(disk: Disk, receipt: string, setting: Setting) returns (job: string, l: nat)
    requires Inv(disk, setting) && receipt in disk.tombs
    ensures job in disk.journals && l < |disk.journals[job].candidates|
    ensures disk.journals[job].candidates[l].receipt == receipt && disk.journals[job].candidates[l].name !in disk.live
  {
    InvTomb(disk, receipt, setting);
    var name :| name in setting.original && name !in disk.live && setting.original[name].receipt == receipt && Pending(disk.journals, name);
    job :| job in disk.journals && !disk.journals[job].resolved && HasCandidate(disk.journals[job], name);
    hide Inv;
    l :| 0 <= l < |disk.journals[job].candidates| && disk.journals[job].candidates[l].name == name;
    CandidateSound(disk, job, l, setting);
  }

  /** The next visible candidate may leave. */
  lemma NextMayLeave(disk: Disk, job: string, k: nat, setting: Setting)
    requires SettingOk(setting) && Inv(disk, setting) && job in disk.journals
    requires var journal := disk.journals[job];
             k < |journal.candidates| && DoneUpTo(disk, journal, k) && journal.candidates[k].name in disk.live
    ensures OpOk(disk, Entomb(disk.journals[job].candidates[k].name), setting)
  {
    var name := disk.journals[job].candidates[k].name;
    LiveReceiptIsFree(disk, job, k, setting);
    CandidatePending(disk, job, k, setting);
    CandidateFacts(disk, job, k, setting);
    hide Inv, SettingOk, Pending, DoneUpTo, FirstOfTwins;
    forall other | other in disk.journals
      ensures FirstOfTwins(disk.live, disk.journals[other], name)
    {
      OnlyOneJournal(disk, job, k, other, setting);
    }
  }

  lemma OnlyOneJournal(disk: Disk, job: string, k: nat, other: string, setting: Setting)
    requires SettingOk(setting) && Inv(disk, setting) && job in disk.journals && other in disk.journals
    requires var journal := disk.journals[job];
             k < |journal.candidates| && DoneUpTo(disk, journal, k) && journal.candidates[k].name in disk.live
    ensures FirstOfTwins(disk.live, disk.journals[other], disk.journals[job].candidates[k].name)
  {
    var journal, second := disk.journals[job], disk.journals[other];
    var name := journal.candidates[k].name;
    InvJournal(disk, other, setting);
    CandidateSound(disk, job, k, setting);
    hide Inv, SettingOk, TwinsInOrder, StaleFor;
    forall i, l | 0 <= i < l < |second.candidates| && second.candidates[i].receipt == second.candidates[l].receipt && second.candidates[l].name == name
      ensures second.candidates[i].name !in disk.live
    {
      CandidateSound(disk, other, l, setting);
      TwinsShareJournal(disk, other, i, job, k, setting);
      assert l == k;
    }
  }

  lemma CandidatePlan(disk: Disk, job: string, k: nat, setting: Setting)
    requires SettingOk(setting) && Inv(disk, setting) && job in disk.journals
    requires k < |disk.journals[job].candidates| && DoneUpTo(disk, disk.journals[job], k)
    ensures var candidate := disk.journals[job].candidates[k];
            var plan := PlanCandidate(disk, candidate, setting.selected, disk.journals[job].cutoff);
            var after := ApplyAll(disk, plan.ops);
            && plan.error.None? && OpsOk(disk, plan.ops, setting) && after.journals == disk.journals
            && after.live == disk.live - {candidate.name} && after.tombs == disk.tombs - {candidate.receipt}
  {
    hide OpOk, RemoveTree, OpsOk, SettingOk, DoneUpTo, Inv;
    var candidate := disk.journals[job].candidates[k];
    CandidateFacts(disk, job, k, setting);
    if candidate.name in disk.live {
      LiveReceiptIsFree(disk, job, k, setting);
      var entomb := Entomb(candidate.name);
      var next := Apply(disk, entomb);
      var files := disk.live[candidate.name].files;
      NextMayLeave(disk, job, k, setting);
      RemoveTreeOps(next, candidate.receipt, files, setting);
      OpsOkCons(disk, entomb, RemoveTree(candidate.receipt, files), setting);
      assert next.tombs - {candidate.receipt} == disk.tombs - {candidate.receipt};
    } else if candidate.receipt in disk.tombs {
      RemoveTreeOps(disk, candidate.receipt, disk.tombs[candidate.receipt], setting);
    } else {
      NoOps(disk, setting);
    }
  }

  lemma CandidateFacts(disk: Disk, job: string, k: nat, setting: Setting)
    requires SettingOk(setting) && Inv(disk, setting) && job in disk.journals && k < |disk.journals[job].candidates|
    ensures var journal := disk.journals[job]; var candidate := journal.candidates[k];
            && candidate.created < journal.cutoff && Some(candidate.name) != setting.selected
            && (candidate.name in disk.live ==> disk.live[candidate.name].receipt == candidate.receipt)
  {
    var journal := disk.journals[job];
    assert JournalOk(disk, job, setting) && CandidateOk(journal.candidates[k], journal.cutoff, setting);
  }

  lemma NoOps(disk: Disk, setting: Setting)
    ensures OpsOk(disk, [], setting)
  {
  }

  lemma OpsOkCons(disk: Disk, op: Op, rest: seq<Op>, setting: Setting)
    requires OpOk(disk, op, setting) && OpsOk(Apply(disk, op), rest, setting)
    ensures OpsOk(disk, [op] + rest, setting) && ApplyAll(disk, [op] + rest) == ApplyAll(Apply(disk, op), rest)
  {
    assert ([op] + rest)[1..] == rest;
  }

  lemma {:induction false} CandidatesPlan(disk: Disk, job: string, k: nat, setting: Setting)
    requires SettingOk(setting) && Inv(disk, setting) && job in disk.journals
    requires k <= |disk.journals[job].candidates| && DoneUpTo(disk, disk.journals[job], k)
    ensures var journal := disk.journals[job];
            var plan := PlanCandidates(disk, journal.candidates[k..], setting.selected, journal.cutoff);
            var after := ApplyAll(disk, plan.ops);
            && plan.error.None? && OpsOk(disk, plan.ops, setting)
            && Shrinks(disk, after) && after.tombs.Keys <= disk.tombs.Keys
            && DoneUpTo(after, journal, |journal.candidates|)
    decreases |disk.journals[job].candidates| - k
  {
    hide Inv, SettingOk, OpOk, PlanCandidate;
    var journal := disk.journals[job];
    if k < |journal.candidates| {
      assert journal.candidates[k..][0] == journal.candidates[k] && journal.candidates[k..][1..] == journal.candidates[k + 1..];
      var first := PlanCandidate(disk, journal.candidates[k], setting.selected, journal.cutoff);
      var next := ApplyAll(disk, first.ops);
      CandidatePlan(disk, job, k, setting);
      PrefixKeepsInv(disk, first.ops, setting, |first.ops|);
      assert first.ops[..|first.ops|] == first.ops;
      CandidatesPlan(next, job, k + 1, setting);
      var rest := PlanCandidates(next, journal.candidates[k + 1..], setting.selected, journal.cutoff);
      OpsOkConcat(disk, first.ops, rest.ops, setting);
      ApplyConcat(disk, first.ops, rest.ops);
    }
  }

  /** Resolving a journal under the invariant: no error, nothing older than the cutoff left, and the journal resolved. */
  lemma ResolvePlan(disk: Disk, job: string, setting: Setting)
    requires SettingOk(setting) && Inv(disk, setting) && job in disk.journals
    ensures var plan := PlanResolve(disk, job, disk.journals[job]);
            var after := ApplyAll(disk, plan.ops);
            && plan.error.None? && OpsOk(disk, plan.ops, setting)
            && after.journals == disk.journals[job := disk.journals[job].(resolved := true)]
            && after.live.Keys <= disk.live.Keys && !AnyBefore(after.live, disk.journals[job].cutoff)
  {
    var journal := disk.journals[job];
    assert JournalOk(disk, job, setting);
    SelectedStays(disk, setting);
    hide OpOk, CandidateOk, PlanCandidates, Pending, Listed, TombOk;
    CandidatesPlan(disk, job, 0, setting);
    assert journal.candidates[0..] == journal.candidates;
    var plan := PlanCandidates(disk, journal.candidates, setting.selected, journal.cutoff);
    var cleared := ApplyAll(disk, plan.ops);
    forall name | HasCandidate(journal, name)
      ensures name !in cleared.live
    {
      var k :| 0 <= k < |journal.candidates| && journal.candidates[k].name == name;
    }
    if journal.resolved {
      assert plan.ops + [] == plan.ops;
    } else {
      MarkOps(cleared, job, journal, setting);
      OpsOkConcat(disk, plan.ops, [MarkResolved(job)], setting);
      ApplyConcat(disk, plan.ops, [MarkResolved(job)]);
    }
  }

  lemma MarkOps(disk: Disk, job: string, journal: Journal, setting: Setting)
    requires job in disk.journals && disk.journals[job] == journal && Gone(disk, journal)
    ensures OpsOk(disk, [MarkResolved(job)], setting)
    ensures ApplyAll(disk, [MarkResolved(job)]) == disk.(journals := disk.journals[job := journal.(resolved := true)])
  {
    assert [MarkResolved(job)][1..] == [];
  }

  lemma CandidatePending(disk: Disk, job: string, k: nat, setting: Setting)
    requires Inv(disk, setting) && job in disk.journals && k < |disk.journals[job].candidates|
    ensures var name := disk.journals[job].candidates[k].name; name in disk.live ==> Pending(disk.journals, name)
  {
    assert JournalOk(disk, job, setting);
    assert HasCandidate(disk.journals[job], disk.journals[job].candidates[k].name);
  }

  /** Whatever is no longer visible was taken before some job's purge. */
  lemma RemovedWasOld(disk: Disk, name: string, setting: Setting)
    requires Inv(disk, setting) && name in setting.original && name !in disk.live
    ensures exists job :: job in disk.journals && job in setting.cutoffs && setting.original[name].created < setting.cutoffs[job]
  {
    assert Listed(disk.journals, name);
    var job :| job in disk.journals && HasCandidate(disk.journals[job], name);
    var journal := disk.journals[job];
    assert JournalOk(disk, job, setting);
    var k :| 0 <= k < |journal.candidates| && journal.candidates[k].name == name;
    assert CandidateOk(journal.candidates[k], journal.cutoff, setting);
  }

  /** The clean replacement is never a candidate, so it never leaves. */
  lemma SelectedStays(disk: Disk, setting: Setting)
    requires SettingOk(setting) && Inv(disk, setting)
    ensures setting.selected.Some? ==> setting.selected.value in disk.live
  {
    hide Inv;
    if setting.selected.Some? && setting.selected.value !in disk.live {
      RemovedWasOld(disk, setting.selected.value, setting);
    }
  }

  /** Preparing one journal: either it is there already, or it lists everything that is still visible and too old. */
  lemma {:induction false} SupersededLists(names: seq<string>, live: map<string, Snapshot>, cutoff: int)
    ensures forall k :: 0 <= k < |Superseded(names, live, cutoff)| ==>
      var c := Superseded(names, live, cutoff)[k];
      c.name in names && c.name in live && live[c.name].receipt == c.receipt && live[c.name].created == c.created < cutoff
    ensures forall name :: name in names && name in live && live[name].created < cutoff ==>
      exists k :: 0 <= k < |Superseded(names, live, cutoff)| && Superseded(names, live, cutoff)[k].name == name
  {
    if names != [] {
      var rest := Superseded(names[1..], live, cutoff);
      var all := Superseded(names, live, cutoff);
      SupersededLists(names[1..], live, cutoff);
      forall name | name in names && name in live && live[name].created < cutoff
        ensures exists k :: 0 <= k < |all| && all[k].name == name
      {
        if name == names[0] {
          assert all[0].name == name;
        } else {
          var k :| 0 <= k < |rest| && rest[k].name == name;
          assert all[if |all| == |rest| then k else k + 1].name == name;
        }
      }
    }
  }

  predicate DistinctNames(candidates: seq<Candidate>) {
    forall k, l :: 0 <= k < l < |candidates| ==> candidates[k].name != candidates[l].name
  }

  lemma {:induction false} SupersededDistinct(names: seq<string>, live: map<string, Snapshot>, cutoff: int)
    requires forall i, j :: 0 <= i < j < |names| ==> names[i] != names[j]
    ensures DistinctNames(Superseded(names, live, cutoff))
  {
    if names != [] {
      var rest := Superseded(names[1..], live, cutoff);
      SupersededDistinct(names[1..], live, cutoff);
      SupersededLists(names[1..], live, cutoff);
      assert names[0] !in names[1..];
      if names[0] in live && live[names[0]].created < cutoff {
        var first := Candidate(names[0], live[names[0]].receipt, live[names[0]].created);
        DistinctCons(first, rest);
      }
    }
  }

  lemma DistinctCons(first: Candidate, rest: seq<Candidate>)
    requires DistinctNames(rest) && forall k :: 0 <= k < |rest| ==> rest[k].name != first.name
    ensures DistinctNames([first] + rest)
  {
    var all := [first] + rest;
    forall k, l | 0 <= k < l < |all|
      ensures all[k].name != all[l].name
    {
      assert all[l] == rest[l - 1];
      if k > 0 {
        assert all[k] == rest[k - 1];
      }
    }
  }

  lemma ListingCount(names: seq<string>, disk: Disk, setting: Setting)
    requires WithinLimits(setting) && Inv(disk, setting) && Snapshots.Listing(names, disk.live)
    ensures |names| <= INVENTORY_LIMIT
  {
    DistinctSize(names);
    SubsetCount((set name | name in names), setting.original.Keys);
    assert |setting.original.Keys| == |setting.original|;
  }

  /** A listing yields every stale snapshot once. */
  lemma {:induction false} SupersededCount(names: seq<string>, live: map<string, Snapshot>, cutoff: int)
    requires forall i, j :: 0 <= i < j < |names| ==> names[i] != names[j]
    ensures |Superseded(names, live, cutoff)| == |set name | name in names && name in Stale(live, cutoff)|
  {
    var stale := set name | name in names && name in Stale(live, cutoff);
    if names != [] {
      var rest := set name | name in names[1..] && name in Stale(live, cutoff);
      SupersededCount(names[1..], live, cutoff);
      assert names[0] !in rest;
      assert stale == if names[0] in Stale(live, cutoff) then rest + {names[0]} else rest;
    } else {
      assert stale == {};
    }
  }

  lemma ListingStale(names: seq<string>, live: map<string, Snapshot>, cutoff: int)
    requires Snapshots.Listing(names, live)
    ensures |Superseded(names, live, cutoff)| == |Stale(live, cutoff)|
  {
    SupersededCount(names, live, cutoff);
    assert (set name | name in names && name in Stale(live, cutoff)) == Stale(live, cutoff);
  }

  lemma StaleCount(names: seq<string>, disk: Disk, job: string, setting: Setting)
    requires WithinLimits(setting) && Inv(disk, setting) && Snapshots.Listing(names, disk.live) && job in setting.cutoffs
    ensures |Superseded(names, disk.live, setting.cutoffs[job])| <= CANDIDATE_LIMIT
  {
    ListingStale(names, disk.live, setting.cutoffs[job]);
    SubsetCount(Stale(disk.live, setting.cutoffs[job]), Stale(setting.original, setting.cutoffs[job]));
  }

  lemma JournalPlan(disk: Disk, names: seq<string>, job: Job, setting: Setting)
    requires WithinLimits(setting) && Inv(disk, setting) && Snapshots.Listing(names, disk.live)
    requires job.id in setting.cutoffs && setting.cutoffs[job.id] == job.cutoff
    ensures var plan := PlanJournal(disk, names, setting.selected, job);
            var after := ApplyAll(disk, plan.ops);
            && plan.error.None? && OpsOk(disk, plan.ops, setting) && Inv(after, setting)
            && after == disk.(journals := after.journals) && job.id in after.journals
            && after.journals.Keys == disk.journals.Keys + {job.id}
  {
    hide Inv, WithinLimits, Superseded;
    var candidates := Superseded(names, disk.live, job.cutoff);
    SupersededLists(names, disk.live, job.cutoff);
    StaleCount(names, disk, job.id, setting);
    if job.id in disk.journals {
      assert JournalOk(disk, job.id, setting) by { InvJournal(disk, job.id, setting); }
    } else {
      var journal := Journal(setting.selected, job.cutoff, candidates, false);
      NewJournalOk(disk, names, job, setting);
      WriteKeepsInv(disk, job.id, journal, setting);
      assert [WriteJournal(job.id, journal)][1..] == [];
    }
  }

  lemma NewJournalOk(disk: Disk, names: seq<string>, job: Job, setting: Setting)
    requires Inv(disk, setting) && Snapshots.Listing(names, disk.live) && job.id !in disk.journals
    requires job.id in setting.cutoffs && setting.cutoffs[job.id] == job.cutoff && |Superseded(names, disk.live, job.cutoff)| <= CANDIDATE_LIMIT
    ensures var journal := Journal(setting.selected, job.cutoff, Superseded(names, disk.live, job.cutoff), false);
            OpOk(disk, WriteJournal(job.id, journal), setting)
  {
    hide Superseded;
    var candidates := Superseded(names, disk.live, job.cutoff);
    var journal := Journal(setting.selected, job.cutoff, candidates, false);
    SupersededLists(names, disk.live, job.cutoff);
    SupersededDistinct(names, disk.live, job.cutoff);
    forall name | name in disk.live && disk.live[name].created < job.cutoff
      ensures HasCandidate(journal, name)
    {
      assert name in names;
      var k :| 0 <= k < |candidates| && candidates[k].name == name;
      assert journal.candidates[k].name == name;
    }
  }

  /** The eligible jobs of one run carry their own purge times. */
  predicate JobsOk(jobs: seq<Job>, setting: Setting) {
    forall k :: 0 <= k < |jobs| ==> jobs[k].id in setting.cutoffs && setting.cutoffs[jobs[k].id] == jobs[k].cutoff
  }

  predicate HasJob(jobs: seq<Job>, id: string) {
    exists k :: 0 <= k < |jobs| && jobs[k].id == id
  }

  lemma {:induction false} JournalsPlan(disk: Disk, names: seq<string>, jobs: seq<Job>, setting: Setting)
    requires WithinLimits(setting) && Inv(disk, setting) && Snapshots.Listing(names, disk.live) && JobsOk(jobs, setting)
    ensures var plan := PlanJournals(disk, names, setting.selected, jobs);
            var after := ApplyAll(disk, plan.ops);
            && plan.error.None? && OpsOk(disk, plan.ops, setting) && Inv(after, setting)
            && after == disk.(journals := after.journals)
            && (forall job :: job in after.journals <==> job in disk.journals || HasJob(jobs, job))
    decreases jobs
  {
    hide Inv, WithinLimits, PlanJournal, Snapshots.Listing;
    if jobs != [] {
      JournalPlan(disk, names, jobs[0], setting);
      var first := PlanJournal(disk, names, setting.selected, jobs[0]);
      var next := ApplyAll(disk, first.ops);
      JournalsPlan(next, names, jobs[1..], setting);
      var rest := PlanJournals(next, names, setting.selected, jobs[1..]);
      OpsOkConcat(disk, first.ops, rest.ops, setting);
      ApplyConcat(disk, first.ops, rest.ops);
      HasJobCons(jobs);
    }
  }

  lemma HasJobCons(jobs: seq<Job>)
    requires jobs != []
    ensures forall id :: HasJob(jobs, id) <==> id == jobs[0].id || HasJob(jobs[1..], id)
  {
    forall id
      ensures HasJob(jobs, id) <==> id == jobs[0].id || HasJob(jobs[1..], id)
    {
      if HasJob(jobs, id) && id != jobs[0].id {
        var k :| 0 <= k < |jobs| && jobs[k].id == id;
        assert jobs[1..][k - 1].id == id;
      }
      if HasJob(jobs[1..], id) {
        var k :| 0 <= k < |jobs[1..]| && jobs[1..][k].id == id;
        assert jobs[k + 1].id == id;
      }
    }
  }

  lemma {:induction false} ResolvesPlan(disk: Disk, jobs: seq<Job>, setting: Setting)
    requires SettingOk(setting) && Inv(disk, setting) && JobsOk(jobs, setting)
    requires forall k :: 0 <= k < |jobs| ==> jobs[k].id in disk.journals
    ensures var plan := PlanResolves(disk, jobs);
            var after := ApplyAll(disk, plan.ops);
            && plan.error.None? && OpsOk(disk, plan.ops, setting)
            && after.journals.Keys == disk.journals.Keys && after.live.Keys <= disk.live.Keys
            && (forall job :: job in disk.journals && disk.journals[job].resolved ==> after.journals[job].resolved)
            && (forall k :: 0 <= k < |jobs| ==> after.journals[jobs[k].id].resolved)
            && (forall k, name :: 0 <= k < |jobs| && name in after.live && name in setting.original ==> setting.original[name].created >= jobs[k].cutoff)
    decreases jobs
  {
    hide Inv, SettingOk, PlanResolve, OpOk;
    if jobs != [] {
      var first := PlanResolve(disk, jobs[0].id, disk.journals[jobs[0].id]);
      var next := ApplyAll(disk, first.ops);
      ResolvePlan(disk, jobs[0].id, setting);
      PrefixKeepsInv(disk, first.ops, setting, |first.ops|);
      assert first.ops[..|first.ops|] == first.ops;
      InvFacts(disk, jobs[0].id, setting);
      InvFacts(next, jobs[0].id, setting);
      ResolvesPlan(next, jobs[1..], setting);
      var rest := PlanResolves(next, jobs[1..]);
      OpsOkConcat(disk, first.ops, rest.ops, setting);
      ApplyConcat(disk, first.ops, rest.ops);
      var after := ApplyAll(next, rest.ops);
      forall k | 0 <= k < |jobs|
        ensures after.journals[jobs[k].id].resolved
        ensures forall name :: name in after.live && name in setting.original ==> setting.original[name].created >= jobs[k].cutoff
      {
        if k > 0 {
          assert jobs[k] == jobs[1..][k - 1];
        }
      }
    }
  }

  lemma InvFacts(disk: Disk, job: string, setting: Setting)
    requires Inv(disk, setting) && job in disk.journals && job in setting.cutoffs
    ensures disk.journals[job].cutoff == setting.cutoffs[job]
    ensures forall name :: name in disk.live ==> name in setting.original && disk.live[name] == setting.original[name]
  {
    assert JournalOk(disk, job, setting);
  }

  /** Under the invariant a run of any eligible jobs is all protocol writes, ends without error, and resolves its jobs. */
  lemma RunPlan(disk: Disk, names: seq<string>, jobs: seq<Job>, setting: Setting)
    requires SettingOk(setting) && Inv(disk, setting) && Snapshots.Listing(names, disk.live) && JobsOk(jobs, setting)
    ensures var plan := PlanRun(disk, names, setting.selected, jobs);
            var after := ApplyAll(disk, plan.ops);
            && plan.error.None? && OpsOk(disk, plan.ops, setting)
            && (forall job :: job in after.journals <==> job in disk.journals || HasJob(jobs, job))
            && (forall k :: 0 <= k < |jobs| ==> jobs[k].id in after.journals && after.journals[jobs[k].id].resolved)
            && (forall k, name :: 0 <= k < |jobs| && name in after.live && name in setting.original ==> setting.original[name].created >= jobs[k].cutoff)
  {
    assert WithinLimits(setting);
    hide Inv, SettingOk, WithinLimits, PlanJournals, PlanResolves, OpOk, Snapshots.Listing;
    ListingCount(names, disk, setting);
    SelectedStays(disk, setting);
    JournalsPlan(disk, names, jobs, setting);
    var journals := PlanJournals(disk, names, setting.selected, jobs);
    var prepared := ApplyAll(disk, journals.ops);
    PrefixKeepsInv(disk, journals.ops, setting, |journals.ops|);
    assert journals.ops[..|journals.ops|] == journals.ops;
    forall k | 0 <= k < |jobs|
      ensures jobs[k].id in prepared.journals
    {
      assert HasJob(jobs, jobs[k].id);
    }
    ResolvesPlan(prepared, jobs, setting);
    var resolves := PlanResolves(prepared, jobs);
    OpsOkConcat(disk, journals.ops, resolves.ops, setting);
    ApplyConcat(disk, journals.ops, resolves.ops);
  }

  // ---------------------------------------------------------------------------------------------
  // Interrupted runs

  /** One run over the listed snapshots that made only its first `writes` writes. */
  datatype Attempt = Attempt(names: seq<string>, jobs: seq<Job>, writes: nat)

  ghost predicate Attempted(before: Disk, after: Disk, attempt: Attempt, setting: Setting) {
    && Snapshots.Listing(attempt.names, before.live) && JobsOk(attempt.jobs, setting)
    && var ops := PlanRun(before, attempt.names, setting.selected, attempt.jobs).ops;
    && attempt.writes <= |ops| && after == ApplyAll(before, ops[..attempt.writes])
  }

  /** Any number of interrupted runs, starting with nothing prepared. */
  ghost predicate History(disks: seq<Disk>, attempts: seq<Attempt>, setting: Setting) {
    && |disks| == |attempts| + 1
    && disks[0] == Disk(setting.original, map[], map[])
    && forall n :: 0 <= n < |attempts| ==> Attempted(disks[n], disks[n + 1], attempts[n], setting)
  }

  lemma StartKeepsInv(setting: Setting)
    ensures Inv(Disk(setting.original, map[], map[]), setting)
  {
  }

  lemma {:induction false} HistoryKeepsInv(disks: seq<Disk>, attempts: seq<Attempt>, setting: Setting, n: nat)
    requires SettingOk(setting) && History(disks, attempts, setting) && n < |disks|
    ensures Inv(disks[n], setting)
  {
    hide Inv, SettingOk, PlanRun;
    if n == 0 {
      StartKeepsInv(setting);
    } else {
      HistoryKeepsInv(disks, attempts, setting, n - 1);
      var attempt := attempts[n - 1];
      assert Attempted(disks[n - 1], disks[n], attempt, setting);
      RunPlan(disks[n - 1], attempt.names, attempt.jobs, setting);
      PrefixKeepsInv(disks[n - 1], PlanRun(disks[n - 1], attempt.names, setting.selected, attempt.jobs).ops, setting, attempt.writes);
    }
  }

  /** A full run succeeds and leaves exactly the snapshots taken at or after all purges, and no tombstone. */
  ghost predicate Ends(disk: Disk, names: seq<string>, jobs: seq<Job>, setting: Setting) {
    var plan := PlanRun(disk, names, setting.selected, jobs);
    var after := ApplyAll(disk, plan.ops);
    && plan.error.None?
    && after.tombs == map[]
    && (forall name :: name in after.live <==> name in setting.original && forall k :: 0 <= k < |jobs| ==> setting.original[name].created >= jobs[k].cutoff)
    && (forall name :: name in after.live ==> after.live[name] == setting.original[name])
    && (setting.selected.Some? ==> setting.selected.value in after.live)
    && (forall k :: 0 <= k < |jobs| ==> jobs[k].id in after.journals && after.journals[jobs[k].id].resolved)
  }

  /** After any interrupted runs, in any order of names and jobs, a full run that covers every prepared job ends well. */
  lemma InterruptedRunsConverge(disks: seq<Disk>, attempts: seq<Attempt>, names: seq<string>, jobs: seq<Job>, setting: Setting)
    requires SettingOk(setting) && History(disks, attempts, setting) && JobsOk(jobs, setting)
    requires var disk := disks[|attempts|]; Snapshots.Listing(names, disk.live) && forall job :: job in disk.journals ==> HasJob(jobs, job)
    ensures Ends(disks[|attempts|], names, jobs, setting)
  {
    hide PlanRun, History, SettingOk, JobsOk, Attempted, Snapshots.Listing;
    HistoryLength(disks, attempts, setting);
    var disk := disks[|attempts|];
    HistoryKeepsInv(disks, attempts, setting, |attempts|);
    RunPlan(disk, names, jobs, setting);
    var plan := PlanRun(disk, names, setting.selected, jobs);
    PrefixKeepsInv(disk, plan.ops, setting, |plan.ops|);
    assert plan.ops[..|plan.ops|] == plan.ops;
    Converged(ApplyAll(disk, plan.ops), jobs, setting);
  }

  lemma HistoryLength(disks: seq<Disk>, attempts: seq<Attempt>, setting: Setting)
    requires History(disks, attempts, setting)
    ensures |disks| == |attempts| + 1
  {
  }

  lemma Converged(after: Disk, jobs: seq<Job>, setting: Setting)
    requires SettingOk(setting) && Inv(after, setting) && JobsOk(jobs, setting)
    requires forall job :: job in after.journals ==> HasJob(jobs, job)
    requires forall k :: 0 <= k < |jobs| ==> jobs[k].id in after.journals && after.journals[jobs[k].id].resolved
    requires forall k, name :: 0 <= k < |jobs| && name in after.live && name in setting.original ==> setting.original[name].created >= jobs[k].cutoff
    ensures after.tombs == map[]
    ensures forall name :: name in after.live <==> name in setting.original && forall k :: 0 <= k < |jobs| ==> setting.original[name].created >= jobs[k].cutoff
    ensures setting.selected.Some? ==> setting.selected.value in after.live
  {
    SelectedStays(after, setting);
    forall job | job in after.journals
      ensures after.journals[job].resolved
    {
      var k :| 0 <= k < |jobs| && jobs[k].id == job;
    }
    forall receipt
      ensures receipt !in after.tombs
    {
      if receipt in after.tombs {
        NoPending(after, setting, receipt);
      }
    }
    forall name | name in setting.original && name !in after.live
      ensures exists k :: 0 <= k < |jobs| && setting.original[name].created < jobs[k].cutoff
    {
      RemovedWasOld(after, name, setting);
      var job :| job in after.journals && job in setting.cutoffs && setting.original[name].created < setting.cutoffs[job];
      var k :| 0 <= k < |jobs| && jobs[k].id == job;
    }
  }

  lemma NoPending(disk: Disk, setting: Setting, receipt: string)
    requires Inv(disk, setting) && receipt in disk.tombs
    ensures exists job :: job in disk.journals && !disk.journals[job].resolved
  {
    assert TombOk(disk, receipt, setting);
  }

  // ---------------------------------------------------------------------------------------------
  // How twins with two jobs wedge

  /** Two snapshots with one receipt, and a clean replacement. */
  const TWINS: Disk := Disk(map["a" := Snapshot("twin", 1, 0), "b" := Snapshot("twin", 1, 0), "c" := Snapshot("clean", 9, 0)], map[], map[])

  const TWIN_JOURNAL := Journal(Some("c"), 5, [Candidate("a", "twin", 1), Candidate("b", "twin", 1)], false)

  /** A run for job `2` that stopped right after its first rename. */
  const STOPPED := Disk(map["b" := Snapshot("twin", 1, 0), "c" := Snapshot("clean", 9, 0)], map["twin" := 0], map["2" := TWIN_JOURNAL])

  const LATE_JOURNAL := Journal(Some("c"), 5, [Candidate("b", "twin", 1)], false)

  lemma FirstWriteEntombs(disk: Disk, jobs: seq<Job>)
    requires jobs != [] && jobs[0].id in disk.journals
    requires var journal := disk.journals[jobs[0].id];
             && journal.candidates != [] && (journal.selected.Some? ==> journal.selected.value in disk.live)
             && var candidate := journal.candidates[0];
             && candidate.created < journal.cutoff && Some(candidate.name) != journal.selected
             && candidate.name in disk.live && disk.live[candidate.name].receipt == candidate.receipt && candidate.receipt !in disk.tombs
    ensures var ops := PlanResolves(disk, jobs).ops;
            ops != [] && ops[0] == Entomb(disk.journals[jobs[0].id].candidates[0].name)
  {
    hide RemoveTree;
    var journal := disk.journals[jobs[0].id];
    var first := PlanCandidate(disk, journal.candidates[0], journal.selected, journal.cutoff);
    assert first.ops[0] == Entomb(journal.candidates[0].name);
    var plan := PlanCandidates(disk, journal.candidates, journal.selected, journal.cutoff);
    assert plan.ops[0] == first.ops[0];
  }

  lemma TwinsPrepare()
    ensures PlanJournals(TWINS, ["a", "b", "c"], Some("c"), [Job("2", 5)]) == Planned([WriteJournal("2", TWIN_JOURNAL)], None)
  {
    var names, jobs := ["a", "b", "c"], [Job("2", 5)];
    assert names[1..] == ["b", "c"] && ["b", "c"][1..] == ["c"] && ["c"][1..] == [];
    assert Superseded(names, TWINS.live, 5) == TWIN_JOURNAL.candidates;
    assert PlanJournal(TWINS, names, Some("c"), jobs[0]) == Planned([WriteJournal("2", TWIN_JOURNAL)], None);
    assert jobs[1..] == [];
  }

  lemma TwinsStop()
    ensures var plan := PlanRun(TWINS, ["a", "b", "c"], Some("c"), [Job("2", 5)]);
            |plan.ops| >= 2 && ApplyAll(TWINS, plan.ops[..2]) == STOPPED
  {
    hide PlanJournals, PlanResolves;
    TwinsPrepare();
    var write, entomb := WriteJournal("2", TWIN_JOURNAL), Entomb("a");
    var prepared := Apply(TWINS, write);
    assert [write][1..] == [];
    assert ApplyAll(TWINS, [write]) == prepared;
    FirstWriteEntombs(prepared, [Job("2", 5)]);
    var plan := PlanRun(TWINS, ["a", "b", "c"], Some("c"), [Job("2", 5)]);
    assert plan.ops[..2] == [write, entomb];
    assert [write, entomb][1..] == [entomb] && [entomb][1..] == [];
    assert Apply(prepared, entomb) == STOPPED;
    assert ApplyAll(prepared, [entomb]) == STOPPED;
    assert ApplyAll(TWINS, [write, entomb]) == ApplyAll(prepared, [entomb]);
  }

  /** Resolving the late journal runs into the tombstone of the other twin before its first write. */
  lemma LateFails(disk: Disk, jobs: seq<Job>)
    requires disk.live == STOPPED.live && disk.tombs == STOPPED.tombs && jobs != [] && jobs[0].id in disk.journals
    requires disk.journals[jobs[0].id] == LATE_JOURNAL
    ensures PlanResolves(disk, jobs) == Planned([], Some(UnsafeTombstone))
  {
  }

  /**
    With a shared receipt the runs can wedge. After that stop, job `1` becomes eligible and sorts
    first: its run prepares a journal and fails on the tombstone, and so does every later run, because
    it then makes no further write.
   */
  lemma SharedReceiptWedges()
    ensures var jobs := [Job("1", 5), Job("2", 5)];
            var second := PlanRun(STOPPED, ["b", "c"], Some("c"), jobs);
            && second == Planned([WriteJournal("1", LATE_JOURNAL)], Some(UnsafeTombstone))
            && PlanRun(ApplyAll(STOPPED, second.ops), ["b", "c"], Some("c"), jobs) == Planned([], Some(UnsafeTombstone))
  {
    hide PlanResolves;
    var names, jobs := ["b", "c"], [Job("1", 5), Job("2", 5)];
    assert names[1..] == ["c"] && ["c"][1..] == [] && jobs[1..] == [Job("2", 5)] && [Job("2", 5)][1..] == [];
    assert Superseded(names, STOPPED.live, 5) == LATE_JOURNAL.candidates;
    var write := WriteJournal("1", LATE_JOURNAL);
    var prepared := Apply(STOPPED, write);
    assert [write][1..] == [];
    assert ApplyAll(STOPPED, [write]) == prepared;
    assert PlanJournal(STOPPED, names, Some("c"), jobs[0]) == Planned([write], None);
    assert PlanJournals(prepared, names, Some("c"), [Job("2", 5)]) == Planned([], None);
    assert PlanJournals(STOPPED, names, Some("c"), jobs) == Planned([write], None);
    LateFails(prepared, jobs);
    assert PlanJournal(prepared, names, Some("c"), jobs[0]) == Planned([], None);
    assert PlanJournals(prepared, names, Some("c"), jobs) == Planned([], None);
  }
}
