/**
  What interrupted runs never do, whatever the receipts and however many snapshots: they remove nothing
  that was taken at or after every purge, and change nothing that they leave.
 */
module SnapshotSafety {
  import opened Wrappers
  import opened Snapshots
  import opened SnapshotConvergence

  /** Taken before the purge of some job. */
  ghost predicate Old(name: string, setting: Setting) {
    name in setting.original && exists job :: job in setting.cutoffs && setting.original[name].created < setting.cutoffs[job]
  }

  predicate SoundJournal(journal: Journal, job: string, setting: Setting) {
    && job in setting.cutoffs && journal.cutoff == setting.cutoffs[job]
    && forall k :: 0 <= k < |journal.candidates| ==> CandidateOk(journal.candidates[k], journal.cutoff, setting)
  }

  ghost predicate Safe(disk: Disk, setting: Setting) {
    && (forall name :: name in disk.live ==> name in setting.original && disk.live[name] == setting.original[name])
    && (forall name :: name in setting.original && name !in disk.live ==> Old(name, setting))
    && forall job :: job in disk.journals ==> SoundJournal(disk.journals[job], job, setting)
  }

  /** A write that is harmless on every safe disk. */
  ghost predicate SafeOp(op: Op, setting: Setting) {
    match op
    case WriteJournal(job, journal) => SoundJournal(journal, job, setting)
    case Entomb(name) => Old(name, setting)
    case _ => true
  }

  ghost predicate SafeOps(ops: seq<Op>, setting: Setting) {
    forall k :: 0 <= k < |ops| ==> SafeOp(ops[k], setting)
  }

  lemma {:induction false} OpKeepsSafe(disk: Disk, op: Op, setting: Setting)
    requires Safe(disk, setting) && SafeOp(op, setting)
    ensures Safe(Apply(disk, op), setting)
  {
    hide Old, CandidateOk;
  }

  lemma {:induction false} OpsKeepSafe(disk: Disk, ops: seq<Op>, setting: Setting)
    requires Safe(disk, setting) && SafeOps(ops, setting)
    ensures Safe(ApplyAll(disk, ops), setting)
    decreases ops
  {
    hide Safe, SafeOp;
    if ops != [] {
      OpKeepsSafe(disk, ops[0], setting);
      OpsKeepSafe(Apply(disk, ops[0]), ops[1..], setting);
    }
  }

  lemma {:induction false} RemoveTreeSafe(receipt: string, files: nat, setting: Setting)
    ensures SafeOps(RemoveTree(receipt, files), setting)
  {
    if files > 0 {
      RemoveTreeSafe(receipt, files - 1, setting);
    }
  }

  lemma {:induction false} CandidateSafe(disk: Disk, candidate: Candidate, selected: Option<string>, job: string, setting: Setting)
    requires job in setting.cutoffs && CandidateOk(candidate, setting.cutoffs[job], setting)
    ensures SafeOps(PlanCandidate(disk, candidate, selected, setting.cutoffs[job]).ops, setting)
  {
    hide RemoveTree;
    if candidate.name in disk.live {
      RemoveTreeSafe(candidate.receipt, disk.live[candidate.name].files, setting);
    }
    if candidate.receipt in disk.tombs {
      RemoveTreeSafe(candidate.receipt, disk.tombs[candidate.receipt], setting);
    }
    assert Old(candidate.name, setting);
  }

  lemma {:induction false} CandidatesSafe(disk: Disk, candidates: seq<Candidate>, selected: Option<string>, job: string, setting: Setting)
    requires job in setting.cutoffs && forall k :: 0 <= k < |candidates| ==> CandidateOk(candidates[k], setting.cutoffs[job], setting)
    ensures SafeOps(PlanCandidates(disk, candidates, selected, setting.cutoffs[job]).ops, setting)
    decreases candidates
  {
    hide PlanCandidate, SafeOp, CandidateOk;
    if candidates != [] {
      CandidateSafe(disk, candidates[0], selected, job, setting);
      var first := PlanCandidate(disk, candidates[0], selected, setting.cutoffs[job]);
      CandidatesSafe(ApplyAll(disk, first.ops), candidates[1..], selected, job, setting);
    }
  }

  lemma {:induction false} ResolvesSafe(disk: Disk, jobs: seq<Job>, setting: Setting)
    requires Safe(disk, setting)
    ensures SafeOps(PlanResolves(disk, jobs).ops, setting)
    decreases jobs
  {
    hide PlanCandidates, Old;
    if jobs != [] && jobs[0].id in disk.journals {
      var journal := disk.journals[jobs[0].id];
      assert SoundJournal(journal, jobs[0].id, setting);
      CandidatesSafe(disk, journal.candidates, journal.selected, jobs[0].id, setting);
      var first := PlanResolve(disk, jobs[0].id, journal);
      assert SafeOps(first.ops, setting);
      OpsKeepSafe(disk, first.ops, setting);
      ResolvesSafe(ApplyAll(disk, first.ops), jobs[1..], setting);
    }
  }

  lemma {:induction false} JournalsSafe(disk: Disk, names: seq<string>, selected: Option<string>, jobs: seq<Job>, setting: Setting)
    requires Safe(disk, setting) && JobsOk(jobs, setting)
    ensures SafeOps(PlanJournals(disk, names, selected, jobs).ops, setting)
    decreases jobs
  {
    hide Superseded, Old;
    if jobs != [] {
      SupersededLists(names, disk.live, jobs[0].cutoff);
      var first := PlanJournal(disk, names, selected, jobs[0]);
      assert SafeOps(first.ops, setting);
      OpsKeepSafe(disk, first.ops, setting);
      JournalsSafe(ApplyAll(disk, first.ops), names, selected, jobs[1..], setting);
    }
  }

  /** Every write that any run plans on a safe disk is harmless. */
  lemma {:induction false} RunSafe(disk: Disk, names: seq<string>, jobs: seq<Job>, setting: Setting)
    requires Safe(disk, setting) && JobsOk(jobs, setting)
    ensures SafeOps(PlanRun(disk, names, setting.selected, jobs).ops, setting)
  {
    hide Safe, SafeOp, PlanJournals, PlanResolves, JobsOk;
    JournalsSafe(disk, names, setting.selected, jobs, setting);
    var journals := PlanJournals(disk, names, setting.selected, jobs);
    OpsKeepSafe(disk, journals.ops, setting);
    ResolvesSafe(ApplyAll(disk, journals.ops), jobs, setting);
  }

  lemma {:induction false} HistoryKeepsSafe(disks: seq<Disk>, attempts: seq<Attempt>, setting: Setting, n: nat)
    requires History(disks, attempts, setting) && n < |disks|
    ensures Safe(disks[n], setting)
  {
    if n > 0 {
      HistoryKeepsSafe(disks, attempts, setting, n - 1);
      var attempt := attempts[n - 1];
      assert Attempted(disks[n - 1], disks[n], attempt, setting);
      hide Safe, PlanRun, SafeOp;
      RunSafe(disks[n - 1], attempt.names, attempt.jobs, setting);
      var ops := PlanRun(disks[n - 1], attempt.names, setting.selected, attempt.jobs).ops;
      OpsKeepSafe(disks[n - 1], ops[..attempt.writes], setting);
    }
  }

  /**
    Wherever runs stopped, with or without an error, every snapshot taken at or after all purges is
    still there, and what is still visible is unchanged.
   */
  lemma CleanSnapshotsUntouched(disks: seq<Disk>, attempts: seq<Attempt>, setting: Setting, n: nat)
    requires History(disks, attempts, setting) && n < |disks|
    ensures forall name :: name in setting.original && name !in disks[n].live ==>
      exists job :: job in setting.cutoffs && setting.original[name].created < setting.cutoffs[job]
    ensures forall name :: name in disks[n].live ==> name in setting.original && disks[n].live[name] == setting.original[name]
  {
    HistoryKeepsSafe(disks, attempts, setting, n);
    hide History;
    assert forall name :: name in setting.original && name !in disks[n].live ==> Old(name, setting);
  }
}
