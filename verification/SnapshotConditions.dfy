/**
  Exactly when snapshot resolution succeeds: a first run by its limits, and interrupted runs by whether
  two snapshots under one receipt are stale for two jobs.
 */
module SnapshotConditions {
  import opened Counting
  import opened Wrappers
  import opened Snapshots
  import opened SnapshotConvergence
  import Sorting

  // ---------------------------------------------------------------------------------------------
  // A first run

  /** What resolving one candidate after another needs when there is no tombstone. */
  predicate Clearable(disk: Disk, candidates: seq<Candidate>, selected: Option<string>, cutoff: int) {
    && disk.tombs == map[]
    && forall k :: 0 <= k < |candidates| ==>
        && candidates[k].created < cutoff && Some(candidates[k].name) != selected
        && (candidates[k].name in disk.live ==> disk.live[candidates[k].name].receipt == candidates[k].receipt)
  }

  lemma {:induction false} RemoveTreeClears(disk: Disk, receipt: string, files: nat)
    requires receipt in disk.tombs && disk.tombs[receipt] == files
    ensures ApplyAll(disk, RemoveTree(receipt, files)) == disk.(tombs := disk.tombs - {receipt})
  {
    RemoveTreeOps(disk, receipt, files, Setting(map[], None, map[]));
  }

  /** Renaming a visible snapshot and removing the tombstone takes just that snapshot away. */
  lemma EntombClears(disk: Disk, name: string)
    requires name in disk.live && disk.live[name].receipt !in disk.tombs
    ensures ApplyAll(disk, [Entomb(name)] + RemoveTree(disk.live[name].receipt, disk.live[name].files)) == disk.(live := disk.live - {name})
  {
    hide RemoveTree;
    var receipt, files := disk.live[name].receipt, disk.live[name].files;
    var next := Apply(disk, Entomb(name));
    RemoveTreeClears(next, receipt, files);
    assert ([Entomb(name)] + RemoveTree(receipt, files))[1..] == RemoveTree(receipt, files);
    assert next.tombs - {receipt} == disk.tombs;
  }

  function Named(candidates: seq<Candidate>): set<string> {
    set k | 0 <= k < |candidates| :: candidates[k].name
  }

  lemma NamedCons(candidates: seq<Candidate>)
    requires candidates != []
    ensures Named(candidates) == {candidates[0].name} + Named(candidates[1..])
  {
    forall k | 0 < k < |candidates|
      ensures candidates[k].name in Named(candidates[1..])
    {
      assert candidates[1..][k - 1] == candidates[k];
    }
  }

  lemma FirstClears(disk: Disk, candidates: seq<Candidate>, selected: Option<string>, cutoff: int)
    requires candidates != [] && Clearable(disk, candidates, selected, cutoff)
    ensures var plan := PlanCandidate(disk, candidates[0], selected, cutoff);
            var next := disk.(live := disk.live - {candidates[0].name});
            && plan.error.None? && ApplyAll(disk, plan.ops) == next
            && Clearable(next, candidates[1..], selected, cutoff)
  {
    hide RemoveTree;
    if candidates[0].name in disk.live {
      EntombClears(disk, candidates[0].name);
    } else {
      assert disk.live - {candidates[0].name} == disk.live;
    }
  }

  lemma {:induction false} ClearablePlan(disk: Disk, candidates: seq<Candidate>, selected: Option<string>, cutoff: int)
    requires Clearable(disk, candidates, selected, cutoff)
    ensures var plan := PlanCandidates(disk, candidates, selected, cutoff);
            plan.error.None? && ApplyAll(disk, plan.ops) == disk.(live := disk.live - Named(candidates))
    decreases candidates
  {
    hide Clearable, PlanCandidate, Named;
    if candidates == [] {
      assert disk.live - Named(candidates) == disk.live by { NamedNone(); }
    } else {
      FirstClears(disk, candidates, selected, cutoff);
      NamedCons(candidates);
      var first := PlanCandidate(disk, candidates[0], selected, cutoff);
      var next := ApplyAll(disk, first.ops);
      ClearablePlan(next, candidates[1..], selected, cutoff);
      ApplyConcat(disk, first.ops, PlanCandidates(next, candidates[1..], selected, cutoff).ops);
      assert next.live - Named(candidates[1..]) == disk.live - Named(candidates);
    }
  }

  lemma NamedNone()
    ensures Named([]) == {}
  {
  }

  /** Every journal lists what is visible and stale for its job, and describes only original snapshots. */
  ghost predicate Covered(disk: Disk, setting: Setting) {
    && disk.tombs == map[]
    && (forall name :: name in disk.live ==> name in setting.original && disk.live[name] == setting.original[name])
    && (setting.selected.Some? ==> setting.selected.value in disk.live)
    && forall job :: job in disk.journals ==> JournalCovers(disk.live, disk.journals[job], job, setting)
  }

  ghost predicate JournalCovers(live: map<string, Snapshot>, journal: Journal, job: string, setting: Setting) {
    && job in setting.cutoffs && journal.cutoff == setting.cutoffs[job] && journal.selected == setting.selected
    && (forall k :: 0 <= k < |journal.candidates| ==> CandidateOk(journal.candidates[k], journal.cutoff, setting))
    && forall name :: name in live && live[name].created < journal.cutoff ==> HasCandidate(journal, name)
  }

  lemma CoveredClearable(disk: Disk, job: string, setting: Setting)
    requires Covered(disk, setting) && ReplacementOk(setting) && job in disk.journals
    ensures var journal := disk.journals[job]; Clearable(disk, journal.candidates, journal.selected, journal.cutoff)
  {
    var journal := disk.journals[job];
    assert JournalCovers(disk.live, journal, job, setting);
    forall k | 0 <= k < |journal.candidates|
      ensures Some(journal.candidates[k].name) != journal.selected
    {
      assert CandidateOk(journal.candidates[k], journal.cutoff, setting);
    }
  }

  /** Once the candidates of a covering journal are gone, nothing stale is visible, and the replacement stays. */
  lemma CoveredCleared(disk: Disk, job: string, setting: Setting)
    requires Covered(disk, setting) && ReplacementOk(setting) && job in disk.journals
    ensures var live := disk.live - Named(disk.journals[job].candidates);
            !AnyBefore(live, disk.journals[job].cutoff) && (setting.selected.Some? ==> setting.selected.value in live)
  {
    var journal := disk.journals[job];
    assert JournalCovers(disk.live, journal, job, setting);
    CoveredClearable(disk, job, setting);
    hide CandidateOk, ReplacementOk;
    forall name | HasCandidate(journal, name)
      ensures name in Named(journal.candidates)
    {
      var k :| 0 <= k < |journal.candidates| && journal.candidates[k].name == name;
    }
  }

  lemma CoveredResolve(disk: Disk, job: string, setting: Setting)
    requires Covered(disk, setting) && ReplacementOk(setting) && job in disk.journals
    ensures var plan := PlanResolve(disk, job, disk.journals[job]);
            var after := ApplyAll(disk, plan.ops);
            plan.error.None? && Covered(after, setting) && after.journals.Keys == disk.journals.Keys
  {
    var journal := disk.journals[job];
    CoveredClearable(disk, job, setting);
    CoveredCleared(disk, job, setting);
    assert JournalCovers(disk.live, journal, job, setting);
    hide Clearable, ReplacementOk, PlanCandidates, Named, JournalCovers;
    ClearablePlan(disk, journal.candidates, journal.selected, journal.cutoff);
    var plan := PlanCandidates(disk, journal.candidates, journal.selected, journal.cutoff);
    var cleared := ApplyAll(disk, plan.ops);
    ShrinkStaysCovered(disk, cleared, setting);
    if journal.resolved {
      assert plan.ops + [] == plan.ops;
    } else {
      ApplyConcat(disk, plan.ops, [MarkResolved(job)]);
      assert [MarkResolved(job)][1..] == [];
      MarkStaysCovered(cleared, job, setting);
    }
  }

  lemma ShrinkStaysCovered(disk: Disk, after: Disk, setting: Setting)
    requires Covered(disk, setting) && after == disk.(live := after.live)
    requires after.live.Keys <= disk.live.Keys && forall name :: name in after.live ==> after.live[name] == disk.live[name]
    requires setting.selected.Some? ==> setting.selected.value in after.live
    ensures Covered(after, setting)
  {
    hide CandidateOk, HasCandidate;
    forall job | job in after.journals
      ensures JournalCovers(after.live, after.journals[job], job, setting)
    {
      assert JournalCovers(disk.live, disk.journals[job], job, setting);
    }
  }

  lemma MarkStaysCovered(disk: Disk, job: string, setting: Setting)
    requires Covered(disk, setting) && job in disk.journals
    ensures Covered(Apply(disk, MarkResolved(job)), setting)
  {
    hide CandidateOk, HasCandidate;
    var after := Apply(disk, MarkResolved(job));
    MarkedCandidates(disk.journals[job]);
    forall other | other in after.journals
      ensures JournalCovers(after.live, after.journals[other], other, setting)
    {
      assert JournalCovers(disk.live, disk.journals[other], other, setting);
    }
  }

  lemma {:induction false} CoveredResolves(disk: Disk, jobs: seq<Job>, setting: Setting)
    requires Covered(disk, setting) && ReplacementOk(setting)
    requires forall k :: 0 <= k < |jobs| ==> jobs[k].id in disk.journals
    ensures PlanResolves(disk, jobs).error.None?
    decreases jobs
  {
    hide Covered, PlanResolve, ReplacementOk;
    if jobs != [] {
      CoveredResolve(disk, jobs[0].id, setting);
      var first := PlanResolve(disk, jobs[0].id, disk.journals[jobs[0].id]);
      CoveredResolves(ApplyAll(disk, first.ops), jobs[1..], setting);
    }
  }

  lemma InvCovers(disk: Disk, setting: Setting)
    requires Inv(disk, setting) && disk.tombs == map[] && (setting.selected.Some? ==> setting.selected.value in disk.live)
    ensures Covered(disk, setting)
  {
    hide CandidateOk, HasCandidate, TwinsInOrder, Gone, DistinctNames;
    forall job | job in disk.journals
      ensures JournalCovers(disk.live, disk.journals[job], job, setting)
    {
      InvJournal(disk, job, setting);
    }
  }

  lemma {:induction false} JournalsRefuse(disk: Disk, names: seq<string>, selected: Option<string>, jobs: seq<Job>, k: nat)
    requires k < |jobs| && |Superseded(names, disk.live, jobs[k].cutoff)| > CANDIDATE_LIMIT
    ensures PlanJournals(disk, names, selected, jobs).error.Some?
    decreases jobs
  {
    hide Superseded;
    if k > 0 {
      var first := PlanJournal(disk, names, selected, jobs[0]);
      if first.ops != [] {
        assert first.ops[1..] == [];
      }
      assert ApplyAll(disk, first.ops).live == disk.live && jobs[1..][k - 1] == jobs[k];
      JournalsRefuse(ApplyAll(disk, first.ops), names, selected, jobs[1..], k - 1);
    }
  }

  lemma FirstRunWithinLimits(names: seq<string>, jobs: seq<Job>, setting: Setting)
    requires WithinLimits(setting) && ReplacementOk(setting) && Snapshots.Listing(names, setting.original) && JobsOk(jobs, setting)
    ensures PlanRun(Disk(setting.original, map[], map[]), names, setting.selected, jobs).error.None?
  {
    var disk := Disk(setting.original, map[], map[]);
    StartKeepsInv(setting);
    ListingCount(names, disk, setting);
    hide Inv, WithinLimits, PlanJournals, PlanResolves, Snapshots.Listing;
    JournalsPlan(disk, names, jobs, setting);
    var prepared := ApplyAll(disk, PlanJournals(disk, names, setting.selected, jobs).ops);
    InvCovers(prepared, setting);
    forall k | 0 <= k < |jobs|
      ensures jobs[k].id in prepared.journals
    {
      assert HasJob(jobs, jobs[k].id);
    }
    CoveredResolves(prepared, jobs, setting);
  }

  /**
    With a replacement newer than the purges, a first run of all jobs succeeds exactly when the
    inventory and the stale snapshots of each job keep to their limits, whatever the receipts.
   */
  lemma FirstRunSucceedsIff(names: seq<string>, jobs: seq<Job>, setting: Setting)
    requires ReplacementOk(setting) && Snapshots.Listing(names, setting.original)
    requires JobsOk(jobs, setting) && forall id :: id in setting.cutoffs ==> HasJob(jobs, id)
    ensures PlanRun(Disk(setting.original, map[], map[]), names, setting.selected, jobs).error.None? <==> WithinLimits(setting)
  {
    hide ReplacementOk, PlanJournals, PlanResolves, Superseded;
    var disk := Disk(setting.original, map[], map[]);
    if WithinLimits(setting) {
      FirstRunWithinLimits(names, jobs, setting);
    } else if |setting.original| > INVENTORY_LIMIT {
      DistinctSize(names);
      assert (set name | name in names) == setting.original.Keys;
      assert |setting.original.Keys| == |setting.original|;
    } else {
      var id :| id in setting.cutoffs && |Stale(setting.original, setting.cutoffs[id])| > CANDIDATE_LIMIT;
      assert HasJob(jobs, id);
      var k :| 0 <= k < |jobs| && jobs[k].id == id;
      ListingStale(names, setting.original, setting.cutoffs[id]);
      JournalsRefuse(disk, names, setting.selected, jobs, k);
    }
  }

  // ---------------------------------------------------------------------------------------------
  // Interrupted runs

  /** Jobs in the order of their request files. */
  predicate JobOrder(jobs: seq<Job>) {
    forall i, j :: 0 <= i < j < |jobs| ==> Sorting.TextBefore(jobs[i].id, jobs[j].id) && jobs[i].id != jobs[j].id
  }

  /** Interrupted runs and a full one that covers every prepared job, each over sorted names and sorted requests. */
  ghost predicate FullRun(disks: seq<Disk>, attempts: seq<Attempt>, names: seq<string>, jobs: seq<Job>, setting: Setting) {
    && History(disks, attempts, setting)
    && (forall n :: 0 <= n < |attempts| ==> Sorting.Ascending(attempts[n].names) && JobOrder(attempts[n].jobs))
    && Sorting.Ascending(names) && JobOrder(jobs) && JobsOk(jobs, setting)
    && var disk := disks[|attempts|];
      Snapshots.Listing(names, disk.live) && forall job :: job in disk.journals ==> HasJob(jobs, job)
  }

  ghost predicate Converges(setting: Setting) {
    forall disks, attempts, names, jobs :: FullRun(disks, attempts, names, jobs, setting) ==> Ends(disks[|attempts|], names, jobs, setting)
  }

  /**
    Convergence, exactly: every full run after interrupted runs ends well if and only if no two
    snapshots under one receipt are stale for two jobs.
   */
  lemma ConvergesIff(setting: Setting)
    requires WithinLimits(setting) && ReplacementOk(setting) && ReceiptsDated(setting)
    ensures Converges(setting) <==> TwinsHaveOneJob(setting)
  {
    if TwinsHaveOneJob(setting) {
      hide WithinLimits, ReplacementOk, ReceiptsDated, TwinsHaveOneJob, Ends, JobOrder, Sorting.Ascending;
      forall disks, attempts, names, jobs | FullRun(disks, attempts, names, jobs, setting)
        ensures Ends(disks[|attempts|], names, jobs, setting)
      {
        InterruptedRunsConverge(disks, attempts, names, jobs, setting);
      }
    } else {
      var m, n, i, j :| Twins(setting, m, n) && StaleFor(setting, m, i) && StaleFor(setting, n, j) && i != j;
      assert setting.original[m].created == setting.original[n].created;
      hide WithinLimits, ReplacementOk, Converges, TwinsHaveOneJob;
      Sorting.TextTotal(i, j);
      if Sorting.TextBefore(i, j) {
        TwinsWedge(setting, m, n, i, j);
      } else {
        TwinsWedge(setting, m, n, j, i);
      }
    }
  }

  /** Of two snapshots that a plan removes, one is renamed first, while the other is still there. */
  lemma {:induction false} FirstToLeave(disk: Disk, ops: seq<Op>, m: string, n: string) returns (t: nat, gone: string, left: string)
    requires m != n && m in disk.live && n in disk.live && m !in ApplyAll(disk, ops).live
    ensures t < |ops| && {gone, left} == {m, n} && gone != left
    ensures ops[t] == Entomb(gone) && gone in ApplyAll(disk, ops[..t]).live && left in ApplyAll(disk, ops[..t]).live
    decreases ops
  {
    assert ops != [];
    var next := Apply(disk, ops[0]);
    if m in next.live && n in next.live {
      t, gone, left := FirstToLeave(next, ops[1..], m, n);
      assert ops[..t + 1][0] == ops[0] && ops[..t + 1][1..] == ops[1..][..t];
      assert ApplyAll(disk, ops[..t + 1]) == ApplyAll(next, ops[1..][..t]);
      t := t + 1;
    } else {
      t := 0;
      gone := if m in next.live then n else m;
      left := if m in next.live then m else n;
      assert ops[..0] == [];
    }
  }

  /** Preparing journals touches nothing else, and keeps those that are there. */
  lemma {:induction false} JournalsOnly(disk: Disk, names: seq<string>, selected: Option<string>, jobs: seq<Job>)
    ensures var after := ApplyAll(disk, PlanJournals(disk, names, selected, jobs).ops);
            && after == disk.(journals := after.journals)
            && forall id :: id in disk.journals ==> id in after.journals && after.journals[id] == disk.journals[id]
    decreases jobs
  {
    hide Superseded;
    if jobs != [] {
      var first := PlanJournal(disk, names, selected, jobs[0]);
      if first.ops != [] {
        assert first.ops[1..] == [];
      }
      var next := ApplyAll(disk, first.ops);
      JournalsOnly(next, names, selected, jobs[1..]);
      ApplyConcat(disk, first.ops, PlanJournals(next, names, selected, jobs[1..]).ops);
    }
  }

  /** A new first job gets a journal of everything that is visible and stale. */
  lemma NewFirstJournal(disk: Disk, names: seq<string>, selected: Option<string>, jobs: seq<Job>)
    requires jobs != [] && jobs[0].id !in disk.journals && PlanJournals(disk, names, selected, jobs).error.None?
    ensures var after := ApplyAll(disk, PlanJournals(disk, names, selected, jobs).ops);
            && jobs[0].id in after.journals
            && after.journals[jobs[0].id] == Journal(selected, jobs[0].cutoff, Superseded(names, disk.live, jobs[0].cutoff), false)
  {
    hide Superseded;
    var first := PlanJournal(disk, names, selected, jobs[0]);
    assert first.ops[1..] == [];
    var next := ApplyAll(disk, first.ops);
    JournalsOnly(next, names, selected, jobs[1..]);
    ApplyConcat(disk, first.ops, PlanJournals(next, names, selected, jobs[1..]).ops);
  }

  /** Visible candidates, one of them under the receipt of a tombstone, cannot all be resolved. */
  lemma {:induction false} StuckOnTomb(disk: Disk, candidates: seq<Candidate>, selected: Option<string>, cutoff: int, k: nat)
    requires k < |candidates| && candidates[k].receipt in disk.tombs && DistinctNames(candidates)
    requires forall c :: 0 <= c < |candidates| ==>
      candidates[c].name in disk.live && disk.live[candidates[c].name].receipt == candidates[c].receipt
    ensures PlanCandidates(disk, candidates, selected, cutoff).error.Some?
    decreases candidates
  {
    hide RemoveTree;
    var first := PlanCandidate(disk, candidates[0], selected, cutoff);
    if first.error.None? {
      EntombClears(disk, candidates[0].name);
      var next := ApplyAll(disk, first.ops);
      assert next == disk.(live := disk.live - {candidates[0].name});
      StuckOnTomb(next, candidates[1..], selected, cutoff, k - 1);
    }
  }

  /** With a tombstone beside a visible twin, a full run whose first job is new and lists that twin fails. */
  lemma TwinFails(disk: Disk, names: seq<string>, selected: Option<string>, jobs: seq<Job>, name: string)
    requires Snapshots.Listing(names, disk.live) && jobs != [] && jobs[0].id !in disk.journals
    requires name in disk.live && disk.live[name].receipt in disk.tombs && disk.live[name].created < jobs[0].cutoff
    ensures PlanRun(disk, names, selected, jobs).error.Some?
  {
    hide Superseded, PlanJournals, PlanCandidates;
    var journals := PlanJournals(disk, names, selected, jobs);
    if journals.error.None? {
      var prepared := ApplyAll(disk, journals.ops);
      JournalsOnly(disk, names, selected, jobs);
      NewFirstJournal(disk, names, selected, jobs);
      var candidates := Superseded(names, disk.live, jobs[0].cutoff);
      SupersededLists(names, disk.live, jobs[0].cutoff);
      SupersededDistinct(names, disk.live, jobs[0].cutoff);
      var k :| 0 <= k < |candidates| && candidates[k].name == name;
      StuckOnTomb(prepared, candidates, selected, jobs[0].cutoff, k);
    }
  }

  /** The setting as a run of one job sees it. */
  function OneJob(setting: Setting, job: string): Setting
    requires job in setting.cutoffs
  {
    setting.(cutoffs := map[job := setting.cutoffs[job]])
  }

  lemma OneJobOk(setting: Setting, job: string)
    requires WithinLimits(setting) && ReplacementOk(setting) && ReceiptsDated(setting) && job in setting.cutoffs
    ensures SettingOk(OneJob(setting, job)) && JobsOk([Job(job, setting.cutoffs[job])], OneJob(setting, job))
  {
  }

  function Start(setting: Setting): Disk {
    Disk(setting.original, map[], map[])
  }

  /** The writes of a first run of one job. */
  function OneJobOps(setting: Setting, job: string, names: seq<string>): seq<Op>
    requires job in setting.cutoffs
  {
    PlanRun(Start(setting), names, setting.selected, [Job(job, setting.cutoffs[job])]).ops
  }

  lemma OneJobRun(setting: Setting, job: string, names: seq<string>, m: string)
    requires WithinLimits(setting) && ReplacementOk(setting) && ReceiptsDated(setting)
    requires StaleFor(setting, m, job) && Snapshots.Listing(names, setting.original)
    ensures SettingOk(OneJob(setting, job)) && Inv(Start(setting), OneJob(setting, job))
    ensures OpsOk(Start(setting), OneJobOps(setting, job, names), OneJob(setting, job))
    ensures m !in ApplyAll(Start(setting), OneJobOps(setting, job, names)).live
  {
    hide WithinLimits, ReplacementOk, ReceiptsDated, SettingOk, Inv, PlanRun, Snapshots.Listing, JobsOk, OpsOk;
    var one, start, jobs := OneJob(setting, job), Start(setting), [Job(job, setting.cutoffs[job])];
    OneJobOk(setting, job);
    StartKeepsInv(one);
    RunPlan(start, names, jobs, one);
    assert jobs[0].cutoff == setting.cutoffs[job];
  }

  /** A run of one job that stops right after it renamed one of two twins. */
  lemma StopBetweenTwins(setting: Setting, m: string, n: string, job: string, names: seq<string>) returns (writes: nat, gone: string, left: string)
    requires WithinLimits(setting) && ReplacementOk(setting) && ReceiptsDated(setting) && Twins(setting, m, n)
    requires StaleFor(setting, m, job) && Snapshots.Listing(names, setting.original)
    ensures writes <= |OneJobOps(setting, job, names)| && {gone, left} == {m, n}
    ensures var disk := ApplyAll(Start(setting), OneJobOps(setting, job, names)[..writes]);
            && Inv(disk, OneJob(setting, job))
            && left in disk.live && disk.live[left] == setting.original[left] && setting.original[m].receipt in disk.tombs
  {
    hide Inv, SettingOk, WithinLimits, ReplacementOk, ReceiptsDated, Snapshots.Listing, OneJobOps, OpsOk;
    var one, start := OneJob(setting, job), Start(setting);
    OneJobRun(setting, job, names, m);
    var ops := OneJobOps(setting, job, names);
    var t: nat;
    t, gone, left := FirstToLeave(start, ops, m, n);
    writes := t + 1;
    var before := ApplyAll(start, ops[..t]);
    PrefixKeepsInv(start, ops, one, t);
    PrefixKeepsInv(start, ops, one, t + 1);
    InvLive(before, one);
    assert ops[..t + 1] == ops[..t] + [ops[t]];
    assert [ops[t]][1..] == [];
    ApplyConcat(start, ops[..t], [ops[t]]);
  }

  lemma InvLive(disk: Disk, setting: Setting)
    requires Inv(disk, setting)
    ensures forall name :: name in disk.live ==> name in setting.original && disk.live[name] == setting.original[name]
    ensures forall job :: job in disk.journals ==> job in setting.cutoffs
  {
    forall job | job in disk.journals
      ensures job in setting.cutoffs
    {
      InvJournal(disk, job, setting);
    }
  }

  /** The stopped run, then a full run of both jobs, is a history of the protocol. */
  lemma StoppedHistory(setting: Setting, early: string, late: string, names: seq<string>, writes: nat, remaining: seq<string>)
    requires early in setting.cutoffs && late in setting.cutoffs && early != late && Sorting.TextBefore(early, late)
    requires Snapshots.Listing(names, setting.original) && Sorting.Ascending(names) && writes <= |OneJobOps(setting, late, names)|
    requires var disk := ApplyAll(Start(setting), OneJobOps(setting, late, names)[..writes]);
             && Snapshots.Listing(remaining, disk.live) && Sorting.Ascending(remaining)
             && forall job :: job in disk.journals ==> job == late
    ensures var disk := ApplyAll(Start(setting), OneJobOps(setting, late, names)[..writes]);
            FullRun([Start(setting), disk], [Attempt(names, [Job(late, setting.cutoffs[late])], writes)], remaining,
                    [Job(early, setting.cutoffs[early]), Job(late, setting.cutoffs[late])], setting)
  {
    hide PlanRun, Snapshots.Listing, Sorting.Ascending, Sorting.TextBefore;
    var disk := ApplyAll(Start(setting), OneJobOps(setting, late, names)[..writes]);
    var attempt := Attempt(names, [Job(late, setting.cutoffs[late])], writes);
    var both := [Job(early, setting.cutoffs[early]), Job(late, setting.cutoffs[late])];
    assert Attempted(Start(setting), disk, attempt, setting);
    assert History([Start(setting), disk], [attempt], setting);
    assert both[1].id == late;
    assert HasJob(both, late);
  }

  /** Twins that are stale for two jobs: stop the later-sorting job between the twins, then run both. */
  lemma TwinsWedge(setting: Setting, m: string, n: string, early: string, late: string)
    requires WithinLimits(setting) && ReplacementOk(setting) && ReceiptsDated(setting) && Twins(setting, m, n)
    requires StaleFor(setting, m, early) && StaleFor(setting, m, late) && early != late && Sorting.TextBefore(early, late)
    ensures !Converges(setting)
  {
    hide Inv, PlanRun, Converges, FullRun, OneJobOps, Sorting.TextBefore;
    var names := Sorting.ListAscending(setting.original.Keys);
    assert Snapshots.Listing(names, setting.original);
    var writes, gone, left := StopBetweenTwins(setting, m, n, late, names);
    assert left in {m, n};
    assert setting.original[m].created == setting.original[n].created;
    hide WithinLimits, ReplacementOk, ReceiptsDated;
    var disk := ApplyAll(Start(setting), OneJobOps(setting, late, names)[..writes]);
    InvLive(disk, OneJob(setting, late));
    var remaining := Sorting.ListAscending(disk.live.Keys);
    assert Snapshots.Listing(remaining, disk.live);
    StoppedHistory(setting, early, late, names, writes, remaining);
    var both := [Job(early, setting.cutoffs[early]), Job(late, setting.cutoffs[late])];
    TwinFails(disk, remaining, setting.selected, both, left);
    NotConverging(setting, [Start(setting), disk], [Attempt(names, [Job(late, setting.cutoffs[late])], writes)], remaining, both);
  }

  lemma NotConverging(setting: Setting, disks: seq<Disk>, attempts: seq<Attempt>, names: seq<string>, jobs: seq<Job>)
    requires FullRun(disks, attempts, names, jobs, setting) && !Ends(disks[|attempts|], names, jobs, setting)
    ensures !Converges(setting)
  {
    hide FullRun, Ends;
  }
}
