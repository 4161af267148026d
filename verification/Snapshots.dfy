/**
  Journalled removal of local snapshots taken before a purge. A run plans its disk writes from what
  it finds; a stop at any point leaves a prefix of the plan done, and the next run plans afresh.
 */
module Snapshots {
  import opened Wrappers

  /** A snapshot directory: the digest of its receipt, the time it was taken, and how many files it holds. */
  datatype Snapshot = Snapshot(receipt: string, created: int, files: nat)

  datatype Candidate = Candidate(name: string, receipt: string, created: int)

  datatype Journal = Journal(selected: Option<string>, cutoff: int, candidates: seq<Candidate>, resolved: bool)

  /** The visible snapshots, the hidden tombstones with the files still in them, and the journals by job. */
  datatype Disk = Disk(live: map<string, Snapshot>, tombs: map<string, nat>, journals: map<string, Journal>)

  /** A request that has become eligible: its job and the time of the live purge. */
  datatype Job = Job(id: string, cutoff: int)

  datatype ResolutionError = TooMany | JournalMismatch | SelectedUnavailable | NotSuperseded | Changed | UnsafeTombstone | Remaining

  /** One durable write. */
  datatype Op = WriteJournal(job: string, journal: Journal)
    | Entomb(name: string)
    | RemoveFile(receipt: string)
    | RemoveTomb(receipt: string)
    | MarkResolved(job: string)

  /** The writes a run makes, and the error it then stops with, if any. */
  datatype Planned = Planned(ops: seq<Op>, error: Option<ResolutionError>)

  const CANDIDATE_LIMIT := 128
  const INVENTORY_LIMIT := 256

  function Apply(disk: Disk, op: Op): Disk {
    match op
    case WriteJournal(job, journal) => disk.(journals := disk.journals[job := journal])
    case Entomb(name) =>
      if name in disk.live then disk.(live := disk.live - {name}, tombs := disk.tombs[disk.live[name].receipt := disk.live[name].files]) else disk
    case RemoveFile(receipt) =>
      if receipt in disk.tombs && disk.tombs[receipt] > 0 then disk.(tombs := disk.tombs[receipt := disk.tombs[receipt] - 1]) else disk
    case RemoveTomb(receipt) => disk.(tombs := disk.tombs - {receipt})
    case MarkResolved(job) =>
      if job in disk.journals then disk.(journals := disk.journals[job := disk.journals[job].(resolved := true)]) else disk
  }

  function ApplyAll(disk: Disk, ops: seq<Op>): Disk
    decreases ops
  {
    if ops == [] then disk else ApplyAll(Apply(disk, ops[0]), ops[1..])
  }

  /** Remove the files of a tombstone one by one, then the directory. */
  function RemoveTree(receipt: string, files: nat): seq<Op> {
    if files == 0 then [RemoveTomb(receipt)] else [RemoveFile(receipt)] + RemoveTree(receipt, files - 1)
  }

  function PlanCandidate(disk: Disk, candidate: Candidate, selected: Option<string>, cutoff: int): Planned {
    var receipt := candidate.receipt;
    if candidate.created >= cutoff || Some(candidate.name) == selected then Planned([], Some(NotSuperseded))
    else if candidate.name in disk.live then
      if disk.live[candidate.name].receipt != receipt then Planned([], Some(Changed))
      else if receipt in disk.tombs then Planned([], Some(UnsafeTombstone))
      else Planned([Entomb(candidate.name)] + RemoveTree(receipt, disk.live[candidate.name].files), None)
    else if receipt in disk.tombs then Planned(RemoveTree(receipt, disk.tombs[receipt]), None)
    else Planned([], None)
  }

  function PlanCandidates(disk: Disk, candidates: seq<Candidate>, selected: Option<string>, cutoff: int): Planned
    decreases candidates
  {
    if candidates == [] then Planned([], None)
    else
      var first := PlanCandidate(disk, candidates[0], selected, cutoff);
      if first.error.Some? then first
      else
        var rest := PlanCandidates(ApplyAll(disk, first.ops), candidates[1..], selected, cutoff);
        Planned(first.ops + rest.ops, rest.error)
  }

  predicate AnyBefore(live: map<string, Snapshot>, cutoff: int) {
    exists name | name in live :: live[name].created < cutoff
  }

  /** Resolve one prepared journal: every candidate, then the final inventory, then the journal itself. */
  function PlanResolve(disk: Disk, job: string, journal: Journal): Planned {
    if journal.selected.Some? && journal.selected.value !in disk.live then Planned([], Some(SelectedUnavailable))
    else
      var plan := PlanCandidates(disk, journal.candidates, journal.selected, journal.cutoff);
      if plan.error.Some? then plan
      else if AnyBefore(ApplyAll(disk, plan.ops).live, journal.cutoff) then Planned(plan.ops, Some(Remaining))
      else Planned(plan.ops + if journal.resolved then [] else [MarkResolved(job)], None)
  }

  function PlanResolves(disk: Disk, jobs: seq<Job>): Planned
    decreases jobs
  {
    if jobs == [] then Planned([], None)
    else if jobs[0].id !in disk.journals then Planned([], Some(JournalMismatch))
    else
      var first := PlanResolve(disk, jobs[0].id, disk.journals[jobs[0].id]);
      if first.error.Some? then first
      else
        var rest := PlanResolves(ApplyAll(disk, first.ops), jobs[1..]);
        Planned(first.ops + rest.ops, rest.error)
  }

  /** A directory listing: every visible snapshot once. */
  ghost predicate Listing(names: seq<string>, live: map<string, Snapshot>) {
    && (forall name :: name in names <==> name in live)
    && forall i, j :: 0 <= i < j < |names| ==> names[i] != names[j]
  }

  /** The snapshots taken before the purge, in listing order. */
  function Superseded(names: seq<string>, live: map<string, Snapshot>, cutoff: int): seq<Candidate> {
    if names == [] then []
    else
      var rest := Superseded(names[1..], live, cutoff);
      if names[0] in live && live[names[0]].created < cutoff then
        [Candidate(names[0], live[names[0]].receipt, live[names[0]].created)] + rest
      else rest
  }

  /** Prepare the journal of one job, or accept the one an earlier run prepared. */
  function PlanJournal(disk: Disk, names: seq<string>, selected: Option<string>, job: Job): Planned {
    var candidates := Superseded(names, disk.live, job.cutoff);
    if |candidates| > CANDIDATE_LIMIT then Planned([], Some(TooMany))
    else if job.id in disk.journals then
      var journal := disk.journals[job.id];
      if journal.selected != selected || journal.cutoff != job.cutoff || |journal.candidates| > CANDIDATE_LIMIT then
        Planned([], Some(JournalMismatch))
      else Planned([], None)
    else Planned([WriteJournal(job.id, Journal(selected, job.cutoff, candidates, false))], None)
  }

  function PlanJournals(disk: Disk, names: seq<string>, selected: Option<string>, jobs: seq<Job>): Planned
    decreases jobs
  {
    if jobs == [] then Planned([], None)
    else
      var first := PlanJournal(disk, names, selected, jobs[0]);
      if first.error.Some? then first
      else
        var rest := PlanJournals(ApplyAll(disk, first.ops), names, selected, jobs[1..]);
        Planned(first.ops + rest.ops, rest.error)
  }

  /** A whole run: the inventory, all journals, then all resolutions. */
  function PlanRun(disk: Disk, names: seq<string>, selected: Option<string>, jobs: seq<Job>): Planned {
    if |names| > INVENTORY_LIMIT then Planned([], Some(TooMany))
    else if selected.Some? && selected.value !in disk.live then Planned([], Some(SelectedUnavailable))
    else
      var journals := PlanJournals(disk, names, selected, jobs);
      if journals.error.Some? then journals
      else
        var resolves := PlanResolves(ApplyAll(disk, journals.ops), jobs);
        Planned(journals.ops + resolves.ops, resolves.error)
  }

  lemma {:induction false} ApplyConcat(disk: Disk, a: seq<Op>, b: seq<Op>)
    ensures ApplyAll(disk, a + b) == ApplyAll(ApplyAll(disk, a), b)
    decreases a
  {
    if a == [] {
      assert a + b == b;
    } else {
      ApplyConcat(Apply(disk, a[0]), a[1..], b);
      assert (a + b)[0] == a[0] && (a + b)[1..] == a[1..] + b;
    }
  }
}
