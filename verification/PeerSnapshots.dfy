/**
  The same resolution on the peer of a pair: no replacement is selected there, and the peer signs one
  receipt a job, which a repeated request has to reproduce.
 */
module PeerSnapshots {
  import Counting
  import opened Wrappers
  import opened Snapshots
  import opened SnapshotConvergence
  import opened SnapshotService

  /** What the peer signs for one job: the journal it resolved and how many snapshots it kept. */
  datatype PeerReceipt = PeerReceipt(journal: Journal, retained: nat)

  /** Write the receipt once; later requests must find exactly the same facts. */
  function Sign(receipts: map<string, PeerReceipt>, job: string, journal: Journal, retained: nat): Option<map<string, PeerReceipt>> {
    var receipt := PeerReceipt(journal, retained);
    if job !in receipts then Some(receipts[job := receipt])
    else if receipts[job] == receipt then Some(receipts)
    else None
  }

  /** The receipts after one request that is not interrupted, or nothing when it is refused. */
  function Answer(disk: Disk, names: seq<string>, job: Job, receipts: map<string, PeerReceipt>): Option<map<string, PeerReceipt>> {
    var plan := PlanRun(disk, names, None, [job]);
    var after := ApplyAll(disk, plan.ops);
    if plan.error.Some? || job.id !in after.journals then None
    else Sign(receipts, job.id, after.journals[job.id], |after.live|)
  }

  /** The peer: its snapshots, and the receipts it signed. */
  class Peer {
    const store: Store
    var receipts: map<string, PeerReceipt>

    constructor (store: Store)
      ensures this.store == store && receipts == map[]
    {
      this.store := store;
      receipts := map[];
    }

    method Receive(names: seq<string>, job: Job) returns (ok: bool)
      modifies this, store
      ensures var plan := PlanRun(old(store.disk), names, None, [job]);
              && store.disk == Partly(old(store.disk), plan.ops, old(store.budget))
              && (ok <==> |plan.ops| <= old(store.budget) && Answer(old(store.disk), names, job, old(receipts)).Some?)
              && receipts == if ok then Answer(old(store.disk), names, job, old(receipts)).value else old(receipts)
    {
      hide PlanRun, ApplyAll;
      var ending := store.Emit(names, None, [job]);
      if !ending.Done? || job.id !in store.disk.journals {
        return false;
      }
      var receipt := PeerReceipt(store.disk.journals[job.id], |store.disk.live|);
      if job.id !in receipts {
        receipts := receipts[job.id := receipt];
        return true;
      }
      return receipts[job.id] == receipt;
    }
  }

  // ---------------------------------------------------------------------------------------------
  // A repeated request

  /** Nothing of the candidates is left, neither visible nor as a tombstone, and all were taken before the cutoff. */
  predicate Cleared(disk: Disk, candidates: seq<Candidate>, cutoff: int) {
    forall k :: 0 <= k < |candidates| ==>
      candidates[k].created < cutoff && candidates[k].name !in disk.live && candidates[k].receipt !in disk.tombs
  }

  /** Resolving further candidates brings nothing back. */
  predicate Fewer(before: Disk, after: Disk) {
    after.live.Keys <= before.live.Keys && after.tombs.Keys <= before.tombs.Keys && after.journals == before.journals
  }

  lemma {:induction false} TreeRemoved(disk: Disk, receipt: string, files: nat)
    requires receipt in disk.tombs && disk.tombs[receipt] == files
    ensures ApplyAll(disk, RemoveTree(receipt, files)) == disk.(tombs := disk.tombs - {receipt})
  {
    RemoveTreeOps(disk, receipt, files, Setting(map[], None, map[]));
  }

  lemma CandidateClears(disk: Disk, candidate: Candidate, cutoff: int)
    requires PlanCandidate(disk, candidate, None, cutoff).error.None?
    ensures var after := ApplyAll(disk, PlanCandidate(disk, candidate, None, cutoff).ops);
            Cleared(after, [candidate], cutoff) && Fewer(disk, after)
  {
    hide RemoveTree;
    var receipt := candidate.receipt;
    if candidate.name in disk.live {
      var next, tree := Apply(disk, Entomb(candidate.name)), RemoveTree(receipt, disk.live[candidate.name].files);
      TreeRemoved(next, receipt, disk.live[candidate.name].files);
      assert ([Entomb(candidate.name)] + tree)[1..] == tree;
    } else if receipt in disk.tombs {
      TreeRemoved(disk, receipt, disk.tombs[receipt]);
    }
  }

  lemma ClearedCons(next: Disk, after: Disk, candidates: seq<Candidate>, cutoff: int)
    requires candidates != [] && Cleared(next, [candidates[0]], cutoff) && Fewer(next, after) && Cleared(after, candidates[1..], cutoff)
    ensures Cleared(after, candidates, cutoff)
  {
    assert [candidates[0]][0] == candidates[0];
    forall k | 0 <= k < |candidates|
      ensures candidates[k].created < cutoff && candidates[k].name !in after.live && candidates[k].receipt !in after.tombs
    {
      if k > 0 {
        assert candidates[k] == candidates[1..][k - 1];
      }
    }
  }

  lemma {:induction false} CandidatesClear(disk: Disk, candidates: seq<Candidate>, cutoff: int)
    requires PlanCandidates(disk, candidates, None, cutoff).error.None?
    ensures var after := ApplyAll(disk, PlanCandidates(disk, candidates, None, cutoff).ops);
            Cleared(after, candidates, cutoff) && Fewer(disk, after)
    decreases candidates
  {
    hide PlanCandidate, Cleared;
    if candidates == [] {
      assert Cleared(disk, candidates, cutoff) by { ClearedNone(disk, cutoff); }
    } else {
      CandidateClears(disk, candidates[0], cutoff);
      var first := PlanCandidate(disk, candidates[0], None, cutoff);
      var next := ApplyAll(disk, first.ops);
      CandidatesClear(next, candidates[1..], cutoff);
      var rest := PlanCandidates(next, candidates[1..], None, cutoff);
      ApplyConcat(disk, first.ops, rest.ops);
      ClearedCons(next, ApplyAll(next, rest.ops), candidates, cutoff);
    }
  }

  lemma ClearedNone(disk: Disk, cutoff: int)
    ensures Cleared(disk, [], cutoff)
  {
  }

  /** With nothing left to do the plan is empty. */
  lemma {:induction false} ClearedPlan(disk: Disk, candidates: seq<Candidate>, cutoff: int)
    requires Cleared(disk, candidates, cutoff)
    ensures PlanCandidates(disk, candidates, None, cutoff) == Planned([], None)
    decreases candidates
  {
    if candidates != [] {
      ClearedPlan(disk, candidates[1..], cutoff);
    }
  }

  /** What a first request that succeeded leaves: a resolved journal, cleared candidates and nothing stale. */
  ghost predicate Completed(disk: Disk, job: Job) {
    && job.id in disk.journals
    && var journal := disk.journals[job.id];
      && journal.resolved && journal.selected.None? && journal.cutoff == job.cutoff
      && |journal.candidates| <= CANDIDATE_LIMIT
      && Cleared(disk, journal.candidates, job.cutoff)
      && !AnyBefore(disk.live, job.cutoff)
  }

  lemma FirstCompletes(disk: Disk, names: seq<string>, job: Job)
    requires PlanRun(disk, names, None, [job]).error.None?
    ensures Completed(ApplyAll(disk, PlanRun(disk, names, None, [job]).ops), job)
    ensures ApplyAll(disk, PlanRun(disk, names, None, [job]).ops).live.Keys <= disk.live.Keys
    ensures |names| <= INVENTORY_LIMIT
  {
    hide Superseded, PlanCandidates;
    var plan := PlanJournal(disk, names, None, job);
    var prepared := ApplyAll(disk, plan.ops);
    assert [job][1..] == [];
    assert PlanJournals(prepared, names, None, []) == Planned([], None);
    assert PlanJournals(disk, names, None, [job]) == Planned(plan.ops + [], plan.error);
    assert plan.ops + [] == plan.ops;
    if plan.ops != [] {
      assert plan.ops[1..] == [];
    }
    var journal := prepared.journals[job.id];
    var resolve := PlanResolve(prepared, job.id, journal);
    assert PlanResolves(ApplyAll(prepared, resolve.ops), []) == Planned([], None);
    assert PlanResolves(prepared, [job]).ops == resolve.ops + [];
    assert resolve.ops + [] == resolve.ops;
    ApplyConcat(disk, plan.ops, resolve.ops);
    ResolveCompletes(prepared, job);
  }

  lemma ResolveCompletes(disk: Disk, job: Job)
    requires job.id in disk.journals && disk.journals[job.id].selected.None? && disk.journals[job.id].cutoff == job.cutoff
    requires |disk.journals[job.id].candidates| <= CANDIDATE_LIMIT
    requires PlanResolve(disk, job.id, disk.journals[job.id]).error.None?
    ensures var after := ApplyAll(disk, PlanResolve(disk, job.id, disk.journals[job.id]).ops);
            Completed(after, job) && after.live.Keys <= disk.live.Keys
  {
    hide PlanCandidates;
    var journal := disk.journals[job.id];
    CandidatesClear(disk, journal.candidates, job.cutoff);
    var plan := PlanCandidates(disk, journal.candidates, None, job.cutoff);
    var cleared := ApplyAll(disk, plan.ops);
    if journal.resolved {
      assert plan.ops + [] == plan.ops;
    } else {
      ApplyConcat(disk, plan.ops, [MarkResolved(job.id)]);
      assert [MarkResolved(job.id)][1..] == [];
    }
  }

  lemma {:induction false} NothingSuperseded(names: seq<string>, live: map<string, Snapshot>, cutoff: int)
    requires !AnyBefore(live, cutoff)
    ensures Superseded(names, live, cutoff) == []
  {
    if names != [] {
      NothingSuperseded(names[1..], live, cutoff);
    }
  }

  /** A request for a job that is complete writes nothing. */
  lemma CompletedPlan(disk: Disk, names: seq<string>, job: Job)
    requires Completed(disk, job)
    ensures PlanRun(disk, names, None, [job]) == Planned([], if |names| > INVENTORY_LIMIT then Some(TooMany) else None)
  {
    var journal := disk.journals[job.id];
    NothingSuperseded(names, disk.live, job.cutoff);
    ClearedPlan(disk, journal.candidates, job.cutoff);
    assert [job][1..] == [];
    assert PlanJournals(disk, names, None, []) == Planned([], None);
    assert PlanJournals(disk, names, None, [job]) == Planned([], None);
    assert PlanResolves(disk, []) == Planned([], None);
    assert PlanResolves(disk, [job]) == Planned([], None);
  }

  /** Since a request succeeded, only snapshots taken at or after the purge came or went, under new names. */
  ghost predicate OnlyCleanSince(after: Disk, later: Disk, job: Job)
    requires job.id in after.journals
  {
    && job.id in later.journals && later.journals[job.id] == after.journals[job.id]
    && later.tombs.Keys <= after.tombs.Keys
    && forall name :: name in later.live ==> later.live[name].created >= job.cutoff && !HasCandidate(after.journals[job.id], name)
  }

  /**
    A first request that succeeded is answered again, with the same receipts and without a write,
    exactly when as many snapshots are retained as then.
   */
  lemma PeerReplay(disk: Disk, names: seq<string>, job: Job, receipts: map<string, PeerReceipt>, later: Disk, laterNames: seq<string>)
    requires Snapshots.Listing(names, disk.live) && Snapshots.Listing(laterNames, later.live) && job.id !in receipts
    requires var plan := PlanRun(disk, names, None, [job]); var after := ApplyAll(disk, plan.ops);
             plan.error.None? && (job.id in after.journals ==> OnlyCleanSince(after, later, job))
    ensures var after := ApplyAll(disk, PlanRun(disk, names, None, [job]).ops);
            var first := Answer(disk, names, job, receipts);
            && first.Some?
            && PlanRun(later, laterNames, None, [job]).ops == []
            && (Answer(later, laterNames, job, first.value).Some? <==> |later.live| == |after.live|)
            && (Answer(later, laterNames, job, first.value).Some? ==> Answer(later, laterNames, job, first.value) == first)
  {
    var plan := PlanRun(disk, names, None, [job]);
    var after := ApplyAll(disk, plan.ops);
    hide PlanRun, Snapshots.Listing, Superseded;
    FirstCompletes(disk, names, job);
    StillCompleted(after, later, job);
    CompletedPlan(later, laterNames, job);
    ListingSize(names, disk.live);
    ListingSize(laterNames, later.live);
    Counting.SubsetCount(after.live.Keys, disk.live.Keys);
    assert |after.live.Keys| == |after.live| && |disk.live.Keys| == |disk.live|;
  }

  lemma StillCompleted(after: Disk, later: Disk, job: Job)
    requires Completed(after, job) && OnlyCleanSince(after, later, job)
    ensures Completed(later, job)
  {
    var candidates := after.journals[job.id].candidates;
    forall k | 0 <= k < |candidates|
      ensures candidates[k].name !in later.live && candidates[k].receipt !in later.tombs
    {
      assert HasCandidate(after.journals[job.id], candidates[k].name);
    }
  }

  lemma ListingSize(names: seq<string>, live: map<string, Snapshot>)
    requires Snapshots.Listing(names, live)
    ensures |names| == |live|
  {
    Counting.DistinctSize(names);
    assert (set name | name in names) == live.Keys;
  }
}
