/** The resolution as it runs: directories renamed and removed in place, with a stop possible before any write. */
module SnapshotService {
  import opened Wrappers
  import opened Snapshots
  import Sorting

  /** How a call ended: done, refused, or cut off by the stop. */
  datatype Ending = Done | Refused(error: ResolutionError) | Stopped

  /** The disk after at most `budget` of the planned writes. */
  function Partly(disk: Disk, ops: seq<Op>, budget: nat): Disk {
    ApplyAll(disk, if budget < |ops| then ops[..budget] else ops)
  }

  /** How a plan ends when at most `budget` writes are made. */
  function EndingOf(plan: Planned, budget: nat): Ending {
    if budget < |plan.ops| then Stopped
    else if plan.error.Some? then Refused(plan.error.value)
    else Done
  }

  function Left(ops: seq<Op>, budget: nat): nat {
    if budget < |ops| then 0 else budget - |ops|
  }

  lemma PartlyConcat(disk: Disk, a: seq<Op>, b: seq<Op>, budget: nat)
    ensures Partly(disk, a + b, budget) ==
      if budget < |a| then Partly(disk, a, budget) else Partly(ApplyAll(disk, a), b, budget - |a|)
  {
    if budget < |a| {
      assert (a + b)[..budget] == a[..budget];
    } else if budget < |a + b| {
      assert (a + b)[..budget] == a + b[..budget - |a|];
      ApplyConcat(disk, a, b[..budget - |a|]);
    } else {
      ApplyConcat(disk, a, b);
    }
  }

  lemma PartlyCons(disk: Disk, op: Op, rest: seq<Op>, budget: nat)
    ensures Partly(disk, [op] + rest, budget) == if budget == 0 then disk else Partly(Apply(disk, op), rest, budget - 1)
  {
    PartlyConcat(disk, [op], rest, budget);
    assert [op][1..] == [];
    assert ApplyAll(disk, [op]) == Apply(disk, op);
    assert [op][..0] == [];
  }

  lemma PartlyNone(disk: Disk, budget: nat)
    ensures Partly(disk, [], budget) == disk && Left([], budget) == budget
  {
  }

  class Store {
    var disk: Disk
    var budget: nat

    constructor (disk: Disk, budget: nat)
      ensures this.disk == disk && this.budget == budget
    {
      this.disk := disk;
      this.budget := budget;
    }

    /** One durable write, unless the stop comes first. */
    method Write(op: Op) returns (done: bool)
      modifies this
      ensures done <==> old(budget) > 0
      ensures done ==> disk == Apply(old(disk), op) && budget == old(budget) - 1
      ensures !done ==> disk == old(disk) && budget == old(budget)
    {
      if budget == 0 {
        return false;
      }
      disk := Apply(disk, op);
      budget := budget - 1;
      return true;
    }

    /** Remove a tombstone: its files, then the directory. */
    method RemoveTombstone(receipt: string) returns (done: bool)
      requires receipt in disk.tombs
      modifies this
      ensures var ops := RemoveTree(receipt, old(disk).tombs[receipt]);
              && disk == Partly(old(disk), ops, old(budget)) && budget == Left(ops, old(budget))
              && (done <==> |ops| <= old(budget))
    {
      ghost var ops, start := RemoveTree(receipt, disk.tombs[receipt]), budget;
      ghost var first := disk;
      while disk.tombs[receipt] > 0
        invariant receipt in disk.tombs
        invariant var rest := RemoveTree(receipt, disk.tombs[receipt]);
                  && Partly(disk, rest, budget) == Partly(first, ops, start)
                  && Left(rest, budget) == Left(ops, start) && (|rest| <= budget <==> |ops| <= start)
        decreases disk.tombs[receipt]
      {
        PartlyCons(disk, RemoveFile(receipt), RemoveTree(receipt, disk.tombs[receipt] - 1), budget);
        done := Write(RemoveFile(receipt));
        if !done {
          return;
        }
      }
      PartlyCons(disk, RemoveTomb(receipt), [], budget);
      assert [RemoveTomb(receipt)] + [] == [RemoveTomb(receipt)];
      done := Write(RemoveTomb(receipt));
    }

    method ResolveCandidate(candidate: Candidate, selected: Option<string>, cutoff: int) returns (ending: Ending)
      modifies this
      ensures var plan := PlanCandidate(old(disk), candidate, selected, cutoff);
              && disk == Partly(old(disk), plan.ops, old(budget)) && budget == Left(plan.ops, old(budget))
              && ending == EndingOf(plan, old(budget))
    {
      hide RemoveTree;
      if candidate.created >= cutoff || Some(candidate.name) == selected {
        return Refused(NotSuperseded);
      }
      if candidate.name in disk.live {
        if disk.live[candidate.name].receipt != candidate.receipt {
          return Refused(Changed);
        }
        if candidate.receipt in disk.tombs {
          return Refused(UnsafeTombstone);
        }
        PartlyCons(disk, Entomb(candidate.name), RemoveTree(candidate.receipt, disk.live[candidate.name].files), budget);
        var renamed := Write(Entomb(candidate.name));
        if !renamed {
          return Stopped;
        }
      }
      if candidate.receipt in disk.tombs {
        var removed := RemoveTombstone(candidate.receipt);
        if !removed {
          return Stopped;
        }
      }
      return Done;
    }

    method ResolveCandidates(candidates: seq<Candidate>, selected: Option<string>, cutoff: int) returns (ending: Ending)
      modifies this
      ensures var plan := PlanCandidates(old(disk), candidates, selected, cutoff);
              && disk == Partly(old(disk), plan.ops, old(budget)) && budget == Left(plan.ops, old(budget))
              && ending == EndingOf(plan, old(budget))
    {
      hide PlanCandidate, ApplyAll;
      ghost var whole, first, start := PlanCandidates(disk, candidates, selected, cutoff), disk, budget;
      var i := 0;
      while i < |candidates|
        invariant 0 <= i <= |candidates|
        invariant var rest := PlanCandidates(disk, candidates[i..], selected, cutoff);
                  && Partly(disk, rest.ops, budget) == Partly(first, whole.ops, start)
                  && Left(rest.ops, budget) == Left(whole.ops, start) && EndingOf(rest, budget) == EndingOf(whole, start)
      {
        ghost var here, before := disk, budget;
        ghost var one := PlanCandidate(disk, candidates[i], selected, cutoff);
        ghost var rest := PlanCandidates(ApplyAll(disk, one.ops), candidates[i + 1..], selected, cutoff);
        assert candidates[i..][0] == candidates[i] && candidates[i..][1..] == candidates[i + 1..];
        PartlyConcat(disk, one.ops, rest.ops, budget);
        ending := ResolveCandidate(candidates[i], selected, cutoff);
        if !ending.Done? {
          return;
        }
        i := i + 1;
      }
      assert candidates[i..] == [];
      PartlyNone(disk, budget);
      return Done;
    }

    /** Resolve one prepared journal. */
    method ResolveSnapshots(job: string) returns (ending: Ending)
      requires job in disk.journals
      modifies this
      ensures var plan := PlanResolve(old(disk), job, old(disk).journals[job]);
              && disk == Partly(old(disk), plan.ops, old(budget)) && budget == Left(plan.ops, old(budget))
              && ending == EndingOf(plan, old(budget))
    {
      hide PlanCandidates;
      var journal := disk.journals[job];
      if journal.selected.Some? && journal.selected.value !in disk.live {
        return Refused(SelectedUnavailable);
      }
      ghost var first, start, plan := disk, budget, PlanCandidates(disk, journal.candidates, journal.selected, journal.cutoff);
      ending := ResolveCandidates(journal.candidates, journal.selected, journal.cutoff);
      PartlyConcat(first, plan.ops, [MarkResolved(job)], start);
      assert plan.ops + [] == plan.ops;
      if !ending.Done? {
        return;
      }
      if AnyBefore(disk.live, journal.cutoff) {
        return Refused(Remaining);
      }
      if !journal.resolved {
        PartlyCons(disk, MarkResolved(job), [], budget);
        assert [MarkResolved(job)] + [] == [MarkResolved(job)];
        var marked := Write(MarkResolved(job));
        if !marked {
          return Stopped;
        }
      }
      return Done;
    }

    /** Prepare the journal of one job, or accept the one that an earlier run left. */
    method PrepareJournal(names: seq<string>, selected: Option<string>, job: Job) returns (ending: Ending)
      modifies this
      ensures var plan := PlanJournal(old(disk), names, selected, job);
              && disk == Partly(old(disk), plan.ops, old(budget)) && budget == Left(plan.ops, old(budget))
              && ending == EndingOf(plan, old(budget))
    {
      hide Superseded;
      PartlyNone(disk, budget);
      var candidates := Superseded(names, disk.live, job.cutoff);
      if |candidates| > CANDIDATE_LIMIT {
        return Refused(TooMany);
      }
      if job.id in disk.journals {
        var journal := disk.journals[job.id];
        if journal.selected != selected || journal.cutoff != job.cutoff || |journal.candidates| > CANDIDATE_LIMIT {
          return Refused(JournalMismatch);
        }
        return Done;
      }
      var op := WriteJournal(job.id, Journal(selected, job.cutoff, candidates, false));
      PartlyCons(disk, op, [], budget);
      assert [op] + [] == [op];
      var written := Write(op);
      return if written then Done else Stopped;
    }

    method PrepareJournals(names: seq<string>, selected: Option<string>, jobs: seq<Job>) returns (ending: Ending)
      modifies this
      ensures var plan := PlanJournals(old(disk), names, selected, jobs);
              && disk == Partly(old(disk), plan.ops, old(budget)) && budget == Left(plan.ops, old(budget))
              && ending == EndingOf(plan, old(budget))
    {
      hide PlanJournal, ApplyAll;
      ghost var whole, first, start := PlanJournals(disk, names, selected, jobs), disk, budget;
      var i := 0;
      assert jobs[0..] == jobs;
      while i < |jobs|
        invariant 0 <= i <= |jobs|
        invariant var rest := PlanJournals(disk, names, selected, jobs[i..]);
                  && Partly(disk, rest.ops, budget) == Partly(first, whole.ops, start)
                  && Left(rest.ops, budget) == Left(whole.ops, start) && EndingOf(rest, budget) == EndingOf(whole, start)
      {
        ghost var one := PlanJournal(disk, names, selected, jobs[i]);
        ghost var rest := PlanJournals(ApplyAll(disk, one.ops), names, selected, jobs[i + 1..]);
        assert jobs[i..][0] == jobs[i] && jobs[i..][1..] == jobs[i + 1..];
        PartlyConcat(disk, one.ops, rest.ops, budget);
        ending := PrepareJournal(names, selected, jobs[i]);
        if !ending.Done? {
          return;
        }
        i := i + 1;
      }
      assert jobs[i..] == [];
      PartlyNone(disk, budget);
      return Done;
    }

    method ResolveJobs(jobs: seq<Job>) returns (ending: Ending)
      modifies this
      ensures var plan := PlanResolves(old(disk), jobs);
              && disk == Partly(old(disk), plan.ops, old(budget)) && budget == Left(plan.ops, old(budget))
              && ending == EndingOf(plan, old(budget))
    {
      hide PlanResolve, ApplyAll;
      ghost var whole, first, start := PlanResolves(disk, jobs), disk, budget;
      var i := 0;
      assert jobs[0..] == jobs;
      while i < |jobs|
        invariant 0 <= i <= |jobs|
        invariant var rest := PlanResolves(disk, jobs[i..]);
                  && Partly(disk, rest.ops, budget) == Partly(first, whole.ops, start)
                  && Left(rest.ops, budget) == Left(whole.ops, start) && EndingOf(rest, budget) == EndingOf(whole, start)
      {
        assert jobs[i..][0] == jobs[i] && jobs[i..][1..] == jobs[i + 1..];
        PartlyNone(disk, budget);
        if jobs[i].id !in disk.journals {
          return Refused(JournalMismatch);
        }
        ghost var one := PlanResolve(disk, jobs[i].id, disk.journals[jobs[i].id]);
        ghost var rest := PlanResolves(ApplyAll(disk, one.ops), jobs[i + 1..]);
        PartlyConcat(disk, one.ops, rest.ops, budget);
        ending := ResolveSnapshots(jobs[i].id);
        if !ending.Done? {
          return;
        }
        i := i + 1;
      }
      assert jobs[i..] == [];
      PartlyNone(disk, budget);
      return Done;
    }

    /** A whole run: every journal first, then every resolution. */
    method Emit(names: seq<string>, selected: Option<string>, jobs: seq<Job>) returns (ending: Ending)
      modifies this
      ensures var plan := PlanRun(old(disk), names, selected, jobs);
              && disk == Partly(old(disk), plan.ops, old(budget)) && budget == Left(plan.ops, old(budget))
              && ending == EndingOf(plan, old(budget))
    {
      hide PlanJournals, PlanResolves, ApplyAll;
      PartlyNone(disk, budget);
      if |names| > INVENTORY_LIMIT {
        return Refused(TooMany);
      }
      if selected.Some? && selected.value !in disk.live {
        return Refused(SelectedUnavailable);
      }
      ghost var journals := PlanJournals(disk, names, selected, jobs);
      PartlyConcat(disk, journals.ops, PlanResolves(ApplyAll(disk, journals.ops), jobs).ops, budget);
      ending := PrepareJournals(names, selected, jobs);
      if ending.Done? {
        ending := ResolveJobs(jobs);
      }
    }

    /** The inventory: every visible snapshot once, in name order. */
    method Inventory() returns (names: seq<string>)
      ensures Listing(names, disk.live) && Sorting.Ascending(names)
    {
      names := Sorting.SortedTexts(disk.live.Keys);
      assert forall name :: name in names <==> name in (set x | x in names);
    }
  }
}
