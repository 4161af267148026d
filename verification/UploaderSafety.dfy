/** What a verified submission went through, whatever the provider answered. */
module UploaderSafety {
  import opened Wrappers
  import opened Uploader
  import opened UploaderRuns

  // ---------------------------------------------------------------------------------------------
  // Positions in the log of calls

  /** Call `i` verified the submitted bundle: every identity matched and the last archived head was contained. */
  predicate MatchedAt(log: seq<Call>, i: int, identity: Identity, policy: Policy) {
    && 0 <= i < |log| && log[i].VerifiedBundle? && log[i].verification.VerifiedSummary?
    && IdentityMatches(identity, policy, log[i].verification)
    && ContainsPrevious(log[i].verification, log[i].previousHead)
  }

  /** Call `j` reported that the checks of exactly this head passed. */
  predicate PassedAt(log: seq<Call>, j: int, head: string) {
    0 <= j < |log| && log[j] == AskedChecks(head, Ok(ChecksPassed))
  }

  predicate MergedAt(log: seq<Call>, k: int, row: Row) {
    && 0 <= k < |log| && log[k].RequestedMerge? && row.headSha.Some? && row.mergeSha.Some?
    && Some(log[k].pull) == row.pullNumber && log[k].mergedHead == row.headSha.value && log[k].merge == Ok(row.mergeSha.value)
  }

  ghost predicate Matched(log: seq<Call>, before: int, row: Row, policy: Policy) {
    exists i :: i < before && MatchedAt(log, i, row.identity, policy)
  }

  ghost predicate MatchedAndPassed(log: seq<Call>, before: int, row: Row, policy: Policy) {
    row.headSha.Some? && exists j :: j < before && PassedAt(log, j, row.headSha.value) && Matched(log, j, row, policy)
  }

  ghost predicate MatchedPassedMerged(log: seq<Call>, row: Row, policy: Policy) {
    exists k :: MergedAt(log, k, row) && MatchedAndPassed(log, k, row, policy)
  }

  /** No merge was ever requested for a head whose checks had not passed before. */
  ghost predicate MergesPassed(log: seq<Call>) {
    forall k :: 0 <= k < |log| && log[k].RequestedMerge? ==> exists j :: j < k && PassedAt(log, j, log[k].mergedHead)
  }

  /** What the log holds for a row in each state. */
  ghost predicate Justified(log: seq<Call>, row: Row, policy: Policy) {
    && MergesPassed(log)
    && (row.state.Uploading? || row.state.AwaitingChecks? ==> Matched(log, |log|, row, policy))
    && (row.state.AwaitingMerge? ==> MatchedAndPassed(log, |log|, row, policy))
    && (row.state.AwaitingMerge? && row.mergeSha.Some? ==> MatchedPassedMerged(log, row, policy))
    && (row.state.Verified? ==> MatchedPassedMerged(log, row, policy) && log != [] && log[|log| - 1].DeletedBranch? && log[|log| - 1].deletion.Ok?)
  }

  // ---------------------------------------------------------------------------------------------
  // Logs only grow

  lemma MatchedGrows(log: seq<Call>, more: seq<Call>, before: int, after: int, row: Row, later: Row, policy: Policy)
    requires Matched(log, before, row, policy) && before <= after && row.identity == later.identity
    ensures Matched(log + more, after, later, policy)
  {
    var i :| i < before && MatchedAt(log, i, row.identity, policy);
    assert (log + more)[i] == log[i];
    assert MatchedAt(log + more, i, later.identity, policy);
  }

  lemma PassedGrows(log: seq<Call>, more: seq<Call>, before: int, after: int, row: Row, later: Row, policy: Policy)
    requires MatchedAndPassed(log, before, row, policy) && before <= after
    requires row.identity == later.identity && row.headSha == later.headSha
    ensures MatchedAndPassed(log + more, after, later, policy)
  {
    var j :| j < before && PassedAt(log, j, row.headSha.value) && Matched(log, j, row, policy);
    assert (log + more)[j] == log[j];
    MatchedGrows(log, more, j, j, row, later, policy);
    assert PassedAt(log + more, j, later.headSha.value);
  }

  lemma MergedGrows(log: seq<Call>, more: seq<Call>, row: Row, later: Row, policy: Policy)
    requires MatchedPassedMerged(log, row, policy)
    requires row.identity == later.identity && row.headSha == later.headSha && row.mergeSha == later.mergeSha && row.pullNumber == later.pullNumber
    ensures MatchedPassedMerged(log + more, later, policy)
  {
    var k :| MergedAt(log, k, row) && MatchedAndPassed(log, k, row, policy);
    assert (log + more)[k] == log[k];
    PassedGrows(log, more, k, k, row, later, policy);
    assert MergedAt(log + more, k, later);
  }

  lemma MergesGrow(log: seq<Call>, more: seq<Call>)
    requires MergesPassed(log)
    requires forall k :: 0 <= k < |more| && more[k].RequestedMerge? ==> exists j :: j < |log| && PassedAt(log, j, more[k].mergedHead)
    ensures MergesPassed(log + more)
  {
    var all := log + more;
    forall k | 0 <= k < |all| && all[k].RequestedMerge?
      ensures exists j :: j < k && PassedAt(all, j, all[k].mergedHead)
    {
      if k < |log| {
        assert all[k] == log[k];
        var j :| j < k && PassedAt(log, j, log[k].mergedHead);
        assert PassedAt(all, j, all[k].mergedHead);
      } else {
        assert all[k] == more[k - |log|];
        var j :| j < |log| && PassedAt(log, j, more[k - |log|].mergedHead);
        assert PassedAt(all, j, all[k].mergedHead);
      }
    }
  }

  /** Evidence carries over to a row that kept its state and its remote identity, and to any unsuccessful one. */
  lemma JustifiedGrows(log: seq<Call>, more: seq<Call>, row: Row, later: Row, policy: Policy)
    requires Justified(log, row, policy) && MergesPassed(log + more)
    requires row.identity == later.identity
    requires later.state in {Pending, Verifying, Failed, Blocked, RequiresControllerAction}
      || (later.state == row.state != Verified && row.headSha == later.headSha && row.mergeSha == later.mergeSha && row.pullNumber == later.pullNumber)
      || (later.state == row.state == Uploading)
    ensures Justified(log + more, later, policy)
  {
    hide Matched, MatchedAndPassed, MatchedPassedMerged, MergesPassed;
    if later.state.Uploading? || later.state.AwaitingChecks? {
      MatchedGrows(log, more, |log|, |log + more|, row, later, policy);
    } else if later.state.AwaitingMerge? {
      PassedGrows(log, more, |log|, |log + more|, row, later, policy);
      if later.mergeSha.Some? {
        MergedGrows(log, more, row, later, policy);
      }
    }
  }

  // ---------------------------------------------------------------------------------------------
  // Each step

  /** A failure or retry after calls that requested no merge. */
  lemma ErrorJustified<T>(log: seq<Call>, more: seq<Call>, row: Row, changed: Row, policy: Policy, now: int, reply: Reply<T>)
    requires RowOk(row) && RowOk(changed) && !Terminal(row.state) && !reply.Ok?
    requires Justified(log, row, policy) && MergesPassed(log + more)
    requires changed.identity == row.identity && changed.state == row.state
    requires row.state.Uploading? || changed == row
    ensures Justified(log + more, OnError(changed, policy, now, reply), policy)
  {
    ErrorOutcomes(changed, policy, now, reply);
    RetriedCases(changed);
    hide OnError, Retried, RowOk, Justified, MergesPassed;
    JustifiedGrows(log, more, row, OnError(changed, policy, now, reply), policy);
  }

  lemma ProblemJustified(log: seq<Call>, more: seq<Call>, row: Row, policy: Policy, now: int, problem: Problem)
    requires RowOk(row) && !Terminal(row.state) && Justified(log, row, policy) && MergesPassed(log + more)
    ensures Justified(log + more, OnProblem(row, policy, now, problem), policy)
  {
    ProblemOutcomes(row, policy, now, problem);
    RetriedCases(row);
    hide OnProblem, Retried, RowOk, Justified, MergesPassed;
    JustifiedGrows(log, more, row, OnProblem(row, policy, now, problem), policy);
  }

  lemma VerifyingJustified(log: seq<Call>, row: Row, policy: Policy, now: int, previousHead: Option<string>, replies: Replies)
    requires RowOk(row) && row.state.Verifying? && Justified(log, row, policy)
    ensures var (r, more) := StepVerifying(row, policy, now, previousHead, replies); Justified(log + more, r, policy)
  {
    hide IdentityMatches, ContainsPrevious, OnError, RowOk, MergesPassed;
    var (r, more) := StepVerifying(row, policy, now, previousHead, replies);
    MergesGrow(log, more);
    if r.state.Uploading? && replies.readiness.Ok? {
      assert (log + more)[|log|] == more[0];
      assert MatchedAt(log + more, |log|, row.identity, policy);
    } else if |more| == 2 && !replies.readiness.Ok? {
      ErrorJustified(log, more, row, row, policy, now, replies.readiness);
    } else {
      JustifiedGrows(log, more, row, r, policy);
    }
  }

  lemma OpeningJustified(log: seq<Call>, calls: seq<Call>, row: Row, changed: Row, policy: Policy, now: int, replies: Replies)
    requires RowOk(row) && RowOk(changed) && row.state.Uploading? && changed.state.Uploading? && Justified(log, row, policy)
    requires changed.identity == row.identity && changed.headSha.Some? && changed.branchName.Some?
    requires forall k :: 0 <= k < |calls| ==> !calls[k].RequestedMerge?
    ensures var (r, more) := StepOpening(changed, policy, now, calls, replies); Justified(log + more, r, policy)
  {
    hide OnError, RowOk, MergesPassed, Matched, ValidSha;
    var (r, more) := StepOpening(changed, policy, now, calls, replies);
    MergesGrow(log, more);
    if ValidSha(changed.headSha.value) && changed.pullNumber.None? && !replies.pull.Ok? {
      ErrorJustified(log, more, row, changed, policy, now, replies.pull);
    } else if r.state.AwaitingChecks? {
      MatchedGrows(log, more, |log|, |log + more|, row, r, policy);
    } else {
      JustifiedGrows(log, more, row, r, policy);
    }
  }

  lemma UploadingJustified(log: seq<Call>, row: Row, policy: Policy, now: int, replies: Replies)
    requires RowOk(row) && row.state.Uploading? && Justified(log, row, policy)
    ensures var (r, more) := StepUploading(row, policy, now, replies); Justified(log + more, r, policy)
  {
    hide OnError, OnProblem, StepOpening, MergesPassed, Matched, ValidSha, ValidBranch, BranchOf, Justified;
    var (r, more) := StepUploading(row, policy, now, replies);
    var calls := [AskedDefaultHead(replies.defaultHead)];
    var branch := BranchOf(row.identity, policy);
    var named := row.(branchName := Some(branch));
    assert MergesPassed(log) by { JustifiedMerges(log, row, policy); }
    MergesGrow(log, calls);
    if !replies.defaultHead.Ok? {
      ErrorJustified(log, calls, row, row, policy, now, replies.defaultHead);
    } else if Some(replies.defaultHead.value) != row.baseSha {
      ProblemJustified(log, calls, row, policy, now, Problem("default_branch_changed", true, None));
    } else if !ValidBranch(branch) || replies.digest.UnavailableFile? || replies.digest.sha256 != row.identity.bundleSha256 {
      JustifiedGrows(log, calls, row, r, policy);
    } else if row.headSha.Some? {
      OpeningJustified(log, calls, row, named, policy, now, replies);
    } else {
      var created := calls + [CreatedCommit(branch, row.baseSha.value, replies.commit)];
      MergesGrow(log, created);
      if !replies.commit.Ok? {
        ErrorJustified(log, created, row, named, policy, now, replies.commit);
      } else {
        OpeningJustified(log, created, row, named.(headSha := Some(replies.commit.value)), policy, now, replies);
      }
    }
  }

  lemma JustifiedMerges(log: seq<Call>, row: Row, policy: Policy)
    requires Justified(log, row, policy)
    ensures MergesPassed(log)
  {
  }

  lemma CheckingJustified(log: seq<Call>, row: Row, policy: Policy, now: int, replies: Replies)
    requires RowOk(row) && row.state.AwaitingChecks? && Justified(log, row, policy)
    ensures var (r, more) := StepChecking(row, policy, now, replies); Justified(log + more, r, policy)
  {
    hide OnError, MergesPassed, Matched, ValidSha;
    var (r, more) := StepChecking(row, policy, now, replies);
    MergesGrow(log, more);
    if !replies.pullHead.Ok? {
      ErrorJustified(log, more, row, row, policy, now, replies.pullHead);
    } else if |more| == 2 && !replies.checks.Ok? {
      ErrorJustified(log, more, row, row, policy, now, replies.checks);
    } else if r.state.AwaitingMerge? {
      var j := |log| + 1;
      assert (log + more)[j] == more[1];
      assert PassedAt(log + more, j, r.headSha.value);
      MatchedGrows(log, more, |log|, j, row, r, policy);
    } else {
      JustifiedGrows(log, more, row, r, policy);
    }
  }

  lemma MergingJustified(log: seq<Call>, row: Row, policy: Policy, now: int, replies: Replies)
    requires RowOk(row) && row.state.AwaitingMerge? && Justified(log, row, policy)
    ensures var (r, more) := StepMerging(row, policy, now, replies); Justified(log + more, r, policy)
  {
    hide OnError, MergesPassed, Matched, ValidSha;
    var (r, more) := StepMerging(row, policy, now, replies);
    if row.mergeSha.Some? {
      MergesGrow(log, more);
      if replies.deletion.Ok? {
        MergedGrows(log, more, row, r, policy);
      } else {
        ErrorJustified(log, more, row, row, policy, now, replies.deletion);
      }
    } else {
      var j :| j < |log| && PassedAt(log, j, row.headSha.value) && Matched(log, j, row, policy);
      MergesGrow(log, more);
      if !replies.pullHead.Ok? {
        ErrorJustified(log, more, row, row, policy, now, replies.pullHead);
      } else if |more| == 2 && !replies.merge.Ok? {
        ErrorJustified(log, more, row, row, policy, now, replies.merge);
      } else if r.mergeSha.Some? {
        MergeRecorded(log, more, row, r, policy);
      } else {
        JustifiedGrows(log, more, row, r, policy);
      }
    }
  }

  lemma MergeRecorded(log: seq<Call>, more: seq<Call>, row: Row, r: Row, policy: Policy)
    requires MatchedAndPassed(log, |log|, row, policy) && MergesPassed(log + more)
    requires r == row.(mergeSha := r.mergeSha) && r.mergeSha.Some? && row.headSha.Some? && row.pullNumber.Some? && r.state.AwaitingMerge?
    requires |more| == 2 && more[1] == RequestedMerge(row.pullNumber.value, row.headSha.value, Ok(r.mergeSha.value))
    ensures Justified(log + more, r, policy)
  {
    var k := |log| + 1;
    assert (log + more)[k] == more[1];
    assert MergedAt(log + more, k, r);
    PassedGrows(log, more, |log|, k, row, r, policy);
    PassedGrows(log, more, |log|, |log + more|, row, r, policy);
  }

  lemma StepJustified(log: seq<Call>, row: Row, policy: Policy, tick: Tick)
    requires RowOk(row) && policy.enabled && Justified(log, row, policy)
    ensures Justified(log + Calls(row, policy, tick), Next(row, policy, tick), policy)
  {
    hide StepVerifying, StepUploading, StepChecking, StepMerging, Justified, RowOk;
    match row.state {
      case Verifying => VerifyingJustified(log, row, policy, tick.now, tick.previousHead, tick.replies);
      case Uploading => UploadingJustified(log, row, policy, tick.now, tick.replies);
      case AwaitingChecks => CheckingJustified(log, row, policy, tick.now, tick.replies);
      case AwaitingMerge => MergingJustified(log, row, policy, tick.now, tick.replies);
      case Pending =>
        JustifiedMerges(log, row, policy);
        assert log + [] == log;
        JustifiedGrows(log, [], row, Next(row, policy, tick), policy);
      case _ =>
        assert log + [] == log;
    }
  }

  lemma {:induction false} RunJustified(identity: Identity, policy: Policy, ticks: seq<Tick>)
    requires policy.enabled
    ensures Justified(Run(FreshRow(identity), policy, ticks).1, Run(FreshRow(identity), policy, ticks).0, policy)
  {
    hide Justified, Next, Calls;
    if ticks == [] {
      FreshJustified(identity, policy);
    } else {
      var n := |ticks| - 1;
      RunJustified(identity, policy, ticks[..n]);
      var (before, log) := Run(FreshRow(identity), policy, ticks[..n]);
      StepJustified(log, before, policy, ticks[n]);
    }
  }

  lemma FreshJustified(identity: Identity, policy: Policy)
    ensures Justified([], FreshRow(identity), policy)
  {
  }

  lemma {:induction false} IdentityKept(identity: Identity, policy: Policy, ticks: seq<Tick>)
    ensures Run(FreshRow(identity), policy, ticks).0.identity == identity
  {
    if ticks != [] {
      var n := |ticks| - 1;
      IdentityKept(identity, policy, ticks[..n]);
      StepKeepsIdentity(Run(FreshRow(identity), policy, ticks[..n]).0, policy, ticks[n]);
    }
  }

  lemma StepKeepsIdentity(row: Row, policy: Policy, tick: Tick)
    requires RowOk(row)
    ensures Next(row, policy, tick).identity == row.identity
  {
    hide RetryDelay, ValidSha, ValidBranch, BranchOf, IdentityMatches, ContainsPrevious;
  }

  /**
    With archival enabled, a new submission reaches `Verified` only after, in this order: the bundle
    matched every stored identity and contained the last archived head, the required checks passed
    for exactly the stored head, and the merge was requested for that same head and acknowledged
    with the stored merge commit.
   */
  lemma {:induction false} VerifiedMeansMatchedPassedMerged(identity: Identity, policy: Policy, ticks: seq<Tick>)
    requires policy.enabled && Run(FreshRow(identity), policy, ticks).0.state.Verified?
    ensures var (row, log) := Run(FreshRow(identity), policy, ticks);
            && row.headSha.Some? && row.mergeSha.Some?
            && exists i, j, k :: 0 <= i < j < k < |log| && MatchedAt(log, i, identity, policy) && PassedAt(log, j, row.headSha.value) && MergedAt(log, k, row)
  {
    RunJustified(identity, policy, ticks);
    IdentityKept(identity, policy, ticks);
    hide Run, RowOk;
    var (row, log) := Run(FreshRow(identity), policy, ticks);
    WitnessesInOrder(log, row, policy);
  }

  lemma WitnessesInOrder(log: seq<Call>, row: Row, policy: Policy)
    requires MatchedPassedMerged(log, row, policy)
    ensures row.headSha.Some? && row.mergeSha.Some?
    ensures exists i, j, k :: 0 <= i < j < k < |log| && MatchedAt(log, i, row.identity, policy) && PassedAt(log, j, row.headSha.value) && MergedAt(log, k, row)
  {
    var k :| MergedAt(log, k, row) && MatchedAndPassed(log, k, row, policy);
    MergedInLog(log, k, row);
    var j :| j < k && PassedAt(log, j, row.headSha.value) && Matched(log, j, row, policy);
    var i :| i < j && MatchedAt(log, i, row.identity, policy);
    MatchedInLog(log, i, row.identity, policy);
    hide MatchedAt, PassedAt, MergedAt;
    assert 0 <= i < j < k < |log|;
  }

  lemma MatchedInLog(log: seq<Call>, i: int, identity: Identity, policy: Policy)
    requires MatchedAt(log, i, identity, policy)
    ensures 0 <= i < |log|
  {
  }

  lemma MergedInLog(log: seq<Call>, k: int, row: Row)
    requires MergedAt(log, k, row)
    ensures 0 <= k < |log| && row.headSha.Some? && row.mergeSha.Some?
  {
  }

  /** No run requests a merge for a head whose checks it has not seen pass. */
  lemma {:induction false} MergeOnlyAfterChecks(identity: Identity, policy: Policy, ticks: seq<Tick>, k: nat)
    requires policy.enabled
    requires var log := Run(FreshRow(identity), policy, ticks).1; k < |log| && log[k].RequestedMerge?
    ensures var log := Run(FreshRow(identity), policy, ticks).1;
            exists j :: j < k && PassedAt(log, j, log[k].mergedHead)
  {
    RunJustified(identity, policy, ticks);
    hide Run;
  }

  lemma TerminalStandsStill(row: Row, policy: Policy, tick: Tick)
    requires RowOk(row) && policy.enabled && Terminal(row.state)
    ensures Next(row, policy, tick) == row && Calls(row, policy, tick) == []
  {
  }

  /** With archival enabled, a finished submission never changes again. */
  lemma {:induction false} TerminalIsFinal(row: Row, policy: Policy, ticks: seq<Tick>)
    requires RowOk(row) && policy.enabled && Terminal(row.state)
    ensures Run(row, policy, ticks) == (row, [])
  {
    hide Next, Calls, Step, RowOk;
    if ticks == [] {
      assert Run(row, policy, ticks) == (row, []);
    } else {
      var tick := ticks[|ticks| - 1];
      TerminalIsFinal(row, policy, ticks[..|ticks| - 1]);
      TerminalStandsStill(row, policy, tick);
      var log: seq<Call> := [];
      assert log + Calls(row, policy, tick) == [];
      assert Run(row, policy, ticks) == (Next(row, policy, tick), log + Calls(row, policy, tick));
    }
  }
}
