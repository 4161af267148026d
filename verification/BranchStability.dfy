/** What a submission stores about its branch, base, head and pull request, and when a run can lose it again. */
module BranchStability {
  import opened Wrappers
  import opened Uploader
  import opened UploaderRuns
  import opened UploaderSafety

  /** What a step keeps of the remote identity of a submission. */
  predicate KeepsRemote(row: Row, next: Row) {
    && next.branchName == row.branchName
    && next.baseSha == row.baseSha
    && (row.headSha.Some? ==> next.headSha == row.headSha)
    && (row.pullNumber.Some? ==> next.pullNumber == row.pullNumber)
  }

  /** An unmerged pull request numbered zero reads as none at all, and a failure in passing starts over. */
  predicate StartsOver(row: Row, policy: Policy) {
    && policy.enabled
    && (row.state.AwaitingChecks? || row.state.AwaitingMerge?)
    && row.pullNumber == Some(0)
    && row.mergeSha.None?
    && row.attemptCount + 1 < policy.retryLimit
  }

  lemma MergeIsNamed(row: Row)
    requires RowOk(row)
    ensures row.mergeSha.Some? ==> row.mergeSha.value != ""
  {
  }

  lemma {:induction false} UploadingKeepsRemote(row: Row, policy: Policy, now: int, replies: Replies)
    requires RowOk(row) && row.state.Uploading? && row.branchName == Some(BranchOf(row.identity, policy))
    ensures KeepsRemote(row, StepUploading(row, policy, now, replies).0)
  {
    hide RetryDelay, ValidSha, ValidBranch, BranchOf;
  }

  lemma {:induction false} StepKeepsRemote(row: Row, policy: Policy, tick: Tick)
    requires RowOk(row) && row.branchName == Some(BranchOf(row.identity, policy)) && !StartsOver(row, policy)
    ensures KeepsRemote(row, Next(row, policy, tick))
  {
    hide RetryDelay, ValidSha, ValidBranch, BranchOf, StepVerifying, StepUploading;
    MergeIsNamed(row);
    if policy.enabled && row.state.Uploading? {
      UploadingKeepsRemote(row, policy, tick.now, tick.replies);
    }
  }

  // ---------------------------------------------------------------------------------------------
  // Whole runs

  /**
    Some answers can still make the submission start over: archival is enabled, nothing is merged, an
    attempt is left, and the pull request is numbered zero or can still be.
   */
  predicate MayStartOver(row: Row, policy: Policy) {
    || StartsOver(row, policy)
    || (&& policy.enabled && row.state.Uploading? && row.attemptCount + 1 < policy.retryLimit
        && ValidBranch(BranchOf(row.identity, policy)) && (row.headSha.Some? ==> ValidSha(row.headSha.value)))
  }

  lemma UploadingStaysSafe(row: Row, policy: Policy, now: int, replies: Replies)
    requires RowOk(row) && row.state.Uploading? && row.branchName == Some(BranchOf(row.identity, policy)) && policy.enabled
    requires !MayStartOver(row, policy)
    ensures var next := StepUploading(row, policy, now, replies).0; next.identity == row.identity ==> !MayStartOver(next, policy)
  {
    hide RetryDelay, ValidSha, ValidBranch, BranchOf;
  }

  lemma {:induction false} StepStaysSafe(row: Row, policy: Policy, tick: Tick)
    requires RowOk(row) && row.branchName == Some(BranchOf(row.identity, policy)) && !MayStartOver(row, policy)
    ensures var next := Next(row, policy, tick);
            KeepsRemote(row, next) && next.identity == row.identity && !MayStartOver(next, policy)
  {
    hide RetryDelay, ValidSha, ValidBranch, BranchOf, StepVerifying, StepUploading;
    MergeIsNamed(row);
    StepKeepsRemote(row, policy, tick);
    StepKeepsIdentity(row, policy, tick);
    if policy.enabled && row.state.Uploading? {
      UploadingStaysSafe(row, policy, tick.now, tick.replies);
    }
  }

  lemma {:induction false} RunStaysSafe(row: Row, policy: Policy, ticks: seq<Tick>)
    requires RowOk(row) && row.branchName == Some(BranchOf(row.identity, policy)) && !MayStartOver(row, policy)
    ensures var later := Run(row, policy, ticks).0;
            KeepsRemote(row, later) && later.identity == row.identity && !MayStartOver(later, policy)
  {
    hide Next, Calls, MayStartOver, RowOk, BranchOf;
    if ticks != [] {
      var n := |ticks| - 1;
      RunStaysSafe(row, policy, ticks[..n]);
      StepStaysSafe(Run(row, policy, ticks[..n]).0, policy, ticks[n]);
    }
  }

  /** Answers that number the pull request zero. */
  function ZeroAnswers(row: Row): Replies {
    Replies(UnavailableBundle, Malformed, if row.baseSha.Some? then Ok(row.baseSha.value) else Malformed,
            FileDigest(row.identity.bundleSha256), Ok(seq(40, _ => '0')), Ok(0), Malformed, Malformed, Malformed, Malformed)
  }

  lemma ZeroNumbered(row: Row, policy: Policy)
    requires RowOk(row) && row.branchName == Some(BranchOf(row.identity, policy)) && MayStartOver(row, policy) && row.state.Uploading?
    ensures var next := Next(row, policy, Tick(0, None, ZeroAnswers(row)));
            next.state.AwaitingChecks? && next.pullNumber == Some(0) && StartsOver(next, policy)
  {
    hide ValidBranch, BranchOf, RetryDelay;
    assert ValidSha(seq(40, _ => '0'));
  }

  lemma StartedOver(row: Row, policy: Policy)
    requires RowOk(row) && StartsOver(row, policy)
    ensures Next(row, policy, Tick(0, None, ZeroAnswers(row))).branchName == None
  {
    hide ValidSha, RetryDelay;
  }

  lemma OneTick(row: Row, policy: Policy, tick: Tick)
    requires RowOk(row)
    ensures Run(row, policy, [tick]).0 == Next(row, policy, tick)
  {
    hide Next, Calls, RowOk;
    assert [tick][..0] == [];
    assert Run(row, policy, []) == (row, []);
  }

  lemma TwoTicks(row: Row, policy: Policy, a: Tick, b: Tick)
    requires RowOk(row)
    ensures RowOk(Next(row, policy, a)) && Run(row, policy, [a, b]).0 == Next(Next(row, policy, a), policy, b)
  {
    StepKeepsRowOk(row, policy, a.now, a.previousHead, a.replies);
    OneTick(row, policy, a);
    hide Next, Calls, RowOk;
    assert [a, b][..1] == [a];
  }

  /**
    Once a submission stores its branch, no continuation of the run rewinds the branch, its base, its
    head or its pull request, exactly when it can no longer start over.
   */
  lemma BranchIsNeverRewoundIff(row: Row, policy: Policy)
    requires RowOk(row) && row.branchName == Some(BranchOf(row.identity, policy))
    ensures (forall ticks :: KeepsRemote(row, Run(row, policy, ticks).0)) <==> !MayStartOver(row, policy)
  {
    hide Run, RowOk, BranchOf, Next;
    if !MayStartOver(row, policy) {
      forall ticks
        ensures KeepsRemote(row, Run(row, policy, ticks).0)
      {
        RunStaysSafe(row, policy, ticks);
      }
    } else {
      hide MayStartOver;
      var ticks := Rewinding(row, policy);
      assert !KeepsRemote(row, Run(row, policy, ticks).0);
    }
  }

  lemma Rewinding(row: Row, policy: Policy) returns (ticks: seq<Tick>)
    requires RowOk(row) && row.branchName == Some(BranchOf(row.identity, policy)) && MayStartOver(row, policy)
    ensures Run(row, policy, ticks).0.branchName == None
  {
    hide Run, BranchOf, Next, StartsOver, ValidBranch, ValidSha;
    var zero := Tick(0, None, ZeroAnswers(row));
    if StartsOver(row, policy) {
      ticks := [zero];
      StartedOver(row, policy);
      OneTick(row, policy, zero);
    } else {
      ZeroNumbered(row, policy);
      var next := Next(row, policy, zero);
      TwoTicks(row, policy, zero, Tick(0, None, ZeroAnswers(next)));
      StartedOver(next, policy);
      ticks := [zero, Tick(0, None, ZeroAnswers(next))];
    }
  }

  // ---------------------------------------------------------------------------------------------
  // Runs from a new submission

  /** The provider numbers pull requests from one, as it promises. */
  predicate NumbersFromOne(ticks: seq<Tick>) {
    forall k :: 0 <= k < |ticks| ==> ticks[k].replies.pull.Ok? ==> ticks[k].replies.pull.value != 0
  }

  /** What a submission has stored is consistent, and its pull request is not numbered zero. */
  predicate Stored(row: Row, policy: Policy) {
    && row.pullNumber != Some(0)
    && (row.branchName.Some? ==> row.branchName == Some(BranchOf(row.identity, policy)))
  }

  lemma UploadingStaysStored(row: Row, policy: Policy, now: int, replies: Replies)
    requires RowOk(row) && row.state.Uploading? && Stored(row, policy) && (replies.pull.Ok? ==> replies.pull.value != 0)
    ensures var next := StepUploading(row, policy, now, replies).0;
            next.pullNumber != Some(0) && (next.branchName.Some? ==> next.branchName == Some(BranchOf(row.identity, policy)))
  {
    hide RetryDelay, ValidSha, ValidBranch, BranchOf;
  }

  lemma {:induction false} StepStaysStored(row: Row, policy: Policy, tick: Tick)
    requires RowOk(row) && Stored(row, policy) && (tick.replies.pull.Ok? ==> tick.replies.pull.value != 0)
    ensures Stored(Next(row, policy, tick), policy)
  {
    hide RetryDelay, ValidSha, ValidBranch, BranchOf, IdentityMatches, ContainsPrevious, StepUploading;
    StepKeepsIdentity(row, policy, tick);
    if policy.enabled && row.state.Uploading? {
      UploadingStaysStored(row, policy, tick.now, tick.replies);
    }
  }

  lemma {:induction false} RunStaysStored(identity: Identity, policy: Policy, ticks: seq<Tick>)
    requires NumbersFromOne(ticks)
    ensures Stored(Run(FreshRow(identity), policy, ticks).0, policy)
  {
    hide Next, Calls, BranchOf;
    if ticks != [] {
      var n := |ticks| - 1;
      RunStaysStored(identity, policy, ticks[..n]);
      StepStaysStored(Run(FreshRow(identity), policy, ticks[..n]).0, policy, ticks[n]);
    }
  }

  /**
    In every run of a new submission whose provider numbers pull requests from one: a stored branch
    keeps its name and base for good, and the head and the pull request stay once they are stored.
   */
  lemma {:induction false} StoredBranchStays(identity: Identity, policy: Policy, ticks: seq<Tick>, m: nat)
    requires NumbersFromOne(ticks) && m <= |ticks|
    requires Run(FreshRow(identity), policy, ticks[..m]).0.branchName.Some?
    ensures KeepsRemote(Run(FreshRow(identity), policy, ticks[..m]).0, Run(FreshRow(identity), policy, ticks).0)
    decreases |ticks|
  {
    hide Next, Calls, BranchOf, Stored;
    if m == |ticks| {
      assert ticks[..m] == ticks;
    } else {
      var n := |ticks| - 1;
      assert ticks[..n][..m] == ticks[..m];
      StoredBranchStays(identity, policy, ticks[..n], m);
      RunStaysStored(identity, policy, ticks[..n]);
      var last := Run(FreshRow(identity), policy, ticks[..n]).0;
      StoredKeepsRemote(last, policy, ticks[n]);
    }
  }

  lemma StoredKeepsRemote(row: Row, policy: Policy, tick: Tick)
    requires RowOk(row) && Stored(row, policy) && row.branchName.Some?
    ensures KeepsRemote(row, Next(row, policy, tick))
  {
    hide Next, RowOk, BranchOf;
    StepKeepsRemote(row, policy, tick);
  }
}
