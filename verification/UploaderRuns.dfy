/** Whole runs of the uploader against a provider that may answer anything. */
module UploaderRuns {
  import opened Wrappers
  import opened Uploader

  /** The inputs of one step: its time, the head last archived for the instance, and the answers. */
  datatype Tick = Tick(now: int, previousHead: Option<string>, replies: Replies)

  function Next(row: Row, policy: Policy, tick: Tick): Row
    requires RowOk(row)
  {
    Step(row, policy, tick.now, tick.previousHead, tick.replies).0
  }

  function Calls(row: Row, policy: Policy, tick: Tick): seq<Call>
    requires RowOk(row)
  {
    Step(row, policy, tick.now, tick.previousHead, tick.replies).1
  }

  /** The row after a run, and every call made in it. */
  function Run(row: Row, policy: Policy, ticks: seq<Tick>): (r: (Row, seq<Call>))
    requires RowOk(row)
    ensures RowOk(r.0)
  {
    if ticks == [] then (row, [])
    else
      var (before, log) := Run(row, policy, ticks[..|ticks| - 1]);
      var tick := ticks[|ticks| - 1];
      StepKeepsRowOk(before, policy, tick.now, tick.previousHead, tick.replies);
      (Next(before, policy, tick), log + Calls(before, policy, tick))
  }

  // ---------------------------------------------------------------------------------------------
  // Termination

  /** The worker runs a step only when it is due, and its clock does not go back. */
  predicate Due(row: Row, tick: Tick) {
    && (row.nextAttemptAt.Some? ==> row.nextAttemptAt.value <= tick.now)
    && (row.checksStartedAt.Some? ==> row.checksStartedAt.value <= tick.now)
  }

  function Rank(row: Row): nat {
    match row.state
    case Pending => 6
    case Verifying => 5
    case Uploading => 4
    case AwaitingChecks => 3
    case AwaitingMerge => if row.mergeSha.None? then 2 else 1
    case _ => 0
  }

  function Timeout(policy: Policy): nat {
    Max(0, policy.checkTimeoutSeconds)
  }

  function AttemptsLeft(row: Row, policy: Policy): nat {
    Max(0, policy.retryLimit - row.attemptCount)
  }

  /** Seconds of waiting for checks that may still follow. */
  function Slack(row: Row, policy: Policy): nat {
    if row.state.AwaitingChecks? && row.checksStartedAt.Some? then
      var started := row.checksStartedAt.value;
      var due := if row.nextAttemptAt.Some? then Max(started, row.nextAttemptAt.value) else started;
      Max(0, started + Timeout(policy) - due)
    else
      0
  }

  predicate Smaller(a: (nat, nat, nat), b: (nat, nat, nat)) {
    a.0 < b.0 || (a.0 == b.0 && (a.1 < b.1 || (a.1 == b.1 && a.2 < b.2)))
  }

  function Measure(row: Row, policy: Policy): (nat, nat, nat) {
    (AttemptsLeft(row, policy), Rank(row), Slack(row, policy))
  }

  lemma ErrorMakesSmaller<T>(row: Row, changed: Row, policy: Policy, now: int, reply: Reply<T>)
    requires RowOk(row) && !Terminal(row.state) && RowOk(changed) && changed.state == row.state && !reply.Ok?
    requires changed.attemptCount == row.attemptCount && changed.mergeSha == row.mergeSha
    ensures Smaller(Measure(OnError(changed, policy, now, reply), policy), Measure(row, policy))
  {
    ErrorOutcomes(changed, policy, now, reply);
    hide OnError, RowOk, Slack, Retried;
  }

  lemma ProblemMakesSmaller(row: Row, policy: Policy, now: int, problem: Problem)
    requires RowOk(row) && !Terminal(row.state)
    ensures Smaller(Measure(OnProblem(row, policy, now, problem), policy), Measure(row, policy))
  {
    ProblemOutcomes(row, policy, now, problem);
    hide OnProblem, RowOk, Slack, Retried;
  }

  lemma VerifyingMakesSmaller(row: Row, policy: Policy, now: int, previousHead: Option<string>, replies: Replies)
    requires RowOk(row) && row.state.Verifying?
    ensures Smaller(Measure(StepVerifying(row, policy, now, previousHead, replies).0, policy), Measure(row, policy))
  {
    hide IdentityMatches, ContainsPrevious, OnError, RowOk;
    if !replies.readiness.Ok? {
      ErrorMakesSmaller(row, row, policy, now, replies.readiness);
    }
  }

  lemma OpeningMakesSmaller(row: Row, changed: Row, policy: Policy, now: int, calls: seq<Call>, replies: Replies)
    requires RowOk(row) && RowOk(changed) && row.state.Uploading? && changed.state.Uploading?
    requires changed.attemptCount == row.attemptCount && changed.headSha.Some? && changed.branchName.Some?
    ensures Smaller(Measure(StepOpening(changed, policy, now, calls, replies).0, policy), Measure(row, policy))
  {
    hide OnError, ValidSha;
    if !replies.pull.Ok? {
      ErrorMakesSmaller(row, changed, policy, now, replies.pull);
    }
  }

  lemma UploadingMakesSmaller(row: Row, policy: Policy, now: int, replies: Replies)
    requires RowOk(row) && row.state.Uploading?
    ensures Smaller(Measure(StepUploading(row, policy, now, replies).0, policy), Measure(row, policy))
  {
    hide OnError, OnProblem, StepOpening, ValidSha, ValidBranch, BranchOf;
    var calls := [AskedDefaultHead(replies.defaultHead)];
    var named := row.(branchName := Some(BranchOf(row.identity, policy)));
    if !replies.defaultHead.Ok? {
      ErrorMakesSmaller(row, row, policy, now, replies.defaultHead);
    } else if Some(replies.defaultHead.value) != row.baseSha {
      ProblemMakesSmaller(row, policy, now, Problem("default_branch_changed", true, None));
    } else if row.headSha.Some? {
      OpeningMakesSmaller(row, named, policy, now, calls, replies);
    } else if !replies.commit.Ok? {
      ErrorMakesSmaller(row, named, policy, now, replies.commit);
    } else {
      var created := calls + [CreatedCommit(BranchOf(row.identity, policy), row.baseSha.value, replies.commit)];
      OpeningMakesSmaller(row, named.(headSha := Some(replies.commit.value)), policy, now, created, replies);
    }
  }

  lemma CheckingMakesSmaller(row: Row, policy: Policy, now: int, replies: Replies)
    requires RowOk(row) && row.state.AwaitingChecks? && 1 <= policy.checkPollSeconds
    requires row.nextAttemptAt.Some? ==> row.nextAttemptAt.value <= now
    requires row.checksStartedAt.Some? ==> row.checksStartedAt.value <= now
    ensures Smaller(Measure(StepChecking(row, policy, now, replies).0, policy), Measure(row, policy))
  {
    hide OnError, ValidSha;
    if !replies.pullHead.Ok? {
      ErrorMakesSmaller(row, row, policy, now, replies.pullHead);
    } else if !replies.checks.Ok? {
      ErrorMakesSmaller(row, row, policy, now, replies.checks);
    }
  }

  lemma MergingMakesSmaller(row: Row, policy: Policy, now: int, replies: Replies)
    requires RowOk(row) && row.state.AwaitingMerge?
    ensures Smaller(Measure(StepMerging(row, policy, now, replies).0, policy), Measure(row, policy))
  {
    hide OnError, ValidSha;
    if row.mergeSha.Some? {
      if !replies.deletion.Ok? {
        ErrorMakesSmaller(row, row, policy, now, replies.deletion);
      }
    } else if !replies.pullHead.Ok? {
      ErrorMakesSmaller(row, row, policy, now, replies.pullHead);
    } else if !replies.merge.Ok? {
      ErrorMakesSmaller(row, row, policy, now, replies.merge);
    }
  }

  /** Every step of an unfinished submission makes the lexicographic measure smaller, whatever is answered. */
  lemma StepMakesSmaller(row: Row, policy: Policy, tick: Tick)
    requires RowOk(row) && !Terminal(row.state) && 1 <= policy.checkPollSeconds && Due(row, tick)
    ensures Smaller(Measure(Next(row, policy, tick), policy), Measure(row, policy))
  {
    hide StepVerifying, StepUploading, StepChecking, StepMerging, ValidSha;
    match row.state {
      case Verifying => VerifyingMakesSmaller(row, policy, tick.now, tick.previousHead, tick.replies);
      case Uploading => UploadingMakesSmaller(row, policy, tick.now, tick.replies);
      case AwaitingChecks => CheckingMakesSmaller(row, policy, tick.now, tick.replies);
      case AwaitingMerge => MergingMakesSmaller(row, policy, tick.now, tick.replies);
      case _ =>
    }
  }

  /** The measure as one number. */
  function Weight(measure: (nat, nat, nat), policy: Policy): nat {
    (measure.0 * 7 + measure.1) * (Timeout(policy) + 1) + measure.2
  }

  lemma SmallerWeighsLess(a: (nat, nat, nat), b: (nat, nat, nat), policy: Policy)
    requires Smaller(a, b) && a.1 <= 6 && b.1 <= 6 && a.2 <= Timeout(policy) && b.2 <= Timeout(policy)
    ensures Weight(a, policy) < Weight(b, policy)
  {
    var t := Timeout(policy) + 1;
    var u, v := a.0 * 7 + a.1, b.0 * 7 + b.1;
    if u < v {
      assert u * t + t == (u + 1) * t;
      Scales(u + 1, v, t);
    } else {
      assert u == v;
    }
  }

  lemma Scales(a: nat, b: nat, t: nat)
    requires a <= b
    ensures a * t <= b * t
  {
  }

  /** A run in which every step found an unfinished submission that was due. */
  predicate Working(row: Row, policy: Policy, ticks: seq<Tick>)
    requires RowOk(row)
  {
    forall n :: 0 <= n < |ticks| ==>
      var before := Run(row, policy, ticks[..n]).0;
      !Terminal(before.state) && Due(before, ticks[n])
  }

  /** No run can work for longer than its first row allows. */
  lemma {:induction false} RunsAreBounded(row: Row, policy: Policy, ticks: seq<Tick>)
    requires RowOk(row) && 1 <= policy.checkPollSeconds && Working(row, policy, ticks)
    ensures |ticks| + Weight(Measure(Run(row, policy, ticks).0, policy), policy) <= Weight(Measure(row, policy), policy)
  {
    hide Due, Weight, Measure, Next, Calls, RowOk, Terminal;
    if ticks != [] {
      var n := |ticks| - 1;
      forall m | 0 <= m < n
        ensures !Terminal(Run(row, policy, ticks[..n][..m]).0.state) && Due(Run(row, policy, ticks[..n][..m]).0, ticks[..n][m])
      {
        assert ticks[..n][..m] == ticks[..m];
      }
      RunsAreBounded(row, policy, ticks[..n]);
      var before := Run(row, policy, ticks[..n]).0;
      StepMakesSmaller(before, policy, ticks[n]);
      MeasureBounds(before, policy);
      MeasureBounds(Next(before, policy, ticks[n]), policy);
      SmallerWeighsLess(Measure(Next(before, policy, ticks[n]), policy), Measure(before, policy), policy);
    }
  }

  lemma MeasureBounds(row: Row, policy: Policy)
    ensures Measure(row, policy).1 <= 6 && Measure(row, policy).2 <= Timeout(policy)
  {
  }

  lemma FreshMeasure(identity: Identity, policy: Policy)
    ensures RowOk(FreshRow(identity))
    ensures Measure(FreshRow(identity), policy) == (Max(0, policy.retryLimit), 6, 0)
  {
  }

  lemma FreshWeight(policy: Policy)
    ensures Weight((Max(0, policy.retryLimit), 6, 0), policy) == (7 * Max(0, policy.retryLimit) + 6) * (Max(0, policy.checkTimeoutSeconds) + 1)
  {
  }

  /** The bound for a new submission, in terms of the policy alone. */
  lemma {:induction false} FreshRunsAreBounded(identity: Identity, policy: Policy, ticks: seq<Tick>)
    requires 1 <= policy.checkPollSeconds && Working(FreshRow(identity), policy, ticks)
    ensures |ticks| <= (7 * Max(0, policy.retryLimit) + 6) * (Max(0, policy.checkTimeoutSeconds) + 1)
  {
    hide Working, Weight, Measure, RowOk, FreshRow, Max, Run;
    FreshMeasure(identity, policy);
    FreshWeight(policy);
    RunsAreBounded(FreshRow(identity), policy, ticks);
  }
}
