/** The uploader and the client as the service runs them: a stored row and a repository, updated in place. */
module UploaderService {
  import opened Wrappers
  import opened Uploader
  import opened GitHubClient

  class Submission {
    const identity: Identity
    var state: State
    var failureReason: Option<string>
    var attemptCount: nat
    var nextAttemptAt: Option<int>
    var baseSha: Option<string>
    var branchName: Option<string>
    var headSha: Option<string>
    var pullNumber: Option<int>
    var checksStartedAt: Option<int>
    var mergeSha: Option<string>
    var completedAt: Option<int>

    function Stored(): Row
      reads this
    {
      Row(identity, state, failureReason, attemptCount, nextAttemptAt, baseSha, branchName, headSha, pullNumber, checksStartedAt, mergeSha, completedAt)
    }

    constructor (identity: Identity)
      ensures this.identity == identity && Stored() == FreshRow(identity) && RowOk(Stored())
    {
      this.identity := identity;
      state, failureReason, attemptCount, nextAttemptAt := Pending, None, 0, None;
      baseSha, branchName, headSha, pullNumber := None, None, None, None;
      checksStartedAt, mergeSha, completedAt := None, None, None;
    }

    method SetFailure(reason: string, terminal: State)
      modifies this
      ensures Stored() == Fail(old(Stored()), reason, terminal)
    {
      failureReason := Some(reason);
      state := terminal;
      nextAttemptAt := None;
    }

    method Reschedule(policy: Policy, now: int, problem: Problem)
      modifies this
      ensures Stored() == ScheduleRetry(old(Stored()), policy, now, problem)
    {
      hide RetryDelay;
      attemptCount := attemptCount + 1;
      failureReason := Some(problem.reason);
      if attemptCount >= policy.retryLimit {
        SetFailure("retry_limit_reached", Failed);
        return;
      }
      if mergeSha.Some? && mergeSha.value != "" {
        state := AwaitingMerge;
      } else if Present(pullNumber) {
        state := if state.AwaitingMerge? then AwaitingMerge else AwaitingChecks;
      } else if state.Uploading? && branchName.Some? {
        state := Uploading;
      } else {
        state := Pending;
        branchName, baseSha, headSha, checksStartedAt := None, None, None, None;
      }
      nextAttemptAt := Some(now + RetryDelay(identity.jitterSeed, attemptCount, problem.retryAfter));
    }

    method HandleProblem(policy: Policy, now: int, problem: Problem)
      modifies this
      ensures Stored() == OnProblem(old(Stored()), policy, now, problem)
    {
      hide ScheduleRetry;
      if problem.reason in CONTROLLER_ACTION_REASONS {
        SetFailure(problem.reason, RequiresControllerAction);
      } else if problem.reason in BLOCKED_REASONS {
        SetFailure(problem.reason, Blocked);
      } else if problem.retryable {
        Reschedule(policy, now, problem);
      } else {
        SetFailure(problem.reason, Failed);
      }
    }

    method HandleError<T>(policy: Policy, now: int, reply: Reply<T>)
      requires !reply.Ok?
      modifies this
      ensures Stored() == OnError(old(Stored()), policy, now, reply)
    {
      hide ScheduleRetry, OnProblem;
      match reply {
        case Refused(problem) => HandleProblem(policy, now, problem);
        case Malformed => Reschedule(policy, now, Problem("provider_invalid_response", true, None));
      }
    }

    method VerifyBundle(policy: Policy, now: int, previousHead: Option<string>, replies: Replies)
      modifies this
      ensures Stored() == StepVerifying(old(Stored()), policy, now, previousHead, replies).0
    {
      hide OnError, IdentityMatches, ContainsPrevious;
      match replies.verification {
        case InvalidBundle => SetFailure("bundle_verification_failed", Blocked);
        case UnavailableBundle => SetFailure("local_bundle_unavailable", Blocked);
        case VerifiedSummary(_, _, _, _) =>
          if !IdentityMatches(identity, policy, replies.verification) {
            SetFailure("verified_bundle_identity_mismatch", Blocked);
          } else if !ContainsPrevious(replies.verification, previousHead) {
            SetFailure("rollback_or_fork_detected", Blocked);
          } else if !replies.readiness.Ok? {
            HandleError(policy, now, replies.readiness);
          } else if replies.readiness.value.repositoryId != policy.repositoryId || !replies.readiness.value.isPrivate {
            SetFailure("repository_identity_mismatch", RequiresControllerAction);
          } else {
            baseSha := Some(replies.readiness.value.defaultHead);
            state := Uploading;
          }
      }
    }

    method Upload(policy: Policy, now: int, replies: Replies)
      modifies this
      ensures Stored() == StepUploading(old(Stored()), policy, now, replies).0
    {
      hide OnError, OnProblem, ValidSha, ValidBranch, BranchOf;
      if !replies.defaultHead.Ok? {
        HandleError(policy, now, replies.defaultHead);
        return;
      }
      if Some(replies.defaultHead.value) != baseSha {
        HandleProblem(policy, now, Problem("default_branch_changed", true, None));
        return;
      }
      var branch := BranchOf(identity, policy);
      if !ValidBranch(branch) {
        SetFailure("automatic_branch_policy_violation", Blocked);
        return;
      }
      branchName := Some(branch);
      if replies.digest.UnavailableFile? {
        SetFailure("local_bundle_unavailable", Blocked);
        return;
      }
      if replies.digest.sha256 != identity.bundleSha256 {
        SetFailure("bundle_changed_after_queue", Blocked);
        return;
      }
      if headSha.None? {
        if !replies.commit.Ok? {
          HandleError(policy, now, replies.commit);
          return;
        }
        headSha := Some(replies.commit.value);
      }
      if !ValidSha(headSha.value) {
        SetFailure("invalid_provider_head_sha", Blocked);
        return;
      }
      if pullNumber.None? {
        if !replies.pull.Ok? {
          HandleError(policy, now, replies.pull);
          return;
        }
        pullNumber := Some(replies.pull.value);
      }
      checksStartedAt := Some(now);
      state := AwaitingChecks;
    }

    method AwaitChecks(policy: Policy, now: int, replies: Replies)
      requires pullNumber.Some? && headSha.Some?
      modifies this
      ensures Stored() == StepChecking(old(Stored()), policy, now, replies).0
    {
      hide OnError;
      if !replies.pullHead.Ok? {
        HandleError(policy, now, replies.pullHead);
      } else if Some(replies.pullHead.value) != headSha {
        SetFailure("pull_request_head_changed", Blocked);
      } else if !replies.checks.Ok? {
        HandleError(policy, now, replies.checks);
      } else if replies.checks.value.ChecksFailed? {
        SetFailure("required_checks_failed", Failed);
      } else if !replies.checks.value.ChecksPassed? {
        var started := if checksStartedAt.Some? then checksStartedAt.value else now;
        if now - started >= policy.checkTimeoutSeconds {
          SetFailure("required_checks_timed_out", Failed);
        } else {
          nextAttemptAt := Some(now + policy.checkPollSeconds);
        }
      } else {
        nextAttemptAt := None;
        state := AwaitingMerge;
      }
    }

    method Merge(policy: Policy, now: int, replies: Replies)
      requires pullNumber.Some? && headSha.Some? && branchName.Some?
      modifies this
      ensures Stored() == StepMerging(old(Stored()), policy, now, replies).0
    {
      hide OnError, ValidSha;
      if mergeSha.None? {
        if !replies.pullHead.Ok? {
          HandleError(policy, now, replies.pullHead);
        } else if Some(replies.pullHead.value) != headSha {
          SetFailure("pull_request_head_changed", Blocked);
        } else if !replies.merge.Ok? {
          HandleError(policy, now, replies.merge);
        } else if !ValidSha(replies.merge.value) {
          SetFailure("invalid_provider_merge_sha", Blocked);
        } else {
          mergeSha := Some(replies.merge.value);
        }
      } else if !replies.deletion.Ok? {
        HandleError(policy, now, replies.deletion);
      } else {
        state := Verified;
        completedAt := Some(now);
        failureReason, nextAttemptAt := None, None;
      }
    }

    /** Advance one durable step; `replies` are the answers of the calls it makes. */
    method AdvanceSubmission(policy: Policy, now: int, previousHead: Option<string>, replies: Replies) returns (reached: State)
      requires RowOk(Stored())
      modifies this
      ensures Stored() == Step(old(Stored()), policy, now, previousHead, replies).0
      ensures RowOk(Stored()) && reached == state
    {
      StepKeepsRowOk(Stored(), policy, now, previousHead, replies);
      hide StepVerifying, StepUploading, StepChecking, StepMerging, ValidSha;
      if !policy.enabled {
        SetFailure("automatic_archival_disabled", RequiresControllerAction);
        return state;
      }
      match state {
        case Pending =>
          state := Verifying;
          failureReason, nextAttemptAt := None, None;
        case Verifying => VerifyBundle(policy, now, previousHead, replies);
        case Uploading => Upload(policy, now, replies);
        case AwaitingChecks => AwaitChecks(policy, now, replies);
        case AwaitingMerge => Merge(policy, now, replies);
        case _ =>
      }
      return state;
    }
  }

  class TokenClient {
    var world: World

    /** Recover the branch of an earlier attempt, or create the objects and then the branch. */
    method CreateCommit(branch: string, base: string, files: map<string, string>, network: Network) returns (reply: Reply<string>)
      modifies this
      ensures (world, reply) == CreateArchiveCommit(old(world), branch, base, files, network)
    {
      hide WithBranch, IsArchiveCommit, FirstLost;
      var asked := FirstLost(network, 0, 1);
      if asked.Some? {
        return Refused(asked.value);
      }
      if branch in world.branches {
        var compared := FirstLost(network, 1, 2);
        if compared.Some? {
          return Refused(compared.value);
        }
        var existing := world.branches[branch];
        if !IsArchiveCommit(world, base, existing, files) {
          return Refused(Problem("automatic_branch_conflict", false, None));
        }
        return Ok(existing);
      }
      var objects := FirstLost(network, 1, 6);
      if objects.Some? {
        return Refused(objects.value);
      }
      var delivery := DeliveryOf(network, 6);
      if Takes(delivery) {
        world := WithBranch(world, branch, network.freshSha, base, files);
      }
      if !delivery.Delivered? {
        return Refused(ProblemOf(delivery));
      }
      return Ok(network.freshSha);
    }

    /** The numbers of the open pull requests of one branch, by a scan. */
    method ListOpenPulls(branch: string) returns (numbers: seq<nat>)
      ensures numbers == OpenPulls(world.pulls, branch)
    {
      numbers := [];
      for i := 0 to |world.pulls|
        invariant numbers == OpenPulls(world.pulls[..i], branch)
      {
        assert world.pulls[..i + 1][..i] == world.pulls[..i];
        if world.pulls[i].branch == branch && !world.pulls[i].merged {
          numbers := numbers + [i + 1];
        }
      }
      assert world.pulls[..|world.pulls|] == world.pulls;
    }

    /** The open pull request of an earlier attempt, or a new one; a race is settled by looking again. */
    method OpenPull(branch: string, head: string, network: Network) returns (reply: Reply<int>)
      modifies this
      ensures (world, reply) == OpenPullRequest(old(world), branch, head, network)
    {
      hide FirstLost, OpenPulls;
      var found := FindOpenPull(world, branch, head, network, 0);
      match found {
        case Refused(problem) => return Refused(problem);
        case Malformed => return Malformed;
        case Ok(number) =>
          if number.Some? {
            return Ok(number.value);
          }
      }
      var delivery := DeliveryOf(network, 1);
      if branch !in world.branches {
        if !delivery.Delivered? {
          return Refused(ProblemOf(delivery));
        }
        var again := FindOpenPull(world, branch, head, network, 2);
        match again {
          case Refused(problem) => return Refused(problem);
          case Malformed => return Malformed;
          case Ok(number) => return if number.Some? then Ok(number.value) else Refused(RACE);
        }
      }
      var opening := Pull(branch, world.branches[branch], false);
      var number := |world.pulls| + 1;
      if Takes(delivery) {
        world := world.(pulls := world.pulls + [opening]);
      }
      if !delivery.Delivered? {
        return Refused(ProblemOf(delivery));
      }
      if opening.head != head {
        return Refused(Problem("pull_request_head_changed", false, None));
      }
      return Ok(number);
    }

    method RemoveBranch(branch: string, network: Network) returns (reply: Reply<()>)
      modifies this
      ensures (world, reply) == DeleteBranch(old(world), branch, network)
    {
      var delivery := DeliveryOf(network, 0);
      var known := branch in world.branches;
      if known && Takes(delivery) {
        world := world.(branches := world.branches - {branch});
      }
      if !delivery.Delivered? {
        return Refused(ProblemOf(delivery));
      }
      return if known then Ok(()) else Refused(RACE);
    }

    method MergePull(number: int, head: string, network: Network) returns (reply: Reply<string>)
      modifies this
      ensures (world, reply) == MergePullRequest(old(world), number, head, network)
    {
      var current := PullRequestHead(world, number, network);
      if !current.Ok? {
        return current;
      }
      if current.value != head {
        return Refused(Problem("pull_request_head_changed", false, None));
      }
      var delivery := DeliveryOf(network, 1);
      var pull := world.pulls[number - 1];
      if pull.merged {
        reply := if delivery.Delivered? then Refused(Problem("github_api_unavailable", false, None)) else Refused(ProblemOf(delivery));
        return;
      }
      if Takes(delivery) {
        world := world.(pulls := world.pulls[number - 1 := pull.(merged := true)], defaultHead := network.freshSha, mergesDone := world.mergesDone + 1);
      }
      reply := if delivery.Delivered? then Ok(network.freshSha) else Refused(ProblemOf(delivery));
    }
  }
}
