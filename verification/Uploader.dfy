/**
  The state machine that archives one evidence bundle: one durable step at a time, with whatever the
  provider answers. A step reports the calls it made and the answers it got, in order.
 */
module Uploader {
  import opened Wrappers

  datatype State = Pending | Verifying | Uploading | AwaitingChecks | AwaitingMerge
    | Verified | Failed | Blocked | RequiresControllerAction

  predicate Terminal(state: State) {
    state.Verified? || state.Failed? || state.Blocked? || state.RequiresControllerAction?
  }

  /** A bounded provider failure. */
  datatype Problem = Problem(reason: string, retryable: bool, retryAfter: Option<int>)

  /** What a client call gives back: a value, a provider failure, or an answer that cannot be read. */
  datatype Reply<+T> = Ok(value: T) | Refused(problem: Problem) | Malformed

  datatype CheckState = ChecksPassed | ChecksFailed | ChecksPending

  datatype Verification = VerifiedSummary(bundleSha256: string, bundleId: string, chainHead: string, recordSha256s: seq<string>)
    | InvalidBundle
    | UnavailableBundle

  datatype Repository = Repository(repositoryId: string, isPrivate: bool, defaultHead: string)

  datatype Digest = FileDigest(sha256: string) | UnavailableFile

  /** The answers that the calls of one step would get. */
  datatype Replies = Replies(
    verification: Verification,
    readiness: Reply<Repository>,
    defaultHead: Reply<string>,
    digest: Digest,
    commit: Reply<string>,
    pull: Reply<int>,
    pullHead: Reply<string>,
    checks: Reply<CheckState>,
    merge: Reply<string>,
    deletion: Reply<()>)

  /** A call that a step made, with its answer. */
  datatype Call = VerifiedBundle(verification: Verification, previousHead: Option<string>)
    | AskedReadiness(readiness: Reply<Repository>)
    | AskedDefaultHead(text: Reply<string>)
    | CreatedCommit(branch: string, base: string, head: Reply<string>)
    | OpenedPull(branch: string, pullHead: string, number: Reply<int>)
    | AskedPullHead(pull: int, text: Reply<string>)
    | AskedChecks(checkedHead: string, checks: Reply<CheckState>)
    | RequestedMerge(pull: int, mergedHead: string, merge: Reply<string>)
    | DeletedBranch(branch: string, deletion: Reply<()>)

  datatype Policy = Policy(
    enabled: bool,
    repositoryId: string,
    controllerId: string,
    instanceId: string,
    branchPrefix: string,
    retryLimit: int,
    checkPollSeconds: int,
    checkTimeoutSeconds: int)

  /** What identifies the submitted bundle; none of it changes. */
  datatype Identity = Identity(
    bundleSha256: string,
    jitterSeed: nat,
    bundleId: string,
    chainHead: string,
    controllerId: string,
    instanceId: string,
    repositoryId: string)

  datatype Row = Row(
    identity: Identity,
    state: State,
    failureReason: Option<string>,
    attemptCount: nat,
    nextAttemptAt: Option<int>,
    baseSha: Option<string>,
    branchName: Option<string>,
    headSha: Option<string>,
    pullNumber: Option<int>,
    checksStartedAt: Option<int>,
    mergeSha: Option<string>,
    completedAt: Option<int>)

  function FreshRow(identity: Identity): Row {
    Row(identity, Pending, None, 0, None, None, None, None, None, None, None, None)
  }

  predicate HexDigit(c: char) {
    '0' <= c <= '9' || 'a' <= c <= 'f'
  }

  predicate ValidSha(text: string) {
    (|text| == 40 || |text| == 64) && forall k :: 0 <= k < |text| ==> HexDigit(text[k])
  }

  predicate BranchCharacter(c: char) {
    'A' <= c <= 'Z' || 'a' <= c <= 'z' || '0' <= c <= '9' || c in "._/-"
  }

  predicate ValidBranch(branch: string) {
    0 < |branch| <= 180 && forall k :: 0 <= k < |branch| ==> BranchCharacter(branch[k])
  }

  function BranchOf(identity: Identity, policy: Policy): string {
    policy.branchPrefix + "/" + identity.instanceId + "/" + identity.bundleId
  }

  // ---------------------------------------------------------------------------------------------
  // Failures and retries

  function Min(a: int, b: int): int {
    if a < b then a else b
  }

  function Max(a: int, b: int): int {
    if a < b then b else a
  }

  function Doubled(value: nat, times: nat): nat {
    if times == 0 then value else 2 * Doubled(value, times - 1)
  }

  function RetryBase(attempt: int): nat {
    Min(3600, Doubled(15, Max(1, Min(attempt, 16)) - 1))
  }

  /** Seconds to wait; `jitterSeed` is the number in the first eight digits of the bundle digest. */
  function RetryDelay(jitterSeed: nat, attempt: int, retryAfter: Option<int>): int {
    var base := RetryBase(attempt);
    var jitter := jitterSeed % Max(1, base / 4);
    Min(86400, Max(if retryAfter.Some? then retryAfter.value else 0, base + jitter))
  }

  lemma {:induction false} DoubledSteps(value: nat, times: nat)
    ensures Doubled(value, times) >= value
    ensures Doubled(value, times + 1) == 2 * Doubled(value, times)
  {
    if times > 0 {
      DoubledSteps(value, times - 1);
    }
  }

  lemma BaseSteps(attempt: int)
    ensures 15 <= RetryBase(attempt) <= 3600
    ensures RetryBase(attempt + 1) == RetryBase(attempt) || RetryBase(attempt + 1) >= RetryBase(attempt) + RetryBase(attempt) / 4
  {
    var a := Max(1, Min(attempt, 16)) - 1;
    DoubledSteps(15, a);
    DoublesTo(a);
  }

  lemma DoublesTo(times: nat)
    ensures times <= 7 ==> Doubled(15, times) <= 1920
    ensures times >= 8 ==> Doubled(15, times) >= 3600
    decreases times
  {
    if times > 8 {
      DoublesTo(times - 1);
    } else if times > 0 {
      assert Doubled(15, 1) == 30 && Doubled(15, 2) == 60 && Doubled(15, 3) == 120 && Doubled(15, 4) == 240;
      assert Doubled(15, 5) == 480 && Doubled(15, 6) == 960 && Doubled(15, 7) == 1920 && Doubled(15, 8) == 3840;
    }
  }

  /** Every delay is between a quarter of a minute and a day, and honours the provider's wish up to a day. */
  lemma RetryDelayBounds(jitterSeed: nat, attempt: int, retryAfter: Option<int>)
    ensures 15 <= RetryDelay(jitterSeed, attempt, retryAfter) <= 86400
    ensures retryAfter.Some? ==> RetryDelay(jitterSeed, attempt, retryAfter) >= Min(86400, retryAfter.value)
  {
    BaseSteps(attempt);
  }

  /** A later attempt never waits for less. */
  lemma {:induction false} RetryDelayMonotone(jitterSeed: nat, earlier: int, later: int, retryAfter: Option<int>)
    requires earlier <= later
    ensures RetryDelay(jitterSeed, earlier, retryAfter) <= RetryDelay(jitterSeed, later, retryAfter)
    decreases later - earlier
  {
    if earlier < later {
      RetryDelayMonotone(jitterSeed, earlier + 1, later, retryAfter);
      BaseSteps(earlier);
      BaseSteps(earlier + 1);
    }
  }

  function Fail(row: Row, reason: string, state: State): Row {
    row.(failureReason := Some(reason), state := state, nextAttemptAt := None)
  }

  predicate Present(number: Option<int>) {
    number.Some? && number.value != 0
  }

  function Retried(row: Row): Row {
    if row.mergeSha.Some? && row.mergeSha.value != "" then row.(state := AwaitingMerge)
    else if Present(row.pullNumber) then row.(state := if row.state.AwaitingMerge? then AwaitingMerge else AwaitingChecks)
    else if row.state.Uploading? && row.branchName.Some? then row
    else row.(state := Pending, branchName := None, baseSha := None, headSha := None, checksStartedAt := None)
  }

  function ScheduleRetry(row: Row, policy: Policy, now: int, problem: Problem): Row {
    var counted := row.(attemptCount := row.attemptCount + 1, failureReason := Some(problem.reason));
    if counted.attemptCount >= policy.retryLimit then Fail(counted, "retry_limit_reached", Failed)
    else
      var delay := RetryDelay(row.identity.jitterSeed, counted.attemptCount, problem.retryAfter);
      Retried(counted).(nextAttemptAt := Some(now + delay))
  }

  const CONTROLLER_ACTION_REASONS: set<string> := {
    "invalid_or_missing_token", "invalid_or_expired_token", "insufficient_token_permissions",
    "github_repository_or_resource_unavailable", "repository_not_private", "public_or_fork_repository_forbidden",
    "evidence_public_forbidden", "repository_identity_mismatch", "repository_default_branch_mismatch",
    "protected_branch_not_ready"}

  const BLOCKED_REASONS: set<string> := {
    "automatic_path_policy_violation", "automatic_branch_conflict", "automatic_pull_request_conflict",
    "pull_request_head_changed", "check_sha_mismatch"}

  /** What a provider failure does to the row. */
  function OnProblem(row: Row, policy: Policy, now: int, problem: Problem): Row {
    if problem.reason in CONTROLLER_ACTION_REASONS then Fail(row, problem.reason, RequiresControllerAction)
    else if problem.reason in BLOCKED_REASONS then Fail(row, problem.reason, Blocked)
    else if problem.retryable then ScheduleRetry(row, policy, now, problem)
    else Fail(row, problem.reason, Failed)
  }

  /** What an unanswered call does to the row. */
  function OnError<T>(row: Row, policy: Policy, now: int, reply: Reply<T>): Row
    requires !reply.Ok?
  {
    match reply
    case Refused(problem) => OnProblem(row, policy, now, problem)
    case Malformed => ScheduleRetry(row, policy, now, Problem("provider_invalid_response", true, None))
  }

  // ---------------------------------------------------------------------------------------------
  // One step

  predicate IdentityMatches(identity: Identity, policy: Policy, summary: Verification)
    requires summary.VerifiedSummary?
  {
    && summary.bundleSha256 == identity.bundleSha256
    && summary.bundleId == identity.bundleId
    && summary.chainHead == identity.chainHead
    && identity.controllerId == policy.controllerId
    && identity.instanceId == policy.instanceId
    && identity.repositoryId == policy.repositoryId
  }

  predicate ContainsPrevious(summary: Verification, previousHead: Option<string>)
    requires summary.VerifiedSummary?
  {
    previousHead.Some? && previousHead.value != "" ==> previousHead.value in summary.recordSha256s
  }

  function StepVerifying(row: Row, policy: Policy, now: int, previousHead: Option<string>, replies: Replies): (Row, seq<Call>) {
    var verification := replies.verification;
    var calls := [VerifiedBundle(verification, previousHead)];
    if verification.InvalidBundle? then (Fail(row, "bundle_verification_failed", Blocked), calls)
    else if verification.UnavailableBundle? then (Fail(row, "local_bundle_unavailable", Blocked), calls)
    else if !IdentityMatches(row.identity, policy, verification) then (Fail(row, "verified_bundle_identity_mismatch", Blocked), calls)
    else if !ContainsPrevious(verification, previousHead) then (Fail(row, "rollback_or_fork_detected", Blocked), calls)
    else
      var asked := calls + [AskedReadiness(replies.readiness)];
      if !replies.readiness.Ok? then (OnError(row, policy, now, replies.readiness), asked)
      else if replies.readiness.value.repositoryId != policy.repositoryId || !replies.readiness.value.isPrivate then
        (Fail(row, "repository_identity_mismatch", RequiresControllerAction), asked)
      else (row.(baseSha := Some(replies.readiness.value.defaultHead), state := Uploading), asked)
  }

  /** From a row with a head commit: find or open the pull request. */
  function StepOpening(row: Row, policy: Policy, now: int, calls: seq<Call>, replies: Replies): (Row, seq<Call>)
    requires row.headSha.Some? && row.branchName.Some?
  {
    if !ValidSha(row.headSha.value) then (Fail(row, "invalid_provider_head_sha", Blocked), calls)
    else if row.pullNumber.Some? then (row.(checksStartedAt := Some(now), state := AwaitingChecks), calls)
    else
      var asked := calls + [OpenedPull(row.branchName.value, row.headSha.value, replies.pull)];
      if !replies.pull.Ok? then (OnError(row, policy, now, replies.pull), asked)
      else (row.(pullNumber := Some(replies.pull.value), checksStartedAt := Some(now), state := AwaitingChecks), asked)
  }

  function StepUploading(row: Row, policy: Policy, now: int, replies: Replies): (Row, seq<Call>) {
    var calls := [AskedDefaultHead(replies.defaultHead)];
    if !replies.defaultHead.Ok? then (OnError(row, policy, now, replies.defaultHead), calls)
    else if Some(replies.defaultHead.value) != row.baseSha then
      (OnProblem(row, policy, now, Problem("default_branch_changed", true, None)), calls)
    else
      var branch := BranchOf(row.identity, policy);
      if !ValidBranch(branch) then (Fail(row, "automatic_branch_policy_violation", Blocked), calls)
      else
        var named := row.(branchName := Some(branch));
        if replies.digest.UnavailableFile? then (Fail(named, "local_bundle_unavailable", Blocked), calls)
        else if replies.digest.sha256 != row.identity.bundleSha256 then (Fail(named, "bundle_changed_after_queue", Blocked), calls)
        else if row.headSha.Some? then StepOpening(named, policy, now, calls, replies)
        else
          var created := calls + [CreatedCommit(branch, row.baseSha.value, replies.commit)];
          if !replies.commit.Ok? then (OnError(named, policy, now, replies.commit), created)
          else StepOpening(named.(headSha := Some(replies.commit.value)), policy, now, created, replies)
  }

  function StepChecking(row: Row, policy: Policy, now: int, replies: Replies): (Row, seq<Call>)
    requires row.pullNumber.Some? && row.headSha.Some?
  {
    var calls := [AskedPullHead(row.pullNumber.value, replies.pullHead)];
    if !replies.pullHead.Ok? then (OnError(row, policy, now, replies.pullHead), calls)
    else if Some(replies.pullHead.value) != row.headSha then (Fail(row, "pull_request_head_changed", Blocked), calls)
    else
      var asked := calls + [AskedChecks(row.headSha.value, replies.checks)];
      if !replies.checks.Ok? then (OnError(row, policy, now, replies.checks), asked)
      else
        match replies.checks.value
        case ChecksFailed => (Fail(row, "required_checks_failed", Failed), asked)
        case ChecksPassed => (row.(nextAttemptAt := None, state := AwaitingMerge), asked)
        case ChecksPending =>
          var started := if row.checksStartedAt.Some? then row.checksStartedAt.value else now;
          if now - started >= policy.checkTimeoutSeconds then (Fail(row, "required_checks_timed_out", Failed), asked)
          else (row.(nextAttemptAt := Some(now + policy.checkPollSeconds)), asked)
  }

  function StepMerging(row: Row, policy: Policy, now: int, replies: Replies): (Row, seq<Call>)
    requires row.pullNumber.Some? && row.headSha.Some? && row.branchName.Some?
  {
    if row.mergeSha.None? then
      var calls := [AskedPullHead(row.pullNumber.value, replies.pullHead)];
      if !replies.pullHead.Ok? then (OnError(row, policy, now, replies.pullHead), calls)
      else if Some(replies.pullHead.value) != row.headSha then (Fail(row, "pull_request_head_changed", Blocked), calls)
      else
        var merged := calls + [RequestedMerge(row.pullNumber.value, row.headSha.value, replies.merge)];
        if !replies.merge.Ok? then (OnError(row, policy, now, replies.merge), merged)
        else if !ValidSha(replies.merge.value) then (Fail(row, "invalid_provider_merge_sha", Blocked), merged)
        else (row.(mergeSha := Some(replies.merge.value)), merged)
    else
      var calls := [DeletedBranch(row.branchName.value, replies.deletion)];
      if !replies.deletion.Ok? then (OnError(row, policy, now, replies.deletion), calls)
      else (row.(state := Verified, completedAt := Some(now), failureReason := None, nextAttemptAt := None), calls)
  }

  /** What every reachable row satisfies; the later states rely on the fields of the earlier ones. */
  predicate RowOk(row: Row) {
    && (row.state.Uploading? ==> row.baseSha.Some? && row.mergeSha.None?)
    && (row.state.AwaitingChecks? || row.state.AwaitingMerge? ==>
      && row.baseSha.Some? && row.branchName.Some? && row.pullNumber.Some? && row.checksStartedAt.Some?
      && row.headSha.Some? && ValidSha(row.headSha.value))
    && (row.state.AwaitingChecks? ==> row.mergeSha.None?)
    && (row.state.Pending? || row.state.Verifying? ==> row.branchName.None? && row.mergeSha.None? && row.headSha.None?)
    && (row.state.Pending? || row.state.Verifying? || row.state.Uploading? ==> !Present(row.pullNumber))
    && (row.headSha.Some? ==> row.branchName.Some?)
    && (row.mergeSha.Some? ==> ValidSha(row.mergeSha.value))
  }

  function Step(row: Row, policy: Policy, now: int, previousHead: Option<string>, replies: Replies): (Row, seq<Call>)
    requires RowOk(row)
  {
    if !policy.enabled then (Fail(row, "automatic_archival_disabled", RequiresControllerAction), [])
    else
      match row.state
      case Pending => (row.(state := Verifying, failureReason := None, nextAttemptAt := None), [])
      case Verifying => StepVerifying(row, policy, now, previousHead, replies)
      case Uploading => StepUploading(row, policy, now, replies)
      case AwaitingChecks => StepChecking(row, policy, now, replies)
      case AwaitingMerge => StepMerging(row, policy, now, replies)
      case _ => (row, [])
  }

  /** A retry resumes where it was, or starts over from a row with no remote identity. */
  lemma RetriedCases(row: Row)
    requires RowOk(row) && !Terminal(row.state)
    ensures Retried(row) == row
         || Retried(row) == row.(state := Pending, branchName := None, baseSha := None, headSha := None, checksStartedAt := None)
    ensures row.branchName.Some? && row.pullNumber != Some(0) ==> Retried(row) == row
    ensures RowOk(Retried(row))
  {
  }

  /** What a provider failure or an unreadable answer leads to: a terminal failure or one more counted attempt. */
  ghost predicate ErrorOutcome(row: Row, policy: Policy, now: int, r: Row) {
    || (r.state in {Failed, Blocked, RequiresControllerAction}
        && r.(failureReason := row.failureReason, attemptCount := row.attemptCount) == row.(state := r.state, nextAttemptAt := None))
    || (row.attemptCount + 1 < policy.retryLimit && r.nextAttemptAt.Some? && now + 15 <= r.nextAttemptAt.value
        && r.(failureReason := row.failureReason, nextAttemptAt := row.nextAttemptAt)
           == Retried(row).(attemptCount := row.attemptCount + 1))
  }

  lemma ErrorOutcomes<T>(row: Row, policy: Policy, now: int, reply: Reply<T>)
    requires RowOk(row) && !Terminal(row.state) && !reply.Ok?
    ensures ErrorOutcome(row, policy, now, OnError(row, policy, now, reply))
    ensures RowOk(OnError(row, policy, now, reply))
  {
    var problem := if reply.Refused? then reply.problem else Problem("provider_invalid_response", true, None);
    ProblemOutcomes(row, policy, now, problem);
    ScheduleOutcomes(row, policy, now, problem);
    hide ScheduleRetry, RowOk, ErrorOutcome, OnProblem;
  }

  lemma ProblemOutcomes(row: Row, policy: Policy, now: int, problem: Problem)
    requires RowOk(row) && !Terminal(row.state)
    ensures ErrorOutcome(row, policy, now, OnProblem(row, policy, now, problem))
    ensures RowOk(OnProblem(row, policy, now, problem))
  {
    ScheduleOutcomes(row, policy, now, problem);
    hide ScheduleRetry, Retried;
  }

  lemma ScheduleOutcomes(row: Row, policy: Policy, now: int, problem: Problem)
    requires RowOk(row) && !Terminal(row.state)
    ensures ErrorOutcome(row, policy, now, ScheduleRetry(row, policy, now, problem))
    ensures RowOk(ScheduleRetry(row, policy, now, problem))
  {
    hide RetryDelay;
    var counted := row.(attemptCount := row.attemptCount + 1, failureReason := Some(problem.reason));
    RetryDelayBounds(row.identity.jitterSeed, counted.attemptCount, problem.retryAfter);
    RetriedCases(counted);
  }

  lemma FailKeepsRowOk(row: Row, reason: string, state: State)
    requires RowOk(row) && Terminal(state)
    ensures RowOk(Fail(row, reason, state))
  {
    hide ValidSha;
  }

  lemma VerifyingKeepsRowOk(row: Row, policy: Policy, now: int, previousHead: Option<string>, replies: Replies)
    requires RowOk(row) && row.state.Verifying?
    ensures RowOk(StepVerifying(row, policy, now, previousHead, replies).0)
  {
    hide IdentityMatches, ContainsPrevious, OnError, Fail, RowOk;
    var verification := replies.verification;
    if verification.InvalidBundle? {
      FailKeepsRowOk(row, "bundle_verification_failed", Blocked);
    } else if verification.UnavailableBundle? {
      FailKeepsRowOk(row, "local_bundle_unavailable", Blocked);
    } else if !IdentityMatches(row.identity, policy, verification) {
      FailKeepsRowOk(row, "verified_bundle_identity_mismatch", Blocked);
    } else if !ContainsPrevious(verification, previousHead) {
      FailKeepsRowOk(row, "rollback_or_fork_detected", Blocked);
    } else if !replies.readiness.Ok? {
      ErrorOutcomes(row, policy, now, replies.readiness);
    } else if replies.readiness.value.repositoryId != policy.repositoryId || !replies.readiness.value.isPrivate {
      FailKeepsRowOk(row, "repository_identity_mismatch", RequiresControllerAction);
    } else {
      ReadyKeepsRowOk(row, replies.readiness.value.defaultHead);
    }
  }

  lemma ReadyKeepsRowOk(row: Row, head: string)
    requires RowOk(row) && row.state.Verifying?
    ensures RowOk(row.(baseSha := Some(head), state := Uploading))
  {
  }

  lemma OpeningKeepsRowOk(row: Row, policy: Policy, now: int, calls: seq<Call>, replies: Replies)
    requires RowOk(row) && row.state.Uploading? && row.headSha.Some? && row.branchName.Some?
    ensures RowOk(StepOpening(row, policy, now, calls, replies).0)
  {
    hide OnError, ValidSha;
    if !replies.pull.Ok? {
      ErrorOutcomes(row, policy, now, replies.pull);
    }
  }

  lemma UploadingKeepsRowOk(row: Row, policy: Policy, now: int, replies: Replies)
    requires RowOk(row) && row.state.Uploading?
    ensures RowOk(StepUploading(row, policy, now, replies).0)
  {
    hide OnError, OnProblem, StepOpening, ValidSha, ValidBranch, BranchOf;
    var calls := [AskedDefaultHead(replies.defaultHead)];
    var named := row.(branchName := Some(BranchOf(row.identity, policy)));
    if !replies.defaultHead.Ok? {
      ErrorOutcomes(row, policy, now, replies.defaultHead);
    } else if Some(replies.defaultHead.value) != row.baseSha {
      ProblemOutcomes(row, policy, now, Problem("default_branch_changed", true, None));
    } else if row.headSha.Some? {
      OpeningKeepsRowOk(named, policy, now, calls, replies);
    } else if !replies.commit.Ok? {
      ErrorOutcomes(named, policy, now, replies.commit);
    } else {
      var created := calls + [CreatedCommit(BranchOf(row.identity, policy), row.baseSha.value, replies.commit)];
      OpeningKeepsRowOk(named.(headSha := Some(replies.commit.value)), policy, now, created, replies);
    }
  }

  lemma CheckingKeepsRowOk(row: Row, policy: Policy, now: int, replies: Replies)
    requires RowOk(row) && row.state.AwaitingChecks?
    ensures RowOk(StepChecking(row, policy, now, replies).0)
  {
    hide OnError, ValidSha;
    if !replies.pullHead.Ok? {
      ErrorOutcomes(row, policy, now, replies.pullHead);
    } else if !replies.checks.Ok? {
      ErrorOutcomes(row, policy, now, replies.checks);
    }
  }

  lemma MergingKeepsRowOk(row: Row, policy: Policy, now: int, replies: Replies)
    requires RowOk(row) && row.state.AwaitingMerge?
    ensures RowOk(StepMerging(row, policy, now, replies).0)
  {
    hide OnError, ValidSha;
    if row.mergeSha.Some? {
      if !replies.deletion.Ok? {
        ErrorOutcomes(row, policy, now, replies.deletion);
      }
    } else if !replies.pullHead.Ok? {
      ErrorOutcomes(row, policy, now, replies.pullHead);
    } else if !replies.merge.Ok? {
      ErrorOutcomes(row, policy, now, replies.merge);
    }
  }

  lemma StepKeepsRowOk(row: Row, policy: Policy, now: int, previousHead: Option<string>, replies: Replies)
    requires RowOk(row)
    ensures RowOk(Step(row, policy, now, previousHead, replies).0)
  {
    hide StepVerifying, StepUploading, StepChecking, StepMerging, ValidSha;
    match row.state {
      case Verifying => VerifyingKeepsRowOk(row, policy, now, previousHead, replies);
      case Uploading => UploadingKeepsRowOk(row, policy, now, replies);
      case AwaitingChecks => CheckingKeepsRowOk(row, policy, now, replies);
      case AwaitingMerge => MergingKeepsRowOk(row, policy, now, replies);
      case _ =>
    }
  }
}
