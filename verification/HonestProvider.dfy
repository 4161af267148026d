/**
  Runs of the uploader against an honest provider that nobody else edits: any request or reply can be
  lost at any time, and still each remote effect happens at most once.
 */
module HonestProvider {
  import opened Wrappers
  import opened Uploader
  import opened UploaderRuns
  import opened GitHubClient

  /** The world after one call. Local calls and queries change nothing. */
  function Effect(world: World, call: Call, identity: Identity, network: Network): World {
    match call
    case CreatedCommit(branch, base, _) => CreateArchiveCommit(world, branch, base, ArchiveFiles(identity), network).0
    case OpenedPull(branch, head, _) => OpenPullRequest(world, branch, head, network).0
    case RequestedMerge(pull, head, _) => MergePullRequest(world, pull, head, network).0
    case DeletedBranch(branch, _) => DeleteBranch(world, branch, network).0
    case _ => world
  }

  /** The answer in the log is the one the provider gives; the checks themselves are not constrained. */
  predicate Answered(world: World, call: Call, identity: Identity, network: Network) {
    match call
    case VerifiedBundle(_, _) => true
    case AskedReadiness(reply) => reply == Readiness(world, network)
    case AskedDefaultHead(reply) => reply == DefaultHead(world, network)
    case CreatedCommit(branch, base, reply) => reply == CreateArchiveCommit(world, branch, base, ArchiveFiles(identity), network).1
    case OpenedPull(branch, head, reply) => reply == OpenPullRequest(world, branch, head, network).1
    case AskedPullHead(pull, reply) => reply == PullRequestHead(world, pull, network)
    case AskedChecks(_, reply) =>
      var lost := FirstLost(network, 0, 2);
      if lost.Some? then reply == Refused(lost.value) else reply.Ok?
    case RequestedMerge(pull, head, reply) => reply == MergePullRequest(world, pull, head, network).1
    case DeletedBranch(branch, reply) => reply == DeleteBranch(world, branch, network).1
  }

  function Effects(world: World, calls: seq<Call>, identity: Identity, networks: seq<Network>): World
    requires |networks| == |calls|
    decreases calls
  {
    if calls == [] then world
    else Effects(Effect(world, calls[0], identity, networks[0]), calls[1..], identity, networks[1..])
  }

  /** Every call is answered in turn, and an object id that the provider assigns is new. */
  predicate AllAnswered(world: World, calls: seq<Call>, identity: Identity, networks: seq<Network>)
    requires |networks| == |calls|
    decreases calls
  {
    calls == [] || (&& ValidSha(networks[0].freshSha) && networks[0].freshSha !in world.commits && Answered(world, calls[0], identity, networks[0])
                    && AllAnswered(Effect(world, calls[0], identity, networks[0]), calls[1..], identity, networks[1..]))
  }

  /** The stored submission and the provider. */
  datatype Scene = Scene(row: Row, world: World)

  ghost predicate HonestStep(before: Scene, after: Scene, policy: Policy, tick: Tick, networks: seq<Network>) {
    && RowOk(before.row)
    && var calls := Calls(before.row, policy, tick);
    && |networks| == |calls|
    && AllAnswered(before.world, calls, before.row.identity, networks)
    && after.row == Next(before.row, policy, tick)
    && after.world == Effects(before.world, calls, before.row.identity, networks)
  }

  ghost predicate HonestRun(scenes: seq<Scene>, policy: Policy, ticks: seq<Tick>, networks: seq<seq<Network>>) {
    && |scenes| == |ticks| + 1 && |networks| == |ticks|
    && forall n :: 0 <= n < |ticks| ==> HonestStep(scenes[n], scenes[n + 1], policy, ticks[n], networks[n])
  }

  /** Before a submission starts: its branch does not exist and has no open pull request. */
  predicate Untouched(world: World, branch: string) {
    branch !in world.branches && forall n :: 0 <= n < |world.pulls| ==> world.pulls[n].branch == branch ==> world.pulls[n].merged
  }

  // ---------------------------------------------------------------------------------------------
  // The world, effect by effect

  /** The fixed inputs of a run: the world it started in, its branch and its files. */
  datatype Setting = Setting(start: World, branch: string, files: map<string, string>)

  /** How far a submission's effects on the world have gone. */
  datatype Stage = Nothing
    | Branched(head: string)
    | Proposed(head: string)
    | Merged(head: string, merge: string)
    | Cleaned(head: string, merge: string)

  function WithOurBranch(setting: Setting, head: string): World {
    WithBranch(setting.start, setting.branch, head, setting.start.defaultHead, setting.files)
  }

  function WithOurMerge(setting: Setting, head: string, merge: string): World {
    WithOurBranch(setting, head).(pulls := setting.start.pulls + [Pull(setting.branch, head, true)],
                                  defaultHead := merge, mergesDone := setting.start.mergesDone + 1)
  }

  function WorldAt(setting: Setting, stage: Stage): World {
    match stage
    case Nothing => setting.start
    case Branched(head) => WithOurBranch(setting, head)
    case Proposed(head) => WithOurBranch(setting, head).(pulls := setting.start.pulls + [Pull(setting.branch, head, false)])
    case Merged(head, merge) => WithOurMerge(setting, head, merge)
    case Cleaned(head, merge) => WithOurMerge(setting, head, merge).(branches := setting.start.branches)
  }

  const LOCAL_REASONS: set<string> := {
    "bundle_verification_failed", "local_bundle_unavailable", "verified_bundle_identity_mismatch",
    "rollback_or_fork_detected", "automatic_branch_policy_violation", "bundle_changed_after_queue"}

  /** What the row remembers of the stage its submission has reached. */
  predicate Remembers(row: Row, setting: Setting, stage: Stage) {
    match row.state
    case Pending => stage.Nothing? && row.pullNumber.None?
    case Verifying => stage.Nothing? && row.pullNumber.None?
    case Uploading =>
      && row.pullNumber.None? && row.baseSha == Some(setting.start.defaultHead)
      && (stage.Nothing? || stage.Branched? || stage.Proposed?)
      && (row.branchName == None ==> stage.Nothing?)
      && (row.branchName.Some? ==> row.branchName.value == setting.branch)
      && (row.headSha.Some? ==> !stage.Nothing? && row.headSha.value == stage.head)
    case AwaitingChecks => stage.Proposed? && Placed(row, setting, stage.head)
    case AwaitingMerge =>
      && (stage.Proposed? || stage.Merged? || stage.Cleaned?)
      && Placed(row, setting, stage.head)
      && (row.mergeSha.None? ==> !stage.Cleaned?)
      && (row.mergeSha.Some? ==> !stage.Proposed? && row.mergeSha.value == stage.merge)
    case Verified => stage.Cleaned? && Placed(row, setting, stage.head) && row.mergeSha == Some(stage.merge)
    case Failed => true
    case _ => row.failureReason.Some? && row.failureReason.value in LOCAL_REASONS
  }

  predicate Placed(row: Row, setting: Setting, head: string) {
    && row.branchName == Some(setting.branch) && row.baseSha == Some(setting.start.defaultHead)
    && row.headSha == Some(head) && row.pullNumber == Some(|setting.start.pulls| + 1)
  }

  predicate StageOk(stage: Stage) {
    match stage
    case Nothing => true
    case Branched(head) => ValidSha(head)
    case Proposed(head) => ValidSha(head)
    case Merged(head, merge) => ValidSha(head) && ValidSha(merge)
    case Cleaned(head, merge) => ValidSha(head) && ValidSha(merge)
  }

  predicate At(scene: Scene, setting: Setting, stage: Stage) {
    StageOk(stage) && scene.world == WorldAt(setting, stage) && Remembers(scene.row, setting, stage)
  }

  ghost predicate Inv(scene: Scene, setting: Setting) {
    RowOk(scene.row) && exists stage :: At(scene, setting, stage)
  }

  /** The setting of one submission under one policy. */
  predicate Sets(setting: Setting, identity: Identity, policy: Policy) {
    && policy.enabled && policy.repositoryId == setting.start.repositoryId
    && setting.branch == BranchOf(identity, policy) && setting.files == ArchiveFiles(identity)
    && Untouched(setting.start, setting.branch)
  }

  // ---------------------------------------------------------------------------------------------
  // Each remote call at each stage

  /** A refusal that only says that a message got lost, or that two attempts raced. */
  predicate Transient<T>(reply: Reply<T>) {
    reply.Refused? && reply.problem.retryable && reply.problem.reason in {"github_api_unavailable", "github_rate_limited", "github_repository_race_or_policy"}
  }

  lemma {:induction false} LostIsTransient(network: Network, from: nat, to: nat)
    ensures FirstLost(network, from, to).Some? ==> Transient<()>(Refused(FirstLost(network, from, to).value))
  {
    if from < to {
      LostIsTransient(network, from, to - 1);
    }
  }

  lemma CommitEffect(setting: Setting, stage: Stage, network: Network)
    requires Untouched(setting.start, setting.branch) && (stage.Nothing? || stage.Branched? || stage.Proposed?)
    ensures var (after, reply) := CreateArchiveCommit(WorldAt(setting, stage), setting.branch, setting.start.defaultHead, setting.files, network);
            var reached := if stage.Nothing? then Branched(network.freshSha) else stage;
            && (after == WorldAt(setting, stage) || after == WorldAt(setting, reached))
            && (reply.Ok? ==> after == WorldAt(setting, reached) && reply.value == reached.head)
            && (!reply.Ok? ==> Transient(reply))
  {
    LostIsTransient(network, 0, 1);
    LostIsTransient(network, 1, 2);
    LostIsTransient(network, 1, 6);
  }

  lemma {:induction false} OpenPullsNone(pulls: seq<Pull>, branch: string)
    requires forall n :: 0 <= n < |pulls| ==> pulls[n].branch == branch ==> pulls[n].merged
    ensures OpenPulls(pulls, branch) == []
  {
    if pulls != [] {
      OpenPullsNone(pulls[..|pulls| - 1], branch);
    }
  }

  lemma {:induction false} OpenPullsOne(pulls: seq<Pull>, branch: string, head: string)
    requires forall n :: 0 <= n < |pulls| ==> pulls[n].branch == branch ==> pulls[n].merged
    ensures OpenPulls(pulls + [Pull(branch, head, false)], branch) == [|pulls| + 1]
  {
    OpenPullsNone(pulls, branch);
    var longer := pulls + [Pull(branch, head, false)];
    assert longer[..|longer| - 1] == pulls;
  }

  lemma OpenEffect(setting: Setting, stage: Stage, network: Network)
    requires Untouched(setting.start, setting.branch) && (stage.Branched? || stage.Proposed?)
    ensures var (after, reply) := OpenPullRequest(WorldAt(setting, stage), setting.branch, stage.head, network);
            && (after == WorldAt(setting, stage) || after == WorldAt(setting, Proposed(stage.head)))
            && (reply.Ok? ==> after == WorldAt(setting, Proposed(stage.head)) && reply.value == |setting.start.pulls| + 1)
            && (!reply.Ok? ==> Transient(reply))
  {
    LostIsTransient(network, 0, 1);
    OpenPullsNone(setting.start.pulls, setting.branch);
    OpenPullsOne(setting.start.pulls, setting.branch, stage.head);
    hide OpenPulls;
  }

  lemma HeadAnswer(setting: Setting, stage: Stage, network: Network)
    requires stage.Proposed? || stage.Merged?
    ensures var reply := PullRequestHead(WorldAt(setting, stage), |setting.start.pulls| + 1, network);
            (reply.Ok? ==> reply.value == stage.head) && (!reply.Ok? ==> Transient(reply))
  {
    LostIsTransient(network, 0, 1);
  }

  lemma MergeEffect(setting: Setting, stage: Stage, network: Network)
    requires stage.Proposed? || stage.Merged?
    ensures var (after, reply) := MergePullRequest(WorldAt(setting, stage), |setting.start.pulls| + 1, stage.head, network);
            var reached := if stage.Proposed? then Merged(stage.head, network.freshSha) else stage;
            && (after == WorldAt(setting, stage) || after == WorldAt(setting, reached))
            && (reply.Ok? ==> stage.Proposed? && after == WorldAt(setting, reached) && reply.value == network.freshSha)
            && (reply.Refused? ==> Transient(reply) || reply.problem == Problem("github_api_unavailable", false, None))
            && !reply.Malformed?
  {
    HeadAnswer(setting, stage, network);
    var n := |setting.start.pulls|;
    var world := WorldAt(setting, stage);
    assert world.pulls[n].head == stage.head;
    if stage.Proposed? {
      assert world.pulls[n := world.pulls[n].(merged := true)] == setting.start.pulls + [Pull(setting.branch, stage.head, true)];
    }
  }

  lemma DeleteEffect(setting: Setting, stage: Stage, network: Network)
    requires Untouched(setting.start, setting.branch) && (stage.Merged? || stage.Cleaned?)
    ensures var (after, reply) := DeleteBranch(WorldAt(setting, stage), setting.branch, network);
            && (after == WorldAt(setting, stage) || after == WorldAt(setting, Cleaned(stage.head, stage.merge)))
            && (reply.Ok? ==> after == WorldAt(setting, Cleaned(stage.head, stage.merge)))
            && (!reply.Ok? ==> Transient(reply))
  {
    assert setting.start.branches[setting.branch := stage.head] - {setting.branch} == setting.start.branches;
  }

  // ---------------------------------------------------------------------------------------------
  // Each step

  lemma OneCall(world: World, calls: seq<Call>, identity: Identity, networks: seq<Network>)
    requires |networks| == |calls| == 1 && AllAnswered(world, calls, identity, networks)
    ensures ValidSha(networks[0].freshSha) && Answered(world, calls[0], identity, networks[0])
    ensures Effects(world, calls, identity, networks) == Effect(world, calls[0], identity, networks[0])
  {
    hide Effect, Answered;
    assert calls[1..] == [];
  }

  lemma MoreCalls(world: World, calls: seq<Call>, identity: Identity, networks: seq<Network>)
    requires |networks| == |calls| >= 1 && AllAnswered(world, calls, identity, networks)
    ensures var next := Effect(world, calls[0], identity, networks[0]);
            && ValidSha(networks[0].freshSha) && Answered(world, calls[0], identity, networks[0])
            && AllAnswered(next, calls[1..], identity, networks[1..])
            && Effects(world, calls, identity, networks) == Effects(next, calls[1..], identity, networks[1..])
  {
    hide Effect, Answered;
  }

  lemma TransientKeeps<T>(row: Row, setting: Setting, stage: Stage, policy: Policy, now: int, reply: Reply<T>)
    requires RowOk(row) && !Terminal(row.state) && Remembers(row, setting, stage) && Transient(reply)
    ensures Remembers(OnError(row, policy, now, reply), setting, stage)
  {
    hide RetryDelay, ValidSha;
    RetriedCases(row.(attemptCount := row.attemptCount + 1, failureReason := Some(reply.problem.reason)));
  }

  lemma LocalFailure(row: Row, setting: Setting, stage: Stage, reason: string)
    requires reason in LOCAL_REASONS
    ensures Remembers(Fail(row, reason, Blocked), setting, stage)
  {
  }

  lemma VerifyingAnswered(row: Row, setting: Setting, policy: Policy, tick: Tick, network: Network)
    requires RowOk(row) && row.state.Verifying? && policy.repositoryId == setting.start.repositoryId && Remembers(row, setting, Nothing)
    requires |StepVerifying(row, policy, tick.now, tick.previousHead, tick.replies).1| == 2
    requires tick.replies.readiness == Readiness(setting.start, network)
    ensures Remembers(StepVerifying(row, policy, tick.now, tick.previousHead, tick.replies).0, setting, Nothing)
  {
    hide OnError, IdentityMatches, ContainsPrevious, Transient;
    if !tick.replies.readiness.Ok? {
      ReadinessTransient(setting.start, network);
      TransientKeeps(row, setting, Nothing, policy, tick.now, tick.replies.readiness);
    }
  }

  lemma {:induction false} VerifyingHonest(row: Row, setting: Setting, policy: Policy, tick: Tick, networks: seq<Network>)
    requires RowOk(row) && row.state.Verifying? && policy.repositoryId == setting.start.repositoryId && Remembers(row, setting, Nothing)
    requires var calls := StepVerifying(row, policy, tick.now, tick.previousHead, tick.replies).1;
             |networks| == |calls| && AllAnswered(setting.start, calls, row.identity, networks)
    ensures var (r, calls) := StepVerifying(row, policy, tick.now, tick.previousHead, tick.replies);
            Effects(setting.start, calls, row.identity, networks) == setting.start && Remembers(r, setting, Nothing)
  {
    hide OnError, IdentityMatches, ContainsPrevious, RowOk, Remembers, Fail, Readiness, AllAnswered, Effects;
    var calls := StepVerifying(row, policy, tick.now, tick.previousHead, tick.replies).1;
    if |calls| == 2 {
      MoreCalls(setting.start, calls, row.identity, networks);
      OneCall(setting.start, calls[1..], row.identity, networks[1..]);
      VerifyingAnswered(row, setting, policy, tick, networks[1]);
    } else {
      OneCall(setting.start, calls, row.identity, networks);
      VerifyingLocal(row, setting, policy, tick);
    }
  }

  lemma ReadinessTransient(world: World, network: Network)
    ensures !Readiness(world, network).Ok? ==> Transient(Readiness(world, network))
  {
    LostIsTransient(network, 0, 3);
  }

  lemma VerifyingLocal(row: Row, setting: Setting, policy: Policy, tick: Tick)
    requires |StepVerifying(row, policy, tick.now, tick.previousHead, tick.replies).1| == 1
    ensures Remembers(StepVerifying(row, policy, tick.now, tick.previousHead, tick.replies).0, setting, Nothing)
  {
    hide IdentityMatches, ContainsPrevious, OnError;
    LocalFailure(row, setting, Nothing, "bundle_verification_failed");
    LocalFailure(row, setting, Nothing, "local_bundle_unavailable");
    LocalFailure(row, setting, Nothing, "verified_bundle_identity_mismatch");
    LocalFailure(row, setting, Nothing, "rollback_or_fork_detected");
  }

  /** From a known branch and head: opening the pull request. */
  lemma OpeningAnswered(row: Row, setting: Setting, stage: Stage, policy: Policy, tick: Tick, calls: seq<Call>, network: Network, after: World)
    requires RowOk(row) && row.state.Uploading? && Untouched(setting.start, setting.branch)
    requires Remembers(row, setting, stage) && StageOk(stage) && row.headSha.Some?
    requires row.branchName.Some? && row.branchName.value == setting.branch
    requires (after, tick.replies.pull) == OpenPullRequest(WorldAt(setting, stage), setting.branch, stage.head, network)
    ensures exists reached :: At(Scene(StepOpening(row, policy, tick.now, calls, tick.replies).0, after), setting, reached)
  {
    OpenEffect(setting, stage, network);
    hide OnError, ValidSha, WorldAt, OpenPullRequest, Transient, Untouched;
    var r := StepOpening(row, policy, tick.now, calls, tick.replies).0;
    var reached := if after == WorldAt(setting, Proposed(stage.head)) then Proposed(stage.head) else stage;
    if !tick.replies.pull.Ok? {
      TransientKeeps(row, setting, reached, policy, tick.now, tick.replies.pull);
    }
    assert At(Scene(r, after), setting, reached);
  }

  lemma OpeningFacts(row: Row, setting: Setting, stage: Stage)
    requires RowOk(row) && row.state.Uploading? && Remembers(row, setting, stage) && StageOk(stage) && row.headSha.Some?
    ensures ValidSha(row.headSha.value) && row.pullNumber.None? && row.branchName == Some(setting.branch)
    ensures (stage.Branched? || stage.Proposed?) && row.headSha == Some(stage.head)
  {
  }

  lemma OpeningCalls(row: Row, policy: Policy, now: int, calls: seq<Call>, replies: Replies)
    requires row.headSha.Some? && ValidSha(row.headSha.value) && row.branchName.Some? && row.pullNumber.None?
    ensures StepOpening(row, policy, now, calls, replies).1 == calls + [OpenedPull(row.branchName.value, row.headSha.value, replies.pull)]
  {
    hide OnError, ValidSha;
  }

  lemma OpeningHonest(row: Row, setting: Setting, stage: Stage, policy: Policy, tick: Tick, calls: seq<Call>, network: Network)
    requires RowOk(row) && row.state.Uploading? && Untouched(setting.start, setting.branch)
    requires Remembers(row, setting, stage) && StageOk(stage) && row.headSha.Some? && row.branchName.Some?
    requires var rest := [OpenedPull(row.branchName.value, row.headSha.value, tick.replies.pull)];
             AllAnswered(WorldAt(setting, stage), rest, row.identity, [network])
    ensures var rest := [OpenedPull(row.branchName.value, row.headSha.value, tick.replies.pull)];
            var world := Effects(WorldAt(setting, stage), rest, row.identity, [network]);
            exists reached :: At(Scene(StepOpening(row, policy, tick.now, calls, tick.replies).0, world), setting, reached)
  {
    hide OnError, ValidSha, WorldAt, Untouched, OpenPullRequest, At, AllAnswered, Effects, Remembers, RowOk, StageOk, StepOpening;
    OpeningFacts(row, setting, stage);
    var rest := [OpenedPull(row.branchName.value, row.headSha.value, tick.replies.pull)];
    OneCall(WorldAt(setting, stage), rest, row.identity, [network]);
    OpeningAnswered(row, setting, stage, policy, tick, calls, network, Effects(WorldAt(setting, stage), rest, row.identity, [network]));
  }

  /** Creating the commit, on a row that already stores the branch name. */
  lemma CommitAnswered(row: Row, setting: Setting, stage: Stage, policy: Policy, tick: Tick, network: Network, after: World)
    requires RowOk(row) && row.state.Uploading? && Untouched(setting.start, setting.branch) && ValidSha(network.freshSha)
    requires Remembers(row, setting, stage) && StageOk(stage) && row.headSha.None?
    requires (after, tick.replies.commit) == CreateArchiveCommit(WorldAt(setting, stage), setting.branch, setting.start.defaultHead, setting.files, network)
    requires row.branchName == Some(setting.branch)
    ensures !tick.replies.commit.Ok? ==>
      exists reached :: At(Scene(OnError(row, policy, tick.now, tick.replies.commit), after), setting, reached)
    ensures tick.replies.commit.Ok? ==>
      exists reached: Stage :: StageOk(reached) && after == WorldAt(setting, reached)
        && Remembers(row.(headSha := Some(tick.replies.commit.value)), setting, reached)
  {
    CommitEffect(setting, stage, network);
    hide OnError, ValidSha, WorldAt, CreateArchiveCommit, Transient, Untouched;
    var created := if stage.Nothing? then Branched(network.freshSha) else stage;
    if tick.replies.commit.Ok? {
      assert Remembers(row.(headSha := Some(tick.replies.commit.value)), setting, created);
    } else {
      var reached := if after == WorldAt(setting, stage) then stage else created;
      TransientKeeps(row, setting, reached, policy, tick.now, tick.replies.commit);
      assert At(Scene(OnError(row, policy, tick.now, tick.replies.commit), after), setting, reached);
    }
  }

  lemma NamedRemembers(row: Row, setting: Setting, stage: Stage)
    requires RowOk(row) && row.state.Uploading? && Remembers(row, setting, stage)
    ensures var named := row.(branchName := Some(setting.branch));
            RowOk(named) && Remembers(named, setting, stage) && row.baseSha == Some(setting.start.defaultHead)
    ensures stage.Nothing? || stage.Branched? || stage.Proposed?
    ensures row.pullNumber.None?
    ensures row.headSha.Some? ==> !stage.Nothing?
  {
  }

  lemma BranchLocal(row: Row, setting: Setting, stage: Stage)
    ensures Remembers(Fail(row, "automatic_branch_policy_violation", Blocked), setting, stage)
    ensures Remembers(Fail(row, "local_bundle_unavailable", Blocked), setting, stage)
    ensures Remembers(Fail(row, "bundle_changed_after_queue", Blocked), setting, stage)
  {
    LocalFailure(row, setting, stage, "automatic_branch_policy_violation");
    LocalFailure(row, setting, stage, "local_bundle_unavailable");
    LocalFailure(row, setting, stage, "bundle_changed_after_queue");
  }

  /** The default head is the stored base as long as nothing has been merged. */
  lemma BaseUnmoved(row: Row, setting: Setting, stage: Stage, policy: Policy, now: int, network: Network)
    requires RowOk(row) && row.state.Uploading? && Remembers(row, setting, stage)
    ensures var reply := DefaultHead(WorldAt(setting, stage), network);
            && (reply.Ok? ==> Some(reply.value) == row.baseSha)
            && (!reply.Ok? ==> Remembers(OnError(row, policy, now, reply), setting, stage))
  {
    hide OnError, Transient;
    var reply := DefaultHead(WorldAt(setting, stage), network);
    if !reply.Ok? {
      assert Transient(reply) by { HeadLostIsTransient(WorldAt(setting, stage), network); }
      TransientKeeps(row, setting, stage, policy, now, reply);
    }
  }

  lemma HeadLostIsTransient(world: World, network: Network)
    ensures !DefaultHead(world, network).Ok? ==> Transient(DefaultHead(world, network))
  {
    LostIsTransient(network, 0, 1);
  }

  /** What the uploading step does once the branch is named and the local bundle is intact. */
  lemma {:induction false} UploadingWithHead(row: Row, setting: Setting, stage: Stage, policy: Policy, tick: Tick, calls: seq<Call>, networks: seq<Network>)
    requires RowOk(row) && row.state.Uploading? && Untouched(setting.start, setting.branch)
    requires Remembers(row, setting, stage) && StageOk(stage) && row.headSha.Some? && row.branchName.Some?
    requires var all := StepOpening(row, policy, tick.now, calls, tick.replies).1;
             |all| == |calls| + |networks| && AllAnswered(WorldAt(setting, stage), all[|calls|..], row.identity, networks)
    ensures var (r, all) := StepOpening(row, policy, tick.now, calls, tick.replies);
            var world := Effects(WorldAt(setting, stage), all[|calls|..], row.identity, networks);
            exists reached :: At(Scene(r, world), setting, reached)
  {
    hide OnError, ValidSha, WorldAt, Untouched, At, AllAnswered, Effects, Remembers, RowOk, StageOk, StepOpening;
    OpeningFacts(row, setting, stage);
    OpeningCalls(row, policy, tick.now, calls, tick.replies);
    var rest := [OpenedPull(row.branchName.value, row.headSha.value, tick.replies.pull)];
    assert StepOpening(row, policy, tick.now, calls, tick.replies).1[|calls|..] == rest;
    assert networks == [networks[0]];
    OpeningHonest(row, setting, stage, policy, tick, calls, networks[0]);
  }

  lemma {:induction false} UploadingCreates(row: Row, setting: Setting, stage: Stage, policy: Policy, tick: Tick, networks: seq<Network>)
    requires RowOk(row) && row.state.Uploading? && Untouched(setting.start, setting.branch) && setting.files == ArchiveFiles(row.identity)
    requires Remembers(row, setting, stage) && StageOk(stage) && row.headSha.None? && row.branchName == Some(setting.branch)
    requires var (r, all) := Created(row, policy, tick, setting.start.defaultHead);
             |networks| == |all| - 1 && AllAnswered(WorldAt(setting, stage), all[1..], row.identity, networks)
    ensures var (r, all) := Created(row, policy, tick, setting.start.defaultHead);
            var world := Effects(WorldAt(setting, stage), all[1..], row.identity, networks);
            exists reached :: At(Scene(r, world), setting, reached)
  {
    hide OnError, ValidSha, WorldAt, Untouched, At, AllAnswered, Effects, Remembers, RowOk, StageOk, StepOpening, CreateArchiveCommit, ArchiveFiles;
    var (r, all) := Created(row, policy, tick, setting.start.defaultHead);
    var call := CreatedCommit(setting.branch, setting.start.defaultHead, tick.replies.commit);
    var world := WorldAt(setting, stage);
    CreatedStarts(row, policy, tick, setting.start.defaultHead);
    MoreCalls(world, all[1..], row.identity, networks);
    var next := Effect(world, call, row.identity, networks[0]);
    CommitAnswered(row, setting, stage, policy, tick, networks[0], next);
    if tick.replies.commit.Ok? {
      var headed := row.(headSha := Some(tick.replies.commit.value));
      var reached: Stage :| StageOk(reached) && next == WorldAt(setting, reached) && Remembers(headed, setting, reached);
      HeadedOk(row, headed);
      assert all[1..][1..] == all[2..];
      UploadingWithHead(headed, setting, reached, policy, tick, [AskedDefaultHead(tick.replies.defaultHead), call], networks[1..]);
    } else {
      assert all[1..][1..] == [] && networks[1..] == [];
      NoCalls(next, row.identity);
    }
  }

  lemma NoCalls(world: World, identity: Identity)
    ensures Effects(world, [], identity, []) == world
  {
  }

  lemma HeadedOk(row: Row, headed: Row)
    requires RowOk(row) && row.state.Uploading? && row.branchName.Some? && headed == row.(headSha := headed.headSha)
    ensures RowOk(headed)
  {
  }

  /** The part of an uploading step that starts with creating the commit. */
  function Created(row: Row, policy: Policy, tick: Tick, base: string): (Row, seq<Call>)
    requires row.branchName.Some?
  {
    var calls := [AskedDefaultHead(tick.replies.defaultHead), CreatedCommit(row.branchName.value, base, tick.replies.commit)];
    if !tick.replies.commit.Ok? then (OnError(row, policy, tick.now, tick.replies.commit), calls)
    else StepOpening(row.(headSha := Some(tick.replies.commit.value)), policy, tick.now, calls, tick.replies)
  }

  lemma CreatedStarts(row: Row, policy: Policy, tick: Tick, base: string)
    requires row.branchName.Some?
    ensures var all := Created(row, policy, tick, base).1;
            && |all| >= 2 && all[1..][0] == CreatedCommit(row.branchName.value, base, tick.replies.commit)
            && all[..2] == [AskedDefaultHead(tick.replies.defaultHead), CreatedCommit(row.branchName.value, base, tick.replies.commit)]
            && (!tick.replies.commit.Ok? ==> |all| == 2)
  {
    hide OnError, ValidSha;
  }

  /** The local conditions under which an uploading step goes on to the provider. */
  predicate Proceeds(row: Row, policy: Policy, replies: Replies) {
    && replies.defaultHead.Ok? && Some(replies.defaultHead.value) == row.baseSha && ValidBranch(BranchOf(row.identity, policy))
    && replies.digest.FileDigest? && replies.digest.sha256 == row.identity.bundleSha256
  }

  lemma UploadingCases(row: Row, policy: Policy, tick: Tick)
    requires RowOk(row) && row.state.Uploading?
    ensures var named := row.(branchName := Some(BranchOf(row.identity, policy)));
            var (r, calls) := StepUploading(row, policy, tick.now, tick.replies);
            var asked := [AskedDefaultHead(tick.replies.defaultHead)];
            && |calls| >= 1 && calls[0] == asked[0]
            && (Proceeds(row, policy, tick.replies) ==>
                  (r, calls) == if row.headSha.Some? then StepOpening(named, policy, tick.now, asked, tick.replies)
                                else Created(named, policy, tick, row.baseSha.value))
            && (!Proceeds(row, policy, tick.replies) ==> calls == asked)
  {
    hide OnError, OnProblem, ValidSha, ValidBranch, BranchOf;
    var asked := AskedDefaultHead(tick.replies.defaultHead);
    var created := CreatedCommit(BranchOf(row.identity, policy), row.baseSha.value, tick.replies.commit);
    assert [asked] + [created] == [asked, created];
  }

  lemma UploadingStops(row: Row, setting: Setting, stage: Stage, policy: Policy, tick: Tick, network: Network)
    requires RowOk(row) && row.state.Uploading? && Remembers(row, setting, stage) && setting.branch == BranchOf(row.identity, policy)
    requires tick.replies.defaultHead == DefaultHead(WorldAt(setting, stage), network)
    requires !Proceeds(row, policy, tick.replies)
    ensures Remembers(StepUploading(row, policy, tick.now, tick.replies).0, setting, stage)
  {
    hide OnError, OnProblem, ValidSha, ValidBranch, BranchOf, WorldAt, Remembers, RowOk, StepOpening, DefaultHead, Fail;
    BaseUnmoved(row, setting, stage, policy, tick.now, network);
    BranchLocal(row, setting, stage);
    BranchLocal(row.(branchName := Some(BranchOf(row.identity, policy))), setting, stage);
  }

  lemma {:induction false} UploadingStopsAt(row: Row, setting: Setting, stage: Stage, policy: Policy, tick: Tick, networks: seq<Network>)
    requires RowOk(row) && row.state.Uploading? && Remembers(row, setting, stage) && StageOk(stage) && setting.branch == BranchOf(row.identity, policy)
    requires !Proceeds(row, policy, tick.replies)
    requires var calls := StepUploading(row, policy, tick.now, tick.replies).1;
             |networks| == |calls| && AllAnswered(WorldAt(setting, stage), calls, row.identity, networks)
    ensures var (r, calls) := StepUploading(row, policy, tick.now, tick.replies);
            At(Scene(r, Effects(WorldAt(setting, stage), calls, row.identity, networks)), setting, stage)
  {
    hide ValidSha, BranchOf, WorldAt, AllAnswered, Effects, Remembers, RowOk, StageOk, StepUploading, DefaultHead, Proceeds;
    UploadingCases(row, policy, tick);
    OneCall(WorldAt(setting, stage), StepUploading(row, policy, tick.now, tick.replies).1, row.identity, networks);
    UploadingStops(row, setting, stage, policy, tick, networks[0]);
  }

  lemma {:induction false} UploadingHonest(row: Row, setting: Setting, stage: Stage, policy: Policy, tick: Tick, networks: seq<Network>)
    requires RowOk(row) && row.state.Uploading? && Sets(setting, row.identity, policy)
    requires Remembers(row, setting, stage) && StageOk(stage)
    requires var calls := StepUploading(row, policy, tick.now, tick.replies).1;
             |networks| == |calls| && AllAnswered(WorldAt(setting, stage), calls, row.identity, networks)
    ensures var (r, calls) := StepUploading(row, policy, tick.now, tick.replies);
            exists reached :: At(Scene(r, Effects(WorldAt(setting, stage), calls, row.identity, networks)), setting, reached)
  {
    hide ValidSha, BranchOf, WorldAt, Untouched, AllAnswered, Effects, Remembers, RowOk, StageOk, StepOpening, StepUploading, Created, ArchiveFiles, DefaultHead, Proceeds, At;
    var (r, calls) := StepUploading(row, policy, tick.now, tick.replies);
    var world := WorldAt(setting, stage);
    UploadingCases(row, policy, tick);
    MoreCalls(world, calls, row.identity, networks);
    NamedRemembers(row, setting, stage);
    var named := row.(branchName := Some(setting.branch));
    if !Proceeds(row, policy, tick.replies) {
      UploadingStopsAt(row, setting, stage, policy, tick, networks);
    } else if row.headSha.Some? {
      UploadingWithHead(named, setting, stage, policy, tick, [AskedDefaultHead(tick.replies.defaultHead)], networks[1..]);
    } else {
      UploadingCreates(named, setting, stage, policy, tick, networks[1..]);
    }
  }

  lemma PullHeadCall(world: World, pull: int, reply: Reply<string>, identity: Identity, network: Network)
    ensures Effect(world, AskedPullHead(pull, reply), identity, network) == world
    ensures Answered(world, AskedPullHead(pull, reply), identity, network) <==> reply == PullRequestHead(world, pull, network)
  {
  }

  lemma MergeCall(world: World, pull: int, head: string, reply: Reply<string>, identity: Identity, network: Network)
    ensures var call := RequestedMerge(pull, head, reply);
            Answered(world, call, identity, network) <==> (Effect(world, call, identity, network), reply) == MergePullRequest(world, pull, head, network)
  {
    hide MergePullRequest;
  }

  lemma ChecksCall(world: World, head: string, reply: Reply<CheckState>, identity: Identity, network: Network)
    ensures Effect(world, AskedChecks(head, reply), identity, network) == world
  {
  }

  lemma PlacedFacts(row: Row, setting: Setting, stage: Stage)
    requires RowOk(row) && Remembers(row, setting, stage) && (row.state.AwaitingChecks? || row.state.AwaitingMerge?)
    ensures !stage.Nothing? && !stage.Branched? && Placed(row, setting, stage.head)
    ensures row.state.AwaitingChecks? ==> stage.Proposed?
    ensures row.state.AwaitingMerge? && row.mergeSha.None? ==> stage.Proposed? || stage.Merged?
    ensures row.state.AwaitingMerge? && row.mergeSha.Some? ==> stage.Merged? || stage.Cleaned?
  {
  }

  lemma CheckingAnswered(row: Row, setting: Setting, stage: Stage, policy: Policy, tick: Tick)
    requires RowOk(row) && row.state.AwaitingChecks? && Remembers(row, setting, stage)
    requires tick.replies.pullHead.Ok? ==> Some(tick.replies.pullHead.value) == row.headSha
    requires !tick.replies.pullHead.Ok? ==> Transient(tick.replies.pullHead)
    requires tick.replies.pullHead.Ok? && !tick.replies.checks.Ok? ==> Transient(tick.replies.checks)
    ensures Remembers(StepChecking(row, policy, tick.now, tick.replies).0, setting, stage)
  {
    hide OnError, ValidSha, Transient;
    if !tick.replies.pullHead.Ok? {
      TransientKeeps(row, setting, stage, policy, tick.now, tick.replies.pullHead);
    } else if !tick.replies.checks.Ok? {
      TransientKeeps(row, setting, stage, policy, tick.now, tick.replies.checks);
    }
  }

  lemma CheckingCalls(row: Row, policy: Policy, now: int, replies: Replies)
    requires row.pullNumber.Some? && row.headSha.Some?
    ensures var asked := AskedPullHead(row.pullNumber.value, replies.pullHead);
            StepChecking(row, policy, now, replies).1
            == if replies.pullHead == Ok(row.headSha.value) then [asked, AskedChecks(row.headSha.value, replies.checks)] else [asked]
  {
    hide OnError;
  }

  lemma {:induction false} CheckingHonest(row: Row, setting: Setting, stage: Stage, policy: Policy, tick: Tick, networks: seq<Network>)
    requires RowOk(row) && row.state.AwaitingChecks? && Remembers(row, setting, stage) && StageOk(stage)
    requires var calls := StepChecking(row, policy, tick.now, tick.replies).1;
             |networks| == |calls| && AllAnswered(WorldAt(setting, stage), calls, row.identity, networks)
    ensures var (r, calls) := StepChecking(row, policy, tick.now, tick.replies);
            At(Scene(r, Effects(WorldAt(setting, stage), calls, row.identity, networks)), setting, stage)
  {
    hide Effect, Answered, StepChecking, WorldAt, AllAnswered, Effects, Remembers, RowOk, StageOk, PullRequestHead, Transient, FirstLost, ValidSha, At;
    PlacedFacts(row, setting, stage);
    CheckingCalls(row, policy, tick.now, tick.replies);
    var calls := StepChecking(row, policy, tick.now, tick.replies).1;
    var world := WorldAt(setting, stage);
    MoreCalls(world, calls, row.identity, networks);
    PullHeadCall(world, row.pullNumber.value, tick.replies.pullHead, row.identity, networks[0]);
    HeadAnswer(setting, stage, networks[0]);
    if tick.replies.pullHead.Ok? {
      OneCall(world, calls[1..], row.identity, networks[1..]);
      ChecksCall(world, row.headSha.value, tick.replies.checks, row.identity, networks[1]);
      ChecksTransient(world, tick.replies.checks, row, networks[1]);
    } else {
      OneCall(world, calls, row.identity, networks);
    }
    CheckingAnswered(row, setting, stage, policy, tick);
    StaysAt(StepChecking(row, policy, tick.now, tick.replies).0, setting, stage);
  }

  lemma StaysAt(row: Row, setting: Setting, stage: Stage)
    requires StageOk(stage) && Remembers(row, setting, stage)
    ensures At(Scene(row, WorldAt(setting, stage)), setting, stage)
  {
  }


  lemma ChecksTransient(world: World, reply: Reply<CheckState>, row: Row, network: Network)
    requires row.headSha.Some? && Answered(world, AskedChecks(row.headSha.value, reply), row.identity, network)
    ensures !reply.Ok? ==> Transient(reply)
  {
    LostIsTransient(network, 0, 2);
  }

  lemma MergeAnswered(row: Row, setting: Setting, stage: Stage, policy: Policy, tick: Tick, network: Network, after: World)
    requires RowOk(row) && row.state.AwaitingMerge? && row.mergeSha.None? && Remembers(row, setting, stage) && StageOk(stage) && ValidSha(network.freshSha)
    requires Some(tick.replies.pullHead) == if row.headSha.Some? then Some(Ok(row.headSha.value)) else None
    requires (after, tick.replies.merge) == MergePullRequest(WorldAt(setting, stage), |setting.start.pulls| + 1, stage.head, network)
    requires stage.Proposed? || stage.Merged?
    ensures exists reached :: At(Scene(StepMerging(row, policy, tick.now, tick.replies).0, after), setting, reached)
  {
    MergeEffect(setting, stage, network);
    hide OnError, ValidSha, WorldAt, MergePullRequest, Transient;
    var r := StepMerging(row, policy, tick.now, tick.replies).0;
    var merged := if stage.Proposed? then Merged(stage.head, network.freshSha) else stage;
    var reached := if after == WorldAt(setting, merged) then merged else stage;
    MergingRemembers(row, setting, stage, reached);
    if !tick.replies.merge.Ok? {
      if Transient(tick.replies.merge) {
        TransientKeeps(row, setting, reached, policy, tick.now, tick.replies.merge);
      } else {
        RefusedMergeFails(row, policy, tick.now);
      }
    }
    assert At(Scene(r, after), setting, reached);
  }

  lemma MergingRemembers(row: Row, setting: Setting, stage: Stage, reached: Stage)
    requires row.state.AwaitingMerge? && row.mergeSha.None? && Remembers(row, setting, stage)
    requires reached == stage || (stage.Proposed? && reached.Merged? && reached.head == stage.head)
    ensures Remembers(row, setting, reached)
  {
  }

  /** A second merge request is refused for good, and the submission ends as failed. */
  lemma RefusedMergeFails(row: Row, policy: Policy, now: int)
    ensures OnError<string>(row, policy, now, Refused(Problem("github_api_unavailable", false, None))).state == Failed
  {
  }

  lemma MergingCalls(row: Row, policy: Policy, now: int, replies: Replies)
    requires row.pullNumber.Some? && row.headSha.Some? && row.branchName.Some?
    ensures var asked := AskedPullHead(row.pullNumber.value, replies.pullHead);
            StepMerging(row, policy, now, replies).1
            == if row.mergeSha.Some? then [DeletedBranch(row.branchName.value, replies.deletion)]
               else if replies.pullHead == Ok(row.headSha.value) then [asked, RequestedMerge(row.pullNumber.value, row.headSha.value, replies.merge)]
               else [asked]
    ensures row.mergeSha.None? && !replies.pullHead.Ok? ==> StepMerging(row, policy, now, replies).0 == OnError(row, policy, now, replies.pullHead)
    ensures row.mergeSha.None? && replies.pullHead == Ok(row.headSha.value) && !replies.merge.Ok? ==>
      StepMerging(row, policy, now, replies).0 == OnError(row, policy, now, replies.merge)
    ensures row.mergeSha.Some? && !replies.deletion.Ok? ==> StepMerging(row, policy, now, replies).0 == OnError(row, policy, now, replies.deletion)
  {
    hide OnError;
  }

  lemma {:induction false} MergingHonest(row: Row, setting: Setting, stage: Stage, policy: Policy, tick: Tick, networks: seq<Network>)
    requires RowOk(row) && row.state.AwaitingMerge? && row.mergeSha.None? && Remembers(row, setting, stage) && StageOk(stage)
    requires var calls := StepMerging(row, policy, tick.now, tick.replies).1;
             |networks| == |calls| && AllAnswered(WorldAt(setting, stage), calls, row.identity, networks)
    ensures var (r, calls) := StepMerging(row, policy, tick.now, tick.replies);
            exists reached :: At(Scene(r, Effects(WorldAt(setting, stage), calls, row.identity, networks)), setting, reached)
  {
    hide Effect, Answered, OnError, StepMerging, WorldAt, AllAnswered, Effects, Remembers, RowOk, StageOk, PullRequestHead, MergePullRequest, Transient;
    PlacedFacts(row, setting, stage);
    MergingCalls(row, policy, tick.now, tick.replies);
    var (r, calls) := StepMerging(row, policy, tick.now, tick.replies);
    var world := WorldAt(setting, stage);
    MoreCalls(world, calls, row.identity, networks);
    PullHeadCall(world, row.pullNumber.value, tick.replies.pullHead, row.identity, networks[0]);
    HeadAnswer(setting, stage, networks[0]);
    if tick.replies.pullHead.Ok? {
      OneCall(world, calls[1..], row.identity, networks[1..]);
      MergeCall(world, row.pullNumber.value, row.headSha.value, tick.replies.merge, row.identity, networks[1]);
      MergeAnswered(row, setting, stage, policy, tick, networks[1], Effects(world, calls[1..], row.identity, networks[1..]));
    } else {
      OneCall(world, calls, row.identity, networks);
      TransientKeeps(row, setting, stage, policy, tick.now, tick.replies.pullHead);
      assert At(Scene(r, Effects(world, calls, row.identity, networks)), setting, stage);
    }
  }

  lemma CleaningAnswered(row: Row, setting: Setting, stage: Stage, policy: Policy, tick: Tick, network: Network, after: World)
    requires RowOk(row) && row.state.AwaitingMerge? && row.mergeSha.Some? && Remembers(row, setting, stage) && StageOk(stage)
    requires Untouched(setting.start, setting.branch) && (stage.Merged? || stage.Cleaned?)
    requires (after, tick.replies.deletion) == DeleteBranch(WorldAt(setting, stage), setting.branch, network)
    ensures exists reached :: At(Scene(StepMerging(row, policy, tick.now, tick.replies).0, after), setting, reached)
  {
    DeleteEffect(setting, stage, network);
    hide OnError, WorldAt, DeleteBranch, Transient, ValidSha, Untouched;
    var cleaned := Cleaned(stage.head, stage.merge);
    var reached := if after == WorldAt(setting, cleaned) then cleaned else stage;
    if !tick.replies.deletion.Ok? {
      TransientKeeps(row, setting, reached, policy, tick.now, tick.replies.deletion);
    }
    assert At(Scene(StepMerging(row, policy, tick.now, tick.replies).0, after), setting, reached);
  }

  lemma {:induction false} CleaningHonest(row: Row, setting: Setting, stage: Stage, policy: Policy, tick: Tick, networks: seq<Network>)
    requires RowOk(row) && row.state.AwaitingMerge? && row.mergeSha.Some? && Remembers(row, setting, stage) && StageOk(stage)
    requires Untouched(setting.start, setting.branch)
    requires var calls := StepMerging(row, policy, tick.now, tick.replies).1;
             |networks| == |calls| && AllAnswered(WorldAt(setting, stage), calls, row.identity, networks)
    ensures var (r, calls) := StepMerging(row, policy, tick.now, tick.replies);
            exists reached :: At(Scene(r, Effects(WorldAt(setting, stage), calls, row.identity, networks)), setting, reached)
  {
    hide OnError, StepMerging, WorldAt, AllAnswered, Effects, RowOk, Remembers, StageOk, At, DeleteBranch, Untouched;
    PlacedFacts(row, setting, stage);
    MergingCalls(row, policy, tick.now, tick.replies);
    var calls := StepMerging(row, policy, tick.now, tick.replies).1;
    var world := WorldAt(setting, stage);
    OneCall(world, calls, row.identity, networks);
    CleaningAnswered(row, setting, stage, policy, tick, networks[0], Effects(world, calls, row.identity, networks));
  }

  // ---------------------------------------------------------------------------------------------
  // Whole runs

  lemma IdleHonest(row: Row, setting: Setting, stage: Stage, policy: Policy, tick: Tick)
    requires RowOk(row) && policy.enabled && Remembers(row, setting, stage) && (row.state.Pending? || Terminal(row.state))
    ensures Calls(row, policy, tick) == [] && Remembers(Next(row, policy, tick), setting, stage)
  {
  }

  lemma StepHonest(before: Scene, after: Scene, setting: Setting, policy: Policy, tick: Tick, networks: seq<Network>)
    requires Inv(before, setting) && Sets(setting, before.row.identity, policy) && HonestStep(before, after, policy, tick, networks)
    ensures Inv(after, setting)
  {
    hide StepVerifying, StepUploading, StepChecking, StepMerging, AllAnswered, Effects, Remembers, StageOk, WorldAt, RowOk, Untouched, ArchiveFiles, BranchOf;
    StepKeepsRowOk(before.row, policy, tick.now, tick.previousHead, tick.replies);
    var stage :| At(before, setting, stage);
    var row := before.row;
    if row.state.Verifying? {
      VerifyingStage(row, setting, stage);
      VerifyingHonest(row, setting, policy, tick, networks);
      assert At(after, setting, stage);
    } else if row.state.Uploading? {
      UploadingHonest(row, setting, stage, policy, tick, networks);
    } else if row.state.AwaitingChecks? {
      CheckingHonest(row, setting, stage, policy, tick, networks);
      assert At(after, setting, stage);
    } else if row.state.AwaitingMerge? {
      if row.mergeSha.None? {
        MergingHonest(row, setting, stage, policy, tick, networks);
      } else {
        CleaningHonest(row, setting, stage, policy, tick, networks);
      }
    } else {
      IdleHonest(row, setting, stage, policy, tick);
      NoCalls(before.world, row.identity);
      assert networks == [];
      assert At(after, setting, stage);
    }
  }

  lemma VerifyingStage(row: Row, setting: Setting, stage: Stage)
    requires row.state.Verifying? && Remembers(row, setting, stage)
    ensures stage == Nothing && WorldAt(setting, stage) == setting.start
  {
  }

  lemma {:induction false} RunHonest(scenes: seq<Scene>, setting: Setting, policy: Policy, ticks: seq<Tick>, networks: seq<seq<Network>>, n: nat)
    requires HonestRun(scenes, policy, ticks, networks) && n < |scenes|
    requires Sets(setting, scenes[0].row.identity, policy) && Inv(scenes[0], setting)
    ensures Inv(scenes[n], setting) && scenes[n].row.identity == scenes[0].row.identity
  {
    hide HonestStep, Inv, Sets;
    if n > 0 {
      RunHonest(scenes, setting, policy, ticks, networks, n - 1);
      assert HonestStep(scenes[n - 1], scenes[n], policy, ticks[n - 1], networks[n - 1]);
      StepHonest(scenes[n - 1], scenes[n], setting, policy, ticks[n - 1], networks[n - 1]);
      HonestIdentity(scenes[n - 1], scenes[n], policy, ticks[n - 1], networks[n - 1]);
    }
  }

  lemma HonestIdentity(before: Scene, after: Scene, policy: Policy, tick: Tick, networks: seq<Network>)
    requires HonestStep(before, after, policy, tick, networks)
    ensures after.row.identity == before.row.identity
  {
    hide RetryDelay, ValidSha, ValidBranch, BranchOf, IdentityMatches, ContainsPrevious, AllAnswered, Effects;
  }

  /** A new submission against a provider that has not seen its branch. */
  ghost predicate FreshRun(scenes: seq<Scene>, setting: Setting, policy: Policy, ticks: seq<Tick>, networks: seq<seq<Network>>) {
    && HonestRun(scenes, policy, ticks, networks)
    && scenes[0] == Scene(FreshRow(scenes[0].row.identity), setting.start)
    && Sets(setting, scenes[0].row.identity, policy)
  }

  lemma {:induction false} CallsKeepCommits(world: World, calls: seq<Call>, identity: Identity, networks: seq<Network>)
    requires |networks| == |calls| && AllAnswered(world, calls, identity, networks)
    ensures KeepsCommits(world, Effects(world, calls, identity, networks))
    decreases calls
  {
    hide Answered;
    if calls != [] {
      EffectKeepsCommits(world, calls[0], identity, networks[0]);
      CallsKeepCommits(Effect(world, calls[0], identity, networks[0]), calls[1..], identity, networks[1..]);
    }
  }

  /** No commit is lost or rewritten. */
  predicate KeepsCommits(before: World, after: World) {
    forall sha :: sha in before.commits ==> sha in after.commits && after.commits[sha] == before.commits[sha]
  }

  lemma EffectKeepsCommits(world: World, call: Call, identity: Identity, network: Network)
    requires network.freshSha !in world.commits
    ensures KeepsCommits(world, Effect(world, call, identity, network))
  {
    hide FirstLost, FindOpenPull, ArchiveFiles, IsArchiveCommit, OpenPulls;
  }

  lemma {:induction false} RunKeepsCommits(scenes: seq<Scene>, policy: Policy, ticks: seq<Tick>, networks: seq<seq<Network>>, n: nat)
    requires HonestRun(scenes, policy, ticks, networks) && n < |scenes|
    ensures KeepsCommits(scenes[0].world, scenes[n].world)
  {
    hide AllAnswered, Effects, Next, Calls, RowOk;
    if n > 0 {
      RunKeepsCommits(scenes, policy, ticks, networks, n - 1);
      var before := scenes[n - 1];
      assert HonestStep(before, scenes[n], policy, ticks[n - 1], networks[n - 1]);
      CallsKeepCommits(before.world, Calls(before.row, policy, ticks[n - 1]), before.row.identity, networks[n - 1]);
    }
  }

  lemma FreshInv(identity: Identity, setting: Setting)
    ensures Inv(Scene(FreshRow(identity), setting.start), setting)
  {
    assert At(Scene(FreshRow(identity), setting.start), setting, Nothing);
  }

  /**
    Whatever messages get lost, one submission creates at most one branch, one pull request and one
    merge, and touches nothing else: other branches, other pull requests and older commits stay as they were.
   */
  lemma EffectsAtMostOnce(scenes: seq<Scene>, setting: Setting, policy: Policy, ticks: seq<Tick>, networks: seq<seq<Network>>, n: nat)
    requires FreshRun(scenes, setting, policy, ticks, networks) && n < |scenes|
    ensures var start, world := setting.start, scenes[n].world;
            && world.refsCreated <= start.refsCreated + 1
            && |world.pulls| <= |start.pulls| + 1 && start.pulls <= world.pulls
            && world.mergesDone <= start.mergesDone + 1
            && (world.defaultHead != start.defaultHead ==> world.mergesDone == start.mergesDone + 1)
            && (world.branches == start.branches
                || exists head :: ValidSha(head) && world.branches == start.branches[setting.branch := head])
            && KeepsCommits(start, world)
            && (world.commits == start.commits
                || exists head :: ValidSha(head) && world.commits == start.commits[head := Commit(start.defaultHead, setting.files)])
            && world.repositoryId == start.repositoryId
  {
    FreshInv(scenes[0].row.identity, setting);
    RunHonest(scenes, setting, policy, ticks, networks, n);
    RunKeepsCommits(scenes, policy, ticks, networks, n);
    var stage :| At(scenes[n], setting, stage);
    hide FreshRun, Remembers, RowOk, ValidSha;
    if !stage.Nothing? {
      assert ValidSha(stage.head);
    }
  }

  /** A verified submission has done each remote effect exactly once, and the default branch is at its stored merge. */
  lemma VerifiedMeansMergedOnce(scenes: seq<Scene>, setting: Setting, policy: Policy, ticks: seq<Tick>, networks: seq<seq<Network>>, n: nat)
    requires FreshRun(scenes, setting, policy, ticks, networks) && n < |scenes| && scenes[n].row.state.Verified?
    ensures var start, row, world := setting.start, scenes[n].row, scenes[n].world;
            && row.headSha.Some? && row.mergeSha == Some(world.defaultHead)
            && world.refsCreated == start.refsCreated + 1 && world.mergesDone == start.mergesDone + 1
            && world.pulls == start.pulls + [Pull(setting.branch, row.headSha.value, true)]
            && world.branches == start.branches
            && row.headSha.value in world.commits && world.commits[row.headSha.value] == Commit(start.defaultHead, setting.files)
  {
    FreshInv(scenes[0].row.identity, setting);
    RunHonest(scenes, setting, policy, ticks, networks, n);
    hide FreshRun, RowOk, ValidSha;
  }

  /** Lost messages alone never look like interference: an honest run is blocked only for local reasons. */
  lemma OnlyLocalReasonsBlock(scenes: seq<Scene>, setting: Setting, policy: Policy, ticks: seq<Tick>, networks: seq<seq<Network>>, n: nat)
    requires FreshRun(scenes, setting, policy, ticks, networks) && n < |scenes|
    requires scenes[n].row.state.Blocked? || scenes[n].row.state.RequiresControllerAction?
    ensures scenes[n].row.failureReason.Some? && scenes[n].row.failureReason.value in LOCAL_REASONS
  {
    FreshInv(scenes[0].row.identity, setting);
    RunHonest(scenes, setting, policy, ticks, networks, n);
    hide FreshRun, RowOk, WorldAt, LOCAL_REASONS;
  }

  // ---------------------------------------------------------------------------------------------
  // A merge whose reply was lost

  /** The merge took effect, the submission does not know its commit, and it waits or has failed. */
  predicate MergeUnknown(scene: Scene, setting: Setting, stage: Stage) {
    && At(scene, setting, stage) && scene.row.mergeSha.None?
    && (stage.Merged? || stage.Cleaned?)
    && (scene.row.state.AwaitingMerge? ==> stage.Merged?)
    && (scene.row.state.AwaitingMerge? || Terminal(scene.row.state))
  }

  lemma {:induction false} MergeRefused(row: Row, setting: Setting, stage: Stage, policy: Policy, tick: Tick, networks: seq<Network>)
    requires RowOk(row) && row.state.AwaitingMerge? && row.mergeSha.None? && Remembers(row, setting, stage) && StageOk(stage) && stage.Merged?
    requires var calls := StepMerging(row, policy, tick.now, tick.replies).1;
             |networks| == |calls| && AllAnswered(WorldAt(setting, stage), calls, row.identity, networks)
    ensures var (r, calls) := StepMerging(row, policy, tick.now, tick.replies);
            Effects(WorldAt(setting, stage), calls, row.identity, networks) == WorldAt(setting, stage)
            && if tick.replies.pullHead.Ok? then !tick.replies.merge.Ok? && r == OnError(row, policy, tick.now, tick.replies.merge)
               else r == OnError(row, policy, tick.now, tick.replies.pullHead)
  {
    hide Effect, Answered, OnError, StepMerging, WorldAt, AllAnswered, Effects, Remembers, RowOk, StageOk, PullRequestHead, MergePullRequest, Transient, ValidSha, Fail;
    PlacedFacts(row, setting, stage);
    MergingCalls(row, policy, tick.now, tick.replies);
    var calls := StepMerging(row, policy, tick.now, tick.replies).1;
    var world := WorldAt(setting, stage);
    MoreCalls(world, calls, row.identity, networks);
    PullHeadCall(world, row.pullNumber.value, tick.replies.pullHead, row.identity, networks[0]);
    HeadAnswer(setting, stage, networks[0]);
    if tick.replies.pullHead.Ok? {
      OneCall(world, calls[1..], row.identity, networks[1..]);
      MergeCall(world, row.pullNumber.value, row.headSha.value, tick.replies.merge, row.identity, networks[1]);
      MergeEffect(setting, stage, networks[1]);
    } else {
      OneCall(world, calls, row.identity, networks);
    }
  }

  lemma ErrorKeepsMergeUnknown<T>(row: Row, policy: Policy, now: int, reply: Reply<T>)
    requires RowOk(row) && row.state.AwaitingMerge? && row.mergeSha.None? && row.pullNumber.Some? && row.pullNumber.value > 0 && !reply.Ok?
    requires Transient(reply) || reply == Refused(Problem("github_api_unavailable", false, None))
    ensures var r := OnError(row, policy, now, reply); r.mergeSha.None? && (r.state.AwaitingMerge? || r.state.Failed?)
  {
    hide RetryDelay, ValidSha;
  }

  lemma MergeStaysUnknown(before: Scene, after: Scene, setting: Setting, stage: Stage, policy: Policy, tick: Tick, networks: seq<Network>)
    requires MergeUnknown(before, setting, stage) && Sets(setting, before.row.identity, policy) && HonestStep(before, after, policy, tick, networks)
    ensures MergeUnknown(after, setting, stage)
  {
    var row := before.row;
    if Terminal(row.state) {
      hide AllAnswered, RowOk;
      TerminalIdles(row, policy, tick);
      NoCalls(before.world, row.identity);
      assert networks == [];
    } else {
      MergeUnknownStep(before, after, setting, stage, policy, tick, networks);
    }
  }

  lemma TerminalIdles(row: Row, policy: Policy, tick: Tick)
    requires RowOk(row) && policy.enabled && Terminal(row.state)
    ensures Calls(row, policy, tick) == [] && Next(row, policy, tick) == row
  {
  }

  /** A submission whose merge took effect without its knowing is at the stage after a lost merge reply. */
  lemma UnknownMergeStage(scene: Scene, setting: Setting) returns (stage: Stage)
    requires Inv(scene, setting) && scene.world.mergesDone > setting.start.mergesDone && scene.row.mergeSha.None?
    ensures MergeUnknown(scene, setting, stage)
  {
    hide ValidSha, LOCAL_REASONS;
    stage :| At(scene, setting, stage);
  }

  lemma {:induction false} MergeUnknownRun(scenes: seq<Scene>, setting: Setting, stage: Stage, policy: Policy, ticks: seq<Tick>, networks: seq<seq<Network>>, m: nat, n: nat)
    requires HonestRun(scenes, policy, ticks, networks) && m <= n < |scenes|
    requires Sets(setting, scenes[m].row.identity, policy) && MergeUnknown(scenes[m], setting, stage)
    ensures MergeUnknown(scenes[n], setting, stage) && scenes[n].row.identity == scenes[m].row.identity
  {
    hide HonestStep, MergeUnknown, Sets;
    if m < n {
      MergeUnknownRun(scenes, setting, stage, policy, ticks, networks, m, n - 1);
      assert HonestStep(scenes[n - 1], scenes[n], policy, ticks[n - 1], networks[n - 1]);
      MergeStaysUnknown(scenes[n - 1], scenes[n], setting, stage, policy, ticks[n - 1], networks[n - 1]);
      HonestIdentity(scenes[n - 1], scenes[n], policy, ticks[n - 1], networks[n - 1]);
    }
  }

  /**
    Once the merge took effect and its reply was lost, the rest of the run changes nothing remote, never
    learns the merge commit, and never verifies the submission: it waits for the merge or has failed.
   */
  lemma LostMergeNeverVerifies(scenes: seq<Scene>, setting: Setting, policy: Policy, ticks: seq<Tick>, networks: seq<seq<Network>>, m: nat, n: nat)
    requires FreshRun(scenes, setting, policy, ticks, networks) && m <= n < |scenes|
    requires scenes[m].world.mergesDone > setting.start.mergesDone && scenes[m].row.mergeSha.None?
    ensures scenes[n].world == scenes[m].world && scenes[n].row.mergeSha.None? && !scenes[n].row.state.Verified?
    ensures scenes[n].row.state.AwaitingMerge? || Terminal(scenes[n].row.state)
  {
    hide HonestRun, Inv, Sets, WorldAt, RowOk;
    FreshInv(scenes[0].row.identity, setting);
    RunHonest(scenes, setting, policy, ticks, networks, m);
    var stage := UnknownMergeStage(scenes[m], setting);
    MergeUnknownRun(scenes, setting, stage, policy, ticks, networks, m, n);
  }

  lemma MergeUnknownStep(before: Scene, after: Scene, setting: Setting, stage: Stage, policy: Policy, tick: Tick, networks: seq<Network>)
    requires MergeUnknown(before, setting, stage) && before.row.state.AwaitingMerge?
    requires policy.enabled && HonestStep(before, after, policy, tick, networks)
    ensures MergeUnknown(after, setting, stage)
  {
    hide StepMerging, OnError, AllAnswered, Effects, WorldAt, RowOk, Remembers, StageOk, ValidSha, Transient, PullRequestHead;
    var row, replies := before.row, tick.replies;
    PlacedFacts(row, setting, stage);
    MergeRefused(row, setting, stage, policy, tick, networks);
    MergeReplies(row, setting, stage, policy, tick, networks);
    if replies.pullHead.Ok? {
      ErrorKeepsMergeUnknown(row, policy, tick.now, replies.merge);
      if Transient(replies.merge) {
        TransientKeeps(row, setting, stage, policy, tick.now, replies.merge);
      } else {
        RefusedMergeFails(row, policy, tick.now);
        FailedRemembers(after.row, setting, stage);
      }
    } else {
      ErrorKeepsMergeUnknown(row, policy, tick.now, replies.pullHead);
      TransientKeeps(row, setting, stage, policy, tick.now, replies.pullHead);
    }
  }

  lemma FailedRemembers(row: Row, setting: Setting, stage: Stage)
    requires row.state.Failed?
    ensures Remembers(row, setting, stage)
  {
  }

  lemma {:induction false} MergeReplies(row: Row, setting: Setting, stage: Stage, policy: Policy, tick: Tick, networks: seq<Network>)
    requires RowOk(row) && row.state.AwaitingMerge? && row.mergeSha.None? && Remembers(row, setting, stage) && StageOk(stage) && stage.Merged?
    requires var calls := StepMerging(row, policy, tick.now, tick.replies).1;
             |networks| == |calls| && AllAnswered(WorldAt(setting, stage), calls, row.identity, networks)
    ensures !tick.replies.pullHead.Ok? ==> Transient(tick.replies.pullHead)
    ensures tick.replies.pullHead.Ok? ==> Transient(tick.replies.merge) || tick.replies.merge == Refused(Problem("github_api_unavailable", false, None))
  {
    hide Effect, Answered, OnError, StepMerging, WorldAt, AllAnswered, Effects, Remembers, RowOk, StageOk, PullRequestHead, MergePullRequest, ValidSha, Fail;
    PlacedFacts(row, setting, stage);
    MergingCalls(row, policy, tick.now, tick.replies);
    var calls := StepMerging(row, policy, tick.now, tick.replies).1;
    var world := WorldAt(setting, stage);
    MoreCalls(world, calls, row.identity, networks);
    PullHeadCall(world, row.pullNumber.value, tick.replies.pullHead, row.identity, networks[0]);
    HeadAnswer(setting, stage, networks[0]);
    if tick.replies.pullHead.Ok? {
      OneCall(world, calls[1..], row.identity, networks[1..]);
      MergeCall(world, row.pullNumber.value, row.headSha.value, tick.replies.merge, row.identity, networks[1]);
      MergeEffect(setting, stage, networks[1]);
    }
  }
}
