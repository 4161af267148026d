/** A run of an honest provider in which the reply to the merge is lost: the stage from which no run recovers. */
module LostMerge {
  import opened Wrappers
  import opened Uploader
  import opened UploaderRuns
  import opened GitHubClient
  import opened HonestProvider

  /** A submission that would pass, and the ids the provider will assign. */
  ghost predicate Promising(setting: Setting, identity: Identity, policy: Policy, head: string, merge: string) {
    && Sets(setting, identity, policy) && policy.retryLimit >= 2 && ValidBranch(setting.branch)
    && identity.controllerId == policy.controllerId && identity.instanceId == policy.instanceId && identity.repositoryId == policy.repositoryId
    && ValidSha(head) && ValidSha(merge) && head != merge
    && head !in setting.start.commits && merge !in setting.start.commits
  }

  const LOST := Problem("github_api_unavailable", true, None)

  /** The answers of every step; the merge is the only one that is not received. */
  function Answers(setting: Setting, identity: Identity, head: string): Tick {
    Tick(0, None, Replies(
      VerifiedSummary(identity.bundleSha256, identity.bundleId, identity.chainHead, []),
      Ok(Repository(setting.start.repositoryId, true, setting.start.defaultHead)),
      Ok(setting.start.defaultHead), FileDigest(identity.bundleSha256), Ok(head), Ok(|setting.start.pulls| + 1),
      Ok(head), Ok(ChecksPassed), Refused(LOST), Malformed))
  }

  function Verifies(identity: Identity): Row {
    FreshRow(identity).(state := State.Verifying)
  }

  function Uploads(setting: Setting, identity: Identity): Row {
    Verifies(identity).(state := Uploading, baseSha := Some(setting.start.defaultHead))
  }

  function Waits(setting: Setting, identity: Identity, head: string): Row {
    Uploads(setting, identity).(state := AwaitingChecks, branchName := Some(setting.branch), headSha := Some(head),
                                pullNumber := Some(|setting.start.pulls| + 1), checksStartedAt := Some(0))
  }

  function Passed(setting: Setting, identity: Identity, head: string): Row {
    Waits(setting, identity, head).(state := AwaitingMerge)
  }

  function Unaware(setting: Setting, identity: Identity, head: string): Row {
    Passed(setting, identity, head).(attemptCount := 1, failureReason := Some(LOST.reason),
                                     nextAttemptAt := Some(RetryDelay(identity.jitterSeed, 1, None)))
  }

  lemma NoneAnswered(world: World, identity: Identity)
    ensures AllAnswered(world, [], identity, []) && Effects(world, [], identity, []) == world
  {
  }

  lemma OneMoreAnswered(world: World, call: Call, rest: seq<Call>, identity: Identity, network: Network, networks: seq<Network>)
    requires |rest| == |networks| && ValidSha(network.freshSha) && network.freshSha !in world.commits && Answered(world, call, identity, network)
    requires AllAnswered(Effect(world, call, identity, network), rest, identity, networks)
    ensures AllAnswered(world, [call] + rest, identity, [network] + networks)
    ensures Effects(world, [call] + rest, identity, [network] + networks) == Effects(Effect(world, call, identity, network), rest, identity, networks)
  {
    hide Answered, Effect, ValidSha;
    assert ([call] + rest)[1..] == rest && ([network] + networks)[1..] == networks;
  }

  /** Two queries, neither of them lost. */
  lemma TwoQueries(world: World, a: Call, b: Call, identity: Identity, network: Network)
    requires ValidSha(network.freshSha) && network.freshSha !in world.commits
    requires Answered(world, a, identity, network) && Answered(world, b, identity, network)
    requires Effect(world, a, identity, network) == world && Effect(world, b, identity, network) == world
    ensures AllAnswered(world, [a, b], identity, [network, network]) && Effects(world, [a, b], identity, [network, network]) == world
  {
    hide Answered, Effect, ValidSha;
    NoneAnswered(world, identity);
    OneMoreAnswered(world, b, [], identity, network, []);
    OneMoreAnswered(world, a, [b], identity, network, [network]);
    assert [b] + [] == [b] && [a] + [b] == [a, b] && [network] + [] == [network] && [network] + [network] == [network, network];
  }

  lemma VerifiesStep(setting: Setting, identity: Identity, policy: Policy, head: string, merge: string)
    requires Promising(setting, identity, policy, head, merge)
    ensures HonestStep(Scene(FreshRow(identity), setting.start), Scene(Verifies(identity), setting.start), policy, Answers(setting, identity, head), [])
  {
    hide Sets, ValidSha, ValidBranch;
    NoneAnswered(setting.start, identity);
    assert policy.enabled by { PolicyOn(setting, identity, policy, head, merge); }
  }

  lemma PolicyOn(setting: Setting, identity: Identity, policy: Policy, head: string, merge: string)
    requires Promising(setting, identity, policy, head, merge)
    ensures policy.enabled && policy.repositoryId == setting.start.repositoryId && setting.branch == BranchOf(identity, policy)
    ensures setting.files == ArchiveFiles(identity) && Untouched(setting.start, setting.branch)
  {
  }

  lemma UploadsStep(setting: Setting, identity: Identity, policy: Policy, head: string, merge: string)
    requires Promising(setting, identity, policy, head, merge)
    ensures HonestStep(Scene(Verifies(identity), setting.start), Scene(Uploads(setting, identity), setting.start), policy,
                       Answers(setting, identity, head), [Network([], merge), Network([], merge)])
  {
    PolicyOn(setting, identity, policy, head, merge);
    hide Sets, ValidSha, ValidBranch, AllAnswered, Effects, BranchOf, ArchiveFiles, Untouched;
    var tick := Answers(setting, identity, head);
    var a, b := VerifiedBundle(tick.replies.verification, None), AskedReadiness(tick.replies.readiness);
    AllDelivered(Network([], merge), 0, 3);
    TwoQueries(setting.start, a, b, identity, Network([], merge));
    assert Calls(Verifies(identity), policy, tick) == [a, b];
  }

  lemma WaitsCalls(setting: Setting, identity: Identity, policy: Policy, head: string, merge: string)
    requires Promising(setting, identity, policy, head, merge)
    ensures var tick := Answers(setting, identity, head);
            && RowOk(Uploads(setting, identity))
            && Next(Uploads(setting, identity), policy, tick) == Waits(setting, identity, head)
            && Calls(Uploads(setting, identity), policy, tick) ==
               [AskedDefaultHead(tick.replies.defaultHead)]
               + ([CreatedCommit(setting.branch, setting.start.defaultHead, tick.replies.commit)]
                  + [OpenedPull(setting.branch, head, tick.replies.pull)])
  {
    PolicyOn(setting, identity, policy, head, merge);
    hide Sets, ValidBranch, BranchOf, ArchiveFiles, Untouched;
    var tick := Answers(setting, identity, head);
    var a, b, c := AskedDefaultHead(tick.replies.defaultHead), CreatedCommit(setting.branch, setting.start.defaultHead, tick.replies.commit), OpenedPull(setting.branch, head, tick.replies.pull);
    assert [a] + ([b] + [c]) == [a] + [b] + [c];
  }

  lemma WaitsStep(setting: Setting, identity: Identity, policy: Policy, head: string, merge: string)
    requires Promising(setting, identity, policy, head, merge)
    ensures HonestStep(Scene(Uploads(setting, identity), setting.start), Scene(Waits(setting, identity, head), WorldAt(setting, Proposed(head))), policy,
                       Answers(setting, identity, head), [Network([], merge)] + ([Network([], head)] + [Network([], merge)]))
  {
    PolicyOn(setting, identity, policy, head, merge);
    WaitsCalls(setting, identity, policy, head, merge);
    var tick := Answers(setting, identity, head);
    var start, plain := setting.start, Network([], merge);
    var a, b, c := AskedDefaultHead(tick.replies.defaultHead), CreatedCommit(setting.branch, start.defaultHead, tick.replies.commit), OpenedPull(setting.branch, head, tick.replies.pull);
    CommitReply(setting, head);
    PullReply(setting, head, plain);
    hide Sets, ValidSha, ValidBranch, BranchOf, Untouched, AllAnswered, Effects, CreateArchiveCommit, OpenPullRequest, ArchiveFiles, Next, Calls, RowOk;
    var branched, proposed := WorldAt(setting, Branched(head)), WorldAt(setting, Proposed(head));
    NoneAnswered(proposed, identity);
    OneMoreAnswered(branched, c, [], identity, plain, []);
    assert [c] + [] == [c] && [plain] + [] == [plain];
    OneMoreAnswered(start, b, [c], identity, Network([], head), [plain]);
    OneMoreAnswered(start, a, [b] + [c], identity, plain, [Network([], head)] + [plain]);
  }

  lemma CommitReply(setting: Setting, head: string)
    requires Untouched(setting.start, setting.branch)
    ensures CreateArchiveCommit(setting.start, setting.branch, setting.start.defaultHead, setting.files, Network([], head))
            == (WorldAt(setting, Branched(head)), Ok(head))
  {
    AllDelivered(Network([], head), 0, 1);
    AllDelivered(Network([], head), 1, 6);
  }

  lemma {:induction false} AllDelivered(network: Network, from: nat, to: nat)
    requires forall k :: from <= k < to ==> DeliveryOf(network, k).Delivered?
    ensures FirstLost(network, from, to).None?
  {
    if from < to {
      AllDelivered(network, from, to - 1);
    }
  }

  lemma PullReply(setting: Setting, head: string, network: Network)
    requires Untouched(setting.start, setting.branch) && network.deliveries == []
    ensures OpenPullRequest(WorldAt(setting, Branched(head)), setting.branch, head, network)
            == (WorldAt(setting, Proposed(head)), Ok(|setting.start.pulls| + 1))
  {
    AllDelivered(network, 0, 1);
    OpenPullsNone(setting.start.pulls, setting.branch);
    hide OpenPulls;
  }

  lemma PassedStep(setting: Setting, identity: Identity, policy: Policy, head: string, merge: string)
    requires Promising(setting, identity, policy, head, merge)
    ensures var world := WorldAt(setting, Proposed(head));
            HonestStep(Scene(Waits(setting, identity, head), world), Scene(Passed(setting, identity, head), world), policy,
                       Answers(setting, identity, head), [Network([], merge), Network([], merge)])
  {
    PolicyOn(setting, identity, policy, head, merge);
    var world, plain, tick := WorldAt(setting, Proposed(head)), Network([], merge), Answers(setting, identity, head);
    AllDelivered(plain, 0, 1);
    AllDelivered(plain, 0, 2);
    hide Sets, ValidBranch, AllAnswered, Effects, BranchOf, ArchiveFiles, Untouched;
    var number := |setting.start.pulls| + 1;
    var a, b := AskedPullHead(number, tick.replies.pullHead), AskedChecks(head, tick.replies.checks);
    assert world.pulls[number - 1].head == head;
    TwoQueries(world, a, b, identity, plain);
    assert Calls(Waits(setting, identity, head), policy, tick) == [a, b];
  }

  lemma UnawareStep(setting: Setting, identity: Identity, policy: Policy, head: string, merge: string)
    requires Promising(setting, identity, policy, head, merge)
    ensures HonestStep(Scene(Passed(setting, identity, head), WorldAt(setting, Proposed(head))),
                       Scene(Unaware(setting, identity, head), WorldAt(setting, Merged(head, merge))), policy,
                       Answers(setting, identity, head), [Network([], merge)] + [Network([Delivered, LostReply], merge)])
  {
    PolicyOn(setting, identity, policy, head, merge);
    var world, plain, tick := WorldAt(setting, Proposed(head)), Network([], merge), Answers(setting, identity, head);
    var lossy, number := Network([Delivered, LostReply], merge), |setting.start.pulls| + 1;
    var a, b := AskedPullHead(number, tick.replies.pullHead), RequestedMerge(number, head, tick.replies.merge);
    MergeReply(setting, head, merge);
    PassedCalls(setting, identity, policy, head, merge);
    AllDelivered(plain, 0, 1);
    assert world.pulls[number - 1].head == head;
    hide Sets, ValidSha, ValidBranch, BranchOf, Untouched, AllAnswered, Effects, MergePullRequest, ArchiveFiles, Next, Calls, RowOk;
    var merged := WorldAt(setting, Merged(head, merge));
    NoneAnswered(merged, identity);
    OneMoreAnswered(world, b, [], identity, lossy, []);
    assert [b] + [] == [b] && [lossy] + [] == [lossy];
    OneMoreAnswered(world, a, [b], identity, plain, [lossy]);
  }

  lemma PassedCalls(setting: Setting, identity: Identity, policy: Policy, head: string, merge: string)
    requires Promising(setting, identity, policy, head, merge)
    ensures var tick, number := Answers(setting, identity, head), |setting.start.pulls| + 1;
            && RowOk(Passed(setting, identity, head))
            && Next(Passed(setting, identity, head), policy, tick) == Unaware(setting, identity, head)
            && Calls(Passed(setting, identity, head), policy, tick) ==
               [AskedPullHead(number, tick.replies.pullHead)] + [RequestedMerge(number, head, tick.replies.merge)]
  {
    PolicyOn(setting, identity, policy, head, merge);
    hide Sets, ValidBranch, BranchOf, ArchiveFiles, Untouched, RetryDelay;
  }

  lemma MergeReply(setting: Setting, head: string, merge: string)
    ensures MergePullRequest(WorldAt(setting, Proposed(head)), |setting.start.pulls| + 1, head, Network([Delivered, LostReply], merge))
            == (WorldAt(setting, Merged(head, merge)), Refused(LOST))
  {
    AllDelivered(Network([Delivered, LostReply], merge), 0, 1);
    var world := WorldAt(setting, Proposed(head));
    var n := |setting.start.pulls|;
    assert world.pulls[n := world.pulls[n].(merged := true)] == setting.start.pulls + [Pull(setting.branch, head, true)];
  }

  /**
    Any promising submission can get there: five steps with every message received but the reply to the
    merge, after which the provider has merged and the submission does not know.
   */
  lemma LostMergeHappens(setting: Setting, identity: Identity, policy: Policy, head: string, merge: string)
      returns (scenes: seq<Scene>, ticks: seq<Tick>, networks: seq<seq<Network>>)
    requires Promising(setting, identity, policy, head, merge)
    ensures FreshRun(scenes, setting, policy, ticks, networks) && |scenes| == 6
    ensures scenes[5].world.mergesDone > setting.start.mergesDone
    ensures scenes[5].row.mergeSha.None? && scenes[5].row.state.AwaitingMerge?
  {
    VerifiesStep(setting, identity, policy, head, merge);
    UploadsStep(setting, identity, policy, head, merge);
    WaitsStep(setting, identity, policy, head, merge);
    PassedStep(setting, identity, policy, head, merge);
    UnawareStep(setting, identity, policy, head, merge);
    hide HonestStep, Sets, ValidSha, ValidBranch;
    var tick, plain := Answers(setting, identity, head), Network([], merge);
    var start, proposed := setting.start, WorldAt(setting, Proposed(head));
    scenes := [Scene(FreshRow(identity), start), Scene(Verifies(identity), start), Scene(Uploads(setting, identity), start),
               Scene(Waits(setting, identity, head), proposed), Scene(Passed(setting, identity, head), proposed),
               Scene(Unaware(setting, identity, head), WorldAt(setting, Merged(head, merge)))];
    ticks := [tick, tick, tick, tick, tick];
    networks := [[], [plain, plain], [plain] + ([Network([], head)] + [plain]), [plain, plain], [plain] + [Network([Delivered, LostReply], merge)]];
    forall n | 0 <= n < 5
      ensures HonestStep(scenes[n], scenes[n + 1], policy, ticks[n], networks[n])
    {
      assert n == 0 || n == 1 || n == 2 || n == 3 || n == 4;
    }
  }
}
