/**
  The provider as the client sees it: a repository with branches, commits and pull requests, reached
  over a network that can lose a request or its reply. Commits, blobs and trees that no branch points
  to have no effect and are not kept.
 */
module GitHubClient {
  import opened Wrappers
  import opened Uploader

  datatype Delivery = Delivered | LostRequest | LostReply | Unavailable | RateLimited(retryAfter: Option<int>)

  /** What becomes of the requests of one client call, in order, and the object id the provider would assign. */
  datatype Network = Network(deliveries: seq<Delivery>, freshSha: string)

  datatype Commit = Commit(parent: string, files: map<string, string>)

  datatype Pull = Pull(branch: string, head: string, merged: bool)

  datatype World = World(
    repositoryId: string,
    defaultHead: string,
    branches: map<string, string>,
    commits: map<string, Commit>,
    pulls: seq<Pull>,
    refsCreated: nat,
    mergesDone: nat)

  function DeliveryOf(network: Network, n: nat): Delivery {
    if n < |network.deliveries| then network.deliveries[n] else Delivered
  }

  predicate Takes(delivery: Delivery) {
    delivery.Delivered? || delivery.LostReply?
  }

  function ProblemOf(delivery: Delivery): Problem {
    match delivery
    case RateLimited(retryAfter) => Problem("github_rate_limited", true, retryAfter)
    case _ => Problem("github_api_unavailable", true, None)
  }

  /** The first of the requests `from..to` that is not answered, if any. */
  function FirstLost(network: Network, from: nat, to: nat): Option<Problem> {
    if to <= from then None
    else
      var earlier := FirstLost(network, from, to - 1);
      if earlier.Some? then earlier
      else if DeliveryOf(network, to - 1).Delivered? then None
      else Some(ProblemOf(DeliveryOf(network, to - 1)))
  }

  const RACE := Problem("github_repository_race_or_policy", true, None)

  /** The two files of a bundle directory; the bundle itself stands as its digest. */
  function ArchiveFiles(identity: Identity): map<string, string> {
    var parent := "instances/" + identity.instanceId + "/bundles/" + identity.bundleId;
    map[parent + "/evidence.bundle" := identity.bundleSha256,
        parent + "/bundle.sha256" := identity.bundleSha256 + "  evidence.bundle\n"]
  }

  /** Whether a head is one commit on top of the base that adds exactly these files. */
  predicate IsArchiveCommit(world: World, base: string, head: string, files: map<string, string>) {
    head in world.commits && world.commits[head] == Commit(base, files)
  }

  function WithBranch(world: World, branch: string, sha: string, base: string, files: map<string, string>): World {
    world.(branches := world.branches[branch := sha],
           commits := world.commits[sha := Commit(base, files)],
           refsCreated := world.refsCreated + 1)
  }

  /** Find the branch of an earlier attempt, or create the commit and the branch. */
  function CreateArchiveCommit(world: World, branch: string, base: string, files: map<string, string>, network: Network): (World, Reply<string>) {
    var asked := FirstLost(network, 0, 1);
    if asked.Some? then (world, Refused(asked.value))
    else if branch in world.branches then
      var compared := FirstLost(network, 1, 2);
      if compared.Some? then (world, Refused(compared.value))
      else if !IsArchiveCommit(world, base, world.branches[branch], files) then
        (world, Refused(Problem("automatic_branch_conflict", false, None)))
      else (world, Ok(world.branches[branch]))
    else
      var objects := FirstLost(network, 1, 6);
      if objects.Some? then (world, Refused(objects.value))
      else
        var delivery := DeliveryOf(network, 6);
        var after := if Takes(delivery) then WithBranch(world, branch, network.freshSha, base, files) else world;
        (after, if delivery.Delivered? then Ok(network.freshSha) else Refused(ProblemOf(delivery)))
  }

  /** The numbers of the open pull requests of one branch. */
  function OpenPulls(pulls: seq<Pull>, branch: string): seq<nat> {
    if pulls == [] then []
    else
      var n := |pulls| - 1;
      OpenPulls(pulls[..n], branch) + if pulls[n].branch == branch && !pulls[n].merged then [n + 1] else []
  }

  /** The open pull request of a branch, or nothing, or a refusal when it is not the expected one. */
  function FindOpenPull(world: World, branch: string, head: string, network: Network, request: nat): Reply<Option<int>> {
    var listed := FirstLost(network, request, request + 1);
    var rows := OpenPulls(world.pulls, branch);
    if listed.Some? then Refused(listed.value)
    else if rows == [] then Ok(None)
    else if |rows| != 1 then Refused(Problem("automatic_pull_request_conflict", false, None))
    else if rows[0] == 0 || rows[0] > |world.pulls| || world.pulls[rows[0] - 1].head != head then
      Refused(Problem("pull_request_head_changed", false, None))
    else Ok(Some(rows[0]))
  }

  function OpenPullRequest(world: World, branch: string, head: string, network: Network): (World, Reply<int>) {
    var found := FindOpenPull(world, branch, head, network, 0);
    if found.Refused? then (world, Refused(found.problem))
    else if found.Malformed? then (world, Malformed)
    else if found.value.Some? then (world, Ok(found.value.value))
    else
      var delivery := DeliveryOf(network, 1);
      if branch !in world.branches then
        if delivery.Delivered? then
          var again := FindOpenPull(world, branch, head, network, 2);
          (world, match again
                  case Refused(problem) => Refused(problem)
                  case Malformed => Malformed
                  case Ok(number) => if number.Some? then Ok(number.value) else Refused(RACE))
        else (world, Refused(ProblemOf(delivery)))
      else
        var pull := Pull(branch, world.branches[branch], false);
        var after := if Takes(delivery) then world.(pulls := world.pulls + [pull]) else world;
        (after, if !delivery.Delivered? then Refused(ProblemOf(delivery))
                else if pull.head != head then Refused(Problem("pull_request_head_changed", false, None))
                else Ok(|world.pulls| + 1))
  }

  function PullRequestHead(world: World, number: int, network: Network): Reply<string> {
    var lost := FirstLost(network, 0, 1);
    if lost.Some? then Refused(lost.value)
    else if 0 < number <= |world.pulls| then Ok(world.pulls[number - 1].head)
    else Refused(Problem("github_repository_or_resource_unavailable", false, None))
  }

  /** Merge a pull request at an exact head; a merged one cannot be merged again. */
  function MergePullRequest(world: World, number: int, head: string, network: Network): (World, Reply<string>) {
    var current := PullRequestHead(world, number, network);
    if !current.Ok? then (world, current)
    else if current.value != head then (world, Refused(Problem("pull_request_head_changed", false, None)))
    else
      var delivery := DeliveryOf(network, 1);
      var pull := world.pulls[number - 1];
      if pull.merged then
        (world, if delivery.Delivered? then Refused(Problem("github_api_unavailable", false, None)) else Refused(ProblemOf(delivery)))
      else
        var after := if Takes(delivery)
          then world.(pulls := world.pulls[number - 1 := pull.(merged := true)], defaultHead := network.freshSha, mergesDone := world.mergesDone + 1)
          else world;
        (after, if delivery.Delivered? then Ok(network.freshSha) else Refused(ProblemOf(delivery)))
  }

  function DeleteBranch(world: World, branch: string, network: Network): (World, Reply<()>) {
    var delivery := DeliveryOf(network, 0);
    if branch !in world.branches then
      (world, if delivery.Delivered? then Refused(RACE) else Refused(ProblemOf(delivery)))
    else
      var after := if Takes(delivery) then world.(branches := world.branches - {branch}) else world;
      (after, if delivery.Delivered? then Ok(()) else Refused(ProblemOf(delivery)))
  }

  function DefaultHead(world: World, network: Network): Reply<string> {
    var lost := FirstLost(network, 0, 1);
    if lost.Some? then Refused(lost.value) else Ok(world.defaultHead)
  }

  function Readiness(world: World, network: Network): Reply<Repository> {
    var lost := FirstLost(network, 0, 3);
    if lost.Some? then Refused(lost.value) else Ok(Repository(world.repositoryId, true, world.defaultHead))
  }

  // ---------------------------------------------------------------------------------------------
  // Check runs

  datatype CheckRun = CheckRun(headSha: string, name: string, status: string, conclusion: Option<string>)

  const REQUIRED_CHECKS: set<string> := {"Evidence verification", "Ingestion path validation"}

  const FAILURES: set<Option<string>> := {Some("failure"), Some("cancelled"), Some("timed_out"), Some("action_required"), Some("stale")}

  /** The last run of each required name. */
  function RequiredRuns(runs: seq<CheckRun>): map<string, CheckRun> {
    if runs == [] then map[]
    else
      var last := runs[|runs| - 1];
      var earlier := RequiredRuns(runs[..|runs| - 1]);
      if last.name in REQUIRED_CHECKS then earlier[last.name := last] else earlier
  }

  function JudgeChecks(runs: seq<CheckRun>, combined: Option<string>, head: string): Reply<CheckState> {
    var required := RequiredRuns(runs);
    if exists run | run in runs :: run.headSha != head then Refused(Problem("check_sha_mismatch", false, None))
    else if (exists run | run in runs :: run.conclusion in FAILURES) || combined == Some("failure") || combined == Some("error") then Ok(ChecksFailed)
    else if required.Keys != REQUIRED_CHECKS then Ok(ChecksPending)
    else if (exists name | name in required :: required[name].status != "completed") || combined == Some("pending") then Ok(ChecksPending)
    else if exists name | name in required :: required[name].conclusion != Some("success") then Ok(ChecksFailed)
    else if combined == None || combined == Some("success") then Ok(ChecksPassed)
    else Ok(ChecksPending)
  }

  /** The last run of a name: it is in the list and no later run has that name. */
  predicate LastRun(runs: seq<CheckRun>, name: string, i: int) {
    0 <= i < |runs| && runs[i].name == name && forall j :: i < j < |runs| ==> runs[j].name != name
  }

  lemma {:induction false} RequiredRunsAreLast(runs: seq<CheckRun>, name: string, i: int)
    requires name in REQUIRED_CHECKS && LastRun(runs, name, i)
    ensures name in RequiredRuns(runs) && RequiredRuns(runs)[name] == runs[i]
  {
    var n := |runs| - 1;
    if i < n {
      assert LastRun(runs[..n], name, i);
      RequiredRunsAreLast(runs[..n], name, i);
    }
  }

  lemma {:induction false} RequiredRunsExist(runs: seq<CheckRun>, name: string)
    requires name in RequiredRuns(runs)
    ensures name in REQUIRED_CHECKS && exists i :: LastRun(runs, name, i)
  {
    var n := |runs| - 1;
    if name in RequiredRuns(runs[..n]) {
      RequiredRunsExist(runs[..n], name);
      var i :| LastRun(runs[..n], name, i);
      assert runs[n].name == name || LastRun(runs, name, i);
    }
    assert runs[n].name != name || LastRun(runs, name, n);
  }

  predicate Succeeded(runs: seq<CheckRun>, name: string, i: int) {
    LastRun(runs, name, i) && runs[i].status == "completed" && runs[i].conclusion == Some("success")
  }

  predicate RequiredSucceeded(runs: seq<CheckRun>, name: string) {
    var required := RequiredRuns(runs);
    name in required && required[name].status == "completed" && required[name].conclusion == Some("success")
  }

  lemma RequiredSucceededIff(runs: seq<CheckRun>, name: string)
    requires name in REQUIRED_CHECKS
    ensures RequiredSucceeded(runs, name) <==> exists i :: Succeeded(runs, name, i)
  {
    if name in RequiredRuns(runs) {
      RequiredRunsExist(runs, name);
      var i :| LastRun(runs, name, i);
      RequiredRunsAreLast(runs, name, i);
      assert RequiredSucceeded(runs, name) <==> Succeeded(runs, name, i);
    }
    if i :| Succeeded(runs, name, i) {
      RequiredRunsAreLast(runs, name, i);
    }
  }

  lemma PassedMeansRequired(runs: seq<CheckRun>, combined: Option<string>, head: string)
    ensures JudgeChecks(runs, combined, head) == Ok(ChecksPassed) <==>
      && (forall run :: run in runs ==> run.headSha == head && run.conclusion !in FAILURES)
      && (combined == None || combined == Some("success"))
      && forall name :: name in REQUIRED_CHECKS ==> RequiredSucceeded(runs, name)
  {
    forall name | name in RequiredRuns(runs)
      ensures name in REQUIRED_CHECKS
    {
      RequiredRunsExist(runs, name);
    }
    hide RequiredRuns;
  }

  /**
    Checks count as passed exactly when every run belongs to the head, none of them failed, the
    latest run of each required check completed with success, and no combined status says otherwise.
   */
  lemma PassedMeansAllRequiredSucceeded(runs: seq<CheckRun>, combined: Option<string>, head: string)
    ensures JudgeChecks(runs, combined, head) == Ok(ChecksPassed) <==>
      && (forall run :: run in runs ==> run.headSha == head && run.conclusion !in FAILURES)
      && (combined == None || combined == Some("success"))
      && forall name :: name in REQUIRED_CHECKS ==> exists i :: Succeeded(runs, name, i)
  {
    PassedMeansRequired(runs, combined, head);
    hide JudgeChecks, Succeeded, RequiredSucceeded;
    forall name | name in REQUIRED_CHECKS
      ensures RequiredSucceeded(runs, name) <==> exists i :: Succeeded(runs, name, i)
    {
      RequiredSucceededIff(runs, name);
    }
  }
}
