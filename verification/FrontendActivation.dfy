/**
  Activating a staged frontend under a live web server: a policy that accepts both generations first,
  then the files in an order that keeps every document's assets in place.
 */
module FrontendActivation {
  import opened Wrappers
  import Sorting

  // ---------------------------------------------------------------------------------------------
  // The content security policy, as the pieces its patterns distinguish

  datatype Token = ScriptSrcSelf | Space | Hash(source: string) | Semicolon | Other(text: string)

  type Policy = seq<Token>

  /** Every hash source in a policy text, wherever it stands. */
  function Hashes(policy: Policy): set<string> {
    set t | t in policy && t.Hash? :: t.source
  }

  /** How many tokens a run of hashes, each after one space, takes. */
  function HashRun(policy: Policy): (n: nat)
    ensures n <= |policy|
  {
    if |policy| >= 2 && policy[0].Space? && policy[1].Hash? then 2 + HashRun(policy[2..]) else 0
  }

  /** The length of a replaceable clause at the start of a text: the keyword, hashes, and a semicolon. */
  function ClauseLength(policy: Policy): (n: nat)
    ensures n <= |policy|
  {
    if policy == [] || !policy[0].ScriptSrcSelf? then 0
    else
      var n := 1 + HashRun(policy[1..]);
      if n < |policy| && policy[n].Semicolon? then n + 1 else 0
  }

  function HashTokens(sources: seq<string>): Policy {
    if sources == [] then [] else [Space, Hash(sources[0])] + HashTokens(sources[1..])
  }

  function Clause(sources: seq<string>): Policy {
    [ScriptSrcSelf] + HashTokens(sources) + [Semicolon]
  }

  /** Replace the first replaceable clause. */
  function Substituted(policy: Policy, clause: Policy): Policy {
    if policy == [] then []
    else if ClauseLength(policy) > 0 then clause + policy[ClauseLength(policy)..]
    else [policy[0]] + Substituted(policy[1..], clause)
  }

  /** The hashes between a position and the next semicolon. */
  function UntilSemicolon(policy: Policy): set<string> {
    if policy == [] || policy[0].Semicolon? then {}
    else (if policy[0].Hash? then {policy[0].source} else {}) + UntilSemicolon(policy[1..])
  }

  /** The inline scripts a browser allows: those of the first script directive. */
  function Allowed(policy: Policy): set<string> {
    if policy == [] then {}
    else if policy[0].ScriptSrcSelf? then UntilSemicolon(policy[1..])
    else Allowed(policy[1..])
  }

  /** Whether a replaceable clause starts before the directive ends. */
  predicate ReplaceableBeforeSemicolon(policy: Policy) {
    policy != [] && !policy[0].Semicolon? && (ClauseLength(policy) > 0 || ReplaceableBeforeSemicolon(policy[1..]))
  }

  /** Whether the first script directive ends in its keyword and nothing but hashes. */
  predicate FirstClauseReplaceable(policy: Policy) {
    policy != [] && if policy[0].ScriptSrcSelf? then ReplaceableBeforeSemicolon(policy) else FirstClauseReplaceable(policy[1..])
  }

  datatype ActivationError = InvalidPolicy | NoBackup

  function MergedPolicy(active: Policy, staged: Policy, sources: seq<string>): Result<Policy, ActivationError>
    requires (set s | s in sources) == Hashes(active) + Hashes(staged)
  {
    if sources == [] || ScriptSrcSelf !in staged then Failure(InvalidPolicy)
    else Success(Substituted(staged, Clause(sources)))
  }

  lemma {:induction false} ClauseAllows(sources: seq<string>, rest: Policy)
    ensures UntilSemicolon(HashTokens(sources) + [Semicolon] + rest) == set s | s in sources
  {
    var text := HashTokens(sources) + [Semicolon] + rest;
    if sources == [] {
      assert text[0] == Semicolon;
    } else {
      var tail := HashTokens(sources[1..]) + [Semicolon] + rest;
      assert text[0] == Space && text[1..][0] == Hash(sources[0]) && text[1..][1..] == tail;
      ClauseAllows(sources[1..], rest);
      assert UntilSemicolon(text) == UntilSemicolon(text[1..]) == {sources[0]} + UntilSemicolon(tail);
      assert sources == [sources[0]] + sources[1..];
    }
  }

  /** Inside a directive, substitution adds all sources or leaves the directive as it is. */
  lemma {:induction false} SubstitutedInside(policy: Policy, sources: seq<string>)
    ensures var merged := UntilSemicolon(Substituted(policy, Clause(sources)));
            if ReplaceableBeforeSemicolon(policy) then (set s | s in sources) <= merged else merged == UntilSemicolon(policy)
  {
    if policy != [] {
      var merged := Substituted(policy, Clause(sources));
      if ClauseLength(policy) > 0 {
        var rest := policy[ClauseLength(policy)..];
        assert merged[0] == ScriptSrcSelf && merged[1..] == HashTokens(sources) + [Semicolon] + rest;
        ClauseAllows(sources, rest);
      } else {
        assert merged[0] == policy[0] && merged[1..] == Substituted(policy[1..], Clause(sources));
        SubstitutedInside(policy[1..], sources);
      }
    }
  }

  lemma {:induction false} SubstitutedAllows(staged: Policy, sources: seq<string>)
    ensures var allowed := Allowed(Substituted(staged, Clause(sources)));
            if FirstClauseReplaceable(staged) then (set s | s in sources) <= allowed else allowed == Allowed(staged)
  {
    if staged != [] {
      var merged := Substituted(staged, Clause(sources));
      if ClauseLength(staged) > 0 {
        var rest := staged[ClauseLength(staged)..];
        assert merged[0] == ScriptSrcSelf && merged[1..] == HashTokens(sources) + [Semicolon] + rest;
        ClauseAllows(sources, rest);
      } else {
        assert merged[0] == staged[0] && merged[1..] == Substituted(staged[1..], Clause(sources));
        if staged[0].ScriptSrcSelf? {
          SubstitutedInside(staged[1..], sources);
        } else {
          SubstitutedAllows(staged[1..], sources);
        }
      }
    }
  }

  /**
    The merged policy allows the inline scripts of both generations exactly when the first script
    directive of the staged policy ends in its keyword and hashes, or already lists all of them.
   */
  lemma {:induction false} MergedAllowsBothGenerations(active: Policy, staged: Policy, sources: seq<string>)
    requires (set s | s in sources) == Hashes(active) + Hashes(staged)
    requires MergedPolicy(active, staged, sources).Success?
    ensures Hashes(active) + Hashes(staged) <= Allowed(MergedPolicy(active, staged, sources).value) <==>
            FirstClauseReplaceable(staged) || Hashes(active) + Hashes(staged) <= Allowed(staged)
    ensures FirstClauseReplaceable(staged) ==> Allowed(active) + Allowed(staged) <= Allowed(MergedPolicy(active, staged, sources).value)
  {
    SubstitutedAllows(staged, sources);
    AllowedAreHashes(active);
    AllowedAreHashes(staged);
  }

  lemma {:induction false} AllowedAreHashes(policy: Policy)
    ensures Allowed(policy) <= Hashes(policy) && UntilSemicolon(policy) <= Hashes(policy)
  {
    if policy != [] {
      AllowedAreHashes(policy[1..]);
      assert forall t :: t in policy[1..] ==> t in policy;
      assert policy[0] in policy;
    }
  }

  /** A staged directive with a source that is no hash keeps the active generation's scripts out. */
  lemma ForeignSourceShutsOut()
    ensures var active := [ScriptSrcSelf, Space, Hash("old"), Semicolon];
            var staged := [ScriptSrcSelf, Other(" https://cdn.example"), Space, Hash("new"), Semicolon];
            MergedPolicy(active, staged, ["new", "old"]) == Success(staged)
            && "old" in Allowed(active) && "old" !in Allowed(staged)
  {
    var staged := [ScriptSrcSelf, Other(" https://cdn.example"), Space, Hash("new"), Semicolon];
    var clause := Clause(["new", "old"]);
    assert HashRun(staged[1..]) == 0;
    assert Substituted(staged[5..], clause) == [];
    assert Substituted(staged[4..], clause) == staged[4..] by { assert staged[4..][1..] == staged[5..]; }
    assert Substituted(staged[3..], clause) == staged[3..] by { assert staged[3..][1..] == staged[4..]; }
    assert Substituted(staged[2..], clause) == staged[2..] by { assert staged[2..][1..] == staged[3..]; }
    assert Substituted(staged[1..], clause) == staged[1..] by { assert staged[1..][1..] == staged[2..]; }
    assert Substituted(staged, clause) == staged;
    NotAllowed(staged, "old");
  }

  lemma NotAllowed(policy: Policy, source: string)
    requires source !in Hashes(policy)
    ensures source !in Allowed(policy)
  {
    AllowedAreHashes(policy);
  }

  // ---------------------------------------------------------------------------------------------
  // The file trees

  /** The contents of a web root by relative path. */
  type Tree = map<string, string>

  predicate HtmlName(path: string) {
    |path| > 5 && path[|path| - 5..] == ".html" && path[|path| - 6] != '/'
  }

  /** Assets first, then documents, then the root document, then the root worker. */
  function Priority(path: string): nat {
    if path == "sw.js" then 4
    else if path == "index.html" then 3
    else if HtmlName(path) then 2
    else 1
  }

  predicate Before(a: string, b: string) {
    Priority(a) < Priority(b) || (Priority(a) == Priority(b) && Sorting.TextBefore(a, b))
  }

  lemma BeforeOrder()
    ensures Sorting.TotalPreorder(Before)
  {
    hide Priority;
    Sorting.TextOrder();
    hide Sorting.TextBefore;
  }

  /** A staging order: every staged file once, by priority. */
  ghost predicate StagingOrder(order: seq<string>, staged: Tree) {
    && (forall path :: path in order <==> path in staged)
    && Sorting.Distinct(order)
    && Sorting.Sorted(order, Before)
  }

  method OrderedFiles(staged: Tree) returns (order: seq<string>)
    ensures StagingOrder(order, staged)
  {
    hide Before, Sorting.TextBefore;
    var listed := Sorting.SortedTexts(staged.Keys);
    assert Sorting.Distinct(listed);
    assert forall path :: path in listed <==> path in (set x | x in listed);
    order := Sorting.Sort(listed, Before);
    BeforeOrder();
    Sorting.SortSorted(listed, Before);
    Sorting.SortDistinct(listed, Before);
  }

  /** The active tree after copying the first files of an order. */
  function Copied(active: Tree, staged: Tree, order: seq<string>): Tree
    requires forall path :: path in order ==> path in staged
  {
    if order == [] then active
    else
      var last := order[|order| - 1];
      Copied(active, staged, order[..|order| - 1])[last := staged[last]]
  }

  lemma {:induction false} CopiedAt(active: Tree, staged: Tree, order: seq<string>, path: string)
    requires forall p :: p in order ==> p in staged
    ensures path in Copied(active, staged, order) <==> path in active || path in order
    ensures path in order ==> Copied(active, staged, order)[path] == staged[path]
    ensures path !in order && path in active ==> Copied(active, staged, order)[path] == active[path]
  {
    if order != [] {
      var n := |order| - 1;
      CopiedAt(active, staged, order[..n], path);
      assert order == order[..n] + [order[n]];
    }
  }

  /** What the priorities mean: documents after assets, the root document after all documents, the worker last. */
  lemma PriorityOrder(path: string, other: string)
    ensures HtmlName(path) && !HtmlName(other) && other != "sw.js" ==> Priority(other) < Priority(path)
    ensures path == "index.html" && other != "index.html" && other != "sw.js" ==> Priority(other) < Priority(path)
    ensures path == "sw.js" && other != "sw.js" ==> Priority(other) < Priority(path)
  {
    var root := "index.html";
    assert root[|root| - 5..] == ".html" && root[|root| - 6] == 'x';
    assert HtmlName(root);
    var worker := "sw.js";
    assert |worker| == 5;
  }

  /** A staged file has its new content in a tree. */
  predicate InPlace(tree: Tree, staged: Tree, path: string) {
    path in staged ==> path in tree && tree[path] == staged[path]
  }

  lemma LowerIsInPlace(active: Tree, staged: Tree, order: seq<string>, k: nat, path: string, lower: string)
    requires StagingOrder(order, staged) && k <= |order| && path in order[..k]
    requires lower in staged && Priority(lower) < Priority(path)
    ensures InPlace(Copied(active, staged, order[..k]), staged, lower)
  {
    hide Priority, Sorting.TextBefore;
    var i :| 0 <= i < |order| && order[i] == lower;
    var j :| 0 <= j < k && order[..k][j] == path;
    assert order[j] == path;
    assert !Before(order[j], order[i]);
    assert i <= j;
    assert order[..k][i] == lower;
    CopiedAt(active, staged, order[..k], lower);
  }

  /**
    After any number of copies: no served path has vanished; once a staged document is in place so
    are all staged assets but the worker; once the root document is in place so is every other
    document; once the worker is in place everything is.
   */
  lemma EveryPrefixIsServable(active: Tree, staged: Tree, order: seq<string>, k: nat, path: string)
    requires StagingOrder(order, staged) && k <= |order| && path in order[..k]
    ensures forall p :: p in active ==> p in Copied(active, staged, order[..k])
    ensures HtmlName(path) ==> forall p :: p in staged && !HtmlName(p) && p != "sw.js" ==> InPlace(Copied(active, staged, order[..k]), staged, p)
    ensures path == "index.html" ==> forall p :: p in staged && p != "index.html" && p != "sw.js" ==> InPlace(Copied(active, staged, order[..k]), staged, p)
    ensures path == "sw.js" ==> forall p :: p in staged && p != "sw.js" ==> InPlace(Copied(active, staged, order[..k]), staged, p)
  {
    hide Priority, HtmlName, InPlace, StagingOrder;
    var done := order[..k];
    CopiedPaths(order, staged, k);
    forall p | p in active
      ensures p in Copied(active, staged, done)
    {
      CopiedAt(active, staged, done, p);
    }
    forall p | p in staged
      ensures HtmlName(path) && !HtmlName(p) && p != "sw.js" ==> InPlace(Copied(active, staged, done), staged, p)
      ensures path == "index.html" && p != "index.html" && p != "sw.js" ==> InPlace(Copied(active, staged, done), staged, p)
      ensures path == "sw.js" && p != "sw.js" ==> InPlace(Copied(active, staged, done), staged, p)
    {
      PriorityOrder(path, p);
      if Priority(p) < Priority(path) {
        LowerIsInPlace(active, staged, order, k, path, p);
      }
    }
  }

  lemma CopiedPaths(order: seq<string>, staged: Tree, k: nat)
    requires StagingOrder(order, staged) && k <= |order|
    ensures forall p :: p in order[..k] ==> p in staged
  {
  }

  // ---------------------------------------------------------------------------------------------
  // Activation and rollback

  /** Everything that activation and rollback read and write. */
  datatype Site = Site(
    active: Tree,
    policy: Policy,
    previous: Option<Tree>,
    previousPolicy: Option<Policy>)

  /** The site after the first `steps` steps: drop the old backup, copy the tree, copy the policy, merge the policy, copy the files. */
  function AfterSteps(site: Site, staged: Tree, merged: Policy, order: seq<string>, steps: nat): Site
    requires forall path :: path in order ==> path in staged
  {
    if steps == 0 then site
    else if steps == 1 then site.(previous := None)
    else if steps == 2 then site.(previous := Some(site.active))
    else if steps == 3 then site.(previous := Some(site.active), previousPolicy := Some(site.policy))
    else
      var copies := if steps - 4 < |order| then steps - 4 else |order|;
      Site(Copied(site.active, staged, order[..copies]), merged, Some(site.active), Some(site.policy))
  }

  function RolledBack(site: Site): Result<Site, ActivationError> {
    if site.previous.None? || site.previousPolicy.None? then Failure(NoBackup)
    else Success(site.(active := site.previous.value, policy := site.previousPolicy.value))
  }

  /**
    A rollback after an interrupted activation restores the original files and policy exactly when
    the activation got past both backup copies, or the older backup happened to hold what was missing.
   */
  lemma RollbackRestoresIff(site: Site, staged: Tree, merged: Policy, order: seq<string>, steps: nat)
    requires forall path :: path in order ==> path in staged
    ensures var r := RolledBack(AfterSteps(site, staged, merged, order, steps));
            (r.Success? && r.value.active == site.active && r.value.policy == site.policy) <==>
              || steps >= 3
              || (steps == 2 && site.previousPolicy == Some(site.policy))
              || (steps == 0 && site.previous == Some(site.active) && site.previousPolicy == Some(site.policy))
  {
  }

  /** Stopped between the two backup copies, a rollback pairs the current files with the policy of an older generation. */
  lemma StalePolicyRestored()
    ensures var older := [ScriptSrcSelf, Space, Hash("older"), Semicolon];
            var current := [ScriptSrcSelf, Space, Hash("current"), Semicolon];
            var site := Site(map["index.html" := "current"], current, Some(map["index.html" := "older"]), Some(older));
            var r := RolledBack(AfterSteps(site, map[], [], [], 2));
            r.Success? && r.value.active == site.active && r.value.policy == older != current
  {
    assert [ScriptSrcSelf, Space, Hash("older"), Semicolon][2] != [ScriptSrcSelf, Space, Hash("current"), Semicolon][2];
  }

  ghost function SourcesOf(active: Policy, staged: Policy): (sources: seq<string>)
    ensures (set s | s in sources) == Hashes(active) + Hashes(staged)
  {
    Listed(Hashes(active) + Hashes(staged))
  }

  ghost function Listed(texts: set<string>): (listed: seq<string>)
    ensures forall s :: s in listed <==> s in texts
  {
    if texts == {} then []
    else
      var x :| x in texts;
      [x] + Listed(texts - {x})
  }

  class Frontend {
    var active: Tree
    var policy: Policy
    var previous: Option<Tree>
    var previousPolicy: Option<Policy>

    function Current(): Site
      reads this
    {
      Site(active, policy, previous, previousPolicy)
    }

    constructor (site: Site)
      ensures Current() == site
    {
      active, policy, previous, previousPolicy := site.active, site.policy, site.previous, site.previousPolicy;
    }

    /** Load a policy that accepts both generations. */
    method LoadMergedPolicy(stagedPolicy: Policy) returns (r: Result<(), ActivationError>, ghost sources: seq<string>)
      modifies this`policy
      ensures (set s | s in sources) == Hashes(old(policy)) + Hashes(stagedPolicy)
      ensures var merged := MergedPolicy(old(policy), stagedPolicy, sources);
              && (r.Success? <==> merged.Success?)
              && policy == if merged.Success? then merged.value else old(policy)
    {
      hide Hashes;
      var found := Sorting.SortedTexts(Hashes(policy) + Hashes(stagedPolicy));
      sources := found;
      var merged := MergedPolicy(policy, stagedPolicy, found);
      if merged.Failure? {
        return Failure(merged.error), sources;
      }
      policy := merged.value;
      return Success(()), sources;
    }

    /** Copy staged files in order, at most `limit` of them. */
    method CopyFiles(staged: Tree, files: seq<string>, limit: nat)
      requires forall path :: path in files ==> path in staged
      modifies this`active
      ensures active == Copied(old(active), staged, if limit < |files| then files[..limit] else files)
    {
      ghost var start := active;
      var i := 0;
      while i < |files| && i < limit
        invariant 0 <= i <= |files| && i <= limit
        invariant active == Copied(start, staged, files[..i])
      {
        assert files[..i + 1][..i] == files[..i];
        assert files[i] in files;
        active := active[files[i] := staged[files[i]]];
        i := i + 1;
      }
      assert files[..|files|] == files;
    }

    /** Activate a staged generation; stop after `steps` steps if that comes first. */
    method Activate(staged: Tree, stagedPolicy: Policy, steps: nat)
      returns (r: Result<(), ActivationError>, ghost order: seq<string>, ghost sources: seq<string>)
      modifies this
      ensures StagingOrder(order, staged)
      ensures (set s | s in sources) == Hashes(old(policy)) + Hashes(stagedPolicy)
      ensures var merged := MergedPolicy(old(policy), stagedPolicy, sources);
              && (r.Success? <==> steps < 4 || merged.Success?)
              && Current() == if merged.Success? then AfterSteps(old(Current()), staged, merged.value, order, steps)
                              else AfterSteps(old(Current()), staged, [], order, if steps < 3 then steps else 3)
    {
      hide MergedPolicy, Hashes, Copied, Sorting.Sorted, Sorting.Distinct;
      var files := OrderedFiles(staged);
      order := files;
      sources := SourcesOf(policy, stagedPolicy);
      r := Success(());
      if steps >= 1 {
        previous := None;
      }
      if steps >= 2 {
        previous := Some(active);
      }
      if steps >= 3 {
        previousPolicy := Some(policy);
      }
      if steps >= 4 {
        r, sources := LoadMergedPolicy(stagedPolicy);
        if r.Failure? {
          return;
        }
        assert files[..|files|] == files;
        CopyFiles(staged, files, steps - 4);
      }
    }

    /** Remove every active file, copy the previous generation back, then its policy. */
    method Rollback() returns (r: Result<(), ActivationError>)
      modifies this
      ensures r.Success? <==> RolledBack(old(Current())).Success?
      ensures Current() == if r.Success? then RolledBack(old(Current())).value else old(Current())
    {
      if previous.None? || previousPolicy.None? {
        return Failure(NoBackup);
      }
      var source := previous.value;
      var order := OrderedFiles(source);
      active := map[];
      for i := 0 to |order|
        invariant active == Copied(map[], source, order[..i])
        invariant policy == old(policy) && previous == old(previous) && previousPolicy == old(previousPolicy)
      {
        assert order[..i + 1][..i] == order[..i];
        assert order[i] in order;
        active := active[order[i] := source[order[i]]];
      }
      assert order[..|order|] == order;
      assert active == source by {
        forall path
          ensures path in active <==> path in source
          ensures path in source ==> active[path] == source[path]
        {
          CopiedAt(map[], source, order, path);
        }
      }
      policy := previousPolicy.value;
      return Success(());
    }
  }
}
