/**
  Exchanging an installed release with its retained predecessor, path by path, when renames can fail.
  Every rename attempt has a number; the attempts in `faults` fail without effect.
 */
module ReleaseRollback {
  import opened Wrappers

  /** What is at each path; a directory is its whole content. */
  type Tree = map<string, string>

  datatype Machine = Machine(tree: Tree, attempts: nat)

  datatype Pair = Pair(current: string, previous: string, temporary: string)

  /** Move what is at `source` to a free path. */
  function Rename(m: Machine, source: string, target: string, faults: set<nat>): (Machine, bool) {
    var counted := m.(attempts := m.attempts + 1);
    if m.attempts in faults || source !in m.tree || target in m.tree then (counted, false)
    else (counted.(tree := (m.tree - {source})[target := m.tree[source]]), true)
  }

  /** Compensation after a failed step: undo the second rename if it happened, then the first. */
  function Compensate(m: Machine, pair: Pair, previousMoved: bool, faults: set<nat>): Machine {
    var undoSecond := previousMoved && pair.current in m.tree && pair.previous !in m.tree;
    var (first, done) := if undoSecond then Rename(m, pair.current, pair.previous, faults) else (m, true);
    if done && pair.current !in first.tree && pair.temporary in first.tree then
      Rename(first, pair.temporary, pair.current, faults).0
    else first
  }

  /** Exchange one path with its predecessor; on failure, compensate. */
  function Swap(m: Machine, pair: Pair, faults: set<nat>): (Machine, bool) {
    if pair.current !in m.tree || pair.previous !in m.tree || pair.temporary in m.tree then (m, false)
    else
      var (aside, moved) := Rename(m, pair.current, pair.temporary, faults);
      if !moved then (aside, false)
      else
        var (placed, placedOk) := Rename(aside, pair.previous, pair.current, faults);
        if !placedOk then (Compensate(placed, pair, false, faults), false)
        else
          var (kept, keptOk) := Rename(placed, pair.temporary, pair.previous, faults);
          if keptOk then (kept, true) else (Compensate(kept, pair, true, faults), false)
  }

  /** Exchange the pairs in order up to the first failure; how many were exchanged. */
  function SwapAll(m: Machine, pairs: seq<Pair>, faults: set<nat>): (r: (Machine, nat))
    ensures r.1 <= |pairs|
    decreases pairs
  {
    if pairs == [] then (m, 0)
    else
      var (next, ok) := Swap(m, pairs[0], faults);
      if !ok then (next, 0)
      else
        var (last, n) := SwapAll(next, pairs[1..], faults);
        (last, n + 1)
  }

  /** Exchange the completed pairs again, last one first, up to the first failure. */
  function Undo(m: Machine, pairs: seq<Pair>, faults: set<nat>): Machine
    decreases pairs
  {
    if pairs == [] then m
    else
      var n := |pairs| - 1;
      var (next, ok) := Swap(m, pairs[n], faults);
      if ok then Undo(next, pairs[..n], faults) else next
  }

  predicate Complete(tree: Tree, pairs: seq<Pair>) {
    forall k :: 0 <= k < |pairs| ==> pairs[k].current in tree && pairs[k].previous in tree
  }

  function Rollback(m: Machine, pairs: seq<Pair>, faults: set<nat>): (Machine, bool) {
    if !Complete(m.tree, pairs) then (m, false)
    else
      var (reached, n) := SwapAll(m, pairs, faults);
      if n == |pairs| then (reached, true) else (Undo(reached, pairs[..n], faults), false)
  }

  // ---------------------------------------------------------------------------------------------
  // The intended effect

  function Exchange(tree: Tree, pair: Pair): Tree
    requires pair.current in tree && pair.previous in tree
  {
    tree[pair.current := tree[pair.previous]][pair.previous := tree[pair.current]]
  }

  function PathsOf(pair: Pair): set<string> {
    {pair.current, pair.previous, pair.temporary}
  }

  /** All paths of all pairs are different. */
  predicate Separate(pairs: seq<Pair>) {
    && (forall k :: 0 <= k < |pairs| ==> pairs[k].current != pairs[k].previous && pairs[k].current != pairs[k].temporary && pairs[k].previous != pairs[k].temporary)
    && forall j, k :: 0 <= j < k < |pairs| ==> PathsOf(pairs[j]) !! PathsOf(pairs[k])
  }

  /** Both paths of every pair exist and no swap temporary does. */
  predicate Ready(tree: Tree, pairs: seq<Pair>) {
    Complete(tree, pairs) && forall k :: 0 <= k < |pairs| ==> pairs[k].temporary !in tree
  }

  function Exchanged(tree: Tree, pairs: seq<Pair>): (r: Tree)
    requires Complete(tree, pairs)
    ensures r.Keys == tree.Keys
    decreases pairs
  {
    if pairs == [] then tree
    else
      var n := |pairs| - 1;
      Exchange(Exchanged(tree, pairs[..n]), pairs[n])
  }

  /** The paths of an active release with their retained predecessors. */
  function ReleasePairs(): seq<Pair> {
    [Pair("deploy", ".deploy.previous", ".deploy.rollback-swap"),
     Pair("infra", ".infra.previous", ".infra.rollback-swap"),
     Pair("web/out", "web/.out.previous", "web/.out.rollback-swap"),
     Pair("runtime/frontend-csp.caddy", "runtime/.frontend-csp.previous", "runtime/.frontend-csp.caddy.rollback-swap"),
     Pair("manage.sh", ".manage.sh.previous", ".manage.sh.rollback-swap"),
     Pair("configure-production.sh", ".configure-production.sh.previous", ".configure-production.sh.rollback-swap"),
     Pair(".release.env", ".release.env.previous", "..release.env.rollback-swap")]
  }

  // ---------------------------------------------------------------------------------------------
  // One swap

  predicate Quiet(faults: set<nat>, from: nat, to: nat) {
    forall i :: from <= i < to ==> i !in faults
  }

  predicate OneReady(tree: Tree, pair: Pair) {
    && pair.current != pair.previous && pair.current != pair.temporary && pair.previous != pair.temporary
    && pair.current in tree && pair.previous in tree && pair.temporary !in tree
  }

  /** Where the first failing rename of a swap starting at attempt `a` is: 0, 1, 2, or 3 for none. */
  function FailingStep(faults: set<nat>, a: nat): nat {
    if a in faults then 0 else if a + 1 in faults then 1 else if a + 2 in faults then 2 else 3
  }

  lemma SwapSucceeds(m: Machine, pair: Pair, faults: set<nat>)
    requires OneReady(m.tree, pair) && FailingStep(faults, m.attempts) == 3
    ensures Swap(m, pair, faults) == (Machine(Exchange(m.tree, pair), m.attempts + 3), true)
  {
    var aside := (m.tree - {pair.current})[pair.temporary := m.tree[pair.current]];
    var placed := (aside - {pair.previous})[pair.current := aside[pair.previous]];
    var kept := (placed - {pair.temporary})[pair.previous := placed[pair.temporary]];
    assert kept == Exchange(m.tree, pair);
  }

  /** A swap whose compensation meets no further fault leaves everything as it was. */
  lemma SwapCompensated(m: Machine, pair: Pair, faults: set<nat>)
    requires OneReady(m.tree, pair)
    requires var s := FailingStep(faults, m.attempts); s < 3 && Quiet(faults, m.attempts + s + 1, m.attempts + 2 * s + 1)
    ensures var s := FailingStep(faults, m.attempts); Swap(m, pair, faults) == (Machine(m.tree, m.attempts + 2 * s + 1), false)
  {
    var s := FailingStep(faults, m.attempts);
    var aside := (m.tree - {pair.current})[pair.temporary := m.tree[pair.current]];
    if s == 1 {
      var back := (aside - {pair.temporary})[pair.current := aside[pair.temporary]];
      assert back == m.tree;
    } else if s == 2 {
      var placed := (aside - {pair.previous})[pair.current := aside[pair.previous]];
      var unplaced := (placed - {pair.current})[pair.previous := placed[pair.current]];
      assert unplaced == aside;
      var back := (unplaced - {pair.temporary})[pair.current := unplaced[pair.temporary]];
      assert back == m.tree;
    }
  }

  /** A swap whose compensation fails too leaves its temporary behind, and touches only its own paths. */
  lemma SwapBroken(m: Machine, pair: Pair, faults: set<nat>)
    requires OneReady(m.tree, pair)
    requires var s := FailingStep(faults, m.attempts); s < 3 && !Quiet(faults, m.attempts + s + 1, m.attempts + 2 * s + 1)
    ensures var (broken, ok) := Swap(m, pair, faults);
            && !ok && pair.temporary in broken.tree
            && broken.attempts <= m.attempts + 2 * FailingStep(faults, m.attempts) + 1
            && forall path :: path !in PathsOf(pair) ==> (path in broken.tree <==> path in m.tree) && (path in m.tree ==> broken.tree[path] == m.tree[path])
  {
    var s := FailingStep(faults, m.attempts);
    var i :| m.attempts + s + 1 <= i < m.attempts + 2 * s + 1 && i in faults;
    assert i == m.attempts + s + 1 || (s == 2 && i == m.attempts + 4);
  }

  lemma ExchangeTwice(tree: Tree, pair: Pair)
    requires pair.current in tree && pair.previous in tree
    ensures Exchange(Exchange(tree, pair), pair) == tree
  {
  }

  // ---------------------------------------------------------------------------------------------
  // The whole rollback

  lemma ReadyAfter(tree: Tree, pairs: seq<Pair>, done: seq<Pair>, k: nat)
    requires Separate(pairs) && Ready(tree, pairs) && Complete(tree, done) && k < |pairs|
    ensures OneReady(Exchanged(tree, done), pairs[k])
  {
  }

  lemma TakeSeparate(tree: Tree, pairs: seq<Pair>, k: nat)
    requires Separate(pairs) && Ready(tree, pairs) && k <= |pairs|
    ensures Separate(pairs[..k]) && Ready(tree, pairs[..k]) && Separate(pairs[k..]) && Ready(tree, pairs[k..])
  {
  }

  lemma QuietStep(faults: set<nat>, attempts: nat, k: nat)
    requires k > 0 && Quiet(faults, attempts, attempts + 3 * k)
    ensures Quiet(faults, attempts, attempts + 3 * (k - 1)) && FailingStep(faults, attempts + 3 * (k - 1)) == 3
  {
  }

  lemma ExchangedStep(tree: Tree, pairs: seq<Pair>, k: nat)
    requires Complete(tree, pairs) && 0 < k <= |pairs|
    ensures Complete(tree, pairs[..k]) && Complete(tree, pairs[..k - 1])
    ensures pairs[k - 1].current in Exchanged(tree, pairs[..k - 1]) && pairs[k - 1].previous in Exchanged(tree, pairs[..k - 1])
    ensures Exchanged(tree, pairs[..k]) == Exchange(Exchanged(tree, pairs[..k - 1]), pairs[k - 1])
  {
    assert pairs[..k][..k - 1] == pairs[..k - 1];
  }

  lemma ReadyComplete(tree: Tree, pairs: seq<Pair>)
    requires Ready(tree, pairs)
    ensures Complete(tree, pairs)
  {
  }

  lemma ExchangedNone(tree: Tree)
    ensures Complete(tree, []) && Exchanged(tree, []) == tree
  {
  }

  lemma SwapAllStep(m: Machine, pairs: seq<Pair>, faults: set<nat>, k: nat)
    requires k < |pairs| && Swap(m, pairs[k], faults).1
    ensures var (reached, n) := SwapAll(Swap(m, pairs[k], faults).0, pairs[k + 1..], faults);
            SwapAll(m, pairs[k..], faults) == (reached, n + 1)
  {
    hide Swap;
    assert pairs[k..][1..] == pairs[k + 1..] && pairs[k..][0] == pairs[k];
  }

  /** Up to the first fault the swaps exchange one pair after the other. */
  lemma {:induction false} SwapAllReaches(m: Machine, pairs: seq<Pair>, faults: set<nat>, k: nat)
    requires Separate(pairs) && Ready(m.tree, pairs) && k <= |pairs| && Quiet(faults, m.attempts, m.attempts + 3 * k)
    ensures Complete(m.tree, pairs[..k])
    ensures var (reached, n) := SwapAll(Machine(Exchanged(m.tree, pairs[..k]), m.attempts + 3 * k), pairs[k..], faults);
            SwapAll(m, pairs, faults) == (reached, n + k)
    decreases k
  {
    hide Swap, SwapAll, Exchange, Exchanged, Quiet, FailingStep, Separate, OneReady, Ready, Complete;
    ReadyComplete(m.tree, pairs);
    if k == 0 {
      ExchangedNone(m.tree);
      assert pairs[0..] == pairs && pairs[..0] == [];
    } else {
      QuietStep(faults, m.attempts, k);
      SwapAllReaches(m, pairs, faults, k - 1);
      ExchangedStep(m.tree, pairs, k);
      var before := Machine(Exchanged(m.tree, pairs[..k - 1]), m.attempts + 3 * (k - 1));
      ReadyAfter(m.tree, pairs, pairs[..k - 1], k - 1);
      SwapSucceeds(before, pairs[k - 1], faults);
      SwapAllStep(before, pairs, faults, k - 1);
    }
  }

  /** Without a fault in the way, undoing restores the original. */
  lemma {:induction false} UndoRestores(tree: Tree, attempts: nat, pairs: seq<Pair>, faults: set<nat>)
    requires Separate(pairs) && Ready(tree, pairs) && Quiet(faults, attempts, attempts + 3 * |pairs|)
    ensures Undo(Machine(Exchanged(tree, pairs), attempts), pairs, faults) == Machine(tree, attempts + 3 * |pairs|)
    decreases pairs
  {
    hide Swap;
    if pairs != [] {
      var n := |pairs| - 1;
      ReadyAfter(tree, pairs, pairs, n);
      SwapSucceeds(Machine(Exchanged(tree, pairs), attempts), pairs[n], faults);
      ExchangeTwice(Exchanged(tree, pairs[..n]), pairs[n]);
      TakeSeparate(tree, pairs, n);
      UndoRestores(tree, attempts + 3, pairs[..n], faults);
    }
  }

  lemma {:induction false} ExchangedAt(tree: Tree, pairs: seq<Pair>, j: nat)
    requires Separate(pairs) && Complete(tree, pairs) && j < |pairs|
    ensures Exchanged(tree, pairs)[pairs[j].current] == tree[pairs[j].previous]
    ensures Exchanged(tree, pairs)[pairs[j].previous] == tree[pairs[j].current]
    decreases pairs
  {
    var n := |pairs| - 1;
    if j < n {
      assert PathsOf(pairs[j]) !! PathsOf(pairs[n]);
      ExchangedAt(tree, pairs[..n], j);
    } else {
      ExchangedElsewhere(tree, pairs[..n], pairs[n].current);
      ExchangedElsewhere(tree, pairs[..n], pairs[n].previous);
    }
  }

  lemma {:induction false} ExchangedElsewhere(tree: Tree, pairs: seq<Pair>, path: string)
    requires Complete(tree, pairs) && path in tree && forall k :: 0 <= k < |pairs| ==> path !in PathsOf(pairs[k])
    ensures Exchanged(tree, pairs)[path] == tree[path]
    decreases pairs
  {
    if pairs != [] {
      ExchangedElsewhere(tree, pairs[..|pairs| - 1], path);
    }
  }

  /** Some pair is visibly neither undone nor whole. */
  predicate Stuck(tree: Tree, result: Tree, pair: Pair)
    requires pair.previous in tree
  {
    pair.temporary in result || (pair.current in result && result[pair.current] == tree[pair.previous])
  }

  predicate SameAt(a: Tree, b: Tree, path: string) {
    (path in a <==> path in b) && (path in a ==> a[path] == b[path])
  }

  /** With a fault in the way, undoing stops and leaves a pair exchanged or broken; other paths are not touched. */
  lemma {:induction false} UndoGetsStuck(tree: Tree, attempts: nat, pairs: seq<Pair>, faults: set<nat>)
    requires Separate(pairs) && Ready(tree, pairs) && !Quiet(faults, attempts, attempts + 3 * |pairs|)
    ensures exists j :: 0 <= j < |pairs| && Stuck(tree, Undo(Machine(Exchanged(tree, pairs), attempts), pairs, faults).tree, pairs[j])
    decreases pairs
  {
    hide Swap, Exchange;
    var n := |pairs| - 1;
    var m := Machine(Exchanged(tree, pairs), attempts);
    ReadyAfter(tree, pairs, pairs, n);
    TakeSeparate(tree, pairs, n);
    var s := FailingStep(faults, attempts);
    if s == 3 {
      SwapSucceeds(m, pairs[n], faults);
      ExchangeTwice(Exchanged(tree, pairs[..n]), pairs[n]);
      assert !Quiet(faults, attempts + 3, attempts + 3 + 3 * n);
      UndoGetsStuck(tree, attempts + 3, pairs[..n], faults);
      var j :| 0 <= j < n && Stuck(tree, Undo(Machine(tree, attempts + 3).(tree := Exchanged(tree, pairs[..n])), pairs[..n], faults).tree, pairs[..n][j]);
      assert pairs[..n][j] == pairs[j];
    } else if Quiet(faults, attempts + s + 1, attempts + 2 * s + 1) {
      SwapCompensated(m, pairs[n], faults);
      ExchangedAt(tree, pairs, n);
      assert Stuck(tree, Undo(m, pairs, faults).tree, pairs[n]);
    } else {
      SwapBroken(m, pairs[n], faults);
      assert Stuck(tree, Undo(m, pairs, faults).tree, pairs[n]);
    }
  }

  /** Undoing never touches a path that is in none of its pairs. */
  lemma {:induction false} UndoElsewhere(m: Machine, pairs: seq<Pair>, faults: set<nat>, path: string)
    requires forall k :: 0 <= k < |pairs| ==> path !in PathsOf(pairs[k])
    ensures SameAt(m.tree, Undo(m, pairs, faults).tree, path)
    decreases pairs
  {
    hide Swap;
    if pairs != [] {
      var n := |pairs| - 1;
      SwapElsewhere(m, pairs[n], faults, path);
      var (next, ok) := Swap(m, pairs[n], faults);
      if ok {
        UndoElsewhere(next, pairs[..n], faults, path);
      }
    }
  }

  lemma SwapElsewhere(m: Machine, pair: Pair, faults: set<nat>, path: string)
    requires path !in PathsOf(pair)
    ensures SameAt(m.tree, Swap(m, pair, faults).0.tree, path)
  {
  }

  /** Rename `attempts + 3k + s` is the first that fails: step `s` of swap `k`. */
  predicate FirstFault(faults: set<nat>, attempts: nat, k: nat, s: nat) {
    s < 3 && attempts + 3 * k + s in faults && Quiet(faults, attempts, attempts + 3 * k + s)
  }

  /** No second rename fails while the first failure is being compensated. */
  ghost predicate Undisturbed(faults: set<nat>, attempts: nat, pairs: nat) {
    forall k: nat, s: nat :: k < pairs && FirstFault(faults, attempts, k, s) ==>
      var after := attempts + 3 * k + s + 1;
      Quiet(faults, after, after + s + 3 * k)
  }

  predicate AllOrNothing(tree: Tree, pairs: seq<Pair>, result: (Machine, bool)) {
    result.0.tree == if result.1 && Complete(tree, pairs) then Exchanged(tree, pairs) else tree
  }

  lemma FirstFaultExists(faults: set<nat>, attempts: nat, n: nat)
    requires !Quiet(faults, attempts, attempts + 3 * n)
    ensures exists k: nat, s: nat :: k < n && FirstFault(faults, attempts, k, s)
    decreases n
  {
    if Quiet(faults, attempts, attempts + 3 * (n - 1)) {
      var s := FailingStep(faults, attempts + 3 * (n - 1));
      assert FirstFault(faults, attempts, n - 1, s);
    } else {
      FirstFaultExists(faults, attempts, n - 1);
    }
  }

  lemma {:induction false} RollbackWithoutFault(m: Machine, pairs: seq<Pair>, faults: set<nat>)
    requires Separate(pairs) && Ready(m.tree, pairs) && Quiet(faults, m.attempts, m.attempts + 3 * |pairs|)
    ensures Rollback(m, pairs, faults) == (Machine(Exchanged(m.tree, pairs), m.attempts + 3 * |pairs|), true)
  {
    hide Swap, Exchanged, Quiet, Separate;
    SwapAllReaches(m, pairs, faults, |pairs|);
    assert pairs[..|pairs|] == pairs && pairs[|pairs|..] == [];
    var reached := Machine(Exchanged(m.tree, pairs), m.attempts + 3 * |pairs|);
    assert SwapAll(reached, [], faults) == (reached, 0);
    assert SwapAll(m, pairs, faults) == (reached, |pairs|);
  }

  /** The state in which the first failing swap runs, and what undoing starts from. */
  lemma RollbackAtFault(m: Machine, pairs: seq<Pair>, faults: set<nat>, k: nat, s: nat)
    requires Separate(pairs) && Ready(m.tree, pairs) && k < |pairs| && FirstFault(faults, m.attempts, k, s)
    ensures Complete(m.tree, pairs[..k])
    ensures var before := Machine(Exchanged(m.tree, pairs[..k]), m.attempts + 3 * k);
            && OneReady(before.tree, pairs[k]) && FailingStep(faults, before.attempts) == s
            && Rollback(m, pairs, faults) == (Undo(Swap(before, pairs[k], faults).0, pairs[..k], faults), false)
  {
    hide Swap, Exchange;
    SwapAllReaches(m, pairs, faults, k);
    var before := Machine(Exchanged(m.tree, pairs[..k]), m.attempts + 3 * k);
    ReadyAfter(m.tree, pairs, pairs[..k], k);
    assert pairs[k..][0] == pairs[k];
    if Quiet(faults, before.attempts + s + 1, before.attempts + 2 * s + 1) {
      SwapCompensated(before, pairs[k], faults);
    } else {
      SwapBroken(before, pairs[k], faults);
    }
  }

  lemma UndisturbedRestores(m: Machine, pairs: seq<Pair>, faults: set<nat>, k: nat, s: nat)
    requires Separate(pairs) && Ready(m.tree, pairs) && k < |pairs| && FirstFault(faults, m.attempts, k, s)
    requires var after := m.attempts + 3 * k + s + 1; Quiet(faults, after, after + s + 3 * k)
    ensures Rollback(m, pairs, faults).0.tree == m.tree && !Rollback(m, pairs, faults).1
  {
    hide Swap, Exchange, Undo;
    RollbackAtFault(m, pairs, faults, k, s);
    var before := Machine(Exchanged(m.tree, pairs[..k]), m.attempts + 3 * k);
    SwapCompensated(before, pairs[k], faults);
    TakeSeparate(m.tree, pairs, k);
    UndoRestores(m.tree, before.attempts + 2 * s + 1, pairs[..k], faults);
  }

  lemma DisturbedGetsStuck(m: Machine, pairs: seq<Pair>, faults: set<nat>, k: nat, s: nat)
    requires Separate(pairs) && Ready(m.tree, pairs) && k < |pairs| && FirstFault(faults, m.attempts, k, s)
    requires var after := m.attempts + 3 * k + s + 1; !Quiet(faults, after, after + s + 3 * k)
    ensures !Rollback(m, pairs, faults).1
    ensures exists j :: 0 <= j < |pairs| && Stuck(m.tree, Rollback(m, pairs, faults).0.tree, pairs[j])
  {
    hide Swap, Exchange, Undo;
    RollbackAtFault(m, pairs, faults, k, s);
    TakeSeparate(m.tree, pairs, k);
    var before := Machine(Exchanged(m.tree, pairs[..k]), m.attempts + 3 * k);
    var result := Rollback(m, pairs, faults).0.tree;
    if Quiet(faults, before.attempts + s + 1, before.attempts + 2 * s + 1) {
      SwapCompensated(before, pairs[k], faults);
      UndoGetsStuck(m.tree, before.attempts + 2 * s + 1, pairs[..k], faults);
      var j :| 0 <= j < k && Stuck(m.tree, result, pairs[..k][j]);
      assert pairs[..k][j] == pairs[j];
    } else {
      SwapBroken(before, pairs[k], faults);
      forall j | 0 <= j < k
        ensures pairs[k].temporary !in PathsOf(pairs[..k][j])
      {
        assert PathsOf(pairs[j]) !! PathsOf(pairs[k]);
      }
      UndoElsewhere(Swap(before, pairs[k], faults).0, pairs[..k], faults, pairs[k].temporary);
      assert Stuck(m.tree, result, pairs[k]);
    }
  }

  /**
    Rollback is all or nothing exactly when the predecessor is incomplete, and nothing moves, or no second
    rename fails while the first failure is being compensated; then also no swap temporary is left. Each
    pair must differ from its predecessor, or an exchange of it could not be seen.
   */
  lemma AllOrNothingIffUndisturbed(m: Machine, pairs: seq<Pair>, faults: set<nat>)
    requires Separate(pairs) && forall k :: 0 <= k < |pairs| ==> pairs[k].temporary !in m.tree
    requires forall k :: 0 <= k < |pairs| && pairs[k].current in m.tree && pairs[k].previous in m.tree ==>
      m.tree[pairs[k].current] != m.tree[pairs[k].previous]
    ensures AllOrNothing(m.tree, pairs, Rollback(m, pairs, faults)) <==>
            !Complete(m.tree, pairs) || Undisturbed(faults, m.attempts, |pairs|)
    ensures Rollback(m, pairs, faults).1 <==> Complete(m.tree, pairs) && Quiet(faults, m.attempts, m.attempts + 3 * |pairs|)
  {
    if !Complete(m.tree, pairs) {
      return;
    }
    hide Rollback, FirstFault, Exchanged;
    if Quiet(faults, m.attempts, m.attempts + 3 * |pairs|) {
      RollbackWithoutFault(m, pairs, faults);
      NoFirstFault(faults, m.attempts, |pairs|);
    } else {
      FirstFaultExists(faults, m.attempts, |pairs|);
      var k: nat, s: nat :| k < |pairs| && FirstFault(faults, m.attempts, k, s);
      FirstFaultUnique(faults, m.attempts, k, s);
      var after := m.attempts + 3 * k + s + 1;
      if Quiet(faults, after, after + s + 3 * k) {
        UndisturbedRestores(m, pairs, faults, k, s);
      } else {
        DisturbedGetsStuck(m, pairs, faults, k, s);
      }
    }
  }

  lemma NoFirstFault(faults: set<nat>, attempts: nat, n: nat)
    requires Quiet(faults, attempts, attempts + 3 * n)
    ensures forall k: nat, s: nat :: k < n ==> !FirstFault(faults, attempts, k, s)
  {
  }

  lemma FirstFaultUnique(faults: set<nat>, attempts: nat, k: nat, s: nat)
    requires FirstFault(faults, attempts, k, s)
    ensures forall k': nat, s': nat :: FirstFault(faults, attempts, k', s') ==> k' == k && s' == s
  {
    forall k': nat, s': nat | FirstFault(faults, attempts, k', s')
      ensures k' == k && s' == s
    {
      assert 3 * k + s == 3 * k' + s' by {
        assert !(attempts + 3 * k + s < attempts + 3 * k' + s');
        assert !(attempts + 3 * k' + s' < attempts + 3 * k + s);
      }
    }
  }

  /** One failing rename is never a disturbance. */
  lemma OneFaultIsUndisturbed(faults: set<nat>, attempts: nat, n: nat)
    requires forall i, j :: i in faults && j in faults ==> i == j
    ensures Undisturbed(faults, attempts, n)
  {
  }

  /** Two successful rollbacks are the identity. */
  lemma {:induction false} ExchangedTwice(tree: Tree, pairs: seq<Pair>)
    requires Separate(pairs) && Complete(tree, pairs)
    ensures Exchanged(Exchanged(tree, pairs), pairs) == tree
  {
    var once := Exchanged(tree, pairs);
    var twice := Exchanged(once, pairs);
    forall path | path in tree
      ensures twice[path] == tree[path]
    {
      if k :| 0 <= k < |pairs| && (path == pairs[k].current || path == pairs[k].previous) {
        ExchangedAt(tree, pairs, k);
        ExchangedAt(once, pairs, k);
      } else {
        UntouchedByAll(tree, pairs, path);
        UntouchedByAll(once, pairs, path);
      }
    }
  }

  lemma {:induction false} UntouchedByAll(tree: Tree, pairs: seq<Pair>, path: string)
    requires Complete(tree, pairs) && path in tree && forall k :: 0 <= k < |pairs| ==> path != pairs[k].current && path != pairs[k].previous
    ensures Exchanged(tree, pairs)[path] == tree[path]
    decreases pairs
  {
    if pairs != [] {
      UntouchedByAll(tree, pairs[..|pairs| - 1], path);
    }
  }

  /** A release rollback that succeeds twice gives the installed release back. */
  lemma RollbackTwice(m: Machine, pairs: seq<Pair>, faults: set<nat>)
    requires Separate(pairs) && Ready(m.tree, pairs) && Rollback(m, pairs, faults).1
    requires Rollback(Rollback(m, pairs, faults).0, pairs, faults).1
    ensures Rollback(Rollback(m, pairs, faults).0, pairs, faults).0.tree == m.tree
  {
    hide Rollback, Exchanged;
    SuccessMeansQuiet(m, pairs, faults);
    RollbackWithoutFault(m, pairs, faults);
    var once := Rollback(m, pairs, faults).0;
    assert Ready(once.tree, pairs);
    SuccessMeansQuiet(once, pairs, faults);
    RollbackWithoutFault(once, pairs, faults);
    ExchangedTwice(m.tree, pairs);
  }

  lemma SuccessMeansQuiet(m: Machine, pairs: seq<Pair>, faults: set<nat>)
    requires Separate(pairs) && Ready(m.tree, pairs) && Rollback(m, pairs, faults).1
    ensures Quiet(faults, m.attempts, m.attempts + 3 * |pairs|)
  {
    hide Rollback, FirstFault;
    if !Quiet(faults, m.attempts, m.attempts + 3 * |pairs|) {
      FirstFaultExists(faults, m.attempts, |pairs|);
      var k: nat, s: nat :| k < |pairs| && FirstFault(faults, m.attempts, k, s);
      RollbackAtFault(m, pairs, faults, k, s);
    }
  }

  lemma ReleasePairsSeparate()
    ensures Separate(ReleasePairs())
  {
    var pairs := ReleasePairs();
    forall j, k | 0 <= j < k < |pairs|
      ensures PathsOf(pairs[j]) !! PathsOf(pairs[k])
    {
    }
  }

  // ---------------------------------------------------------------------------------------------
  // Undoing a blue/green stage

  const STAGED_FRONTEND := "web/.out.next"
  const STAGED_POLICY := "runtime/.frontend-csp.next"

  /** The pairs of a staged release leave the active frontend and its policy alone. */
  function StagePairs(): seq<Pair> {
    [ReleasePairs()[0], ReleasePairs()[1], ReleasePairs()[4], ReleasePairs()[5], ReleasePairs()[6]]
  }

  /** Exchange the staged pairs and drop the staged frontend; `staged` is what the release record says. */
  function RollbackStaged(m: Machine, staged: bool, faults: set<nat>): (Machine, bool) {
    if !staged then (m, false)
    else
      var (reached, ok) := Rollback(m, StagePairs(), faults);
      if ok then (reached.(tree := reached.tree - {STAGED_FRONTEND, STAGED_POLICY}), true) else (reached, false)
  }

  lemma {:induction false} SwapAllElsewhere(m: Machine, pairs: seq<Pair>, faults: set<nat>, path: string)
    requires forall k :: 0 <= k < |pairs| ==> path !in PathsOf(pairs[k])
    ensures SameAt(m.tree, SwapAll(m, pairs, faults).0.tree, path)
    decreases pairs
  {
    hide Swap;
    if pairs != [] {
      SwapElsewhere(m, pairs[0], faults, path);
      var (next, ok) := Swap(m, pairs[0], faults);
      if ok {
        SwapAllElsewhere(next, pairs[1..], faults, path);
      }
    }
  }

  lemma RollbackElsewhere(m: Machine, pairs: seq<Pair>, faults: set<nat>, path: string)
    requires forall k :: 0 <= k < |pairs| ==> path !in PathsOf(pairs[k])
    ensures SameAt(m.tree, Rollback(m, pairs, faults).0.tree, path)
  {
    hide SwapAll, Undo;
    SwapAllElsewhere(m, pairs, faults, path);
    var (reached, n) := SwapAll(m, pairs, faults);
    UndoElsewhere(reached, pairs[..n], faults, path);
  }

  /** Whatever fails while a stage is undone, the frontend that is being served is never touched. */
  lemma StagedRollbackKeepsFrontend(m: Machine, staged: bool, faults: set<nat>, path: string)
    requires path in PathsOf(ReleasePairs()[2]) || path in PathsOf(ReleasePairs()[3])
    ensures SameAt(m.tree, RollbackStaged(m, staged, faults).0.tree, path)
  {
    hide Rollback, Separate;
    var pairs := StagePairs();
    forall k | 0 <= k < |pairs|
      ensures path !in PathsOf(pairs[k])
    {
    }
    RollbackElsewhere(m, pairs, faults, path);
    assert path != STAGED_FRONTEND && path != STAGED_POLICY;
  }

  // ---------------------------------------------------------------------------------------------
  // As the installer runs it

  class Installer {
    var machine: Machine
    const faults: set<nat>

    constructor (tree: Tree, faults: set<nat>)
      ensures machine == Machine(tree, 0) && this.faults == faults
    {
      machine := Machine(tree, 0);
      this.faults := faults;
    }

    method Replace(source: string, target: string) returns (ok: bool)
      modifies this
      ensures (machine, ok) == Rename(old(machine), source, target, faults)
    {
      var failing := machine.attempts in faults;
      machine := machine.(attempts := machine.attempts + 1);
      if failing || source !in machine.tree || target in machine.tree {
        return false;
      }
      var tree := machine.tree;
      machine := machine.(tree := (tree - {source})[target := tree[source]]);
      return true;
    }

    method SwapWithPrevious(pair: Pair) returns (ok: bool)
      modifies this
      ensures (machine, ok) == Swap(old(machine), pair, faults)
    {
      hide Rename;
      if pair.current !in machine.tree || pair.previous !in machine.tree || pair.temporary in machine.tree {
        return false;
      }
      ok := Replace(pair.current, pair.temporary);
      if !ok {
        return;
      }
      var previousMoved := Replace(pair.previous, pair.current);
      if previousMoved {
        ok := Replace(pair.temporary, pair.previous);
        if ok {
          return;
        }
      }
      ok := false;
      if previousMoved && pair.current in machine.tree && pair.previous !in machine.tree {
        var unplaced := Replace(pair.current, pair.previous);
        if !unplaced {
          return;
        }
      }
      if pair.current !in machine.tree && pair.temporary in machine.tree {
        var back := Replace(pair.temporary, pair.current);
      }
    }

    /** Exchange the completed pairs back, last one first, up to the first failure. */
    method UndoCompleted(completed: seq<Pair>)
      modifies this
      ensures machine == Undo(old(machine), completed, faults)
    {
      hide Swap;
      ghost var reached := machine;
      var j := |completed|;
      assert completed[..j] == completed;
      while j > 0
        invariant 0 <= j <= |completed|
        invariant Undo(reached, completed, faults) == Undo(machine, completed[..j], faults)
      {
        assert completed[..j][..j - 1] == completed[..j - 1] && completed[..j][j - 1] == completed[j - 1];
        var undone := SwapWithPrevious(completed[j - 1]);
        if !undone {
          return;
        }
        j := j - 1;
      }
    }

    /** Exchange every pair, or exchange the completed ones back in reverse order. */
    method RollbackRelease(pairs: seq<Pair>) returns (ok: bool)
      modifies this
      ensures (machine, ok) == Rollback(old(machine), pairs, faults)
    {
      hide Swap, Undo;
      if exists k :: 0 <= k < |pairs| && (pairs[k].current !in machine.tree || pairs[k].previous !in machine.tree) {
        return false;
      }
      ghost var start := machine;
      var completed: seq<Pair> := [];
      var i := 0;
      ok := true;
      while i < |pairs|
        invariant 0 <= i <= |pairs| && completed == pairs[..i]
        invariant SwapAll(start, pairs, faults) == var (m, n) := SwapAll(machine, pairs[i..], faults); (m, n + i)
      {
        assert pairs[i..][0] == pairs[i] && pairs[i..][1..] == pairs[i + 1..];
        ok := SwapWithPrevious(pairs[i]);
        if !ok {
          break;
        }
        completed := completed + [pairs[i]];
        i := i + 1;
      }
      if i == |pairs| {
        assert pairs[i..] == [];
        return true;
      }
      UndoCompleted(completed);
      return false;
    }
  }
}
