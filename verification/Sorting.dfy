/** Stable insertion sort by an arbitrary order, and what a sorted sequence keeps of the original. */
module Sorting {
  ghost predicate TotalPreorder<T(!new)>(before: (T, T) -> bool) {
    && (forall x, y :: before(x, y) || before(y, x))
    && (forall x, y, z :: before(x, y) && before(y, z) ==> before(x, z))
  }

  predicate Sorted<T>(s: seq<T>, before: (T, T) -> bool) {
    forall i, j :: 0 <= i < j < |s| ==> before(s[i], s[j])
  }

  function Insert<T>(x: T, s: seq<T>, before: (T, T) -> bool): seq<T> {
    if s == [] || before(x, s[0]) then [x] + s else [s[0]] + Insert(x, s[1..], before)
  }

  function Sort<T>(s: seq<T>, before: (T, T) -> bool): seq<T> {
    if s == [] then [] else Insert(s[0], Sort(s[1..], before), before)
  }

  lemma {:induction false} InsertElements<T>(x: T, s: seq<T>, before: (T, T) -> bool)
    ensures multiset(Insert(x, s, before)) == multiset{x} + multiset(s)
  {
    if s != [] && !before(x, s[0]) {
      InsertElements(x, s[1..], before);
      assert s == [s[0]] + s[1..];
    }
  }

  lemma {:induction false} SortElements<T>(s: seq<T>, before: (T, T) -> bool)
    ensures multiset(Sort(s, before)) == multiset(s)
    ensures |Sort(s, before)| == |s|
  {
    if s != [] {
      SortElements(s[1..], before);
      InsertElements(s[0], Sort(s[1..], before), before);
      assert s == [s[0]] + s[1..];
    }
    assert |multiset(Sort(s, before))| == |Sort(s, before)|;
  }

  lemma {:induction false} InsertSorted<T(!new)>(x: T, s: seq<T>, before: (T, T) -> bool)
    requires TotalPreorder(before) && Sorted(s, before)
    ensures Sorted(Insert(x, s, before), before)
  {
    if s != [] {
      if before(x, s[0]) {
        assert forall k :: 0 <= k < |s| ==> before(x, s[k]);
      } else {
        InsertSorted(x, s[1..], before);
        InsertElements(x, s[1..], before);
        var rest := Insert(x, s[1..], before);
        forall k | 0 <= k < |rest|
          ensures before(s[0], rest[k])
        {
          assert rest[k] in multiset(rest);
          assert rest[k] == x || rest[k] in s[1..];
        }
      }
    }
  }

  lemma {:induction false} SortSorted<T(!new)>(s: seq<T>, before: (T, T) -> bool)
    requires TotalPreorder(before)
    ensures Sorted(Sort(s, before), before)
  {
    if s != [] {
      SortSorted(s[1..], before);
      InsertSorted(s[0], Sort(s[1..], before), before);
    }
  }

  /** Every two entries are related, whichever of them comes first. */
  predicate Pairwise<T>(s: seq<T>, related: (T, T) -> bool) {
    forall i, j :: 0 <= i < j < |s| ==> related(s[i], s[j]) || related(s[j], s[i])
  }

  predicate RelatedToAll<T>(x: T, s: seq<T>, related: (T, T) -> bool) {
    forall k :: 0 <= k < |s| ==> related(x, s[k]) || related(s[k], x)
  }

  lemma PairwiseCons<T>(x: T, s: seq<T>, related: (T, T) -> bool)
    ensures Pairwise([x] + s, related) <==> Pairwise(s, related) && RelatedToAll(x, s, related)
  {
    var t := [x] + s;
    if Pairwise(t, related) {
      forall i, j | 0 <= i < j < |s|
        ensures related(s[i], s[j]) || related(s[j], s[i])
      {
        assert t[i + 1] == s[i] && t[j + 1] == s[j];
      }
      forall k | 0 <= k < |s|
        ensures related(x, s[k]) || related(s[k], x)
      {
        assert t[0] == x && t[k + 1] == s[k];
      }
    }
  }

  lemma RelatedToElements<T>(x: T, s: seq<T>, t: seq<T>, related: (T, T) -> bool)
    requires multiset(s) == multiset(t)
    requires RelatedToAll(x, s, related)
    ensures RelatedToAll(x, t, related)
  {
    forall k | 0 <= k < |t|
      ensures related(x, t[k]) || related(t[k], x)
    {
      assert t[k] in multiset(t);
      assert t[k] in s;
    }
  }

  lemma RelatedToAllCons<T>(x: T, y: T, s: seq<T>, related: (T, T) -> bool)
    ensures RelatedToAll(x, [y] + s, related) <==> (related(x, y) || related(y, x)) && RelatedToAll(x, s, related)
  {
    if RelatedToAll(x, [y] + s, related) {
      assert ([y] + s)[0] == y;
      forall k | 0 <= k < |s|
        ensures related(x, s[k]) || related(s[k], x)
      {
        assert ([y] + s)[k + 1] == s[k];
      }
    }
  }

  lemma {:induction false} PairwiseInsert<T>(x: T, s: seq<T>, before: (T, T) -> bool, related: (T, T) -> bool)
    ensures Pairwise(Insert(x, s, before), related) <==> Pairwise([x] + s, related)
  {
    hide Pairwise, RelatedToAll;
    PairwiseCons(x, s, related);
    if s != [] && !before(x, s[0]) {
      var rest := Insert(x, s[1..], before);
      PairwiseInsert(x, s[1..], before, related);
      InsertElements(x, s[1..], before);
      PairwiseCons(s[0], rest, related);
      PairwiseCons(x, s[1..], related);
      PairwiseCons(s[0], s[1..], related);
      assert s == [s[0]] + s[1..];
      assert multiset([x] + s[1..]) == multiset(rest);
      RelatedToAllCons(s[0], x, s[1..], related);
      RelatedToAllCons(x, s[0], s[1..], related);
      if RelatedToAll(s[0], rest, related) {
        RelatedToElements(s[0], rest, [x] + s[1..], related);
      }
      if RelatedToAll(s[0], [x] + s[1..], related) {
        RelatedToElements(s[0], [x] + s[1..], rest, related);
      }
    }
  }

  /** Sorting does not change whether all pairs are related. */
  lemma {:induction false} PairwiseSort<T>(s: seq<T>, before: (T, T) -> bool, related: (T, T) -> bool)
    ensures Pairwise(Sort(s, before), related) <==> Pairwise(s, related)
  {
    hide Pairwise, RelatedToAll;
    if s != [] {
      PairwiseSort(s[1..], before, related);
      PairwiseInsert(s[0], Sort(s[1..], before), before, related);
      PairwiseCons(s[0], Sort(s[1..], before), related);
      PairwiseCons(s[0], s[1..], related);
      SortElements(s[1..], before);
      assert s == [s[0]] + s[1..];
      if RelatedToAll(s[0], s[1..], related) {
        RelatedToElements(s[0], s[1..], Sort(s[1..], before), related);
      }
      if RelatedToAll(s[0], Sort(s[1..], before), related) {
        RelatedToElements(s[0], Sort(s[1..], before), s[1..], related);
      }
    }
  }

  /** The images of the chosen entries, in order. */
  function Select<A, B>(s: seq<A>, chosen: A -> bool, image: A -> B): seq<B> {
    if s == [] then []
    else Select(s[..|s| - 1], chosen, image) + if chosen(s[|s| - 1]) then [image(s[|s| - 1])] else []
  }

  predicate Related<B>(x: B, y: B, related: (B, B) -> bool) {
    related(x, y) || related(y, x)
  }

  /** Every chosen entry is related to `x`. */
  predicate ChosenRelated<A, B>(s: seq<A>, x: B, chosen: A -> bool, image: A -> B, related: (B, B) -> bool) {
    forall i :: 0 <= i < |s| && chosen(s[i]) ==> Related(x, image(s[i]), related)
  }

  lemma ChosenRelatedSnoc<A, B>(s: seq<A>, x: B, chosen: A -> bool, image: A -> B, related: (B, B) -> bool)
    requires s != []
    ensures var n := |s| - 1;
            ChosenRelated(s, x, chosen, image, related) <==>
              ChosenRelated(s[..n], x, chosen, image, related) && (chosen(s[n]) ==> Related(x, image(s[n]), related))
  {
    hide Related;
    assert forall i :: 0 <= i < |s| - 1 ==> s[..|s| - 1][i] == s[i];
  }

  lemma {:induction false} SelectRelated<A, B>(s: seq<A>, x: B, chosen: A -> bool, image: A -> B, related: (B, B) -> bool)
    ensures RelatedToAll(x, Select(s, chosen, image), related) <==> ChosenRelated(s, x, chosen, image, related)
  {
    if s != [] {
      hide RelatedToAll, Related, ChosenRelated;
      var n := |s| - 1;
      var shorter := Select(s[..n], chosen, image);
      SelectRelated(s[..n], x, chosen, image, related);
      ChosenRelatedSnoc(s, x, chosen, image, related);
      if chosen(s[n]) {
        RelatedToAllSnoc(x, shorter, image(s[n]), related);
      } else {
        assert shorter + [] == shorter;
      }
    }
  }

  lemma RelatedToAllSnoc<T>(x: T, s: seq<T>, y: T, related: (T, T) -> bool)
    ensures RelatedToAll(x, s + [y], related) <==> Related(x, y, related) && RelatedToAll(x, s, related)
  {
    var t := s + [y];
    assert t[|s|] == y;
    assert forall k :: 0 <= k < |s| ==> t[k] == s[k];
  }

  lemma PairwiseSnoc<T>(s: seq<T>, x: T, related: (T, T) -> bool)
    ensures Pairwise(s + [x], related) <==> Pairwise(s, related) && RelatedToAll(x, s, related)
  {
    var t := s + [x];
    assert t[|s|] == x;
    assert forall k :: 0 <= k < |s| ==> t[k] == s[k];
    if Pairwise(t, related) {
      forall i, j | 0 <= i < j < |s|
        ensures related(s[i], s[j]) || related(s[j], s[i])
      {
        assert t[i] == s[i] && t[j] == s[j];
      }
      forall k | 0 <= k < |s|
        ensures related(x, s[k]) || related(s[k], x)
      {
        assert t[k] == s[k] && t[|s|] == x;
      }
    }
  }

  /** All pairs of chosen entries are related. */
  predicate ChosenPairs<A, B>(s: seq<A>, chosen: A -> bool, image: A -> B, related: (B, B) -> bool) {
    forall i, j :: 0 <= i < j < |s| && chosen(s[i]) && chosen(s[j]) ==> Related(image(s[i]), image(s[j]), related)
  }

  lemma ChosenPairsSnoc<A, B>(s: seq<A>, chosen: A -> bool, image: A -> B, related: (B, B) -> bool)
    requires s != []
    ensures var n := |s| - 1;
            ChosenPairs(s, chosen, image, related) <==>
              && ChosenPairs(s[..n], chosen, image, related)
              && (chosen(s[n]) ==> ChosenRelated(s[..n], image(s[n]), chosen, image, related))
  {
    var n := |s| - 1;
    assert forall i :: 0 <= i < n ==> s[..n][i] == s[i];
    if ChosenPairs(s, chosen, image, related) {
      forall i, j | 0 <= i < j < n && chosen(s[..n][i]) && chosen(s[..n][j])
        ensures Related(image(s[..n][i]), image(s[..n][j]), related)
      {
        assert Related(image(s[i]), image(s[j]), related);
      }
      forall i | 0 <= i < n && chosen(s[n]) && chosen(s[..n][i])
        ensures Related(image(s[n]), image(s[..n][i]), related)
      {
        assert Related(image(s[i]), image(s[n]), related);
      }
    }
    if ChosenPairs(s[..n], chosen, image, related) && (chosen(s[n]) ==> ChosenRelated(s[..n], image(s[n]), chosen, image, related)) {
      forall i, j | 0 <= i < j < |s| && chosen(s[i]) && chosen(s[j])
        ensures Related(image(s[i]), image(s[j]), related)
      {
        if j < n {
          assert Related(image(s[..n][i]), image(s[..n][j]), related);
        } else {
          assert Related(image(s[n]), image(s[..n][i]), related);
        }
      }
    }
  }

  /** Comparing all pairs of the selection is comparing all pairs of chosen entries. */
  lemma {:induction false} SelectPairs<A, B>(s: seq<A>, chosen: A -> bool, image: A -> B, related: (B, B) -> bool)
    ensures Pairwise(Select(s, chosen, image), related) <==> ChosenPairs(s, chosen, image, related)
  {
    hide Pairwise, RelatedToAll, ChosenPairs, Related;
    if s == [] {
      NoPairs(s, chosen, image, related);
    } else {
      var n := |s| - 1;
      var shorter := Select(s[..n], chosen, image);
      SelectPairs(s[..n], chosen, image, related);
      ChosenPairsSnoc(s, chosen, image, related);
      if chosen(s[n]) {
        SelectRelated(s[..n], image(s[n]), chosen, image, related);
        PairwiseSnoc(shorter, image(s[n]), related);
      } else {
        assert shorter + [] == shorter;
      }
    }
  }

  lemma NoPairs<A, B>(s: seq<A>, chosen: A -> bool, image: A -> B, related: (B, B) -> bool)
    requires s == []
    ensures Pairwise(Select(s, chosen, image), related) && ChosenPairs(s, chosen, image, related)
  {
  }

  lemma {:induction false} SelectMembers<A, B>(s: seq<A>, chosen: A -> bool, image: A -> B)
    ensures forall x :: x in Select(s, chosen, image) ==> exists i :: 0 <= i < |s| && chosen(s[i]) && image(s[i]) == x
  {
    if s != [] {
      var n := |s| - 1;
      SelectMembers(s[..n], chosen, image);
      forall x | x in Select(s, chosen, image)
        ensures exists i :: 0 <= i < |s| && chosen(s[i]) && image(s[i]) == x
      {
        if x in Select(s[..n], chosen, image) {
          var i :| 0 <= i < n && chosen(s[..n][i]) && image(s[..n][i]) == x;
          assert s[i] == s[..n][i];
        } else {
          assert chosen(s[n]) && image(s[n]) == x;
        }
      }
    }
  }

  // ---------------------------------------------------------------------------------------------
  // The order of texts by code point

  predicate TextBefore(a: string, b: string) {
    a == [] || (b != [] && (a[0] < b[0] || (a[0] == b[0] && TextBefore(a[1..], b[1..]))))
  }

  lemma {:induction false} TextTotal(a: string, b: string)
    ensures TextBefore(a, b) || TextBefore(b, a)
    ensures TextBefore(a, b) && TextBefore(b, a) ==> a == b
  {
    if a != [] && b != [] {
      TextTotal(a[1..], b[1..]);
      assert a == [a[0]] + a[1..] && b == [b[0]] + b[1..];
    }
  }

  lemma {:induction false} TextTransitive(a: string, b: string, c: string)
    requires TextBefore(a, b) && TextBefore(b, c)
    ensures TextBefore(a, c)
  {
    if a != [] && a[0] == b[0] == c[0] {
      TextTransitive(a[1..], b[1..], c[1..]);
    }
  }

  lemma TextOrder()
    ensures TotalPreorder(TextBefore)
  {
    forall x, y
      ensures TextBefore(x, y) || TextBefore(y, x)
    {
      TextTotal(x, y);
    }
    forall x, y, z | TextBefore(x, y) && TextBefore(y, z)
      ensures TextBefore(x, z)
    {
      TextTransitive(x, y, z);
    }
  }

  /** Every element once. */
  predicate Distinct<T(==)>(s: seq<T>) {
    forall i, j :: 0 <= i < j < |s| ==> s[i] != s[j]
  }

  lemma {:induction false} CountAtMost<T>(s: seq<T>, x: T)
    requires Distinct(s)
    ensures multiset(s)[x] <= 1
  {
    if s != [] {
      var n := |s| - 1;
      CountAtMost(s[..n], x);
      assert s == s[..n] + [s[n]];
      if s[n] == x {
        assert x !in s[..n];
        assert x !in multiset(s[..n]);
      }
    }
  }

  lemma CountRepeated<T>(s: seq<T>, i: nat, j: nat)
    requires i < j < |s| && s[i] == s[j]
    ensures multiset(s)[s[i]] >= 2
  {
    assert s == s[..j] + s[j..];
    assert s[i] in s[..j] && s[j] in s[j..];
    assert s[i] in multiset(s[..j]) && s[j] in multiset(s[j..]);
    assert multiset(s) == multiset(s[..j]) + multiset(s[j..]);
  }

  lemma SortDistinct<T>(s: seq<T>, before: (T, T) -> bool)
    requires Distinct(s)
    ensures Distinct(Sort(s, before))
    ensures forall x :: x in Sort(s, before) <==> x in s
  {
    SortElements(s, before);
    forall i, j | 0 <= i < j < |Sort(s, before)|
      ensures Sort(s, before)[i] != Sort(s, before)[j]
    {
      CountAtMost(s, Sort(s, before)[i]);
      if Sort(s, before)[i] == Sort(s, before)[j] {
        CountRepeated(Sort(s, before), i, j);
      }
    }
    forall x
      ensures x in Sort(s, before) <==> x in s
    {
      assert x in Sort(s, before) <==> x in multiset(Sort(s, before));
      assert x in s <==> x in multiset(s);
    }
  }

  /** Strictly increasing texts: each one once, in code-point order. */
  predicate Ascending(texts: seq<string>) {
    forall i, j :: 0 <= i < j < |texts| ==> TextBefore(texts[i], texts[j]) && texts[i] != texts[j]
  }

  lemma {:induction false} ListTexts(texts: set<string>) returns (listed: seq<string>)
    ensures Distinct(listed) && forall x :: x in listed <==> x in texts
    decreases |texts|
  {
    if texts == {} {
      listed := [];
    } else {
      var x :| x in texts;
      var rest := ListTexts(texts - {x});
      listed := rest + [x];
      forall i, j | 0 <= i < j < |listed|
        ensures listed[i] != listed[j]
      {
        assert listed[i] in rest;
      }
    }
  }

  /** Every set of texts can be listed in ascending order. */
  lemma ListAscending(texts: set<string>) returns (sorted: seq<string>)
    ensures Ascending(sorted) && forall x :: x in sorted <==> x in texts
  {
    var listed := ListTexts(texts);
    sorted := Sort(listed, TextBefore);
    TextOrder();
    SortSorted(listed, TextBefore);
    SortDistinct(listed, TextBefore);
  }

  method SortedTexts(texts: set<string>) returns (sorted: seq<string>)
    ensures Ascending(sorted)
    ensures (set x | x in sorted) == texts
  {
    var listed: seq<string>, rest := [], texts;
    while rest != {}
      invariant rest <= texts
      invariant forall x :: x in listed <==> x in texts - rest
      invariant Distinct(listed)
      decreases |rest|
    {
      var x :| x in rest;
      forall k | 0 <= k < |listed|
        ensures listed[k] != x
      {
        assert listed[k] in listed;
      }
      listed, rest := listed + [x], rest - {x};
    }
    sorted := Sort(listed, TextBefore);
    TextOrder();
    SortSorted(listed, TextBefore);
    SortDistinct(listed, TextBefore);
  }
}
