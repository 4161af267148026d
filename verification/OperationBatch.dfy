/** The canonical form of a batch of protection operations. */
module OperationBatch {
  import opened Wrappers
  import Sorting

  datatype Marker = Marker(operationId: string, sequence: nat, operationType: string, resourceType: string, resourceId: Option<string>)

  datatype Entry = Entry(marker: Marker, assertion: Option<string>)

  datatype BatchError = InvalidList | DuplicatedMarker

  const BATCH_LIMIT := 100

  predicate BySequence(a: Entry, b: Entry) {
    a.marker.sequence <= b.marker.sequence
  }

  predicate Unique(entries: seq<Entry>) {
    forall i, j :: 0 <= i < j < |entries| ==>
      entries[i].marker.operationId != entries[j].marker.operationId && entries[i].marker.sequence != entries[j].marker.sequence
  }

  /** No list at all is an empty batch; a list must hold 1 to 100 entries with unique ids and sequences. */
  function Normalised(value: Option<seq<Entry>>): Result<seq<Entry>, BatchError> {
    if value.None? then Success([])
    else if value.value == [] || |value.value| > BATCH_LIMIT then Failure(InvalidList)
    else if !Unique(value.value) then Failure(DuplicatedMarker)
    else Success(Sorting.Sort(value.value, BySequence))
  }

  method NormaliseOperations(value: Option<seq<Entry>>) returns (r: Result<seq<Entry>, BatchError>)
    ensures r == Normalised(value)
  {
    if value.None? {
      return Success([]);
    }
    var items := value.value;
    if items == [] || |items| > BATCH_LIMIT {
      return Failure(InvalidList);
    }
    var result: seq<Entry>, seenIds: set<string>, seenSequences: set<nat> := [], {}, {};
    for i := 0 to |items|
      invariant result == items[..i] && Unique(items[..i])
      invariant seenIds == set k | 0 <= k < i :: items[k].marker.operationId
      invariant seenSequences == set k | 0 <= k < i :: items[k].marker.sequence
    {
      var marker := items[i].marker;
      if marker.operationId in seenIds || marker.sequence in seenSequences {
        assert !Unique(items);
        return Failure(DuplicatedMarker);
      }
      seenIds, seenSequences := seenIds + {marker.operationId}, seenSequences + {marker.sequence};
      result := result + [items[i]];
    }
    assert items[..|items|] == items;
    return Success(Sorting.Sort(result, BySequence));
  }

  /** Strictly ascending by mutation sequence. */
  predicate Canonical(entries: seq<Entry>) {
    forall i, j :: 0 <= i < j < |entries| ==> entries[i].marker.sequence < entries[j].marker.sequence
  }

  lemma UniqueSorted(entries: seq<Entry>)
    requires Unique(entries)
    ensures Canonical(Sorting.Sort(entries, BySequence)) && multiset(Sorting.Sort(entries, BySequence)) == multiset(entries)
    ensures Unique(Sorting.Sort(entries, BySequence))
  {
    var sorted := Sorting.Sort(entries, BySequence);
    Sorting.SortElements(entries, BySequence);
    Sorting.SortSorted(entries, BySequence);
    assert Sorting.Distinct(entries);
    Sorting.SortDistinct(entries, BySequence);
    hide Sorting.Sort;
    forall i, j | 0 <= i < j < |sorted|
      ensures sorted[i].marker.sequence < sorted[j].marker.sequence
      ensures sorted[i].marker.operationId != sorted[j].marker.operationId
    {
      assert sorted[i] in sorted && sorted[j] in sorted;
      assert sorted[i] in entries && sorted[j] in entries && sorted[i] != sorted[j];
      assert BySequence(sorted[i], sorted[j]);
    }
  }

  lemma Cancelled(x: Entry, a: multiset<Entry>, b: multiset<Entry>)
    requires multiset{x} + a == multiset{x} + b
    ensures a == b
  {
    forall y
      ensures a[y] == b[y]
    {
      assert (multiset{x} + a)[y] == (multiset{x} + b)[y];
    }
  }

  /** A strictly ascending list is determined by its entries. */
  lemma {:induction false} CanonicalDetermined(a: seq<Entry>, b: seq<Entry>)
    requires Canonical(a) && Canonical(b) && multiset(a) == multiset(b)
    ensures a == b
    decreases a
  {
    if a == [] {
      assert |multiset(b)| == |b|;
    } else {
      assert a[0] in multiset(b);
      assert b != [];
      assert b[0] in multiset(a);
      assert a[0] in b && b[0] in a;
      assert a[0] == b[0];
      assert a == [a[0]] + a[1..] && b == [a[0]] + b[1..];
      assert multiset(a) == multiset{a[0]} + multiset(a[1..]);
      assert multiset(b) == multiset{a[0]} + multiset(b[1..]);
      Cancelled(a[0], multiset(a[1..]), multiset(b[1..]));
      CanonicalDetermined(a[1..], b[1..]);
    }
  }

  /**
    A normalised batch is strictly ascending, holds exactly the given entries, and is a fixed point;
    and the order in which the entries were given makes no difference.
   */
  lemma NormalisedIsCanonical(value: seq<Entry>, other: seq<Entry>)
    requires Normalised(Some(value)).Success?
    ensures var batch := Normalised(Some(value)).value;
            && Canonical(batch) && multiset(batch) == multiset(value)
            && Normalised(Some(batch)) == Success(batch)
    ensures multiset(other) == multiset(value) ==> Normalised(Some(other)) == Normalised(Some(value))
  {
    var batch := Normalised(Some(value)).value;
    UniqueSorted(value);
    assert |batch| == |multiset(batch)| == |value|;
    UniqueSorted(batch);
    CanonicalDetermined(Sorting.Sort(batch, BySequence), batch);
    if multiset(other) == multiset(value) {
      assert |other| == |multiset(other)| == |value|;
      PermutedUnique(value, other);
      UniqueSorted(other);
      CanonicalDetermined(Sorting.Sort(other, BySequence), batch);
    }
  }

  lemma PermutedUnique(value: seq<Entry>, other: seq<Entry>)
    requires Unique(value) && multiset(value) == multiset(other)
    ensures Unique(other)
  {
    forall i, j | 0 <= i < j < |other|
      ensures other[i].marker.operationId != other[j].marker.operationId && other[i].marker.sequence != other[j].marker.sequence
    {
      assert other[i] in multiset(other) && other[j] in multiset(other);
      assert other[i] in value && other[j] in value;
      if other[i] == other[j] {
        Sorting.CountRepeated(other, i, j);
        assert Sorting.Distinct(value);
        Sorting.CountAtMost(value, other[i]);
      }
    }
  }

  /** The absent list is the one input whose normal form is not a fixed point. */
  lemma AbsentIsNotFixed()
    ensures Normalised(None) == Success([]) && Normalised(Some([])).Failure?
  {
  }
}
