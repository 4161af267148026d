/**
  The bundle-only archive: verifying all of its bundles and their lineage, and deciding whether one
  proposed revision may be ingested.
 */
module ArchiveRepository {
  import opened Counting
  import opened Wrappers
  import opened EvidenceManifest
  import opened EvidenceBundle
  import opened BundleTheorems
  import ArchiveIngestion
  import Sorting

  /** One bundle directory: the two identities in its path, the bundle, and the text of its receipt. */
  datatype Entry = Entry(instanceId: string, bundleId: BundleId, bundle: Bundle, receipt: Option<string>)

  datatype ArchiveError = UndeclaredFiles | MissingFiles | InvalidBundle | WrongIdentity | WrongReceipt | SeveralControllers | CompetingBundles | RollbackOrFork

  datatype ArchiveSummary = ArchiveSummary(controllerId: Option<string>, instances: nat, bundles: nat)

  predicate EntryOk(entry: Entry, codec: Codec) {
    && BundleOk(entry.bundle, codec)
    && entry.bundle.manifest.instanceId == entry.instanceId
    && entry.bundle.manifest.bundleId == entry.bundleId
    && entry.receipt == Some(codec.sha256(codec.packed(entry.bundle)) + "  evidence.bundle\n")
  }

  predicate EntriesOk(entries: seq<Entry>, codec: Codec) {
    forall k :: 0 <= k < |entries| ==> EntryOk(entries[k], codec)
  }

  predicate OneController(entries: seq<Entry>) {
    forall i, j :: 0 <= i < |entries| && 0 <= j < |entries| ==>
      entries[i].bundle.manifest.controllerId == entries[j].bundle.manifest.controllerId
  }

  /** What verification reports about an entry's bundle; of a bundle that fails, only what its manifest says. */
  function Reported(entry: Entry, codec: Codec): BundleSummary {
    var m := entry.bundle.manifest;
    if BundleOk(entry.bundle, codec) then SummaryOf(entry.bundle, codec)
    else BundleSummary(m.bundleId, m.controllerId, m.instanceId, m.chainId, m.headSha256, m.recordCount, [], 0)
  }

  function FiledUnder(instanceId: string): Entry -> bool {
    (entry: Entry) => entry.instanceId == instanceId
  }

  function Reporter(codec: Codec): Entry -> BundleSummary {
    (entry: Entry) => Reported(entry, codec)
  }

  /** The summaries of one instance's bundles, in path order. */
  function OfInstance(entries: seq<Entry>, instanceId: string, codec: Codec): seq<BundleSummary> {
    Sorting.Select(entries, FiledUnder(instanceId), Reporter(codec))
  }

  predicate ByCount(a: BundleSummary, b: BundleSummary) {
    a.recordCount <= b.recordCount
  }

  /** The check between two neighbours: fewer records, and a head that the later bundle contains. */
  predicate Precedes(a: BundleSummary, b: BundleSummary) {
    a.recordCount < b.recordCount && a.headSha256 in b.recordSha256s
  }

  predicate NeighboursOk(ordered: seq<BundleSummary>) {
    forall k :: 0 <= k < |ordered| - 1 ==> Precedes(ordered[k], ordered[k + 1])
  }

  predicate LineageOk(entries: seq<Entry>, instanceId: string, codec: Codec) {
    NeighboursOk(Sorting.Sort(OfInstance(entries, instanceId, codec), ByCount))
  }

  predicate RepositoryOk(files: set<ArchiveIngestion.ArchivePath>, entries: seq<Entry>, codec: Codec) {
    && ArchiveIngestion.Declared(files)
    && EntriesOk(entries, codec)
    && OneController(entries)
    && forall k :: 0 <= k < |entries| ==> LineageOk(entries, entries[k].instanceId, codec)
  }

  method CheckLineage(summaries: seq<BundleSummary>) returns (r: Result<(), ArchiveError>)
    ensures r.Success? <==> NeighboursOk(Sorting.Sort(summaries, ByCount))
  {
    var ordered := Sorting.Sort(summaries, ByCount);
    var seenCounts: set<nat> := {};
    for i := 0 to |ordered|
      invariant seenCounts == set k | 0 <= k < i :: ordered[k].recordCount
      invariant forall j, k :: 0 <= j < k < i ==> ordered[j].recordCount != ordered[k].recordCount
    {
      if ordered[i].recordCount in seenCounts {
        RepeatedCountFails(summaries, i);
        return Failure(CompetingBundles);
      }
      seenCounts := seenCounts + {ordered[i].recordCount};
    }
    var n := if ordered == [] then 0 else |ordered| - 1;
    for i := 0 to n
      invariant forall k :: 0 <= k < i ==> Precedes(ordered[k], ordered[k + 1])
    {
      var previous, current := ordered[i], ordered[i + 1];
      if previous.recordCount >= current.recordCount || previous.headSha256 !in current.recordSha256s {
        return Failure(RollbackOrFork);
      }
    }
    return Success(());
  }

  lemma {:induction false} CountsAscend(ordered: seq<BundleSummary>, i: nat, j: nat)
    requires NeighboursOk(ordered) && i < j < |ordered|
    ensures ordered[i].recordCount < ordered[j].recordCount
  {
    if i < j - 1 {
      CountsAscend(ordered, i, j - 1);
    }
    assert Precedes(ordered[j - 1], ordered[j]);
  }

  /** A repeated record count is a broken neighbour check somewhere. */
  lemma RepeatedCountFails(summaries: seq<BundleSummary>, i: nat)
    requires var ordered := Sorting.Sort(summaries, ByCount);
             i < |ordered| && exists k :: 0 <= k < i && ordered[k].recordCount == ordered[i].recordCount
    ensures !NeighboursOk(Sorting.Sort(summaries, ByCount))
  {
    var ordered := Sorting.Sort(summaries, ByCount);
    var k :| 0 <= k < i && ordered[k].recordCount == ordered[i].recordCount;
    if NeighboursOk(ordered) {
      CountsAscend(ordered, k, i);
    }
  }

  method VerifyEntry(entry: Entry, codec: Codec) returns (r: Result<BundleSummary, ArchiveError>)
    ensures r.Success? <==> EntryOk(entry, codec)
    ensures r.Success? ==> r.value == Reported(entry, codec)
    ensures r.Success? ==> r.value.controllerId == entry.bundle.manifest.controllerId
  {
    hide BundleOk;
    var verified := VerifyBundle(entry.bundle, None, None, codec);
    if verified.Failure? {
      return Failure(InvalidBundle);
    }
    var summary := verified.value;
    if summary.instanceId != entry.instanceId || summary.bundleId != entry.bundleId {
      return Failure(WrongIdentity);
    }
    var expected := codec.sha256(codec.packed(entry.bundle)) + "  evidence.bundle\n";
    if entry.receipt != Some(expected) {
      return Failure(WrongReceipt);
    }
    return Success(summary);
  }

  lemma OfInstanceSnoc(entries: seq<Entry>, i: nat, instanceId: string, codec: Codec)
    requires i < |entries|
    ensures OfInstance(entries[..i + 1], instanceId, codec) ==
      OfInstance(entries[..i], instanceId, codec) + if entries[i].instanceId == instanceId then [Reported(entries[i], codec)] else []
  {
    hide Reported;
    assert entries[..i + 1][..i] == entries[..i];
  }

  /** The summaries of the first `n` entries, grouped by instance. */
  ghost predicate Grouped(instances: map<string, seq<BundleSummary>>, entries: seq<Entry>, n: nat, codec: Codec)
    requires n <= |entries|
  {
    forall id :: OfInstance(entries[..n], id, codec) == if id in instances then instances[id] else []
  }

  lemma GroupedSnoc(instances: map<string, seq<BundleSummary>>, entries: seq<Entry>, n: nat, codec: Codec)
    requires n < |entries| && Grouped(instances, entries, n, codec)
    ensures var id := entries[n].instanceId;
            Grouped(instances[id := (if id in instances then instances[id] else []) + [Reported(entries[n], codec)]], entries, n + 1, codec)
  {
    hide OfInstance, Reported;
    forall id
      ensures OfInstance(entries[..n + 1], id, codec) ==
        OfInstance(entries[..n], id, codec) + if entries[n].instanceId == id then [Reported(entries[n], codec)] else []
    {
      OfInstanceSnoc(entries, n, id, codec);
    }
  }

  lemma GroupedNone(entries: seq<Entry>, codec: Codec)
    ensures Grouped(map[], entries, 0, codec)
  {
  }

  lemma GroupedAll(instances: map<string, seq<BundleSummary>>, entries: seq<Entry>, codec: Codec)
    requires Grouped(instances, entries, |entries|, codec)
    ensures forall id :: id in instances ==> instances[id] == OfInstance(entries, id, codec)
  {
    hide OfInstance;
    assert entries[..|entries|] == entries;
  }

  /** Verify each bundle and group the summaries by instance. */
  method VerifyEntries(entries: seq<Entry>, codec: Codec)
    returns (r: Result<(set<string>, map<string, seq<BundleSummary>>), ArchiveError>)
    ensures r.Success? <==> EntriesOk(entries, codec)
    ensures r.Success? ==> r.value.0 == set k | 0 <= k < |entries| :: entries[k].bundle.manifest.controllerId
    ensures r.Success? ==> r.value.1.Keys == set k | 0 <= k < |entries| :: entries[k].instanceId
    ensures r.Success? ==> forall id :: id in r.value.1 ==> r.value.1[id] == OfInstance(entries, id, codec)
  {
    hide EntryOk, Reported, Grouped, OfInstance;
    GroupedNone(entries, codec);
    var controllers: set<string>, instances: map<string, seq<BundleSummary>> := {}, map[];
    for i := 0 to |entries|
      invariant forall k :: 0 <= k < i ==> EntryOk(entries[k], codec)
      invariant controllers == set k | 0 <= k < i :: entries[k].bundle.manifest.controllerId
      invariant instances.Keys == set k | 0 <= k < i :: entries[k].instanceId
      invariant Grouped(instances, entries, i, codec)
    {
      var entry := entries[i];
      var verified := VerifyEntry(entry, codec);
      if verified.Failure? {
        return Failure(verified.error);
      }
      var summary := verified.value;
      GroupedSnoc(instances, entries, i, codec);
      controllers := controllers + {summary.controllerId};
      var known := if entry.instanceId in instances then instances[entry.instanceId] else [];
      instances := instances[entry.instanceId := known + [summary]];
    }
    GroupedAll(instances, entries, codec);
    return Success((controllers, instances));
  }

  /** Whether the distinct controllers of the entries are at most one. */
  lemma ControllerCount(entries: seq<Entry>, controllers: set<string>)
    requires controllers == set k | 0 <= k < |entries| :: entries[k].bundle.manifest.controllerId
    ensures |controllers| <= 1 <==> OneController(entries)
  {
    if entries == [] {
      assert controllers == {};
    } else {
      var first := entries[0].bundle.manifest.controllerId;
      assert first in controllers;
      if OneController(entries) {
        assert controllers == {first};
      } else {
        var i, j :| 0 <= i < |entries| && 0 <= j < |entries|
          && entries[i].bundle.manifest.controllerId != entries[j].bundle.manifest.controllerId;
        var pair := {entries[i].bundle.manifest.controllerId, entries[j].bundle.manifest.controllerId};
        assert pair <= controllers;
        SubsetCount(pair, controllers);
      }
    }
  }

  method VerifyRepository(files: set<ArchiveIngestion.ArchivePath>, entries: seq<Entry>, codec: Codec)
    returns (r: Result<ArchiveSummary, ArchiveError>)
    ensures r.Success? <==> RepositoryOk(files, entries, codec)
    ensures r.Success? ==> r.value.bundles == |entries|
    ensures r.Success? ==> r.value.instances == |set k | 0 <= k < |entries| :: entries[k].instanceId|
    ensures r.Success? ==> forall k :: 0 <= k < |entries| ==> r.value.controllerId == Some(entries[k].bundle.manifest.controllerId)
  {
    hide EntryOk, NeighboursOk, Sorting.Sort, OfInstance, ArchiveIngestion.StaticFiles, ArchiveIngestion.Declared;
    ArchiveIngestion.DeclaredChecks(files);
    if exists path | path in files :: path !in ArchiveIngestion.StaticFiles() && path.OtherPath? {
      return Failure(UndeclaredFiles);
    }
    if ArchiveIngestion.StaticFiles() - files != {} {
      return Failure(MissingFiles);
    }
    var verified := VerifyEntries(entries, codec);
    if verified.Failure? {
      return Failure(verified.error);
    }
    var (controllers, instances) := verified.value;
    ControllerCount(entries, controllers);
    if |controllers| > 1 {
      return Failure(SeveralControllers);
    }
    var pending := instances.Keys;
    while pending != {}
      invariant pending <= instances.Keys
      invariant forall id :: id in instances.Keys - pending ==> LineageOk(entries, id, codec)
      decreases |pending|
    {
      var instanceId :| instanceId in pending;
      var lineage := CheckLineage(instances[instanceId]);
      if lineage.Failure? {
        return Failure(lineage.error);
      }
      pending := pending - {instanceId};
    }
    var controllerId: Option<string> := None;
    if entries != [] {
      controllerId := Some(entries[0].bundle.manifest.controllerId);
    }
    return Success(ArchiveSummary(controllerId, |instances.Keys|, |entries|));
  }

  // ---------------------------------------------------------------------------------------------
  // From the neighbour check to a total order by strict prefix

  /** What summaries of accepted bundles satisfy among each other. */
  ghost predicate Coherent(a: BundleSummary, b: BundleSummary) {
    && a.recordCount == |a.recordSha256s|
    && (a.headSha256 in b.recordSha256s <==> a.recordSha256s <= b.recordSha256s)
  }

  ghost predicate AllCoherent(s: seq<BundleSummary>) {
    forall a, b :: a in s && b in s ==> Coherent(a, b)
  }

  lemma PrefixText(a: Bundle, b: Bundle, codec: Codec)
    requires Ideal(codec) && BundleOk(a, codec) && BundleOk(b, codec)
    ensures SummaryOf(a, codec).recordSha256s <= SummaryOf(b, codec).recordSha256s
            <==> Records(codec.ledger(Directory(a, codec))) <= Records(codec.ledger(Directory(b, codec)))
  {
    hide RowsOk, TrustOk, ArtifactsOk, Directory, ChainOk, Plain, IdentityOf, ManifestOk, References;
    var ledgerA, ledgerB := codec.ledger(Directory(a, codec)), codec.ledger(Directory(b, codec));
    var textA, textB := RecordDigests(ledgerA, codec), RecordDigests(ledgerB, codec);
    if |ledgerA| <= |ledgerB| {
      forall k | 0 <= k < |ledgerA|
        ensures textA[k] == textB[k] <==> Records(ledgerA)[k] == Records(ledgerB)[k]
      {
      }
    }
  }

  lemma SummariesCoherent(a: Bundle, b: Bundle, codec: Codec)
    requires Ideal(codec) && BundleOk(a, codec) && BundleOk(b, codec)
    ensures Coherent(SummaryOf(a, codec), SummaryOf(b, codec))
  {
    hide RowsOk, TrustOk, ArtifactsOk, Directory, CurrentStatement, CurrentBinding, Plain, IdentityOf, References;
    PrefixText(a, b, codec);
    HeadOccursMeansCarried(a, b, codec);
  }

  lemma {:induction false} NeighboursPrecede(ordered: seq<BundleSummary>, i: nat, j: nat)
    requires AllCoherent(ordered) && NeighboursOk(ordered) && i < j < |ordered|
    ensures Precedes(ordered[i], ordered[j])
  {
    assert Precedes(ordered[j - 1], ordered[j]);
    if i < j - 1 {
      NeighboursPrecede(ordered, i, j - 1);
      assert Coherent(ordered[i], ordered[j - 1]) && Coherent(ordered[j - 1], ordered[j]) && Coherent(ordered[i], ordered[j]);
    }
  }

  /** Checking neighbours in count order is the same as comparing every pair in any order. */
  lemma NeighboursSuffice(s: seq<BundleSummary>)
    requires AllCoherent(s)
    ensures NeighboursOk(Sorting.Sort(s, ByCount)) <==> Sorting.Pairwise(s, Precedes)
  {
    var ordered := Sorting.Sort(s, ByCount);
    Sorting.SortElements(s, ByCount);
    Sorting.SortSorted(s, ByCount);
    Sorting.PairwiseSort(s, ByCount, Precedes);
    forall x | x in ordered
      ensures x in s
    {
      assert x in multiset(ordered);
    }
    if NeighboursOk(ordered) {
      forall i, j | 0 <= i < j < |ordered|
        ensures Precedes(ordered[i], ordered[j])
      {
        NeighboursPrecede(ordered, i, j);
      }
    }
    if Sorting.Pairwise(ordered, Precedes) {
      forall k | 0 <= k < |ordered| - 1
        ensures Precedes(ordered[k], ordered[k + 1])
      {
        assert ByCount(ordered[k], ordered[k + 1]);
      }
    }
  }

  function RecordsOf(entry: Entry, codec: Codec): seq<Record>
    requires EntryOk(entry, codec)
  {
    Records(codec.ledger(Directory(entry.bundle, codec)))
  }

  predicate Comparable(entries: seq<Entry>, i: nat, j: nat, codec: Codec)
    requires i < |entries| && j < |entries| && EntryOk(entries[i], codec) && EntryOk(entries[j], codec)
  {
    RecordsOf(entries[i], codec) < RecordsOf(entries[j], codec) || RecordsOf(entries[j], codec) < RecordsOf(entries[i], codec)
  }

  lemma PrecedesIffPrefix(a: Entry, b: Entry, codec: Codec)
    requires Ideal(codec) && EntryOk(a, codec) && EntryOk(b, codec)
    ensures Precedes(SummaryOf(a.bundle, codec), SummaryOf(b.bundle, codec)) <==> RecordsOf(a, codec) < RecordsOf(b, codec)
  {
    hide BundleOk, Directory, Plain, References;
    SummariesCoherent(a.bundle, b.bundle, codec);
    SummariesCoherent(b.bundle, a.bundle, codec);
    PrefixText(a.bundle, b.bundle, codec);
    PrefixText(b.bundle, a.bundle, codec);
    SummaryCounts(a.bundle, codec);
    SummaryCounts(b.bundle, codec);
  }

  lemma SummaryCounts(bundle: Bundle, codec: Codec)
    requires BundleOk(bundle, codec)
    ensures SummaryOf(bundle, codec).recordCount == |Records(codec.ledger(Directory(bundle, codec)))| == |SummaryOf(bundle, codec).recordSha256s|
  {
    hide RowsOk, TrustOk, ArtifactsOk, Directory, CurrentStatement, CurrentBinding, Plain, IdentityOf, References;
  }

  /**
    The archive verifier accepts exactly the archives that hold the declared files, whose bundles are all valid and filed under
    their own identity, that have one controller, and in which any two bundles of one instance are
    strict prefixes one of the other: no fork and no rollback, for all pairs and not only neighbours.
   */
  lemma AcceptedIffOrderedByPrefix(files: set<ArchiveIngestion.ArchivePath>, entries: seq<Entry>, codec: Codec)
    requires Ideal(codec)
    ensures RepositoryOk(files, entries, codec) <==>
      && ArchiveIngestion.Declared(files)
      && EntriesOk(entries, codec)
      && OneController(entries)
      && forall i, j :: 0 <= i < j < |entries| && entries[i].instanceId == entries[j].instanceId ==> Comparable(entries, i, j, codec)
  {
    hide ArchiveIngestion.Declared;
    if EntriesOk(entries, codec) {
      hide EntryOk, RecordsOf, Precedes, OfInstance, Sorting.Pairwise, Sorting.Sort;
      forall k | 0 <= k < |entries|
        ensures LineageOk(entries, entries[k].instanceId, codec) <==>
          forall i, j :: 0 <= i < j < |entries| && entries[i].instanceId == entries[j].instanceId == entries[k].instanceId ==> Comparable(entries, i, j, codec)
      {
        LineageComparable(entries, entries[k].instanceId, codec);
      }
      if forall k :: 0 <= k < |entries| ==> LineageOk(entries, entries[k].instanceId, codec) {
        forall i, j | 0 <= i < j < |entries| && entries[i].instanceId == entries[j].instanceId
          ensures Comparable(entries, i, j, codec)
        {
          assert LineageOk(entries, entries[i].instanceId, codec);
        }
      }
    }
  }

  lemma PairComparable(entries: seq<Entry>, i: nat, j: nat, codec: Codec)
    requires Ideal(codec) && EntriesOk(entries, codec) && i < |entries| && j < |entries|
    ensures EntryOk(entries[i], codec) && EntryOk(entries[j], codec)
    ensures Sorting.Related(Reporter(codec)(entries[i]), Reporter(codec)(entries[j]), Precedes) <==> Comparable(entries, i, j, codec)
  {
    assert EntryOk(entries[i], codec) && EntryOk(entries[j], codec);
    hide SummaryOf, RecordsOf, Precedes, EntryOk, Reported;
    EntryBundle(entries[i], codec);
    EntryBundle(entries[j], codec);
    PrecedesIffPrefix(entries[i], entries[j], codec);
    PrecedesIffPrefix(entries[j], entries[i], codec);
  }

  lemma LineageComparable(entries: seq<Entry>, instanceId: string, codec: Codec)
    requires Ideal(codec) && EntriesOk(entries, codec)
    ensures LineageOk(entries, instanceId, codec) <==>
      forall i, j :: 0 <= i < j < |entries| && entries[i].instanceId == entries[j].instanceId == instanceId ==> Comparable(entries, i, j, codec)
  {
    hide EntryOk, Comparable, Precedes, Reporter, AllCoherent, NeighboursOk, Sorting.Related, Sorting.Pairwise, Sorting.Select, Sorting.Sort;
    OfInstanceCoherent(entries, instanceId, codec);
    NeighboursSuffice(OfInstance(entries, instanceId, codec));
    Sorting.SelectPairs(entries, FiledUnder(instanceId), Reporter(codec), Precedes);
    forall i, j | 0 <= i < |entries| && 0 <= j < |entries|
      ensures Sorting.Related(Reporter(codec)(entries[i]), Reporter(codec)(entries[j]), Precedes) <==> Comparable(entries, i, j, codec)
    {
      PairComparable(entries, i, j, codec);
    }
  }

  lemma OfInstanceCoherent(entries: seq<Entry>, instanceId: string, codec: Codec)
    requires Ideal(codec) && EntriesOk(entries, codec)
    ensures AllCoherent(OfInstance(entries, instanceId, codec))
  {
    var s := OfInstance(entries, instanceId, codec);
    Sorting.SelectMembers(entries, FiledUnder(instanceId), Reporter(codec));
    forall a, b | a in s && b in s
      ensures Coherent(a, b)
    {
      hide EntryOk, SummaryOf, Coherent, Reported, Sorting.Select;
      var i :| 0 <= i < |entries| && FiledUnder(instanceId)(entries[i]) && Reporter(codec)(entries[i]) == a;
      var j :| 0 <= j < |entries| && FiledUnder(instanceId)(entries[j]) && Reporter(codec)(entries[j]) == b;
      assert EntryOk(entries[i], codec) && EntryOk(entries[j], codec);
      EntryBundle(entries[i], codec);
      EntryBundle(entries[j], codec);
      SummariesCoherent(entries[i].bundle, entries[j].bundle, codec);
    }
  }

  lemma EntryBundle(entry: Entry, codec: Codec)
    requires EntryOk(entry, codec)
    ensures BundleOk(entry.bundle, codec) && Reporter(codec)(entry) == SummaryOf(entry.bundle, codec)
  {
    hide BundleOk, SummaryOf;
  }

  lemma ComparableCarries(a: Entry, b: Entry, codec: Codec)
    requires Ideal(codec) && EntryOk(a, codec) && EntryOk(b, codec)
    requires RecordsOf(a, codec) < RecordsOf(b, codec)
    ensures a.bundle.manifest.recordCount < b.bundle.manifest.recordCount
    ensures Carried(Directory(a.bundle, codec), Directory(b.bundle, codec), codec)
  {
    hide Carried, Directory, RowsOk, TrustOk, ArtifactsOk, ChainOk, CurrentStatement, CurrentBinding, Plain, IdentityOf, References;
    SummaryCounts(a.bundle, codec);
    SummaryCounts(b.bundle, codec);
    HeadOccursMeansCarried(a.bundle, b.bundle, codec);
  }

  /** In an accepted archive the longer of two bundles of an instance carries all evidence of the shorter. */
  lemma LongerBundleCarriesShorter(files: set<ArchiveIngestion.ArchivePath>, entries: seq<Entry>, i: nat, j: nat, codec: Codec)
    requires Ideal(codec) && RepositoryOk(files, entries, codec)
    requires i < |entries| && j < |entries| && i != j && entries[i].instanceId == entries[j].instanceId
    requires entries[i].bundle.manifest.recordCount <= entries[j].bundle.manifest.recordCount
    ensures BundleOk(entries[i].bundle, codec) && BundleOk(entries[j].bundle, codec)
    ensures entries[i].bundle.manifest.recordCount < entries[j].bundle.manifest.recordCount
    ensures Carried(Directory(entries[i].bundle, codec), Directory(entries[j].bundle, codec), codec)
  {
    AcceptedIffOrderedByPrefix(files, entries, codec);
    assert EntryOk(entries[i], codec) && EntryOk(entries[j], codec);
    hide EntryOk, BundleOk, Directory, Carried, RecordsOf, OneController, LineageOk, Reporter;
    EntryBundle(entries[i], codec);
    EntryBundle(entries[j], codec);
    assert if i < j then Comparable(entries, i, j, codec) else Comparable(entries, j, i, codec);
    if RecordsOf(entries[i], codec) < RecordsOf(entries[j], codec) {
      ComparableCarries(entries[i], entries[j], codec);
    } else {
      ComparableCarries(entries[j], entries[i], codec);
    }
  }
}
