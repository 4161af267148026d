/** Creating a bundle from an evidence home, and the round trip through verification. */
module BundleCreation {
  import opened Wrappers
  import opened EvidenceManifest
  import opened EvidenceBundle
  import Sorting

  /** An evidence home as a directory listing gives it. */
  predicate CleanHome(home: Files) {
    forall place :: place in home ==> Listed(place)
  }

  /** The part of an evidence home that a bundle carries. */
  function Included(home: Files): Files
    requires CleanHome(home)
  {
    map place | place in home && place[0] in INCLUDED_ROOTS :: home[place]
  }

  function PathsOf(files: Files): set<string> {
    set place | place in files :: Join(place, '/')
  }

  function RowsFor(paths: seq<string>, files: Files, codec: Codec): seq<FileRow>
    requires forall k :: 0 <= k < |paths| ==> Place(paths[k]) in files
  {
    seq(|paths|, k requires 0 <= k < |paths| =>
      FileRow(paths[k], codec.sha256(files[Place(paths[k])]), |files[Place(paths[k])]|))
  }

  function MembersFor(paths: seq<string>, files: Files): map<string, string>
    requires forall k :: 0 <= k < |paths| ==> Place(paths[k]) in files
  {
    map path | path in paths :: files[Place(path)]
  }

  /** The checks that depend on the evidence alone: a signed chain, controller trust and artifacts. */
  predicate EvidenceOk(files: Files, codec: Codec) {
    && var ledger := codec.ledger(files);
    && ChainOk(ledger, codec.instanceKey(files))
    && Plain(ledger[0].record.instanceId)
    && Plain(ledger[0].record.chainId)
    && TrustOk(files, ledger[0].record.instanceId, codec)
    && ArtifactsOk(files, codec)
  }

  function ManifestFor(rows: seq<FileRow>, files: Files, createdAt: nat, codec: Codec): Manifest
    requires codec.ledger(files) != []
    requires TrustOk(files, codec.ledger(files)[0].record.instanceId, codec)
  {
    var chain := Summary(codec.ledger(files));
    var current := CurrentStatement(files, chain.instanceId, codec);
    var head := DigestText(chain.head, codec);
    var trust := CurrentBinding(files, codec);
    var id := BundleId(Identity(current.controllerId, chain.instanceId, chain.chainId, head, trust, rows, codec));
    Manifest(id, createdAt, chain.instanceId, current.controllerId, current.controllerKey, current.instanceKey,
             trust, chain.chainId, head, chain.records, rows)
  }

  /** The paths of a clean directory lead back to its places, one each. */
  lemma PathsLeadBack(files: Files, paths: seq<string>)
    requires CleanHome(files) && (set path | path in paths) == PathsOf(files) && Sorting.Distinct(paths)
    ensures forall k :: 0 <= k < |paths| ==> Place(paths[k]) in files && Join(Place(paths[k]), '/') == paths[k]
    ensures forall place :: place in files ==> Join(place, '/') in paths && Place(Join(place, '/')) == place
  {
    forall k | 0 <= k < |paths|
      ensures Place(paths[k]) in files && Join(Place(paths[k]), '/') == paths[k]
    {
      assert paths[k] in PathsOf(files);
      var place :| place in files && paths[k] == Join(place, '/');
      PlaceOfJoin(place);
    }
    forall place | place in files
      ensures Join(place, '/') in paths && Place(Join(place, '/')) == place
    {
      PlaceOfJoin(place);
      assert Join(place, '/') in PathsOf(files);
    }
  }

  /** Extracting rows that lead to different places puts every member in its own place. */
  lemma {:induction false} ExtractedPlaces(rows: seq<FileRow>, members: map<string, string>)
    requires forall k :: 0 <= k < |rows| ==> rows[k].path in members
    requires forall j, k :: 0 <= j < k < |rows| ==> Place(rows[j].path) != Place(rows[k].path)
    ensures forall k :: 0 <= k < |rows| ==>
      Place(rows[k].path) in Extracted(rows, members) && Extracted(rows, members)[Place(rows[k].path)] == members[rows[k].path]
    ensures forall place :: place in Extracted(rows, members) ==> exists k :: 0 <= k < |rows| && Place(rows[k].path) == place
  {
    hide Place;
    if rows != [] {
      var n := |rows| - 1;
      ExtractedPlaces(rows[..n], members);
      assert forall k :: 0 <= k < n ==> rows[..n][k] == rows[k];
      forall place | place in Extracted(rows, members)
        ensures exists k :: 0 <= k < |rows| && Place(rows[k].path) == place
      {
        if place != Place(rows[n].path) {
          var k :| 0 <= k < n && Place(rows[..n][k].path) == place;
          assert rows[k] == rows[..n][k];
        }
      }
    }
  }

  lemma {:induction false} ExtractedIs(rows: seq<FileRow>, members: map<string, string>, files: Files)
    requires forall k :: 0 <= k < |rows| ==> rows[k].path in members
    requires forall j, k :: 0 <= j < k < |rows| ==> Place(rows[j].path) != Place(rows[k].path)
    requires forall k :: 0 <= k < |rows| ==> Place(rows[k].path) in files && files[Place(rows[k].path)] == members[rows[k].path]
    requires forall place :: place in files ==> exists k :: 0 <= k < |rows| && Place(rows[k].path) == place
    ensures Extracted(rows, members) == files
  {
    hide Place, Extracted;
    ExtractedPlaces(rows, members);
  }

  lemma RowsAndMembers(paths: seq<string>, files: Files, codec: Codec)
    requires forall k :: 0 <= k < |paths| ==> Place(paths[k]) in files
    ensures var rows, members := RowsFor(paths, files, codec), MembersFor(paths, files);
            && |rows| == |paths|
            && forall k :: 0 <= k < |rows| ==>
              rows[k].path == paths[k] && rows[k].path in members && members[rows[k].path] == files[Place(rows[k].path)]
  {
    hide Place;
  }

  /** Packing a clean directory and extracting it gives the same directory back. */
  lemma PackedExtracts(files: Files, paths: seq<string>, codec: Codec)
    requires CleanHome(files) && (set path | path in paths) == PathsOf(files) && Sorting.Distinct(paths)
    ensures forall k :: 0 <= k < |paths| ==> Place(paths[k]) in files
    ensures forall k :: 0 <= k < |paths| ==> paths[k] in MembersFor(paths, files)
    ensures Extracted(RowsFor(paths, files, codec), MembersFor(paths, files)) == files
  {
    PathsLeadBack(files, paths);
    RowsAndMembers(paths, files, codec);
    hide Place, Join, Extracted, PathsOf, CleanHome, RowsFor;
    var rows, members := RowsFor(paths, files, codec), MembersFor(paths, files);
    forall j, k | 0 <= j < k < |rows|
      ensures Place(rows[j].path) != Place(rows[k].path)
    {
      assert Join(Place(paths[j]), '/') == paths[j] && Join(Place(paths[k]), '/') == paths[k];
    }
    forall place | place in files
      ensures exists k :: 0 <= k < |rows| && Place(rows[k].path) == place
    {
      assert Join(place, '/') in paths;
      var k :| 0 <= k < |paths| && paths[k] == Join(place, '/');
      assert Place(rows[k].path) == place;
    }
    ExtractedIs(rows, members, files);
  }

  lemma PackedRowsOk(files: Files, paths: seq<string>, manifest: Manifest, codec: Codec)
    requires CleanHome(files) && files != map[] && (set path | path in paths) == PathsOf(files) && Sorting.Distinct(paths)
    requires forall place :: place in files ==> place[0] in INCLUDED_ROOTS
    requires forall k :: 0 <= k < |paths| ==> Place(paths[k]) in files
    requires manifest.rows == RowsFor(paths, files, codec)
    ensures RowsOk(Bundle(manifest, MembersFor(paths, files)), codec)
    ensures Directory(Bundle(manifest, MembersFor(paths, files)), codec) == files
  {
    hide Place, Join, EvidencePath, Extracted, PathsOf;
    PathsLeadBack(files, paths);
    PackedExtracts(files, paths, codec);
    var rows, members := manifest.rows, MembersFor(paths, files);
    forall k | 0 <= k < |rows|
      ensures RowOk(rows, members, k, codec)
    {
      PlaceOfJoin(Place(paths[k]));
      assert rows[k] == FileRow(paths[k], codec.sha256(files[Place(paths[k])]), |files[Place(paths[k])]|);
      assert paths[k] in paths && members[paths[k]] == files[Place(paths[k])];
      assert forall j :: 0 <= j < k ==> rows[j].path == paths[j] != paths[k];
    }
    var place :| place in files;
    assert Join(place, '/') in paths;
    forall name | name in members
      ensures exists k :: 0 <= k < |rows| && rows[k].path == name
    {
      var k :| 0 <= k < |paths| && paths[k] == name;
      assert rows[k].path == name;
    }
    assert RowsOk(Bundle(manifest, members), codec);
  }

  /** A packed directory verifies exactly when its evidence does, and verification recovers it. */
  lemma PackedVerifies(files: Files, paths: seq<string>, createdAt: nat, codec: Codec)
    requires CleanHome(files) && files != map[] && (set path | path in paths) == PathsOf(files) && Sorting.Distinct(paths)
    requires forall place :: place in files ==> place[0] in INCLUDED_ROOTS
    requires forall k :: 0 <= k < |paths| ==> Place(paths[k]) in files
    requires codec.ledger(files) != [] && TrustOk(files, codec.ledger(files)[0].record.instanceId, codec)
    ensures var bundle := Bundle(ManifestFor(RowsFor(paths, files, codec), files, createdAt, codec), MembersFor(paths, files));
            && (BundleOk(bundle, codec) <==> EvidenceOk(files, codec))
            && (BundleOk(bundle, codec) ==> Directory(bundle, codec) == files)
  {
    hide TrustOk, ArtifactsOk, ChainOk, RowsOk, Directory, CurrentStatement, CurrentBinding, RowsFor, MembersFor, PathsOf, CleanHome, Plain;
    var manifest := ManifestFor(RowsFor(paths, files, codec), files, createdAt, codec);
    PackedRowsOk(files, paths, manifest, codec);
  }

  /**
    Create a bundle. It succeeds exactly when the evidence verifies, its rows are in strictly
    ascending path order, and verifying it recovers the included files of the home.
   */
  method CreateBundle(home: Files, codec: Codec) returns (r: Result<Bundle, BundleError>)
    requires CleanHome(home)
    ensures r.Success? <==> EvidenceOk(Included(home), codec)
    ensures r.Success? ==> BundleOk(r.value, codec) && Directory(r.value, codec) == Included(home)
    ensures r.Success? ==> forall i, j :: 0 <= i < j < |r.value.manifest.rows| ==>
      Sorting.TextBefore(r.value.manifest.rows[i].path, r.value.manifest.rows[j].path)
    ensures r.Success? ==> r.value.manifest.createdAt == LatestRecord(codec.ledger(Included(home))).createdAt
  {
    hide TrustOk, ArtifactsOk, RowsOk, Directory, CurrentStatement, CurrentBinding, Plain, BundleOk, Place, Join, EvidencePath;
    var files := Included(home);
    var ledger := new Ledger(codec.instanceKey(files));
    ledger.files := codec.ledger(files);
    var chain := ledger.VerifyChain();
    if chain.Failure? {
      return Failure(BrokenLedger);
    }
    var trust := VerifyArchiveTrust(files, chain.value.instanceId, codec);
    if trust.Failure? {
      return Failure(UntrustedController);
    }
    TrustNeedsFiles(files, chain.value.instanceId, codec);
    var paths := Sorting.SortedTexts(PathsOf(files));
    PathsLeadBack(files, paths);
    var rows := RowsFor(paths, files, codec);
    var manifest := ManifestFor(rows, files, LatestRecord(ledger.files).createdAt, codec);
    var bundle := Bundle(manifest, MembersFor(paths, files));
    PackedVerifies(files, paths, manifest.createdAt, codec);
    var summary := VerifyBundle(bundle, None, None, codec);
    if summary.Failure? {
      return Failure(summary.error);
    }
    return Success(bundle);
  }

  function LatestRecord(ledger: seq<LedgerFile>): Record
    requires ledger != []
  {
    ledger[|ledger| - 1].record
  }

  lemma TrustNeedsFiles(files: Files, instanceId: Identifier, codec: Codec)
    requires TrustOk(files, instanceId, codec)
    ensures files != map[]
  {
    var digest := CurrentBinding(files, codec);
    assert digest in Bindings(codec.ledger(files));
    assert StatementOk(files, digest, instanceId, codec.instanceKey(files), codec);
  }
}
