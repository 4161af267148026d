/** What a verified bundle's identity and chain head bind. */
module BundleTheorems {
  import opened Wrappers
  import opened EvidenceManifest
  import opened EvidenceBundle

  /** Everything in the manifest except its time of creation. */
  function Untimed(bundle: Bundle): Bundle {
    bundle.(manifest := bundle.manifest.(createdAt := 0))
  }

  lemma IdentityParts(a: Manifest, b: Manifest, codec: Codec)
    requires Ideal(codec)
    requires forall m :: m in {a, b} ==> Plain(m.controllerId) && Plain(m.instanceId) && Plain(m.chainId) && Plain(m.headSha256) && Plain(m.trustSha256)
    requires IdentityOf(a, codec) == IdentityOf(b, codec)
    ensures a.controllerId == b.controllerId && a.instanceId == b.instanceId && a.chainId == b.chainId
    ensures a.headSha256 == b.headSha256 && a.trustSha256 == b.trustSha256 && a.rows == b.rows
  {
    hide Join, Split;
    var rowsA, rowsB := codec.sha256(codec.rendered(a.rows)), codec.sha256(codec.rendered(b.rows));
    var partsA: seq<string> := [a.controllerId, a.instanceId, a.chainId, a.headSha256, a.trustSha256, rowsA];
    var partsB: seq<string> := [b.controllerId, b.instanceId, b.chainId, b.headSha256, b.trustSha256, rowsB];
    assert a in {a, b} && b in {a, b};
    assert Plain(rowsA) && Plain(rowsB);
    SplitJoin(partsA, '|');
    SplitJoin(partsB, '|');
    assert partsA == partsB;
    assert partsA[0] == partsB[0] && partsA[1] == partsB[1] && partsA[2] == partsB[2];
    assert partsA[3] == partsB[3] && partsA[4] == partsB[4] && partsA[5] == partsB[5];
  }

  lemma RowsFixMembers(a: Bundle, b: Bundle, codec: Codec)
    requires Ideal(codec) && RowsOk(a, codec) && RowsOk(b, codec) && a.manifest.rows == b.manifest.rows
    ensures a.members == b.members
  {
    var rows := a.manifest.rows;
    forall name | name in a.members || name in b.members
      ensures name in a.members && name in b.members && a.members[name] == b.members[name]
    {
      var k :| 0 <= k < |rows| && rows[k].path == name;
      assert RowOk(rows, a.members, k, codec) && RowOk(rows, b.members, k, codec);
    }
  }

  /** The current statement of a directory is determined by the directory's current binding. */
  lemma BindingFixesStatement(a: Files, b: Files, digest: string, instanceA: Identifier, instanceB: Identifier, codec: Codec)
    requires Ideal(codec)
    requires StatementOk(a, digest, instanceA, codec.instanceKey(a), codec)
    requires StatementOk(b, digest, instanceB, codec.instanceKey(b), codec)
    ensures a[JsonPlace("archive-trust", digest)] == b[JsonPlace("archive-trust", digest)]
    ensures instanceA == instanceB && codec.instanceKey(a) == codec.instanceKey(b)
  {
  }

  lemma AcceptedIsPlain(bundle: Bundle, codec: Codec)
    requires Ideal(codec) && BundleOk(bundle, codec)
    ensures Plain(bundle.manifest.controllerId) && Plain(bundle.manifest.headSha256) && Plain(bundle.manifest.trustSha256)
  {
    hide RowsOk, ArtifactsOk, ChainOk, Plain, IdentityOf;
    var files := Directory(bundle, codec);
    var digest := CurrentBinding(files, codec);
    assert StatementOk(files, digest, bundle.manifest.instanceId, codec.instanceKey(files), codec);
  }

  lemma TimeIsFree(bundle: Bundle, createdAt: nat, codec: Codec)
    requires BundleOk(bundle, codec)
    ensures BundleOk(bundle.(manifest := bundle.manifest.(createdAt := createdAt)), codec)
  {
    hide ChainOk, TrustOk, ArtifactsOk, Plain, Extracted, CurrentStatement, CurrentBinding;
    var retimed := bundle.(manifest := bundle.manifest.(createdAt := createdAt));
    assert RowsOk(retimed, codec) by {
      assert forall k :: 0 <= k < |bundle.manifest.rows| ==> RowOk(bundle.manifest.rows, bundle.members, k, codec);
    }
    assert Directory(retimed, codec) == Directory(bundle, codec);
    assert IdentityOf(retimed.manifest, codec) == IdentityOf(bundle.manifest, codec);
  }

  /** Two accepted bundles share an id exactly when they agree on everything except their time of creation. */
  lemma BundleIdBinds(a: Bundle, b: Bundle, codec: Codec)
    requires Ideal(codec) && BundleOk(a, codec) && BundleOk(b, codec)
    ensures a.manifest.bundleId == b.manifest.bundleId <==> Untimed(a) == Untimed(b)
  {
    if a.manifest.bundleId == b.manifest.bundleId {
      AcceptedIsPlain(a, codec);
      AcceptedIsPlain(b, codec);
      hide RowsOk, ArtifactsOk, ChainOk, TrustOk, Plain, IdentityOf, Extracted, CurrentStatement, CurrentBinding;
      IdentityParts(a.manifest, b.manifest, codec);
      RowsFixMembers(a, b, codec);
      assert Directory(a, codec) == Directory(b, codec);
    }
  }

  // ---------------------------------------------------------------------------------------------
  // What the chain head fixes

  lemma {:induction false} RecordsFixBindings(a: seq<LedgerFile>, b: seq<LedgerFile>)
    requires Records(a) == Records(b)
    ensures Bindings(a) == Bindings(b) && References(a) == References(b)
  {
    assert |Records(a)| == |Records(b)|;
    if a != [] {
      var n := |a| - 1;
      assert Records(a[..n]) == Records(a)[..n] == Records(b[..n]);
      RecordsFixBindings(a[..n], b[..n]);
      assert Records(a)[n] == Records(b)[n];
    }
  }

  lemma {:induction false} PrefixBindings(a: seq<LedgerFile>, b: seq<LedgerFile>)
    requires Records(a) <= Records(b)
    ensures Bindings(a) <= Bindings(b) && References(a) <= References(b)
  {
    assert Records(b[..|a|]) == Records(b)[..|a|] == Records(a);
    RecordsFixBindings(a, b[..|a|]);
    ReferencesGrow(b, |a|);
  }

  /** The evidence of one directory is carried unchanged by another. */
  ghost predicate Carried(a: Files, b: Files, codec: Codec) {
    && Records(codec.ledger(a)) <= Records(codec.ledger(b))
    && codec.instanceKey(a) == codec.instanceKey(b)
    && (forall place :: place in a && JsonBelow(place, "archive-trust") ==> SameFile(a, b, place))
    && forall place :: place in a && Below(place, "artifacts") ==> SameFile(a, b, place)
  }

  predicate SameFile(a: Files, b: Files, place: seq<string>) {
    place in a && place in b && a[place] == b[place]
  }

  lemma TrustCarried(a: Files, b: Files, instanceA: Identifier, instanceB: Identifier, codec: Codec)
    requires Ideal(codec) && TrustOk(a, instanceA, codec) && TrustOk(b, instanceB, codec)
    requires Bindings(codec.ledger(a)) <= Bindings(codec.ledger(b))
    ensures codec.instanceKey(a) == codec.instanceKey(b)
    ensures forall place :: place in a && JsonBelow(place, "archive-trust") ==> SameFile(a, b, place)
  {
    hide StatementOk, JsonBelow, JsonPlace, Bindings;
    var shorter, longer := Bindings(codec.ledger(a)), Bindings(codec.ledger(b));
    forall digest | digest in shorter
      ensures JsonPlace("archive-trust", digest) in a && JsonPlace("archive-trust", digest) in b
      ensures SameFile(a, b, JsonPlace("archive-trust", digest)) && codec.instanceKey(a) == codec.instanceKey(b)
    {
      assert digest in longer;
      StatementPresent(a, digest, instanceA, codec.instanceKey(a), codec);
      StatementPresent(b, digest, instanceB, codec.instanceKey(b), codec);
      BindingFixesStatement(a, b, digest, instanceA, instanceB, codec);
    }
    assert shorter[0] in shorter;
    forall place | place in a && JsonBelow(place, "archive-trust")
      ensures SameFile(a, b, place)
    {
      var digest :| digest in shorter && place == JsonPlace("archive-trust", digest);
    }
  }

  lemma StatementPresent(files: Files, digest: string, instanceId: Identifier, key: string, codec: Codec)
    requires StatementOk(files, digest, instanceId, key, codec)
    ensures JsonPlace("archive-trust", digest) in files
  {
  }

  lemma ArtifactsCarried(a: Files, b: Files, codec: Codec)
    requires Ideal(codec) && ArtifactsOk(a, codec) && ArtifactsOk(b, codec)
    requires References(codec.ledger(a)) <= References(codec.ledger(b))
    ensures forall place :: place in a && Below(place, "artifacts") ==> SameFile(a, b, place)
  {
    hide JsonPlace, References, DistinctNames, Below, ProperJson;
    var shorter, longer := References(codec.ledger(a)), References(codec.ledger(b));
    forall place | place in a && Below(place, "artifacts")
      ensures SameFile(a, b, place)
    {
      var k :| 0 <= k < |shorter| && place == JsonPlace("artifacts", shorter[k].0);
      assert longer[k] == shorter[k];
      assert ArtifactOk(a, shorter[k], codec) && ArtifactOk(b, longer[k], codec);
    }
  }

  /**
    If the head of one accepted bundle occurs among the record digests of another, then the other
    carries the whole evidence of the first: its records as a prefix, the same instance key, every
    controller statement and every Desktop artifact.
   */
  lemma HeadOccursMeansCarried(a: Bundle, b: Bundle, codec: Codec)
    requires Ideal(codec) && BundleOk(a, codec) && BundleOk(b, codec)
    ensures a.manifest.headSha256 in SummaryOf(b, codec).recordSha256s <==>
            Records(codec.ledger(Directory(a, codec))) <= Records(codec.ledger(Directory(b, codec)))
    ensures a.manifest.headSha256 in SummaryOf(b, codec).recordSha256s ==> Carried(Directory(a, codec), Directory(b, codec), codec)
  {
    hide RowsOk, TrustOk, ArtifactsOk, ChainOk, Directory, CurrentStatement, CurrentBinding, Plain, IdentityOf, JsonBelow, Below, JsonPlace, References, Bindings;
    var filesA, filesB := Directory(a, codec), Directory(b, codec);
    var ledgerA, ledgerB := codec.ledger(filesA), codec.ledger(filesB);
    HeadOccursIffPrefix(ledgerA, ledgerB, codec.instanceKey(filesA), codec.instanceKey(filesB));
    HeadTextOccurs(a, b, codec);
    if Records(ledgerA) <= Records(ledgerB) {
      PrefixBindings(ledgerA, ledgerB);
      TrustCarried(filesA, filesB, ledgerA[0].record.instanceId, ledgerB[0].record.instanceId, codec);
      ArtifactsCarried(filesA, filesB, codec);
    }
  }

  lemma HeadTextOccurs(a: Bundle, b: Bundle, codec: Codec)
    requires Ideal(codec) && BundleOk(a, codec) && BundleOk(b, codec)
    ensures var ledgerA, ledgerB := codec.ledger(Directory(a, codec)), codec.ledger(Directory(b, codec));
            a.manifest.headSha256 in SummaryOf(b, codec).recordSha256s
            <==> exists j :: 0 <= j < |ledgerB| && Sha(ledgerB[j].record) == Head(ledgerA)
  {
    hide RowsOk, TrustOk, ArtifactsOk, Directory, CurrentStatement, CurrentBinding, Plain, IdentityOf, JsonBelow, Below, JsonPlace, References, Bindings;
    var ledgerA, ledgerB := codec.ledger(Directory(a, codec)), codec.ledger(Directory(b, codec));
    var digests := SummaryOf(b, codec).recordSha256s;
    assert a.manifest.headSha256 == DigestText(Head(ledgerA), codec);
    forall j | 0 <= j < |ledgerB|
      ensures digests[j] == a.manifest.headSha256 <==> Sha(ledgerB[j].record) == Head(ledgerA)
    {
    }
  }

  /** The chain head of an accepted bundle fixes its records, its instance key, its controller, its statements and its artifacts. */
  lemma HeadFixesEvidence(a: Bundle, b: Bundle, codec: Codec)
    requires Ideal(codec) && BundleOk(a, codec) && BundleOk(b, codec)
    requires a.manifest.headSha256 == b.manifest.headSha256
    ensures Carried(Directory(a, codec), Directory(b, codec), codec) && Carried(Directory(b, codec), Directory(a, codec), codec)
    ensures a.manifest.(createdAt := 0, rows := [], bundleId := b.manifest.bundleId) == b.manifest.(createdAt := 0, rows := [])
  {
    hide RowsOk, TrustOk, ArtifactsOk, ChainOk, Directory, CurrentStatement, CurrentBinding, Plain, IdentityOf, JsonBelow, Below, JsonPlace, References, Bindings;
    OwnHeadOccurs(a, codec);
    OwnHeadOccurs(b, codec);
    HeadOccursMeansCarried(a, b, codec);
    HeadOccursMeansCarried(b, a, codec);
    var ledgerA, ledgerB := codec.ledger(Directory(a, codec)), codec.ledger(Directory(b, codec));
    assert Records(ledgerA) == Records(ledgerB);
    RecordsFixBindings(ledgerA, ledgerB);
    CurrentFixed(a, b, codec);
  }

  lemma OwnHeadOccurs(bundle: Bundle, codec: Codec)
    requires Ideal(codec) && BundleOk(bundle, codec)
    ensures bundle.manifest.headSha256 in SummaryOf(bundle, codec).recordSha256s
  {
    hide RowsOk, TrustOk, ArtifactsOk, Directory, CurrentStatement, CurrentBinding, Plain, IdentityOf, JsonBelow, Below, JsonPlace, References, Bindings;
    var ledger := codec.ledger(Directory(bundle, codec));
    var digests := SummaryOf(bundle, codec).recordSha256s;
    assert digests[|ledger| - 1] == bundle.manifest.headSha256;
  }

  lemma CurrentFixed(a: Bundle, b: Bundle, codec: Codec)
    requires Ideal(codec) && BundleOk(a, codec) && BundleOk(b, codec)
    requires Records(codec.ledger(Directory(a, codec))) == Records(codec.ledger(Directory(b, codec)))
    requires Bindings(codec.ledger(Directory(a, codec))) == Bindings(codec.ledger(Directory(b, codec)))
    ensures a.manifest.(createdAt := 0, rows := [], bundleId := b.manifest.bundleId) == b.manifest.(createdAt := 0, rows := [])
  {
    hide RowsOk, ArtifactsOk, Directory, Plain, IdentityOf, JsonBelow, Below, JsonPlace, References, Bindings;
    var filesA, filesB := Directory(a, codec), Directory(b, codec);
    var ledgerA, ledgerB := codec.ledger(filesA), codec.ledger(filesB);
    assert |ledgerA| == |ledgerB| by { assert |Records(ledgerA)| == |Records(ledgerB)|; }
    assert Records(ledgerA)[0] == Records(ledgerB)[0] && Records(ledgerA)[|ledgerA| - 1] == Records(ledgerB)[|ledgerA| - 1];
    var digest := CurrentBinding(filesA, codec);
    assert digest == CurrentBinding(filesB, codec);
    BindingFixesStatement(filesA, filesB, digest, a.manifest.instanceId, b.manifest.instanceId, codec);
  }
}
