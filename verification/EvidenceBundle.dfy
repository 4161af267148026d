/**
  Portable evidence bundles: what a bundle's manifest binds, what verification recovers, and how
  much of the evidence is fixed by the chain head alone.

  Bytes are strings. A directory maps the components of each relative path to the bytes of the file
  there. Hashing, canonical JSON and the parsing of individual files are the parameters of a `Codec`;
  what the theorems need of them is `Ideal`: distinct texts have distinct digests, digests are plain
  text, and the canonical form of a record or of a list of rows can be read back.
 */
module EvidenceBundle {
  import opened Wrappers
  import opened EvidenceManifest

  type Files = map<seq<string>, string>

  datatype FileRow = FileRow(path: string, sha256: string, size: nat)

  /** What a well-formed, correctly signed controller statement says. */
  datatype TrustStatement = TrustStatement(controllerId: string, controllerKey: string, instanceId: Identifier, instanceKey: string)

  datatype Codec = Codec(
    sha256: string -> string,
    canonical: Record -> string,
    rendered: seq<FileRow> -> string,
    ledger: Files -> seq<LedgerFile>,
    instanceKey: Files -> string,
    statement: string -> Option<TrustStatement>,
    artifactMatches: (Payload, string) -> bool,
    packed: Bundle -> string)

  predicate Plain(text: string) {
    '|' !in text
  }

  ghost predicate Ideal(codec: Codec) {
    && (forall x, y :: codec.sha256(x) == codec.sha256(y) ==> x == y)
    && (forall x :: Plain(codec.sha256(x)))
    && (forall x, y :: codec.canonical(x) == codec.canonical(y) ==> x == y)
    && (forall x, y :: codec.rendered(x) == codec.rendered(y) ==> x == y)
  }

  function DigestText(digest: Digest, codec: Codec): string {
    match digest
    case Genesis => "genesis"
    case Sha(record) => codec.sha256(codec.canonical(record))
  }

  /** UUIDv5 of the identity text inside the bundle namespace, idealised as injective. */
  datatype BundleId = BundleId(identity: string)

  datatype Manifest = Manifest(
    bundleId: BundleId,
    createdAt: nat,
    instanceId: Identifier,
    controllerId: string,
    controllerKey: string,
    instanceKey: string,
    trustSha256: string,
    chainId: Identifier,
    headSha256: string,
    recordCount: nat,
    rows: seq<FileRow>)

  /** The manifest and the members below `evidence/`, by member name. */
  datatype Bundle = Bundle(manifest: Manifest, members: map<string, string>)

  datatype BundleSummary = BundleSummary(
    bundleId: BundleId,
    controllerId: string,
    instanceId: Identifier,
    chainId: Identifier,
    headSha256: string,
    recordCount: nat,
    recordSha256s: seq<string>,
    artifactCount: nat)

  datatype BundleError = InvalidRow | UndeclaredMember | BrokenLedger | UntrustedController
    | ManifestMismatch | UnmatchedArtifacts | WrongBundleId | WrongOwner

  // ---------------------------------------------------------------------------------------------
  // Relative paths

  function Split(text: string, separator: char): (parts: seq<string>)
    ensures parts != []
    ensures forall k :: 0 <= k < |parts| ==> separator !in parts[k]
  {
    if text == [] then [""]
    else
      var rest := Split(text[1..], separator);
      if text[0] == separator then [""] + rest else [[text[0]] + rest[0]] + rest[1..]
  }

  function Join(parts: seq<string>, separator: char): string {
    if parts == [] then ""
    else if |parts| == 1 then parts[0]
    else parts[0] + [separator] + Join(parts[1..], separator)
  }

  /** Joining texts that avoid the separator can be undone. */
  lemma {:induction false} SplitJoin(parts: seq<string>, separator: char)
    requires parts != [] && forall k :: 0 <= k < |parts| ==> separator !in parts[k]
    ensures Split(Join(parts, separator), separator) == parts
  {
    if |parts| == 1 {
      SplitPlain(parts[0], separator);
    } else {
      SplitJoin(parts[1..], separator);
      SplitFirst(parts[0], Join(parts[1..], separator), separator);
    }
  }

  lemma {:induction false} SplitPlain(text: string, separator: char)
    requires separator !in text
    ensures Split(text, separator) == [text]
  {
    if text != [] {
      SplitPlain(text[1..], separator);
      assert text == [text[0]] + text[1..];
    }
  }

  lemma {:induction false} SplitFirst(first: string, rest: string, separator: char)
    requires separator !in first
    ensures Split(first + [separator] + rest, separator) == [first] + Split(rest, separator)
  {
    var whole := first + [separator] + rest;
    if first == [] {
      assert whole[1..] == rest;
    } else {
      SplitFirst(first[1..], rest, separator);
      assert whole[1..] == first[1..] + [separator] + rest;
      assert first == [first[0]] + first[1..];
    }
  }

  const INCLUDED_ROOTS: set<string> := {"ledger", "public", "anchors", "artifacts", "archive-trust"}

  /** The components of a path that name something: no empty ones and no current directory. */
  function Named(parts: seq<string>): seq<string> {
    if parts == [] then []
    else (if parts[0] == "" || parts[0] == "." then [] else [parts[0]]) + Named(parts[1..])
  }

  /** The place a relative path leads to. */
  function Place(path: string): seq<string> {
    Named(Split(path, '/'))
  }

  predicate EvidencePath(path: string) {
    var parts := Split(path, '/');
    parts[0] in INCLUDED_ROOTS && ".." !in parts
  }

  /** The places a directory listing produces. */
  predicate Listed(place: seq<string>) {
    && place != []
    && forall k :: 0 <= k < |place| ==> '/' !in place[k] && place[k] != "" && place[k] != "." && place[k] != ".."
  }

  lemma {:induction false} NamedListed(parts: seq<string>)
    requires forall k :: 0 <= k < |parts| ==> parts[k] != "" && parts[k] != "."
    ensures Named(parts) == parts
  {
    if parts != [] {
      NamedListed(parts[1..]);
    }
  }

  /** A listed place is recovered from its path text. */
  lemma PlaceOfJoin(place: seq<string>)
    requires Listed(place)
    ensures Place(Join(place, '/')) == place
    ensures EvidencePath(Join(place, '/')) <==> place[0] in INCLUDED_ROOTS
  {
    SplitJoin(place, '/');
    NamedListed(place);
  }

  // ---------------------------------------------------------------------------------------------
  // The signed directory: ledger, controller trust and Desktop artifacts

  predicate JsonFile(name: string) {
    |name| >= 5 && name[|name| - 5..] == ".json"
  }

  predicate Below(place: seq<string>, directory: string) {
    place != [] && place[0] == directory
  }

  predicate JsonBelow(place: seq<string>, directory: string) {
    |place| == 2 && place[0] == directory && JsonFile(place[1])
  }

  function JsonStems(files: Files, directory: string): set<string> {
    set place | place in files && JsonBelow(place, directory) :: place[1][..|place[1]| - 5]
  }

  function JsonPlace(directory: string, stem: string): seq<string> {
    [directory, stem + ".json"]
  }

  lemma StemPresent(files: Files, directory: string, stem: string)
    ensures stem in JsonStems(files, directory) <==> JsonPlace(directory, stem) in files
  {
    var name := stem + ".json";
    assert name[|name| - 5..] == ".json" && name[..|name| - 5] == stem;
    if stem in JsonStems(files, directory) {
      var place :| place in files && JsonBelow(place, directory) && place[1][..|place[1]| - 5] == stem;
      assert place[1] == stem + ".json";
      assert place == JsonPlace(directory, stem);
    } else if JsonPlace(directory, stem) in files {
      assert JsonBelow(JsonPlace(directory, stem), directory);
    }
  }

  predicate NamedBy(place: seq<string>, directory: string, names: set<string>) {
    exists name :: name in names && place == JsonPlace(directory, name)
  }

  /** Comparing stems is comparing the files themselves. */
  lemma StemsWithin(files: Files, directory: string, names: set<string>)
    ensures JsonStems(files, directory) <= names <==>
            forall place :: place in files && JsonBelow(place, directory) ==> NamedBy(place, directory, names)
  {
    if JsonStems(files, directory) <= names {
      forall place | place in files && JsonBelow(place, directory)
        ensures NamedBy(place, directory, names)
      {
        var stem := place[1][..|place[1]| - 5];
        assert stem in JsonStems(files, directory);
        assert place[1] == stem + ".json";
      }
    }
    forall stem | stem in JsonStems(files, directory)
      ensures JsonPlace(directory, stem) in files && JsonBelow(JsonPlace(directory, stem), directory)
      ensures NamedBy(JsonPlace(directory, stem), directory, names) ==> stem in names
    {
      StemPresent(files, directory, stem);
      if NamedBy(JsonPlace(directory, stem), directory, names) {
        var name :| name in names && JsonPlace(directory, stem) == JsonPlace(directory, name);
        assert stem == (stem + ".json")[..|stem|] && name == (name + ".json")[..|name|];
      }
    }
  }

  const TRUST_BOUND := "evidence.archive_trust_bound"

  /** The statements that the ledger binds, oldest first. */
  function Bindings(ledger: seq<LedgerFile>): seq<string> {
    if ledger == [] then []
    else
      var record := ledger[|ledger| - 1].record;
      Bindings(ledger[..|ledger| - 1])
      + if record.recordType == TRUST_BOUND && "statement_sha256" in record.payload
        then [record.payload["statement_sha256"]] else []
  }

  /** The artifacts that the ledger refers to, each with the payload of the referring record. */
  function References(ledger: seq<LedgerFile>): seq<(string, Payload)> {
    if ledger == [] then []
    else
      var record := ledger[|ledger| - 1].record;
      References(ledger[..|ledger| - 1])
      + if "evidence_package_sha256" in record.payload
        then [(record.payload["evidence_package_sha256"], record.payload)] else []
  }

  predicate StatementOk(files: Files, digest: string, instanceId: Identifier, key: string, codec: Codec) {
    && JsonPlace("archive-trust", digest) in files
    && var raw := files[JsonPlace("archive-trust", digest)];
    && codec.sha256(raw) == digest
    && codec.statement(raw).Some?
    && var statement := codec.statement(raw).value;
    && Plain(statement.controllerId)
    && statement.instanceId == instanceId
    && statement.instanceKey == key
  }

  predicate TrustOk(files: Files, instanceId: Identifier, codec: Codec) {
    var bindings := Bindings(codec.ledger(files));
    && bindings != []
    && (forall place :: place in files && JsonBelow(place, "archive-trust") ==> NamedBy(place, "archive-trust", set digest | digest in bindings))
    && forall digest :: digest in bindings ==> StatementOk(files, digest, instanceId, codec.instanceKey(files), codec)
  }

  function CurrentBinding(files: Files, codec: Codec): string
    requires Bindings(codec.ledger(files)) != []
  {
    var bindings := Bindings(codec.ledger(files));
    bindings[|bindings| - 1]
  }

  function CurrentStatement(files: Files, instanceId: Identifier, codec: Codec): TrustStatement
    requires TrustOk(files, instanceId, codec)
  {
    var digest := CurrentBinding(files, codec);
    assert StatementOk(files, digest, instanceId, codec.instanceKey(files), codec);
    codec.statement(files[JsonPlace("archive-trust", digest)]).value
  }

  predicate NewName(references: seq<(string, Payload)>, k: nat)
    requires k < |references|
  {
    forall j :: 0 <= j < k ==> references[j].0 != references[k].0
  }

  predicate DistinctNames(references: seq<(string, Payload)>) {
    forall k :: 0 <= k < |references| ==> NewName(references, k)
  }

  /** The content has the digest it is stored under and matches the referring record; a bare `.json` has no suffix. */
  predicate ArtifactOk(files: Files, reference: (string, Payload), codec: Codec) {
    && reference.0 != ""
    && JsonPlace("artifacts", reference.0) in files
    && codec.sha256(files[JsonPlace("artifacts", reference.0)]) == reference.0
    && codec.artifactMatches(reference.1, files[JsonPlace("artifacts", reference.0)])
  }

  function ReferencedDigests(references: seq<(string, Payload)>): set<string> {
    set k | 0 <= k < |references| :: references[k].0
  }

  /** Exactly the referenced artifacts are present, once each, and match their records. */
  predicate ArtifactsOk(files: Files, codec: Codec) {
    var references := References(codec.ledger(files));
    && DistinctNames(references)
    && (forall place :: place in files && Below(place, "artifacts") ==>
         NamedBy(place, "artifacts", ReferencedDigests(references)))
    && forall k :: 0 <= k < |references| ==> ArtifactOk(files, references[k], codec)
  }

  predicate ProperJson(name: string) {
    JsonFile(name) && |name| > 5
  }

  // ---------------------------------------------------------------------------------------------
  // Verification of one bundle

  predicate RowOk(rows: seq<FileRow>, members: map<string, string>, k: nat, codec: Codec)
    requires k < |rows|
  {
    var row := rows[k];
    && EvidencePath(row.path)
    && (forall j :: 0 <= j < k ==> rows[j].path != row.path)
    && row.path in members
    && row.size == |members[row.path]|
    && row.sha256 == codec.sha256(members[row.path])
  }

  /** The directory that extracting the rows in order leaves: a later row wins a shared place. */
  function Extracted(rows: seq<FileRow>, members: map<string, string>): Files
    requires forall k :: 0 <= k < |rows| ==> rows[k].path in members
  {
    if rows == [] then map[]
    else
      var last := rows[|rows| - 1].path;
      Extracted(rows[..|rows| - 1], members)[Place(last) := members[last]]
  }

  /** The rows and the members are in one-to-one correspondence. */
  predicate RowsOk(bundle: Bundle, codec: Codec) {
    && bundle.manifest.rows != []
    && (forall k :: 0 <= k < |bundle.manifest.rows| ==> RowOk(bundle.manifest.rows, bundle.members, k, codec))
    && forall name :: name in bundle.members ==> exists k :: 0 <= k < |bundle.manifest.rows| && bundle.manifest.rows[k].path == name
  }

  lemma RowsHaveMembers(rows: seq<FileRow>, members: map<string, string>, codec: Codec)
    requires forall k :: 0 <= k < |rows| ==> RowOk(rows, members, k, codec)
    ensures forall k :: 0 <= k < |rows| ==> rows[k].path in members
  {
    forall k | 0 <= k < |rows|
      ensures rows[k].path in members
    {
      assert RowOk(rows, members, k, codec);
    }
  }

  function Directory(bundle: Bundle, codec: Codec): Files
    requires RowsOk(bundle, codec)
  {
    RowsHaveMembers(bundle.manifest.rows, bundle.members, codec);
    Extracted(bundle.manifest.rows, bundle.members)
  }

  function Identity(controllerId: string, instanceId: string, chainId: string, head: string, trust: string, rows: seq<FileRow>, codec: Codec): string {
    Join([controllerId, instanceId, chainId, head, trust, codec.sha256(codec.rendered(rows))], '|')
  }

  function IdentityOf(manifest: Manifest, codec: Codec): string {
    Identity(manifest.controllerId, manifest.instanceId, manifest.chainId, manifest.headSha256, manifest.trustSha256, manifest.rows, codec)
  }

  /** The manifest repeats what the signed chain and the controller statement say. */
  predicate ManifestOk(manifest: Manifest, files: Files, codec: Codec)
    requires codec.ledger(files) != []
    requires TrustOk(files, codec.ledger(files)[0].record.instanceId, codec)
  {
    var chain := Summary(codec.ledger(files));
    var current := CurrentStatement(files, chain.instanceId, codec);
    && chain.instanceId == manifest.instanceId
    && chain.chainId == manifest.chainId
    && DigestText(chain.head, codec) == manifest.headSha256
    && chain.records == manifest.recordCount
    && current.controllerId == manifest.controllerId
    && current.controllerKey == manifest.controllerKey
    && current.instanceKey == manifest.instanceKey
    && CurrentBinding(files, codec) == manifest.trustSha256
  }

  predicate BundleOk(bundle: Bundle, codec: Codec) {
    && Plain(bundle.manifest.instanceId)
    && Plain(bundle.manifest.chainId)
    && RowsOk(bundle, codec)
    && var files := Directory(bundle, codec);
    && var ledger := codec.ledger(files);
    && ChainOk(ledger, codec.instanceKey(files))
    && TrustOk(files, ledger[0].record.instanceId, codec)
    && ManifestOk(bundle.manifest, files, codec)
    && ArtifactsOk(files, codec)
    && bundle.manifest.bundleId == BundleId(IdentityOf(bundle.manifest, codec))
  }

  predicate Owned(manifest: Manifest, controller: Option<string>, instance: Option<string>) {
    && (controller.Some? ==> manifest.controllerId == controller.value)
    && (instance.Some? ==> manifest.instanceId == instance.value)
  }

  function RecordDigests(ledger: seq<LedgerFile>, codec: Codec): (digests: seq<string>)
    ensures |digests| == |ledger|
    ensures forall k :: 0 <= k < |ledger| ==> digests[k] == DigestText(Sha(ledger[k].record), codec)
  {
    seq(|ledger|, k requires 0 <= k < |ledger| => DigestText(Sha(ledger[k].record), codec))
  }

  function SummaryOf(bundle: Bundle, codec: Codec): BundleSummary
    requires BundleOk(bundle, codec)
  {
    var ledger := codec.ledger(Directory(bundle, codec));
    var manifest := bundle.manifest;
    BundleSummary(manifest.bundleId, manifest.controllerId, manifest.instanceId, manifest.chainId,
                  manifest.headSha256, manifest.recordCount, RecordDigests(ledger, codec), |References(ledger)|)
  }

  method CollectBindings(ledger: seq<LedgerFile>) returns (ledgerBindings: seq<string>)
    ensures ledgerBindings == Bindings(ledger)
  {
    ledgerBindings := [];
    for i := 0 to |ledger|
      invariant ledgerBindings == Bindings(ledger[..i])
    {
      var record := ledger[i].record;
      assert ledger[..i + 1][..i] == ledger[..i];
      if record.recordType == TRUST_BOUND && "statement_sha256" in record.payload {
        ledgerBindings := ledgerBindings + [record.payload["statement_sha256"]];
      }
    }
    assert ledger[..|ledger|] == ledger;
  }

  method CheckStatement(files: Files, digest: string, instanceId: Identifier, codec: Codec) returns (r: Option<TrustStatement>)
    requires JsonPlace("archive-trust", digest) in files
    ensures r.Some? <==> StatementOk(files, digest, instanceId, codec.instanceKey(files), codec)
    ensures r.Some? ==> codec.statement(files[JsonPlace("archive-trust", digest)]) == r
  {
    hide JsonPlace;
    var raw := files[JsonPlace("archive-trust", digest)];
    var parsed := codec.statement(raw);
    if codec.sha256(raw) != digest || parsed.None? {
      return None;
    }
    var statement := parsed.value;
    if !Plain(statement.controllerId) || statement.instanceId != instanceId || statement.instanceKey != codec.instanceKey(files) {
      return None;
    }
    return Some(statement);
  }

  /** Check every controller statement in the trust directory against the ledger's bindings. */
  method CheckStatements(files: Files, instanceId: Identifier, ledgerBindings: seq<string>, codec: Codec) returns (r: Option<map<string, TrustStatement>>)
    ensures r.Some? <==> forall digest :: digest in JsonStems(files, "archive-trust") ==>
      digest in ledgerBindings && StatementOk(files, digest, instanceId, codec.instanceKey(files), codec)
    ensures r.Some? ==> r.value.Keys == JsonStems(files, "archive-trust")
    ensures r.Some? ==> forall digest :: digest in r.value ==>
      JsonPlace("archive-trust", digest) in files && codec.statement(files[JsonPlace("archive-trust", digest)]) == Some(r.value[digest])
  {
    hide StatementOk, JsonStems, JsonPlace;
    var key, stems := codec.instanceKey(files), JsonStems(files, "archive-trust");
    var verified: map<string, TrustStatement> := map[];
    var pending := stems;
    while pending != {}
      invariant pending <= stems && verified.Keys == stems - pending
      invariant forall digest :: digest in verified ==> digest in ledgerBindings && StatementOk(files, digest, instanceId, key, codec)
      invariant forall digest :: digest in verified ==>
        JsonPlace("archive-trust", digest) in files && codec.statement(files[JsonPlace("archive-trust", digest)]) == Some(verified[digest])
      decreases |pending|
    {
      var stem :| stem in pending;
      StemPresent(files, "archive-trust", stem);
      var statement := CheckStatement(files, stem, instanceId, codec);
      if statement.None? || stem !in ledgerBindings {
        return None;
      }
      pending := pending - {stem};
      verified := verified[stem := statement.value];
    }
    return Some(verified);
  }

  lemma StatementsPresent(files: Files, digests: seq<string>, instanceId: Identifier, codec: Codec)
    requires forall digest :: digest in digests ==> StatementOk(files, digest, instanceId, codec.instanceKey(files), codec)
    ensures (set digest | digest in digests) <= JsonStems(files, "archive-trust")
  {
    forall digest | digest in digests
      ensures digest in JsonStems(files, "archive-trust")
    {
      StemPresent(files, "archive-trust", digest);
    }
  }

  method VerifyArchiveTrust(files: Files, instanceId: Identifier, codec: Codec) returns (r: Result<(string, TrustStatement), BundleError>)
    ensures r.Success? <==> TrustOk(files, instanceId, codec)
    ensures r.Success? ==> r.value == (CurrentBinding(files, codec), CurrentStatement(files, instanceId, codec))
  {
    hide StatementOk, JsonStems, JsonPlace, NamedBy, JsonBelow;
    var ledgerBindings := CollectBindings(codec.ledger(files));
    StemsWithin(files, "archive-trust", set digest | digest in ledgerBindings);
    if forall digest :: digest in ledgerBindings ==> StatementOk(files, digest, instanceId, codec.instanceKey(files), codec) {
      StatementsPresent(files, ledgerBindings, instanceId, codec);
    }
    var verified := CheckStatements(files, instanceId, ledgerBindings, codec);
    if verified.None? {
      return Failure(UntrustedController);
    }
    if ledgerBindings == [] || (set digest | digest in ledgerBindings) != verified.value.Keys {
      return Failure(UntrustedController);
    }
    var current := ledgerBindings[|ledgerBindings| - 1];
    assert current in (set digest | digest in ledgerBindings);
    return Success((current, verified.value[current]));
  }

  /** The distinct references of a ledger, or nothing when one artifact is referenced twice. */
  lemma DistinctSnoc(references: seq<(string, Payload)>, last: (string, Payload))
    requires DistinctNames(references) && forall k :: 0 <= k < |references| ==> references[k].0 != last.0
    ensures DistinctNames(references + [last])
  {
    forall k | 0 <= k < |references|
      ensures NewName(references + [last], k)
    {
      assert NewName(references, k);
    }
  }

  method CollectReferences(ledger: seq<LedgerFile>) returns (r: Option<seq<(string, Payload)>>)
    ensures r.Some? <==> DistinctNames(References(ledger))
    ensures r.Some? ==> r.value == References(ledger)
  {
    var references: seq<(string, Payload)> := [];
    for i := 0 to |ledger|
      invariant references == References(ledger[..i])
      invariant DistinctNames(references)
    {
      var payload := ledger[i].record.payload;
      assert ledger[..i + 1][..i] == ledger[..i];
      if "evidence_package_sha256" in payload {
        var digest := payload["evidence_package_sha256"];
        if exists k :: 0 <= k < |references| && references[k].0 == digest {
          ghost var k :| 0 <= k < |references| && references[k].0 == digest;
          RepeatedReference(ledger, i, k);
          return None;
        }
        DistinctSnoc(references, (digest, payload));
        references := references + [(digest, payload)];
      }
    }
    assert ledger[..|ledger|] == ledger;
    return Some(references);
  }

  method MatchArtifacts(files: Files, references: seq<(string, Payload)>, codec: Codec) returns (ok: bool)
    requires forall k :: 0 <= k < |references| ==> references[k].0 != "" && JsonPlace("artifacts", references[k].0) in files
    ensures ok <==> forall k :: 0 <= k < |references| ==> ArtifactOk(files, references[k], codec)
  {
    hide JsonPlace;
    for i := 0 to |references|
      invariant forall k :: 0 <= k < i ==> ArtifactOk(files, references[k], codec)
    {
      var reference := references[i];
      var raw := files[JsonPlace("artifacts", reference.0)];
      if codec.sha256(raw) != reference.0 || !codec.artifactMatches(reference.1, raw) {
        assert !ArtifactOk(files, references[i], codec);
        return false;
      }
    }
    return true;
  }

  lemma ArtifactsPresent(files: Files, references: seq<(string, Payload)>, codec: Codec)
    requires forall k :: 0 <= k < |references| ==> ArtifactOk(files, references[k], codec)
    ensures ReferencedDigests(references) <= JsonStems(files, "artifacts")
  {
    forall digest | digest in ReferencedDigests(references)
      ensures digest in JsonStems(files, "artifacts")
    {
      var k :| 0 <= k < |references| && references[k].0 == digest;
      assert ArtifactOk(files, references[k], codec);
      StemPresent(files, "artifacts", digest);
    }
  }

  predicate ProperDirectory(files: Files) {
    forall place :: place in files && Below(place, "artifacts") ==> |place| == 2 && ProperJson(place[1])
  }

  lemma ArtifactsAreProper(files: Files, codec: Codec)
    requires ArtifactsOk(files, codec)
    ensures ProperDirectory(files)
  {
    hide References, DistinctNames;
    var references := References(codec.ledger(files));
    forall place | place in files && Below(place, "artifacts")
      ensures |place| == 2 && ProperJson(place[1])
    {
      var k :| 0 <= k < |references| && place == JsonPlace("artifacts", references[k].0);
      assert ArtifactOk(files, references[k], codec);
      var name := references[k].0;
      assert (name + ".json")[|name|..] == ".json";
    }
  }

  lemma ProperName(files: Files, name: string)
    requires ProperDirectory(files) && JsonPlace("artifacts", name) in files
    ensures name != ""
  {
    assert Below(JsonPlace("artifacts", name), "artifacts");
  }

  method VerifyProcessorArtifacts(files: Files, codec: Codec) returns (r: Result<nat, BundleError>)
    ensures r.Success? <==> ArtifactsOk(files, codec)
    ensures r.Success? ==> r.value == |References(codec.ledger(files))|
  {
    hide JsonStems, JsonPlace, References, DistinctNames, JsonFile, ArtifactOk, NamedBy;
    var collected := CollectReferences(codec.ledger(files));
    if collected.None? {
      return Failure(UnmatchedArtifacts);
    }
    var references := collected.value;
    if ArtifactsOk(files, codec) {
      ArtifactsAreProper(files, codec);
    }
    if exists place | place in files :: Below(place, "artifacts") && !(|place| == 2 && ProperJson(place[1])) {
      return Failure(UnmatchedArtifacts);
    }
    StemsWithin(files, "artifacts", ReferencedDigests(references));
    if forall k :: 0 <= k < |references| ==> ArtifactOk(files, references[k], codec) {
      ArtifactsPresent(files, references, codec);
    }
    if JsonStems(files, "artifacts") != ReferencedDigests(references) {
      return Failure(UnmatchedArtifacts);
    }
    forall k | 0 <= k < |references|
      ensures references[k].0 != "" && JsonPlace("artifacts", references[k].0) in files
    {
      StemPresent(files, "artifacts", references[k].0);
      ProperName(files, references[k].0);
    }
    var matched := MatchArtifacts(files, references, codec);
    if !matched {
      return Failure(UnmatchedArtifacts);
    }
    return Success(|references|);
  }

  /** The references of a longer ledger start with those of a shorter one. */
  lemma {:induction false} ReferencesGrow(ledger: seq<LedgerFile>, n: nat)
    requires n <= |ledger|
    ensures References(ledger[..n]) <= References(ledger)
    ensures Bindings(ledger[..n]) <= Bindings(ledger)
  {
    if n < |ledger| {
      ReferencesGrow(ledger[..|ledger| - 1], n);
      assert ledger[..|ledger| - 1][..n] == ledger[..n];
    } else {
      assert ledger[..n] == ledger;
    }
  }

  lemma RepeatedReference(ledger: seq<LedgerFile>, i: nat, k: nat)
    requires i < |ledger| && "evidence_package_sha256" in ledger[i].record.payload
    requires k < |References(ledger[..i])| && References(ledger[..i])[k].0 == ledger[i].record.payload["evidence_package_sha256"]
    ensures !DistinctNames(References(ledger))
  {
    ReferencesGrow(ledger, i + 1);
    assert ledger[..i + 1][..i] == ledger[..i];
    var shorter := References(ledger[..i + 1]);
    assert shorter == References(ledger[..i]) + [(ledger[i].record.payload["evidence_package_sha256"], ledger[i].record.payload)];
    assert References(ledger)[k] == shorter[k];
    assert References(ledger)[|shorter| - 1] == shorter[|shorter| - 1];
    assert !NewName(References(ledger), |shorter| - 1);
  }

  /** Copy the declared members out, or refuse rows and members that do not match one to one. */
  method ExtractMembers(bundle: Bundle, codec: Codec) returns (r: Result<Files, BundleError>)
    ensures r.Success? <==> RowsOk(bundle, codec)
    ensures r.Success? ==> r.value == Directory(bundle, codec)
  {
    hide EvidencePath, Place;
    var rows := bundle.manifest.rows;
    if rows == [] {
      return Failure(InvalidRow);
    }
    var declared: set<string>, files: Files := {}, map[];
    for i := 0 to |rows|
      invariant forall k :: 0 <= k < i ==> RowOk(rows, bundle.members, k, codec)
      invariant forall k :: 0 <= k < i ==> rows[k].path in bundle.members
      invariant declared == set k | 0 <= k < i :: rows[k].path
      invariant files == Extracted(rows[..i], bundle.members)
    {
      var row := rows[i];
      if !EvidencePath(row.path) || row.path in declared || row.path !in bundle.members {
        assert !RowOk(rows, bundle.members, i, codec);
        return Failure(InvalidRow);
      }
      var raw := bundle.members[row.path];
      if row.size != |raw| || row.sha256 != codec.sha256(raw) {
        assert !RowOk(rows, bundle.members, i, codec);
        return Failure(InvalidRow);
      }
      assert rows[..i + 1][..i] == rows[..i];
      files := files[Place(row.path) := raw];
      declared := declared + {row.path};
    }
    assert rows[..|rows|] == rows;
    if declared != bundle.members.Keys {
      ghost var name :| name in bundle.members && name !in declared;
      assert !RowsOk(bundle, codec);
      return Failure(UndeclaredMember);
    }
    return Success(files);
  }

  method VerifyBundle(bundle: Bundle, controller: Option<string>, instance: Option<string>, codec: Codec) returns (r: Result<BundleSummary, BundleError>)
    ensures r.Success? <==> BundleOk(bundle, codec) && Owned(bundle.manifest, controller, instance)
    ensures r.Success? ==> r.value == SummaryOf(bundle, codec)
  {
    hide RowsOk, TrustOk, ArtifactsOk, Directory, ChainOk, CurrentStatement, CurrentBinding, References, Plain, IdentityOf;
    var manifest := bundle.manifest;
    if !Plain(manifest.instanceId) || !Plain(manifest.chainId) {
      return Failure(InvalidRow);
    }
    var extracted := ExtractMembers(bundle, codec);
    if extracted.Failure? {
      return Failure(extracted.error);
    }
    var files := extracted.value;
    var ledger := new Ledger(codec.instanceKey(files));
    ledger.files := codec.ledger(files);
    var chain := ledger.VerifyChain();
    if chain.Failure? {
      return Failure(BrokenLedger);
    }
    var trust := VerifyArchiveTrust(files, chain.value.instanceId, codec);
    if trust.Failure? {
      return Failure(UntrustedController);
    }
    var (binding, statement) := trust.value;
    if chain.value.instanceId != manifest.instanceId || chain.value.chainId != manifest.chainId
       || DigestText(chain.value.head, codec) != manifest.headSha256 || chain.value.records != manifest.recordCount
       || statement.controllerId != manifest.controllerId || statement.controllerKey != manifest.controllerKey
       || statement.instanceKey != manifest.instanceKey || binding != manifest.trustSha256 {
      return Failure(ManifestMismatch);
    }
    var artifacts := VerifyProcessorArtifacts(files, codec);
    if artifacts.Failure? {
      return Failure(UnmatchedArtifacts);
    }
    if manifest.bundleId != BundleId(IdentityOf(manifest, codec)) {
      return Failure(WrongBundleId);
    }
    if !Owned(manifest, controller, instance) {
      return Failure(WrongOwner);
    }
    return Success(BundleSummary(manifest.bundleId, manifest.controllerId, manifest.instanceId, manifest.chainId, manifest.headSha256,
                                 manifest.recordCount, RecordDigests(ledger.files, codec), artifacts.value));
  }
}
