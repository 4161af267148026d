/** Which revisions of the archive may be ingested, and what that means for a whole history of them. */
module ArchiveIngestion {
  import opened Wrappers

  /** A path in the archive, as its pattern reads it: the two files of a bundle directory, or another file. */
  datatype ArchivePath = BundlePath(instanceId: string, bundleId: string)
    | ReceiptPath(instanceId: string, bundleId: string)
    | OtherPath(name: string)

  /** The files of one revision with their contents. */
  type Tree = map<ArchivePath, string>

  datatype Change = Added | Modified | Deleted

  datatype DiffRow = DiffRow(change: Change, path: ArchivePath)

  datatype Mode = TemplateBootstrap | BundleIngestion

  datatype IngestionError = NotTwoAdditions | ForbiddenPath | SeparateDirectories

  /** The verifier and the texts that come with it. */
  function StaticFiles(): (files: set<ArchivePath>)
    ensures forall path :: path in files ==> path.OtherPath?
  {{
    OtherPath(".github/workflows/verify-evidence.yml"),
    OtherPath("CODEOWNERS"),
    OtherPath("README.md"),
    OtherPath("instances/README.md"),
    OtherPath("tools/evidence_archive_repository.py"),
    OtherPath("tools/evidence_bundle.py"),
    OtherPath("tools/evidence_git.py"),
    OtherPath("tools/evidence_manifest.py"),
    OtherPath("tools/portable_bundle.py"),
    OtherPath("tools/scan_evidence_repo.py"),
    OtherPath("tools/validate_ingestion_paths.py"),
    OtherPath("tools/verify_evidence_repo.py")
  }}

  predicate Changed(base: Tree, head: Tree, row: DiffRow) {
    match row.change
    case Added => row.path !in base && row.path in head
    case Modified => row.path in base && row.path in head && base[row.path] != head[row.path]
    case Deleted => row.path in base && row.path !in head
  }

  /** What comparing two revisions lists: every changed path once. */
  ghost predicate IsDiff(rows: seq<DiffRow>, base: Tree, head: Tree) {
    && (forall row :: row in rows <==> Changed(base, head, row))
    && forall i, j :: 0 <= i < j < |rows| ==> rows[i] != rows[j]
  }

  function Validate(rows: seq<DiffRow>, base: Tree, head: Tree): Result<Mode, IngestionError> {
    var added := set row | row in rows && row.change == Added :: row.path;
    if base == map[] && |added| == |rows| && added == StaticFiles() && head.Keys == StaticFiles() then
      Success(TemplateBootstrap)
    else if |rows| != 2 || exists row | row in rows :: row.change != Added then
      Failure(NotTwoAdditions)
    else if exists row | row in rows :: row.path.OtherPath? then
      Failure(ForbiddenPath)
    else
      var a, b := rows[0].path, rows[1].path;
      if a.instanceId != b.instanceId || a.bundleId != b.bundleId || a.BundlePath? == b.BundlePath? then
        Failure(SeparateDirectories)
      else
        Success(BundleIngestion)
  }

  predicate AddsBundle(base: Tree, head: Tree, instanceId: string, bundleId: string) {
    var pair := {BundlePath(instanceId, bundleId), ReceiptPath(instanceId, bundleId)};
    && pair !! base.Keys
    && head.Keys == base.Keys + pair
    && forall path :: path in base ==> head[path] == base[path]
  }

  lemma DiffSize(rows: seq<DiffRow>, paths: set<ArchivePath>)
    requires forall i, j :: 0 <= i < j < |rows| ==> rows[i] != rows[j]
    requires forall row :: row in rows ==> row.change == Added
    requires paths == set row | row in rows :: row.path
    ensures |paths| == |rows|
  {
    if rows == [] {
      assert paths == {};
    } else {
      var n := |rows| - 1;
      var fewer := set row | row in rows[..n] :: row.path;
      DiffSize(rows[..n], fewer);
      assert forall row :: row in rows <==> row in rows[..n] || row == rows[n];
      assert paths == fewer + {rows[n].path};
    }
  }

  /** Only an empty base may become the exact template. */
  lemma BootstrapMeansTemplate(rows: seq<DiffRow>, base: Tree, head: Tree)
    requires IsDiff(rows, base, head)
    ensures Validate(rows, base, head) == Success(TemplateBootstrap) <==> base == map[] && head.Keys == StaticFiles()
  {
    hide StaticFiles;
    if base == map[] && head.Keys == StaticFiles() {
      var added := set row | row in rows && row.change == Added :: row.path;
      forall path | path in StaticFiles()
        ensures path in added
      {
        assert Changed(base, head, DiffRow(Added, path));
      }
      assert added == StaticFiles();
      assert added == set row | row in rows :: row.path;
      DiffSize(rows, added);
    }
  }

  /** Otherwise exactly one new bundle directory with its two files may be added, and nothing else may change. */
  lemma IngestionMeansOneBundle(rows: seq<DiffRow>, base: Tree, head: Tree)
    requires IsDiff(rows, base, head)
    ensures Validate(rows, base, head) == Success(BundleIngestion) <==>
            exists instanceId, bundleId :: AddsBundle(base, head, instanceId, bundleId)
  {
    if Validate(rows, base, head) == Success(BundleIngestion) {
      AcceptedAdds(rows, base, head);
    }
    if instanceId, bundleId :| AddsBundle(base, head, instanceId, bundleId) {
      AddsAccepted(rows, base, head, instanceId, bundleId);
    }
  }

  lemma AcceptedAdds(rows: seq<DiffRow>, base: Tree, head: Tree)
    requires IsDiff(rows, base, head) && Validate(rows, base, head) == Success(BundleIngestion)
    ensures AddsBundle(base, head, rows[0].path.instanceId, rows[0].path.bundleId)
  {
    hide StaticFiles;
    var pair := {rows[0].path, rows[1].path};
    assert forall row :: row in rows <==> row == rows[0] || row == rows[1];
    assert Changed(base, head, rows[0]) && Changed(base, head, rows[1]);
    forall path | path in base
      ensures path in head && head[path] == base[path]
    {
      assert !Changed(base, head, DiffRow(Deleted, path));
      assert !Changed(base, head, DiffRow(Modified, path));
    }
    forall path | path in head && path !in base
      ensures path in pair
    {
      assert Changed(base, head, DiffRow(Added, path));
    }
  }

  lemma ChangesOfPair(base: Tree, head: Tree, instanceId: string, bundleId: string, row: DiffRow)
    requires AddsBundle(base, head, instanceId, bundleId)
    ensures Changed(base, head, row) <==> row.change == Added && row.path in {BundlePath(instanceId, bundleId), ReceiptPath(instanceId, bundleId)}
  {
  }

  lemma PairAdded(rows: seq<DiffRow>, base: Tree, head: Tree, instanceId: string, bundleId: string)
    requires IsDiff(rows, base, head) && AddsBundle(base, head, instanceId, bundleId)
    ensures |rows| == 2 && rows[0].path != rows[1].path
    ensures forall row :: row in rows ==> row.change == Added && row.path in {BundlePath(instanceId, bundleId), ReceiptPath(instanceId, bundleId)}
  {
    hide AddsBundle, Changed;
    var pair := {BundlePath(instanceId, bundleId), ReceiptPath(instanceId, bundleId)};
    forall row
      ensures row in rows <==> row.change == Added && row.path in pair
    {
      ChangesOfPair(base, head, instanceId, bundleId, row);
    }
    assert forall path :: path in pair ==> DiffRow(Added, path) in rows;
    assert (set row | row in rows :: row.path) == pair;
    DiffSize(rows, pair);
    assert rows[0] in rows && rows[1] in rows;
  }

  lemma AddsAccepted(rows: seq<DiffRow>, base: Tree, head: Tree, instanceId: string, bundleId: string)
    requires IsDiff(rows, base, head) && AddsBundle(base, head, instanceId, bundleId)
    ensures Validate(rows, base, head) == Success(BundleIngestion)
  {
    PairAdded(rows, base, head, instanceId, bundleId);
    assert BundlePath(instanceId, bundleId) in head.Keys && BundlePath(instanceId, bundleId) !in StaticFiles();
    hide StaticFiles, IsDiff, AddsBundle;
    assert rows[0] in rows && rows[1] in rows;
  }

  /** A history in which every revision was accepted as an ingestion into the one before. */
  ghost predicate IngestedHistory(trees: seq<Tree>, diffs: seq<seq<DiffRow>>) {
    && |trees| == |diffs| + 1
    && forall k :: 0 <= k < |diffs| ==> IsDiff(diffs[k], trees[k], trees[k + 1]) && Validate(diffs[k], trees[k], trees[k + 1]).Success?
  }

  /** The archive is append-only over any accepted history: no file is ever removed or rewritten. */
  lemma {:induction false} ArchiveOnlyGrows(trees: seq<Tree>, diffs: seq<seq<DiffRow>>, i: nat, j: nat, path: ArchivePath)
    requires IngestedHistory(trees, diffs) && i <= j < |trees| && path in trees[i]
    ensures path in trees[j] && trees[j][path] == trees[i][path]
  {
    if i < j {
      ArchiveOnlyGrows(trees, diffs, i, j - 1, path);
      var base, head := trees[j - 1], trees[j];
      assert IsDiff(diffs[j - 1], base, head) && Validate(diffs[j - 1], base, head).Success?;
      BootstrapMeansTemplate(diffs[j - 1], base, head);
      IngestionMeansOneBundle(diffs[j - 1], base, head);
    }
  }

  /** What the verifier of the whole archive demands of its files: all static ones, and otherwise only bundles and receipts. */
  predicate Declared(files: set<ArchivePath>) {
    StaticFiles() <= files && forall path :: path in files ==> path in StaticFiles() || !path.OtherPath?
  }

  lemma DeclaredChecks(files: set<ArchivePath>)
    ensures Declared(files) <==> (forall path :: path in files ==> path in StaticFiles() || !path.OtherPath?) && StaticFiles() - files == {}
  {
    hide StaticFiles;
    if StaticFiles() - files == {} {
      forall path | path in StaticFiles()
        ensures path in files
      {
        assert path !in StaticFiles() - files;
      }
    }
  }

  lemma BundleKeepsDeclared(base: Tree, head: Tree, instanceId: string, bundleId: string)
    requires AddsBundle(base, head, instanceId, bundleId)
    ensures Declared(head.Keys) <==> Declared(base.Keys)
  {
    hide StaticFiles;
  }

  lemma TemplateIsDeclared()
    ensures Declared(StaticFiles()) && !Declared({}) && StaticFiles() != {}
  {
    assert OtherPath("README.md") in StaticFiles();
  }

  lemma StepKeepsDeclared(rows: seq<DiffRow>, base: Tree, head: Tree)
    requires IsDiff(rows, base, head) && Validate(rows, base, head).Success? && base != map[]
    ensures Declared(head.Keys) <==> Declared(base.Keys)
    ensures head != map[]
  {
    BootstrapMeansTemplate(rows, base, head);
    IngestionMeansOneBundle(rows, base, head);
    hide Declared, IsDiff, Validate;
    var instanceId, bundleId :| AddsBundle(base, head, instanceId, bundleId);
    BundleKeepsDeclared(base, head, instanceId, bundleId);
    assert BundlePath(instanceId, bundleId) in head.Keys;
  }

  lemma FirstRevision(rows: seq<DiffRow>, head: Tree)
    requires IsDiff(rows, map[], head) && Validate(rows, map[], head).Success?
    ensures head != map[]
    ensures Declared(head.Keys) <==> Validate(rows, map[], head) == Success(TemplateBootstrap)
  {
    BootstrapMeansTemplate(rows, map[], head);
    IngestionMeansOneBundle(rows, map[], head);
    TemplateIsDeclared();
    hide IsDiff, Validate, Declared;
    if head.Keys != StaticFiles() {
      var instanceId, bundleId :| AddsBundle(map[], head, instanceId, bundleId);
      BundleKeepsDeclared(map[], head, instanceId, bundleId);
      assert BundlePath(instanceId, bundleId) in head.Keys;
    } else {
      assert OtherPath("README.md") in head.Keys;
    }
  }

  /**
    Every later revision of an archive that started empty holds exactly the declared files if and only if
    its first accepted revision was the template: a bundle that comes first leaves them out for good.
   */
  lemma {:induction false} DeclaredIffBootstrapped(trees: seq<Tree>, diffs: seq<seq<DiffRow>>, k: nat)
    requires IngestedHistory(trees, diffs) && trees[0] == map[] && 0 < k < |trees|
    ensures trees[k] != map[]
    ensures Declared(trees[k].Keys) <==> Validate(diffs[0], trees[0], trees[1]) == Success(TemplateBootstrap)
  {
    hide Declared, IsDiff, Validate;
    assert IsDiff(diffs[k - 1], trees[k - 1], trees[k]) && Validate(diffs[k - 1], trees[k - 1], trees[k]).Success?;
    if k == 1 {
      FirstRevision(diffs[0], trees[1]);
    } else {
      DeclaredIffBootstrapped(trees, diffs, k - 1);
      StepKeepsDeclared(diffs[k - 1], trees[k - 1], trees[k]);
    }
  }
}
