/**
  The signed, hash-chained evidence ledger of one instance: verifying a chain, appending one
  record, and what hash chaining says about two chains that share a head.

  A digest is idealised: `Sha(r)` is the SHA-256 of the canonical bytes of `r`, so equal digests
  mean equal records. A ledger directory is the sequence of its record files in file-name order.
  Treating one append as atomic, a file is never without its signature.
 */
module EvidenceManifest {
  import opened Wrappers

  /** UUIDs and other identifiers are never empty. */
  type Identifier = s: string | s != "" witness "0"

  /** UUIDv5 of a name inside the chain's namespace, idealised as injective. */
  datatype RecordId = RecordId(chainId: Identifier, name: string)

  /** A payload maps each field to the canonical rendering of its value. */
  type Payload = map<string, string>

  datatype Record = Record(
    instanceId: Identifier,
    chainId: Identifier,
    sequence: nat,
    recordId: RecordId,
    recordType: string,
    createdAt: nat,
    previous: Digest,
    auditTail: Option<string>,
    payload: Payload)

  datatype Digest = Genesis | Sha(content: Record)

  /** One record file: the two parts of its name, its record, and the key that signed it. */
  datatype LedgerFile = LedgerFile(fileSequence: nat, fileId: RecordId, record: Record, signedBy: string)

  datatype ChainSummary = ChainSummary(records: nat, instanceId: Identifier, chainId: Identifier, head: Digest)

  datatype LedgerError = EmptyLedger | BrokenChain | RecordIdReused | InconsistentSequence

  datatype AppendRequest = AppendRequest(
    instanceId: Identifier,
    chainId: Identifier,
    recordType: string,
    payload: Payload,
    auditTail: Option<string>,
    recordId: RecordId,
    createdAt: nat)

  /** The digest that a record at position `i` must name as its predecessor. */
  function HeadAt(files: seq<LedgerFile>, i: nat): Digest
    requires i <= |files|
  {
    if i == 0 then Genesis else Sha(files[i - 1].record)
  }

  function Head(files: seq<LedgerFile>): Digest {
    HeadAt(files, |files|)
  }

  function Records(files: seq<LedgerFile>): (records: seq<Record>)
    ensures |records| == |files|
    ensures forall i :: 0 <= i < |files| ==> records[i] == files[i].record
  {
    seq(|files|, i requires 0 <= i < |files| => files[i].record)
  }

  predicate LinkOk(files: seq<LedgerFile>, key: string, i: nat)
    requires i < |files|
  {
    var f := files[i];
    && f.fileSequence == i + 1
    && f.record.sequence == i + 1
    && f.record.previous == HeadAt(files, i)
    && f.record.chainId == files[0].record.chainId
    && f.record.instanceId == files[0].record.instanceId
    && f.signedBy == key
  }

  /** The chains that the verifier accepts under one public key. */
  predicate ChainOk(files: seq<LedgerFile>, key: string) {
    && files != []
    && forall i :: 0 <= i < |files| ==> LinkOk(files, key, i)
  }

  function Summary(files: seq<LedgerFile>): ChainSummary
    requires files != []
  {
    ChainSummary(|files|, files[0].record.instanceId, files[0].record.chainId, Head(files))
  }

  /** The record an append at the end of `files` writes. */
  function NextRecord(files: seq<LedgerFile>, request: AppendRequest): Record {
    Record(request.instanceId, request.chainId, |files| + 1, request.recordId, request.recordType,
           request.createdAt, Head(files), request.auditTail, request.payload)
  }

  function NextFile(files: seq<LedgerFile>, request: AppendRequest, key: string): LedgerFile {
    LedgerFile(|files| + 1, request.recordId, NextRecord(files, request), key)
  }

  predicate IdInUse(files: seq<LedgerFile>, id: RecordId) {
    exists i :: 0 <= i < |files| && files[i].fileId == id
  }

  predicate SameEvidence(record: Record, request: AppendRequest) {
    && record.instanceId == request.instanceId
    && record.chainId == request.chainId
    && record.recordType == request.recordType
    && record.payload == request.payload
    && record.auditTail == request.auditTail
  }

  /** The ledger directory of one instance, with the key that signs and verifies it. */
  class Ledger {
    var files: seq<LedgerFile>
    const key: string

    constructor (key: string)
      ensures files == [] && this.key == key
    {
      this.files := [];
      this.key := key;
    }

    method VerifyChain() returns (r: Result<ChainSummary, LedgerError>)
      ensures r.Success? <==> ChainOk(files, key)
      ensures r.Success? ==> r.value == Summary(files)
      ensures r == Failure(EmptyLedger) <==> files == []
    {
      if files == [] {
        return Failure(EmptyLedger);
      }
      var expectedPrevious := Genesis;
      var chainId: Option<Identifier>, instanceId: Option<Identifier> := None, None;
      var i := 0;
      while i < |files|
        invariant 0 <= i <= |files|
        invariant expectedPrevious == HeadAt(files, i)
        invariant i == 0 ==> chainId == None
        invariant i > 0 ==> chainId == Some(files[0].record.chainId) && instanceId == Some(files[0].record.instanceId)
        invariant forall j :: 0 <= j < i ==> LinkOk(files, key, j)
      {
        var f := files[i];
        if f.fileSequence != i + 1 || f.record.sequence != i + 1 || f.record.previous != expectedPrevious {
          assert !LinkOk(files, key, i);
          return Failure(BrokenChain);
        }
        if chainId == None {
          chainId, instanceId := Some(f.record.chainId), Some(f.record.instanceId);
        } else if f.record.chainId != chainId.value || f.record.instanceId != instanceId.value {
          assert !LinkOk(files, key, i);
          return Failure(BrokenChain);
        }
        if f.signedBy != key {
          assert !LinkOk(files, key, i);
          return Failure(BrokenChain);
        }
        expectedPrevious := Sha(f.record);
        i := i + 1;
      }
      return Success(ChainSummary(|files|, instanceId.value, chainId.value, expectedPrevious));
    }

    /** Append one record, or return the file that already holds the same evidence under its id. */
    method Append(request: AppendRequest) returns (r: Result<Record, LedgerError>)
      modifies this
      ensures files == AppendedFiles(old(files), request, key)
      ensures r.Success? <==> AppendAccepted(old(files), request, key)
      ensures r.Success? ==> r.value == WrittenRecord(old(files), request)
    {
      var i := 0;
      while i < |files|
        invariant 0 <= i <= |files|
        invariant files == old(files)
        invariant forall j :: 0 <= j < i ==> files[j].fileId != request.recordId
      {
        if files[i].fileId == request.recordId {
          assert IdInUse(files, request.recordId);
          assert FirstUse(files, request.recordId) == i by { FirstUseIs(files, request.recordId, i); }
          if SameEvidence(files[i].record, request) && files[i].signedBy == key {
            return Success(files[i].record);
          }
          return Failure(RecordIdReused);
        }
        i := i + 1;
      }
      if files != [] && files[|files| - 1].record.sequence != |files| {
        return Failure(InconsistentSequence);
      }
      var record := NextRecord(files, request);
      files := files + [NextFile(files, request, key)];
      return Success(record);
    }
  }

  function FirstUse(files: seq<LedgerFile>, id: RecordId): (i: nat)
    requires IdInUse(files, id)
    ensures i < |files| && files[i].fileId == id
  {
    if files[0].fileId == id then 0 else FirstUse(files[1..], id) + 1
  }

  lemma {:induction false} FirstUseIs(files: seq<LedgerFile>, id: RecordId, i: nat)
    requires i < |files| && files[i].fileId == id
    requires forall j :: 0 <= j < i ==> files[j].fileId != id
    ensures IdInUse(files, id) && FirstUse(files, id) == i
  {
    if i > 0 {
      FirstUseIs(files[1..], id, i - 1);
    }
  }

  /** Whether an append is accepted, be it as a new record or as a replay of the same evidence. */
  predicate AppendAccepted(files: seq<LedgerFile>, request: AppendRequest, key: string) {
    if IdInUse(files, request.recordId) then
      var f := files[FirstUse(files, request.recordId)];
      SameEvidence(f.record, request) && f.signedBy == key
    else
      files != [] ==> files[|files| - 1].record.sequence == |files|
  }

  /** The record an accepted append answers with: the one already under its id, or the new one. */
  function WrittenRecord(files: seq<LedgerFile>, request: AppendRequest): Record {
    if IdInUse(files, request.recordId) then files[FirstUse(files, request.recordId)].record else NextRecord(files, request)
  }

  function AppendedFiles(files: seq<LedgerFile>, request: AppendRequest, key: string): seq<LedgerFile> {
    if AppendAccepted(files, request, key) && !IdInUse(files, request.recordId) then
      files + [NextFile(files, request, key)]
    else
      files
  }

  /** A chain stays a chain of the same instance when an unused record id is appended. */
  lemma AppendKeepsChain(files: seq<LedgerFile>, request: AppendRequest, key: string)
    requires files != [] ==> ChainOk(files, key)
    requires files != [] ==> request.chainId == files[0].record.chainId && request.instanceId == files[0].record.instanceId
    requires !IdInUse(files, request.recordId)
    ensures AppendAccepted(files, request, key)
    ensures ChainOk(AppendedFiles(files, request, key), key)
  {
    var files' := files + [NextFile(files, request, key)];
    if files != [] {
      assert LinkOk(files, key, |files| - 1);
    }
    forall i | 0 <= i < |files'|
      ensures LinkOk(files', key, i)
    {
      if i < |files| {
        assert LinkOk(files, key, i);
        assert HeadAt(files', i) == HeadAt(files, i);
      } else {
        assert HeadAt(files', i) == Head(files);
      }
    }
  }

  lemma ChainPrefix(files: seq<LedgerFile>, key: string, n: nat)
    requires ChainOk(files, key) && 0 < n <= |files|
    ensures ChainOk(files[..n], key)
  {
    forall i | 0 <= i < n
      ensures LinkOk(files[..n], key, i)
    {
      assert LinkOk(files, key, i);
    }
  }

  /** Two chains that agree on a record agree on everything before it. */
  lemma {:induction false} SharedRecordSharesPast(a: seq<LedgerFile>, b: seq<LedgerFile>, keyA: string, keyB: string, i: nat)
    requires ChainOk(a, keyA) && ChainOk(b, keyB)
    requires i < |a| && i < |b| && a[i].record == b[i].record
    ensures forall j :: 0 <= j <= i ==> a[j].record == b[j].record
  {
    if i > 0 {
      assert LinkOk(a, keyA, i) && LinkOk(b, keyB, i);
      SharedRecordSharesPast(a, b, keyA, keyB, i - 1);
    }
  }

  /** The head of one verified chain occurs in another exactly when the first is a prefix of the second. */
  lemma HeadOccursIffPrefix(a: seq<LedgerFile>, b: seq<LedgerFile>, keyA: string, keyB: string)
    requires ChainOk(a, keyA) && ChainOk(b, keyB)
    ensures (exists j :: 0 <= j < |b| && Sha(b[j].record) == Head(a)) <==> Records(a) <= Records(b)
  {
    if j :| 0 <= j < |b| && Sha(b[j].record) == Head(a) {
      assert LinkOk(a, keyA, |a| - 1) && LinkOk(b, keyB, j);
      assert j == |a| - 1;
      SharedRecordSharesPast(a, b, keyA, keyB, j);
      assert Records(a) == Records(b)[..|a|];
    }
    if Records(a) <= Records(b) {
      var j := |a| - 1;
      assert Records(a)[j] == Records(b)[j];
      assert Sha(b[j].record) == Head(a);
    }
  }

  /** Equal heads of verified chains mean equal chains. */
  lemma EqualHeadsEqualChains(a: seq<LedgerFile>, b: seq<LedgerFile>, keyA: string, keyB: string)
    requires ChainOk(a, keyA) && ChainOk(b, keyB)
    requires Head(a) == Head(b)
    ensures Records(a) == Records(b)
  {
    assert LinkOk(a, keyA, |a| - 1) && LinkOk(b, keyB, |b| - 1);
    SharedRecordSharesPast(a, b, keyA, keyB, |a| - 1);
  }
}
