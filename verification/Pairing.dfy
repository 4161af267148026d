/** Join codes: a validated document, its canonical text in URL-safe base64, and a checksum. */
module Pairing {
  import opened Wrappers
  import opened Base64Url

  /** A value in the document that is read. */
  datatype Value = Text(text: string) | Null | Other(rendered: string)

  type RawDocument = map<string, Value>

  datatype Document = Document(
    clusterId: string,
    domain: string,
    witnessUrl: string,
    pairingSecret: string,
    nodeId: string,
    lane: string,
    campaignCommit: Option<string>)

  datatype CodeError = InvalidDocument | InvalidCode | ChecksumMismatch

  /** Text folding, the patterns for single fields, JSON and the checksum. */
  datatype Formats = Formats(
    lower: string -> string,
    identifier: string -> bool,
    hostname: string -> bool,
    endpoint: string -> bool,
    dumps: Document -> seq<Byte>,
    loads: seq<Byte> -> Option<RawDocument>,
    checksum: seq<Byte> -> string)

  const FORMAT := "mp-opt-ha-join-v2"
  const PREFIX := "MPHA2-"

  function Rendered(value: Value): string {
    match value
    case Text(text) => text
    case Null => "None"
    case Other(rendered) => rendered
  }

  function Field(raw: RawDocument, name: string, default: string): string {
    if name in raw then Rendered(raw[name]) else default
  }

  predicate SecretCharacter(c: char) {
    'A' <= c <= 'Z' || 'a' <= c <= 'z' || '0' <= c <= '9' || c == '_' || c == '-'
  }

  predicate LowerHex(c: char) {
    '0' <= c <= '9' || 'a' <= c <= 'f'
  }

  predicate FullCommit(text: string) {
    |text| == 40 && forall k :: 0 <= k < 40 ==> LowerHex(text[k])
  }

  /** A signed lane carries no commit, an unsigned one exactly a full lower-case commit. */
  function CommitFor(raw: RawDocument, lane: string): Option<Option<string>> {
    var value := if "campaign_commit" in raw then raw["campaign_commit"] else Null;
    if lane == "signed" then (if value.Null? then Some(None) else None)
    else if value.Text? && FullCommit(value.text) then Some(Some(value.text))
    else None
  }

  function Validate(raw: RawDocument, formats: Formats): Result<Document, CodeError> {
    var clusterId := Field(raw, "cluster_id", "");
    var domain := formats.lower(Field(raw, "domain", ""));
    var witnessUrl := StripRight(Field(raw, "witness_url", ""), '/');
    var secret := Field(raw, "pairing_secret", "");
    var nodeId := Field(raw, "node_id", "node-b");
    var lane := Field(raw, "deployment_lane", "");
    if "format" !in raw || raw["format"] != Text(FORMAT) then Failure(InvalidDocument)
    else if !formats.identifier(clusterId) || !formats.hostname(domain) || !formats.endpoint(witnessUrl) then Failure(InvalidDocument)
    else if !(32 <= |secret| <= 256) || exists k :: 0 <= k < |secret| && !SecretCharacter(secret[k]) then Failure(InvalidDocument)
    else if nodeId !in {"node-a", "node-b"} || lane !in {"signed", "unsigned"} || CommitFor(raw, lane).None? then Failure(InvalidDocument)
    else Success(Document(clusterId, domain, witnessUrl, secret, nodeId, lane, CommitFor(raw, lane).value))
  }

  /** The document as its canonical JSON object. */
  function AsRaw(document: Document): RawDocument {
    map["format" := Text(FORMAT),
        "cluster_id" := Text(document.clusterId),
        "domain" := Text(document.domain),
        "witness_url" := Text(document.witnessUrl),
        "pairing_secret" := Text(document.pairingSecret),
        "node_id" := Text(document.nodeId),
        "deployment_lane" := Text(document.lane),
        "campaign_commit" := if document.campaignCommit.Some? then Text(document.campaignCommit.value) else Null]
  }

  predicate Whitespace(c: char) {
    || '\t' <= c <= '\r' || '\U{1C}' <= c <= ' ' || c == '\U{85}' || c == '\U{A0}' || c == '\U{1680}'
    || '\U{2000}' <= c <= '\U{200A}' || c == '\U{2028}' || c == '\U{2029}' || c == '\U{202F}' || c == '\U{205F}' || c == '\U{3000}'
  }

  predicate ChecksumText(text: string) {
    |text| == 10 && forall k :: 0 <= k < 10 ==> '0' <= text[k] <= '9' || 'A' <= text[k] <= 'F'
  }

  /** What the formats provide: folding that is done once, JSON that can be read back, and ten upper-case hex digits. */
  ghost predicate Sound(formats: Formats) {
    && (forall text :: formats.lower(formats.lower(text)) == formats.lower(text))
    && (forall document :: formats.loads(formats.dumps(document)) == Some(AsRaw(document)))
    && (forall raw :: ChecksumText(formats.checksum(raw)))
  }

  function EncodeDocument(raw: RawDocument, formats: Formats): Result<string, CodeError> {
    var document := Validate(raw, formats);
    if document.Failure? then Failure(document.error)
    else
      var bytes := formats.dumps(document.value);
      Success(PREFIX + StripRight(Encode(bytes), '=') + "-" + formats.checksum(bytes))
  }

  /** The text without any whitespace. */
  function Compact(text: string): string {
    if text == [] then []
    else (if Whitespace(text[0]) then [] else [text[0]]) + Compact(text[1..])
  }

  /** The position of the last hyphen, if there is one. */
  function LastHyphen(text: string): Option<nat> {
    if text == [] then None
    else if text[|text| - 1] == '-' then Some(|text| - 1)
    else LastHyphen(text[..|text| - 1])
  }

  lemma {:induction false} LastHyphenInside(text: string)
    ensures LastHyphen(text).Some? ==> LastHyphen(text).value < |text|
  {
    if text != [] {
      LastHyphenInside(text[..|text| - 1]);
    }
  }

  function DecodeCode(value: string, formats: Formats): Result<Document, CodeError> {
    var code := Compact(value);
    if |code| < |PREFIX| || code[..|PREFIX|] != PREFIX then Failure(InvalidCode)
    else
      var body := code[|PREFIX|..];
      var hyphen := LastHyphen(body);
      LastHyphenInside(body);
      if hyphen.None? then Failure(InvalidCode)
      else
        var payload, checksum := body[..hyphen.value], body[hyphen.value + 1..];
        var bytes := Decode(Repadded(payload));
        if bytes.None? then Failure(InvalidCode)
        else if formats.checksum(bytes.value) != checksum then Failure(ChecksumMismatch)
        else
          var raw := formats.loads(bytes.value);
          if raw.None? then Failure(InvalidCode) else Validate(raw.value, formats)
  }

  // ---------------------------------------------------------------------------------------------
  // Validation is done once

  lemma {:induction false} StripRightOnce(text: string, c: char)
    ensures StripRight(StripRight(text, c), c) == StripRight(text, c)
  {
    if text != [] && text[|text| - 1] == c {
      StripRightOnce(text[..|text| - 1], c);
    }
  }

  /** Validating a validated document changes nothing. */
  lemma ValidateIsIdempotent(raw: RawDocument, formats: Formats)
    requires Sound(formats) && Validate(raw, formats).Success?
    ensures Validate(AsRaw(Validate(raw, formats).value), formats) == Validate(raw, formats)
  {
    var document := Validate(raw, formats).value;
    StripRightOnce(Field(raw, "witness_url", ""), '/');
    AsRawFields(document);
    CommitAgain(raw, document.lane, document);
  }

  lemma AsRawFields(document: Document)
    ensures var again := AsRaw(document);
            && "format" in again && again["format"] == Text(FORMAT)
            && Field(again, "cluster_id", "") == document.clusterId
            && Field(again, "domain", "") == document.domain
            && Field(again, "witness_url", "") == document.witnessUrl
            && Field(again, "pairing_secret", "") == document.pairingSecret
            && Field(again, "node_id", "node-b") == document.nodeId
            && Field(again, "deployment_lane", "") == document.lane
  {
  }

  lemma CommitAgain(raw: RawDocument, lane: string, document: Document)
    requires CommitFor(raw, lane) == Some(document.campaignCommit)
    ensures CommitFor(AsRaw(document), lane) == CommitFor(raw, lane)
  {
    hide FullCommit;
    var again := AsRaw(document);
    assert again["campaign_commit"] == if document.campaignCommit.Some? then Text(document.campaignCommit.value) else Null;
    if lane == "signed" {
      assert document.campaignCommit == None;
    } else {
      assert document.campaignCommit.Some?;
      var text := document.campaignCommit.value;
      assert "campaign_commit" in raw && raw["campaign_commit"] == Text(text);
      assert "campaign_commit" in again && again["campaign_commit"] == Text(text);
    }
  }

  // ---------------------------------------------------------------------------------------------
  // Round trip

  /** A text with whitespace inserted anywhere. */
  predicate Spaced(value: string, text: string) {
    if value == [] then text == []
    else (Whitespace(value[0]) && Spaced(value[1..], text)) || (text != [] && value[0] == text[0] && Spaced(value[1..], text[1..]))
  }

  lemma {:induction false} SpacedCompact(value: string, text: string)
    requires Spaced(value, text)
    ensures Compact(value) == Compact(text)
  {
    if value != [] {
      if Whitespace(value[0]) && Spaced(value[1..], text) {
        SpacedCompact(value[1..], text);
      } else {
        SpacedCompact(value[1..], text[1..]);
      }
    }
  }

  lemma {:induction false} CompactSolid(text: string)
    requires forall k :: 0 <= k < |text| ==> !Whitespace(text[k])
    ensures Compact(text) == text
  {
    if text != [] {
      CompactSolid(text[1..]);
    }
  }

  /** The last hyphen of a joined text separates a part that has none. */
  lemma {:induction false} LastHyphenSeparates(before: string, after: string)
    requires '-' !in after
    ensures LastHyphen(before + "-" + after) == Some(|before|)
  {
    var whole := before + "-" + after;
    if after == [] {
      assert whole[|whole| - 1] == '-';
    } else {
      var n := |after| - 1;
      assert whole[|whole| - 1] == after[n] && after[n] in after;
      assert whole[..|whole| - 1] == before + "-" + after[..n];
      LastHyphenSeparates(before, after[..n]);
    }
  }

  lemma CodeIsSolid(bytes: seq<Byte>, checksum: string)
    requires ChecksumText(checksum)
    ensures var code := PREFIX + Bare(bytes) + "-" + checksum;
            forall k :: 0 <= k < |code| ==> !Whitespace(code[k])
    ensures '-' !in checksum
  {
    BareWritten(bytes);
    var payload := Bare(bytes);
    hide Bare;
    forall k | 0 <= k < |payload|
      ensures !Whitespace(payload[k])
    {
      assert Written(payload[k]);
    }
  }

  /**
    Decoding an encoded document, with whitespace inserted anywhere, gives exactly what validating
    the document gives: nothing is lost in the text, the padding, the checksum or the separator.
   */
  lemma {:induction false} JoinCodeRoundTrip(raw: RawDocument, value: string, formats: Formats)
    requires Sound(formats) && EncodeDocument(raw, formats).Success?
    requires Spaced(value, EncodeDocument(raw, formats).value)
    ensures DecodeCode(value, formats) == Validate(raw, formats)
  {
    hide Validate, Compact, Encode, Bare, Repadded, Decode, LastHyphen, Spaced;
    var document := Validate(raw, formats).value;
    var bytes := formats.dumps(document);
    var payload, checksum := Bare(bytes), formats.checksum(bytes);
    var code := EncodeDocument(raw, formats).value;
    StripThenRepad(bytes);
    DecodeEncode(bytes);
    assert ChecksumText(checksum);
    CodeIsSolid(bytes, checksum);
    assert code == PREFIX + payload + "-" + checksum;
    SpacedCompact(value, code);
    CompactSolid(code);
    LastHyphenSeparates(payload, checksum);
    var body := payload + "-" + checksum;
    assert code[..|PREFIX|] == PREFIX && code[|PREFIX|..] == body;
    assert body[..|payload|] == payload && body[|payload| + 1..] == checksum;
    ValidateIsIdempotent(raw, formats);
  }

  /** Whatever is decoded was validated, and encodes to a code that decodes to the same document. */
  lemma DecodedDocumentsReencode(value: string, formats: Formats)
    requires Sound(formats) && DecodeCode(value, formats).Success?
    ensures var document := DecodeCode(value, formats).value;
            var again := EncodeDocument(AsRaw(document), formats);
            again.Success? && DecodeCode(again.value, formats) == Success(document)
  {
    hide Validate, Encode, Bare, Repadded, Decode, LastHyphen, AsRaw;
    var document := DecodeCode(value, formats).value;
    var raw := DecodedRaw(value, formats);
    ValidateIsIdempotent(raw, formats);
    var code := EncodeDocument(AsRaw(document), formats).value;
    Unspaced(code);
    JoinCodeRoundTrip(AsRaw(document), code, formats);
  }

  /** The parsed text of an accepted code. */
  ghost function DecodedRaw(value: string, formats: Formats): (raw: RawDocument)
    requires DecodeCode(value, formats).Success?
    ensures Validate(raw, formats) == DecodeCode(value, formats)
  {
    var body := Compact(value)[|PREFIX|..];
    LastHyphenInside(body);
    formats.loads(Decode(Repadded(body[..LastHyphen(body).value])).value).value
  }

  lemma {:induction false} Unspaced(text: string)
    ensures Spaced(text, text)
  {
    if text != [] {
      Unspaced(text[1..]);
    }
  }
}
