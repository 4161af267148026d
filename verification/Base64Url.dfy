/** URL-safe base64 (sections 3.2 and 5 of RFC 4648) as the join codes use it. */
module Base64Url {
  import opened Wrappers

  type Byte = b: int | 0 <= b < 256 witness 0
  type Sextet = v: int | 0 <= v < 64 witness 0

  function Symbol(v: Sextet): char {
    if v < 26 then ('A' as int + v) as char
    else if v < 52 then ('a' as int + v - 26) as char
    else if v < 62 then ('0' as int + v - 52) as char
    else if v == 62 then '-' else '_'
  }

  /** The value of a symbol; both alphabets are read, and anything else is no symbol. */
  function ValueOf(c: char): Option<Sextet> {
    if 'A' <= c <= 'Z' then Some(c as int - 'A' as int)
    else if 'a' <= c <= 'z' then Some(c as int - 'a' as int + 26)
    else if '0' <= c <= '9' then Some(c as int - '0' as int + 52)
    else if c == '-' || c == '+' then Some(62)
    else if c == '_' || c == '/' then Some(63)
    else None
  }

  lemma SymbolValue(v: Sextet)
    ensures ValueOf(Symbol(v)) == Some(v) && Symbol(v) != '='
  {
  }

  /** The symbols of a byte string without padding. */
  function Bare(raw: seq<Byte>): string {
    if raw == [] then ""
    else if |raw| == 1 then
      [Symbol(raw[0] / 4), Symbol(raw[0] % 4 * 16)]
    else if |raw| == 2 then
      [Symbol(raw[0] / 4), Symbol(raw[0] % 4 * 16 + raw[1] / 16), Symbol(raw[1] % 16 * 4)]
    else
      [Symbol(raw[0] / 4), Symbol(raw[0] % 4 * 16 + raw[1] / 16), Symbol(raw[1] % 16 * 4 + raw[2] / 64), Symbol(raw[2] % 64)]
      + Bare(raw[3..])
  }

  function Repeated(c: char, n: nat): string {
    if n == 0 then "" else [c] + Repeated(c, n - 1)
  }

  /** The full encoding: groups of four symbols, the last one padded. */
  function Encode(raw: seq<Byte>): string {
    Bare(raw) + Repeated('=', if |raw| % 3 == 0 then 0 else 3 - |raw| % 3)
  }

  /** Remove every trailing occurrence of a character. */
  function StripRight(text: string, c: char): string {
    if text != [] && text[|text| - 1] == c then StripRight(text[..|text| - 1], c) else text
  }

  /** Padding for a text whose padding was stripped. */
  function Repadded(text: string): string {
    text + Repeated('=', -|text| % 4)
  }

  /** The reader: the position in a group of four, the bits left over, pads seen, and the bytes so far. */
  datatype Reader = Reader(position: nat, bits: nat, pads: nat, bytes: seq<Byte>)

  /** One symbol; the leftover bits always fit the position. */
  predicate ReaderOk(r: Reader) {
    && r.position < 4
    && (r.position == 0 ==> r.bits == 0) && (r.position == 1 ==> r.bits < 64)
    && (r.position == 2 ==> r.bits < 16) && (r.position == 3 ==> r.bits < 4)
  }

  function Read(r: Reader, v: Sextet): (next: Reader)
    requires ReaderOk(r)
    ensures ReaderOk(next)
  {
    if r.position == 0 then Reader(1, v, 0, r.bytes)
    else if r.position == 1 then Reader(2, v % 16, 0, r.bytes + [r.bits * 4 + v / 16])
    else if r.position == 2 then Reader(3, v % 4, 0, r.bytes + [r.bits * 16 + v / 4])
    else Reader(0, 0, 0, r.bytes + [r.bits * 64 + v])
  }

  /**
    Read a text: unknown characters are skipped, and a complete pad sequence ends the input. A text that
    ends inside a group is refused.
   */
  function DecodeFrom(text: string, r: Reader): Option<seq<Byte>>
    requires ReaderOk(r)
    decreases text
  {
    if text == [] then (if r.position == 0 then Some(r.bytes) else None)
    else if text[0] == '=' then
      if r.position >= 2 && r.position + r.pads + 1 >= 4 then Some(r.bytes)
      else DecodeFrom(text[1..], if r.position >= 2 then r.(pads := r.pads + 1) else r)
    else if ValueOf(text[0]).None? then DecodeFrom(text[1..], r)
    else DecodeFrom(text[1..], Read(r, ValueOf(text[0]).value))
  }

  const START := Reader(0, 0, 0, [])

  predicate Ascii(text: string) {
    forall k :: 0 <= k < |text| ==> text[k] < '\U{80}'
  }

  /** Decode a text; one that is not ASCII is refused before it is read. */
  function Decode(text: string): Option<seq<Byte>> {
    if Ascii(text) then DecodeFrom(text, START) else None
  }

  method DecodeText(text: string) returns (result: Option<seq<Byte>>)
    ensures result == Decode(text)
  {
    if !Ascii(text) {
      return None;
    }
    var position, bits, pads, bytes := 0, 0, 0, [];
    var i := 0;
    while i < |text|
      invariant 0 <= i <= |text|
      invariant ReaderOk(Reader(position, bits, pads, bytes))
      invariant DecodeFrom(text[i..], Reader(position, bits, pads, bytes)) == Decode(text)
    {
      var c := text[i];
      assert text[i..][0] == c && text[i..][1..] == text[i + 1..];
      if c == '=' {
        if position >= 2 {
          pads := pads + 1;
          if position + pads >= 4 {
            return Some(bytes);
          }
        }
      } else if ValueOf(c).Some? {
        var next := Read(Reader(position, bits, pads, bytes), ValueOf(c).value);
        position, bits, pads, bytes := next.position, next.bits, next.pads, next.bytes;
      }
      i := i + 1;
    }
    if position != 0 {
      return None;
    }
    return Some(bytes);
  }

  // ---------------------------------------------------------------------------------------------
  // Round trip

  /** Reading one symbol of an encoding. */
  lemma {:induction false} ReadSymbol(v: Sextet, rest: string, r: Reader)
    requires ReaderOk(r)
    ensures DecodeFrom([Symbol(v)] + rest, r) == DecodeFrom(rest, Read(r, v))
  {
    SymbolValue(v);
    assert ([Symbol(v)] + rest)[1..] == rest;
  }

  lemma ReadGroup(a: Byte, b: Byte, c: Byte, rest: string, bytes: seq<Byte>)
    ensures DecodeFrom([Symbol(a / 4), Symbol(a % 4 * 16 + b / 16), Symbol(b % 16 * 4 + c / 64), Symbol(c % 64)] + rest, Reader(0, 0, 0, bytes))
         == DecodeFrom(rest, Reader(0, 0, 0, bytes + [a, b, c]))
  {
    hide Symbol, ValueOf, DecodeFrom;
    var s0, s1, s2, s3 := Symbol(a / 4), Symbol(a % 4 * 16 + b / 16), Symbol(b % 16 * 4 + c / 64), Symbol(c % 64);
    var r0 := Reader(0, 0, 0, bytes);
    var r1 := Read(r0, a / 4);
    var r2 := Read(r1, a % 4 * 16 + b / 16);
    var r3 := Read(r2, b % 16 * 4 + c / 64);
    ReadSymbol(a / 4, [s1, s2, s3] + rest, r0);
    ReadSymbol(a % 4 * 16 + b / 16, [s2, s3] + rest, r1);
    ReadSymbol(b % 16 * 4 + c / 64, [s3] + rest, r2);
    ReadSymbol(c % 64, rest, r3);
    assert [s0, s1, s2, s3] + rest == [s0] + ([s1, s2, s3] + rest);
    assert [s1, s2, s3] + rest == [s1] + ([s2, s3] + rest);
    assert [s2, s3] + rest == [s2] + ([s3] + rest);
    assert r2.bytes == bytes + [a];
    assert r3.bytes == bytes + [a] + [b];
    assert bytes + [a] + [b] + [c] == bytes + [a, b, c];
  }

  lemma PadEnds(r: Reader)
    requires ReaderOk(r) && r.pads == 0 && r.position >= 2
    ensures r.position == 3 ==> DecodeFrom("=", r) == Some(r.bytes)
    ensures r.position == 2 ==> DecodeFrom("==", r) == Some(r.bytes)
  {
    assert "=="[1..] == "=";
  }

  lemma ReadLastTwo(a: Byte, b: Byte, bytes: seq<Byte>)
    ensures DecodeFrom(Bare([a, b]) + "=", Reader(0, 0, 0, bytes)) == Some(bytes + [a, b])
  {
    hide Symbol, ValueOf, DecodeFrom;
    var s0, s1, s2 := Symbol(a / 4), Symbol(a % 4 * 16 + b / 16), Symbol(b % 16 * 4);
    assert Bare([a, b]) == [s0, s1, s2];
    var r0 := Reader(0, 0, 0, bytes);
    var r1 := Read(r0, a / 4);
    var r2 := Read(r1, a % 4 * 16 + b / 16);
    var r3 := Read(r2, b % 16 * 4);
    ReadSymbol(a / 4, [s1, s2] + "=", r0);
    ReadSymbol(a % 4 * 16 + b / 16, [s2] + "=", r1);
    ReadSymbol(b % 16 * 4, "=", r2);
    PadEnds(r3);
    assert [s0, s1, s2] + "=" == [s0] + ([s1, s2] + "=");
    assert [s1, s2] + "=" == [s1] + ([s2] + "=");
    assert r2.bytes == bytes + [a];
    assert r3.bytes == bytes + [a] + [b] == bytes + [a, b];
  }

  lemma ReadLastOne(a: Byte, bytes: seq<Byte>)
    ensures DecodeFrom(Bare([a]) + "==", Reader(0, 0, 0, bytes)) == Some(bytes + [a])
  {
    hide Symbol, ValueOf, DecodeFrom;
    var s0, s1 := Symbol(a / 4), Symbol(a % 4 * 16);
    assert Bare([a]) == [s0, s1];
    var r0 := Reader(0, 0, 0, bytes);
    var r1 := Read(r0, a / 4);
    var r2 := Read(r1, a % 4 * 16);
    ReadSymbol(a / 4, [s1] + "==", r0);
    ReadSymbol(a % 4 * 16, "==", r1);
    PadEnds(r2);
    assert [s0, s1] + "==" == [s0] + ([s1] + "==");
    assert r2.bytes == bytes + [a];
  }

  lemma Pads()
    ensures Repeated('=', 0) == "" && Repeated('=', 1) == "=" && Repeated('=', 2) == "=="
  {
  }

  lemma EncodeOne(a: Byte)
    ensures Encode([a]) == Bare([a]) + "=="
  {
    hide Bare;
    Pads();
  }

  lemma EncodeTwo(a: Byte, b: Byte)
    ensures Encode([a, b]) == Bare([a, b]) + "="
  {
    hide Bare;
    Pads();
  }

  lemma EmptyEncoding()
    ensures Encode([]) == ""
  {
  }

  lemma ReadNothing(bytes: seq<Byte>)
    ensures DecodeFrom("", Reader(0, 0, 0, bytes)) == Some(bytes)
  {
  }

  lemma {:induction false} DecodeBare(raw: seq<Byte>, bytes: seq<Byte>)
    ensures DecodeFrom(Encode(raw), Reader(0, 0, 0, bytes)) == Some(bytes + raw)
    decreases raw
  {
    hide Symbol, ValueOf, DecodeFrom, Bare, Encode;
    if |raw| >= 3 {
      var group := [raw[0], raw[1], raw[2]];
      EncodeGroups(raw);
      ReadGroup(raw[0], raw[1], raw[2], Encode(raw[3..]), bytes);
      DecodeBare(raw[3..], bytes + group);
      assert bytes + group + raw[3..] == bytes + raw;
    } else {
      if raw == [] {
        EmptyEncoding();
        ReadNothing(bytes);
        assert bytes + raw == bytes;
      } else if |raw| == 1 {
        assert raw == [raw[0]];
        EncodeOne(raw[0]);
        ReadLastOne(raw[0], bytes);
      } else {
        assert raw == [raw[0], raw[1]];
        EncodeTwo(raw[0], raw[1]);
        ReadLastTwo(raw[0], raw[1], bytes);
      }
    }
  }

  lemma EncodeGroups(raw: seq<Byte>)
    requires |raw| >= 3
    ensures Encode(raw) ==
      [Symbol(raw[0] / 4), Symbol(raw[0] % 4 * 16 + raw[1] / 16), Symbol(raw[1] % 16 * 4 + raw[2] / 64), Symbol(raw[2] % 64)] + Encode(raw[3..])
  {
    hide Symbol;
    assert |raw[3..]| % 3 == |raw| % 3;
  }

  /** A symbol that an encoder writes. */
  predicate Written(c: char) {
    c != '=' && c != '+' && c != '/' && ValueOf(c).Some?
  }

  lemma SymbolWritten(v: Sextet)
    ensures Written(Symbol(v))
  {
  }

  lemma {:induction false} BareWritten(raw: seq<Byte>)
    ensures forall k :: 0 <= k < |Bare(raw)| ==> Written(Bare(raw)[k])
    decreases raw
  {
    hide Symbol, Written;
    forall v: Sextet
      ensures Written(Symbol(v))
    {
      SymbolWritten(v);
    }
    if |raw| >= 3 {
      BareWritten(raw[3..]);
    }
  }

  lemma {:induction false} EncodingIsAscii(raw: seq<Byte>)
    ensures Ascii(Encode(raw))
  {
    hide Bare, Repeated, Symbol;
    BareWritten(raw);
    Pads();
    forall k | 0 <= k < |Bare(raw)|
      ensures Bare(raw)[k] < '\U{80}'
    {
      assert Written(Bare(raw)[k]);
    }
  }

  /** Decoding an encoding gives the bytes back. */
  lemma DecodeEncode(raw: seq<Byte>)
    ensures Decode(Encode(raw)) == Some(raw)
  {
    hide Encode, Ascii;
    EncodingIsAscii(raw);
    DecodeBare(raw, []);
    assert [] + raw == raw;
  }

  lemma {:induction false} BareLength(raw: seq<Byte>)
    ensures |Bare(raw)| == |raw| / 3 * 4 + (if |raw| % 3 == 0 then 0 else |raw| % 3 + 1)
    decreases raw
  {
    hide Symbol;
    if |raw| >= 3 {
      BareLength(raw[3..]);
    }
  }

  lemma {:induction false} StripRepeated(text: string, c: char, n: nat)
    requires text == [] || text[|text| - 1] != c
    ensures StripRight(text + Repeated(c, n), c) == text
  {
    hide Repeated;
    assert Repeated(c, 0) == "" by { RepeatedNone(c); }
    if n == 0 {
      assert text + Repeated(c, 0) == text;
    } else {
      RepeatedSnoc(c, n - 1);
      var whole := text + Repeated(c, n);
      assert whole[|whole| - 1] == c && whole[..|whole| - 1] == text + Repeated(c, n - 1);
      StripRepeated(text, c, n - 1);
    }
  }

  lemma RepeatedNone(c: char)
    ensures Repeated(c, 0) == ""
  {
  }

  lemma {:induction false} RepeatedSnoc(c: char, n: nat)
    ensures Repeated(c, n + 1) == Repeated(c, n) + [c]
  {
    if n > 0 {
      RepeatedSnoc(c, n - 1);
    }
  }

  /** Stripping the padding and adding back what the length calls for restores the encoding. */
  lemma StripThenRepad(raw: seq<Byte>)
    ensures StripRight(Encode(raw), '=') == Bare(raw)
    ensures Repadded(Bare(raw)) == Encode(raw)
  {
    hide Bare, Repeated, StripRight, ValueOf;
    BareLength(raw);
    BareWritten(raw);
    var pads := if |raw| % 3 == 0 then 0 else 3 - |raw| % 3;
    StripRepeated(Bare(raw), '=', pads);
    PaddingFits(|raw|, |Bare(raw)|);
  }

  lemma PaddingFits(n: int, length: int)
    requires 0 <= n && length == n / 3 * 4 + (if n % 3 == 0 then 0 else n % 3 + 1)
    ensures -length % 4 == if n % 3 == 0 then 0 else 3 - n % 3
  {
  }
}
