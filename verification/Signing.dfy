/**
 The byte strings that are signed or hashed: DSSE's pre-authentication encoding
 (examples/demo/source_delivery.go:395-398) and the preimage of an envelope id
 (internal/app/evidence.go:319-335).
 */
module Signing {
  import opened Basics
  import opened Bytes

  // ---- DSSE --------------------------------------------------------------------------

  /** "DSSEv1 " */
  const PREFIX: seq<byte> := [68, 83, 83, 69, 118, 49, 32]

  function Field(b: seq<byte>): seq<byte> {
    Decimal(|b|) + [SPACE] + b
  }

  function Pae(payloadType: seq<byte>, payload: seq<byte>): seq<byte> {
    PREFIX + (Field(payloadType) + ([SPACE] + Field(payload)))
  }

  /** Reads one field off the front of `b`. */
  function ReadField(b: seq<byte>): Option<(seq<byte>, seq<byte>)> {
    var i := FirstSpace(b);
    if i == |b| then None
    else
      var n, rest := Value(b[..i]), b[i + 1..];
      if 0 <= n <= |rest| then Some((rest[..n], rest[n..])) else None
  }

  function ReadPae(b: seq<byte>): Option<(seq<byte>, seq<byte>)> {
    if !(PREFIX <= b) then None
    else match ReadField(b[|PREFIX|..])
         case None => None
         case Some((payloadType, rest)) =>
           if rest == [] || rest[0] != SPACE then None
           else match ReadField(rest[1..])
                case None => None
                case Some((payload, end)) => if end == [] then Some((payloadType, payload)) else None
  }

  lemma {:induction false} FieldReads(b: seq<byte>, rest: seq<byte>)
    ensures ReadField(Field(b) + rest) == Some((b, rest))
  {
    var all := Field(b) + rest;
    var d := Decimal(|b|);
    assert all == d + [SPACE] + (b + rest);
    FirstSpaceAfter(d, b + rest);
    assert all[..|d|] == d && all[|d| + 1..] == b + rest;
    ValueOfDecimal(|b|);
    assert (b + rest)[..|b|] == b && (b + rest)[|b|..] == rest;
  }

  /** The signed bytes determine the payload type and the payload, spaces and digits included. */
  lemma {:induction false} PaeReads(payloadType: seq<byte>, payload: seq<byte>)
    ensures ReadPae(Pae(payloadType, payload)) == Some((payloadType, payload))
  {
    var b := Pae(payloadType, payload);
    var tail := [SPACE] + Field(payload);
    assert PREFIX <= b && b[|PREFIX|..] == Field(payloadType) + tail;
    FieldReads(payloadType, tail);
    assert tail[1..] == Field(payload) + [];
    FieldReads(payload, []);
  }

  lemma {:induction false} PaeInjective(t: seq<byte>, p: seq<byte>, t': seq<byte>, p': seq<byte>)
    requires Pae(t, p) == Pae(t', p')
    ensures t == t' && p == p'
  {
    PaeReads(t, p);
    PaeReads(t', p');
  }

  // ---- the envelope id ------------------------------------------------------------------

  /** A hash in progress: what was written to it. */
  class Digest {
    var written: seq<byte>

    constructor ()
      ensures written == []
    {
      written := [];
    }

    method Write(b: seq<byte>)
      modifies this
      ensures written == old(written) + b
    {
      written := written + b;
    }
  }

  function LenPrefixed(b: seq<byte>): seq<byte> {
    BigEndian(|b|, 8) + b
  }

  /** What is hashed for the envelope of one producer, sequence and evidence digest. */
  function Preimage(apiVersion: seq<byte>, producer: seq<byte>, sequence: nat, evidence: seq<byte>): seq<byte> {
    LenPrefixed(apiVersion) + (LenPrefixed(producer) + (BigEndian(sequence, 8) + LenPrefixed(evidence)))
  }

  method WriteLenPrefixed(h: Digest, b: seq<byte>)
    modifies h
    ensures h.written == old(h.written) + LenPrefixed(b)
  {
    var n := new byte[8];
    PutUint64(n, |b|);
    h.Write(n[..]);
    h.Write(b);
  }

  method DefaultEnvelopePreimage(apiVersion: seq<byte>, producer: seq<byte>, sequence: nat, evidence: seq<byte>)
    returns (written: seq<byte>)
    ensures written == Preimage(apiVersion, producer, sequence, evidence)
  {
    var h := new Digest();
    WriteLenPrefixed(h, apiVersion);
    WriteLenPrefixed(h, producer);
    var seqBytes := new byte[8];
    PutUint64(seqBytes, sequence);
    h.Write(seqBytes[..]);
    WriteLenPrefixed(h, evidence);
    written := h.written;
  }

  /** Reads one length-prefixed field off the front of `b`. */
  function ReadLenPrefixed(b: seq<byte>): Option<(seq<byte>, seq<byte>)> {
    if |b| < 8 then None
    else
      var n, rest := FromBigEndian(b[..8]), b[8..];
      if n <= |rest| then Some((rest[..n], rest[n..])) else None
  }

  datatype EnvelopeFields = EnvelopeFields(apiVersion: seq<byte>, producer: seq<byte>, sequence: nat, evidence: seq<byte>)

  function ReadSequence(apiVersion: seq<byte>, producer: seq<byte>, b: seq<byte>): Option<EnvelopeFields> {
    if |b| < 8 then None
    else match ReadLenPrefixed(b[8..])
         case None => None
         case Some((evidence, end)) =>
           if end == [] then Some(EnvelopeFields(apiVersion, producer, FromBigEndian(b[..8]), evidence)) else None
  }

  function ReadPreimage(b: seq<byte>): Option<EnvelopeFields> {
    match ReadLenPrefixed(b)
    case None => None
    case Some((apiVersion, rest)) =>
      match ReadLenPrefixed(rest)
      case None => None
      case Some((producer, tail)) => ReadSequence(apiVersion, producer, tail)
  }

  lemma {:induction false} LenPrefixedReads(b: seq<byte>, rest: seq<byte>)
    requires |b| < Pow256(8)
    ensures ReadLenPrefixed(LenPrefixed(b) + rest) == Some((b, rest))
  {
    var all := LenPrefixed(b) + rest;
    assert all[..8] == BigEndian(|b|, 8) && all[8..] == b + rest;
    BigEndianReads(|b|, 8);
    assert (b + rest)[..|b|] == b && (b + rest)[|b|..] == rest;
  }

  /** No field boundary can be confused with another: the hashed bytes determine every field. */
  lemma {:induction false} PreimageReads(f: EnvelopeFields)
    requires |f.apiVersion| < Pow256(8) && |f.producer| < Pow256(8) && |f.evidence| < Pow256(8) && f.sequence < Pow256(8)
    ensures ReadPreimage(Preimage(f.apiVersion, f.producer, f.sequence, f.evidence)) == Some(f)
  {
    var tail := BigEndian(f.sequence, 8) + LenPrefixed(f.evidence);
    LenPrefixedReads(f.apiVersion, LenPrefixed(f.producer) + tail);
    LenPrefixedReads(f.producer, tail);
    SequenceReads(f);
  }

  lemma {:induction false} SequenceReads(f: EnvelopeFields)
    requires |f.evidence| < Pow256(8) && f.sequence < Pow256(8)
    ensures ReadSequence(f.apiVersion, f.producer, BigEndian(f.sequence, 8) + LenPrefixed(f.evidence)) == Some(f)
  {
    var tail := BigEndian(f.sequence, 8) + LenPrefixed(f.evidence);
    assert tail[..8] == BigEndian(f.sequence, 8) && tail[8..] == LenPrefixed(f.evidence) + [];
    BigEndianReads(f.sequence, 8);
    LenPrefixedReads(f.evidence, []);
  }

  lemma {:induction false} PreimageInjective(f: EnvelopeFields, g: EnvelopeFields)
    requires |f.apiVersion| < Pow256(8) && |f.producer| < Pow256(8) && |f.evidence| < Pow256(8) && f.sequence < Pow256(8)
    requires |g.apiVersion| < Pow256(8) && |g.producer| < Pow256(8) && |g.evidence| < Pow256(8) && g.sequence < Pow256(8)
    requires Preimage(f.apiVersion, f.producer, f.sequence, f.evidence) == Preimage(g.apiVersion, g.producer, g.sequence, g.evidence)
    ensures f == g
  {
    PreimageReads(f);
    PreimageReads(g);
  }

  // ---- known values -----------------------------------------------------------------------

  /** As in the DSSE v1 protocol's own example, "DSSEv1 29 http://example.com/HelloWorld 11 hello world". */
  lemma {:induction false} PaeExample(payloadType: seq<byte>, payload: seq<byte>)
    requires |payloadType| == 29 && |payload| == 11
    ensures Pae(payloadType, payload) ==
            [68, 83, 83, 69, 118, 49, 32, 50, 57, 32] + payloadType + [32, 49, 49, 32] + payload
  {
    assert Decimal(2) == [50] && Decimal(1) == [49];
    assert Decimal(29) == [50] + [57] && Decimal(11) == [49] + [49];
    assert Field(payloadType) == [50, 57, 32] + payloadType && Field(payload) == [49, 49, 32] + payload;
  }

  /** Eight bytes, most significant first. */
  function Eight(n: nat): seq<byte>
    requires n < 65536
  {
    [0, 0, 0, 0, 0, 0, (n / 256) as byte, (n % 256) as byte]
  }

  lemma {:induction false} EightBytes(n: nat)
    requires n < 65536
    ensures BigEndian(n, 8) == Eight(n)
  {
    assert BigEndian(0, 0) == [] && BigEndian(0, 1) == [0] && BigEndian(0, 2) == [0, 0] && BigEndian(0, 3) == [0, 0, 0];
    assert BigEndian(0, 4) == [0, 0, 0, 0] && BigEndian(0, 5) == [0, 0, 0, 0, 0] && BigEndian(0, 6) == [0, 0, 0, 0, 0, 0];
    assert BigEndian(n / 256, 7) == [0, 0, 0, 0, 0, 0] + [(n / 256) as byte];
  }

  /** Version, producer, sequence and evidence in that order, each text after its length in eight bytes. */
  lemma {:induction false} PreimageExample(apiVersion: seq<byte>, producer: seq<byte>, sequence: nat, evidence: seq<byte>)
    requires |apiVersion| < 65536 && |producer| < 65536 && sequence < 65536 && |evidence| < 65536
    ensures Preimage(apiVersion, producer, sequence, evidence) ==
            Eight(|apiVersion|) + apiVersion + Eight(|producer|) + producer + Eight(sequence) + Eight(|evidence|) + evidence
  {
    EightBytes(|apiVersion|);
    EightBytes(|producer|);
    EightBytes(sequence);
    EightBytes(|evidence|);
    JoinedInOrder(BigEndian(|apiVersion|, 8), apiVersion, BigEndian(|producer|, 8), producer, BigEndian(sequence, 8), BigEndian(|evidence|, 8), evidence);
  }

  lemma {:induction false} JoinedInOrder(a: seq<byte>, b: seq<byte>, c: seq<byte>, d: seq<byte>, e: seq<byte>, f: seq<byte>, g: seq<byte>)
    ensures a + b + (c + d + (e + (f + g))) == a + b + c + d + e + f + g
  {
  }
}
