/** The hand-written DER encoder for EC public keys (src/keys.rs) against a DER reader. */
module SpkiDer {
  import opened Prelude

  const SEQUENCE: Byte := 0x30
  const BIT_STRING: Byte := 0x03
  const OBJECT_IDENTIFIER: Byte := 0x06

  /** id-ecPublicKey, secp256r1 and secp384r1, each with its tag and length. */
  const EC_PUBLIC_KEY_OID: Bytes := [0x06, 0x07, 0x2a, 0x86, 0x48, 0xce, 0x3d, 0x02, 0x01]
  const EC_P256_OID: Bytes := [0x06, 0x08, 0x2a, 0x86, 0x48, 0xce, 0x3d, 0x03, 0x01, 0x07]
  const EC_P384_OID: Bytes := [0x06, 0x05, 0x2b, 0x81, 0x04, 0x00, 0x22]

  /** A growing byte vector, as the encoder's `&mut Vec<u8>` parameter is. */
  class Buffer {
    var bytes: Bytes

    constructor (initial: Bytes)
      ensures bytes == initial
    {
      bytes := initial;
    }

    method Push(b: Byte)
      modifies this
      ensures bytes == old(bytes) + [b]
    {
      bytes := bytes + [b];
    }

    method Extend(more: Bytes)
      modifies this
      ensures bytes == old(bytes) + more
    {
      bytes := bytes + more;
    }
  }

  /** What `encode_asn1_length` appends. Both casts to `u8` keep the low eight bits. */
  function LengthOctets(len: nat): Bytes {
    if len < 0x80 then [len]
    else if len < 0x100 then [0x81, len]
    else [0x82, (len / 0x100) % 0x100, len % 0x100]
  }

  function Tlv(tag: Byte, content: Bytes): Bytes {
    [tag] + LengthOctets(|content|) + content
  }

  /** What `wrap_ec_spki` returns: SEQUENCE { SEQUENCE { algorithm, curve }, BIT STRING }. */
  function Wrapped(publicKey: Bytes, curveOid: Bytes): Bytes {
    Tlv(SEQUENCE, Tlv(SEQUENCE, EC_PUBLIC_KEY_OID + curveOid) + Tlv(BIT_STRING, [0] + publicKey))
  }

  /** Appending the parts one by one builds the whole value. */
  lemma TlvAssembled(tag: Byte, first: Bytes, second: Bytes)
    ensures [tag] + LengthOctets(|first| + |second|) + first + second == Tlv(tag, first + second)
  {
  }

  // ----- An independent reader, strict as section 10.1 of X.690 asks -----

  /** The definite form with the fewest octets; lengths of more than two octets are refused,
      since no structure here can need them. */
  function ReadLength(b: Bytes): Option<(nat, Bytes)> {
    if |b| >= 1 && b[0] < 0x80 then Some((b[0], b[1..]))
    else if |b| >= 2 && b[0] == 0x81 && b[1] >= 0x80 then Some((b[1], b[2..]))
    else if |b| >= 3 && b[0] == 0x82 && b[1] > 0 then Some((b[1] as nat * 0x100 + b[2] as nat, b[3..]))
    else None
  }

  /** One value with the given tag: its content and what follows it. */
  function ReadTlv(tag: Byte, b: Bytes): Option<(Bytes, Bytes)> {
    if |b| == 0 || b[0] != tag then None
    else
      match ReadLength(b[1..])
      case None => None
      case Some((len, rest)) => if len <= |rest| then Some((rest[..len], rest[len..])) else None
  }

  datatype PublicKeyInfo = PublicKeyInfo(algorithm: Bytes, curve: Bytes, key: Bytes)

  /** The whole input must be one SubjectPublicKeyInfo with two object identifiers and a bit
      string of whole bytes. */
  function ReadSpki(b: Bytes): Option<PublicKeyInfo> {
    match ReadTlv(SEQUENCE, b)
    case None => None
    case Some((body, after)) =>
      if after != [] then None
      else
        match ReadTlv(SEQUENCE, body)
        case None => None
        case Some((ids, bits)) =>
          match (ReadTlv(OBJECT_IDENTIFIER, ids), ReadTlv(BIT_STRING, bits))
          case (Some((algorithm, more)), Some((key, end))) =>
            (match ReadTlv(OBJECT_IDENTIFIER, more)
             case Some((curve, done)) =>
               if done == [] && end == [] && |key| > 0 && key[0] == 0
               then Some(PublicKeyInfo(algorithm, curve, key[1..]))
               else None
             case None => None)
          case _ => None
  }

  /** Two-octet lengths are read back exactly up to 65535; past that the encoder wraps. */
  lemma LengthRoundTrip(len: nat, rest: Bytes)
    ensures ReadLength(LengthOctets(len) + rest) == Some((len, rest)) <==> len < 0x1_0000
  {
  }

  /** The reader accepts one spelling of each length, and it is the encoder's: so the lengths
      the encoder writes are minimal. */
  lemma LengthIsCanonical(b: Bytes)
    requires ReadLength(b).Some?
    ensures b == LengthOctets(ReadLength(b).value.0) + ReadLength(b).value.1
  {
  }

  /** Appending a length keeps what is in the buffer, and a reader of what was appended gets the
      length back, followed by whatever comes after it, exactly when it is below 65536; from there
      on the two length bytes wrap. */
  method EncodeAsn1Length(len: nat, buf: Buffer)
    modifies buf
    ensures buf.bytes == old(buf.bytes) + LengthOctets(len)
    ensures forall rest: Bytes ::
              ReadLength(buf.bytes[|old(buf.bytes)|..] + rest) == Some((len, rest)) <==> len < 0x1_0000
  {
    ghost var before := buf.bytes;
    if len < 0x80 {
      buf.Push(len);
    } else if len < 0x100 {
      buf.Push(0x81);
      buf.Push(len);
    } else {
      buf.Push(0x82);
      buf.Push((len / 0x100) % 0x100);
      buf.Push(len % 0x100);
    }
    assert buf.bytes[|before|..] == LengthOctets(len);
    forall rest: Bytes
      ensures ReadLength(LengthOctets(len) + rest) == Some((len, rest)) <==> len < 0x1_0000
    {
      LengthRoundTrip(len, rest);
    }
  }

  lemma TlvRoundTrip(tag: Byte, content: Bytes, rest: Bytes)
    requires |content| < 0x1_0000
    ensures ReadTlv(tag, Tlv(tag, content) + rest) == Some((content, rest))
  {
    var b := Tlv(tag, content) + rest;
    assert b[1..] == LengthOctets(|content|) + (content + rest);
    LengthRoundTrip(|content|, content + rest);
    assert (content + rest)[..|content|] == content;
    assert (content + rest)[|content|..] == rest;
  }

  predicate KnownCurve(curveOid: Bytes) {
    curveOid == EC_P256_OID || curveOid == EC_P384_OID
  }

  /** The longest public key whose encoding is still well formed. */
  function KeyBound(curveOid: Bytes): nat {
    if curveOid == EC_P256_OID then 65_509 else 65_512
  }

  lemma IdentifiersRead(curveOid: Bytes)
    requires KnownCurve(curveOid)
    ensures ReadTlv(OBJECT_IDENTIFIER, EC_PUBLIC_KEY_OID + curveOid) == Some((EC_PUBLIC_KEY_OID[2..], curveOid))
    ensures ReadTlv(OBJECT_IDENTIFIER, curveOid) == Some((curveOid[2..], []))
  {
    assert EC_PUBLIC_KEY_OID == Tlv(OBJECT_IDENTIFIER, EC_PUBLIC_KEY_OID[2..]);
    TlvRoundTrip(OBJECT_IDENTIFIER, EC_PUBLIC_KEY_OID[2..], curveOid);
    assert curveOid == Tlv(OBJECT_IDENTIFIER, curveOid[2..]);
    TlvRoundTrip(OBJECT_IDENTIFIER, curveOid[2..], []);
    assert curveOid + [] == curveOid;
  }

  /** An encoding longer than a two-octet length can say is never read back as one value. */
  lemma OverlongIsUnreadable(content: Bytes)
    requires |content| >= 0x1_0000
    ensures ReadTlv(SEQUENCE, Tlv(SEQUENCE, content)).Some? ==> ReadTlv(SEQUENCE, Tlv(SEQUENCE, content)).value.1 != []
  {
  }

  /** The reader recovers both identifiers and the key bytes exactly up to the bound: 65509
      bytes on P-256 and 65512 on P-384. One byte more and the two-byte length wraps. */
  lemma SpkiRoundTrip(publicKey: Bytes, curveOid: Bytes)
    requires KnownCurve(curveOid)
    ensures ReadSpki(Wrapped(publicKey, curveOid)) ==
              if |publicKey| <= KeyBound(curveOid)
              then Some(PublicKeyInfo(EC_PUBLIC_KEY_OID[2..], curveOid[2..], publicKey)) else None
  {
    var ids := EC_PUBLIC_KEY_OID + curveOid;
    var bits := [0] + publicKey;
    var body := Tlv(SEQUENCE, ids) + Tlv(BIT_STRING, bits);
    assert |Tlv(SEQUENCE, ids)| == 2 + |ids|;
    if |publicKey| <= KeyBound(curveOid) {
      TlvRoundTrip(SEQUENCE, body, []);
      assert Tlv(SEQUENCE, body) + [] == Wrapped(publicKey, curveOid);
      TlvRoundTrip(SEQUENCE, ids, Tlv(BIT_STRING, bits));
      TlvRoundTrip(BIT_STRING, bits, []);
      assert Tlv(BIT_STRING, bits) + [] == Tlv(BIT_STRING, bits);
      IdentifiersRead(curveOid);
      assert bits[1..] == publicKey;
    } else {
      OverlongIsUnreadable(body);
    }
  }

  /** The wrapped key is read back as the key it wraps, up to the bound of `SpkiRoundTrip`. */
  method WrapEcSpki(publicKey: Bytes, curveOid: Bytes) returns (spki: Bytes)
    ensures spki == Wrapped(publicKey, curveOid)
    ensures KnownCurve(curveOid) ==>
              ReadSpki(spki) ==
              if |publicKey| <= KeyBound(curveOid)
              then Some(PublicKeyInfo(EC_PUBLIC_KEY_OID[2..], curveOid[2..], publicKey)) else None
  {
    hide ReadSpki, ReadLength, KnownCurve, KeyBound;
    var algId := new Buffer([SEQUENCE]);
    EncodeAsn1Length(|EC_PUBLIC_KEY_OID| + |curveOid|, algId);
    algId.Extend(EC_PUBLIC_KEY_OID);
    algId.Extend(curveOid);
    TlvAssembled(SEQUENCE, EC_PUBLIC_KEY_OID, curveOid);

    var bitString := new Buffer([BIT_STRING]);
    EncodeAsn1Length(1 + |publicKey|, bitString);
    bitString.Push(0x00);
    bitString.Extend(publicKey);
    TlvAssembled(BIT_STRING, [0], publicKey);

    var out := new Buffer([SEQUENCE]);
    EncodeAsn1Length(|algId.bytes| + |bitString.bytes|, out);
    out.Extend(algId.bytes);
    out.Extend(bitString.bytes);
    TlvAssembled(SEQUENCE, algId.bytes, bitString.bytes);
    spki := out.bytes;
    if KnownCurve(curveOid) {
      SpkiRoundTrip(publicKey, curveOid);
    }
  }

  /** Within the bound, two different keys, or one key on two curves, never share an encoding. */
  lemma WrappedIsInjective(key1: Bytes, curve1: Bytes, key2: Bytes, curve2: Bytes)
    requires KnownCurve(curve1) && KnownCurve(curve2)
    requires |key1| <= KeyBound(curve1) && |key2| <= KeyBound(curve2)
    requires Wrapped(key1, curve1) == Wrapped(key2, curve2)
    ensures key1 == key2 && curve1 == curve2
  {
    SpkiRoundTrip(key1, curve1);
    SpkiRoundTrip(key2, curve2);
    assert |EC_P256_OID[2..]| != |EC_P384_OID[2..]|;
  }

  /** A P-256 public key is an uncompressed point of 65 bytes; its SubjectPublicKeyInfo is that of
      section 2 of RFC 5480, octet for octet. */
  lemma P256Octets(publicKey: Bytes)
    requires |publicKey| == 65
    ensures Wrapped(publicKey, EC_P256_OID) ==
              [0x30, 0x59, 0x30, 0x13, 0x06, 0x07, 0x2a, 0x86, 0x48, 0xce, 0x3d, 0x02, 0x01,
               0x06, 0x08, 0x2a, 0x86, 0x48, 0xce, 0x3d, 0x03, 0x01, 0x07, 0x03, 0x42, 0x00] + publicKey
  {
  }

  /** The same for P-384 and its 97 bytes. */
  lemma P384Octets(publicKey: Bytes)
    requires |publicKey| == 97
    ensures Wrapped(publicKey, EC_P384_OID) ==
              [0x30, 0x76, 0x30, 0x10, 0x06, 0x07, 0x2a, 0x86, 0x48, 0xce, 0x3d, 0x02, 0x01,
               0x06, 0x05, 0x2b, 0x81, 0x04, 0x00, 0x22, 0x03, 0x62, 0x00] + publicKey
  {
  }
}
