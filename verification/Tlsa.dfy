/** TLSA records: how they are computed (src/dns/tlsa.rs, src/dane.rs) and how they travel
    (src/dns/update.rs). The digest is a parameter: every statement holds for any hash. */
module Tlsa {
  import opened Prelude
  import opened Config

  /** The digest used for each matching type; `FullData` never consults it. */
  type Hasher = (DaneMatching, Bytes) -> Bytes

  datatype Record = Record(usage: Byte, selector: Byte, matching: Byte, data: Bytes)

  function UsageCode(u: DaneUsage): Byte {
    match u case PkixTa => 0 case PkixEe => 1 case Ta => 2 case Ee => 3
  }

  function SelectorCode(s: DaneSelector): Byte {
    match s case FullCert => 0 case Spki => 1
  }

  function MatchingCode(m: DaneMatching): Byte {
    match m case FullData => 0 case Sha256 => 1 case Sha512 => 2
  }

  function Associate(hash: Hasher, matching: DaneMatching, data: Bytes): Bytes {
    if matching == FullData then data else hash(matching, data)
  }

  /** A leaf certificate: its encoding, the public key inside it and its expiry. */
  datatype Leaf = Leaf(der: Bytes, spki: Bytes, notAfter: int)

  /** `TlsaRecord::from_certificate`. */
  function FromCertificate(hash: Hasher, leaf: Leaf, block: Dane): Record {
    var data := match block.selector case FullCert => leaf.der case Spki => leaf.spki;
    Record(UsageCode(block.usage), SelectorCode(block.selector), MatchingCode(block.matching),
           Associate(hash, block.matching, data))
  }

  /** `TlsaRecord::from_spki`, for a key whose public part is `spki`. */
  function FromSpki(hash: Hasher, spki: Bytes, block: Dane): Record {
    Record(UsageCode(block.usage), SelectorCode(DaneSelector.Spki), MatchingCode(block.matching),
           Associate(hash, block.matching, spki))
  }

  datatype TlsaError = NeedsSpkiSelector

  /** `compute_tlsa_records`: one copy of the record for each name. */
  function ComputeRecords(hash: Hasher, leaf: Leaf, block: Dane): seq<Record> {
    seq(|block.names|, _ => FromCertificate(hash, leaf, block))
  }

  /** `compute_tlsa_from_key`. */
  function ComputeFromKey(hash: Hasher, spki: Bytes, block: Dane): Result<seq<Record>, TlsaError> {
    if block.selector != DaneSelector.Spki then Err(NeedsSpkiSelector)
    else Ok(seq(|block.names|, _ => FromSpki(hash, spki, block)))
  }

  /** Key-derived and certificate-derived records agree, for every usage, matching type and
      digest, exactly when the block associates the public key. This is what lets a record be
      published before the certificate exists. */
  lemma KeyRecordIsCertificateRecord(hash: Hasher, leaf: Leaf, block: Dane)
    ensures block.selector == DaneSelector.Spki
            <==> FromCertificate(hash, leaf, block) == FromSpki(hash, leaf.spki, block)
    ensures block.selector == DaneSelector.Spki && |block.names| > 0 ==>
              ComputeFromKey(hash, leaf.spki, block) == Ok(ComputeRecords(hash, leaf, block))
  {
  }

  // ----- The wire: enum types of the DNS library and their byte codes -----

  datatype CertUsage =
    | UsagePkixTa
    | UsagePkixEe
    | UsageDaneTa
    | UsageDaneEe
    | UsageUnassigned(code: Byte)
    | UsagePrivate
  datatype SelectorField = SelFull | SelSpki | SelUnassigned(code: Byte) | SelPrivate
  datatype MatchingField = MatRaw | MatSha256 | MatSha512 | MatUnassigned(code: Byte) | MatPrivate

  datatype RData = RData(usage: CertUsage, selector: SelectorField, matching: MatchingField, data: Bytes)

  /** `tlsa_to_rdata`: the library's private-use constants are never chosen here. */
  function ToRData(r: Record): RData {
    RData(
      if r.usage == 0 then UsagePkixTa else if r.usage == 1 then UsagePkixEe
      else if r.usage == 2 then UsageDaneTa else if r.usage == 3 then UsageDaneEe else UsageUnassigned(r.usage),
      if r.selector == 0 then SelFull else if r.selector == 1 then SelSpki else SelUnassigned(r.selector),
      if r.matching == 0 then MatRaw else if r.matching == 1 then MatSha256
      else if r.matching == 2 then MatSha512 else MatUnassigned(r.matching),
      r.data)
  }

  function UsageByte(u: CertUsage): Byte {
    match u
    case UsagePkixTa => 0 case UsagePkixEe => 1 case UsageDaneTa => 2 case UsageDaneEe => 3
    case UsageUnassigned(n) => n case UsagePrivate => 255
  }

  function SelectorByte(s: SelectorField): Byte {
    match s case SelFull => 0 case SelSpki => 1 case SelUnassigned(n) => n case SelPrivate => 255
  }

  function MatchingByte(m: MatchingField): Byte {
    match m case MatRaw => 0 case MatSha256 => 1 case MatSha512 => 2 case MatUnassigned(n) => n case MatPrivate => 255
  }

  /** The RDATA of section 2.1 of RFC 6698: three octets and the association data. */
  function Encode(d: RData): Bytes {
    [UsageByte(d.usage), SelectorByte(d.selector), MatchingByte(d.matching)] + d.data
  }

  /** How the library reads an answer: 255 becomes the private-use constant. */
  function Decode(wire: Bytes): Option<RData> {
    if |wire| < 3 then None
    else Some(RData(
      match wire[0] case 0 => UsagePkixTa case 1 => UsagePkixEe case 2 => UsageDaneTa case 3 => UsageDaneEe
                    case n => if n == 255 then UsagePrivate else UsageUnassigned(n),
      match wire[1] case 0 => SelFull case 1 => SelSpki case n => if n == 255 then SelPrivate else SelUnassigned(n),
      match wire[2] case 0 => MatRaw case 1 => MatSha256 case 2 => MatSha512
                    case n => if n == 255 then MatPrivate else MatUnassigned(n),
      wire[3..]))
  }

  /** `query_tlsa` turns an answer back into the program's own record. */
  function FromRData(d: RData): Record {
    Record(UsageByte(d.usage), SelectorByte(d.selector), MatchingByte(d.matching), d.data)
  }

  /** A record read back from the server is the record that was sent, for all byte values of
      the three fields, although 255 comes back as a different constant. */
  lemma RecordRoundTrip(r: Record)
    ensures Decode(Encode(ToRData(r))).Some?
    ensures FromRData(Decode(Encode(ToRData(r))).value) == r
  {
  }

  // ----- What a client reads -----

  /** The octets of a record on the wire, as section 2.1 of RFC 6698 assigns them, and the data: the
      certificate or the public key, as it is or under the digest that the block names. */
  predicate OnTheWire(hash: Hasher, der: Bytes, spki: Bytes, block: Dane, wire: Bytes) {
    && |wire| >= 3
    && wire[0] == (match block.usage case PkixTa => 0 case PkixEe => 1 case Ta => 2 case Ee => 3)
    && wire[1] == (match block.selector case FullCert => 0 case Spki => 1)
    && wire[2] == (match block.matching case FullData => 0 case Sha256 => 1 case Sha512 => 2)
    && var input := if block.selector == FullCert then der else spki;
       wire[3..] == (match block.matching
                     case FullData => input
                     case Sha256 => hash(DaneMatching.Sha256, input)
                     case Sha512 => hash(DaneMatching.Sha512, input))
  }

  /** What a resolver library makes of it. */
  predicate ReadAs(hash: Hasher, der: Bytes, spki: Bytes, block: Dane, d: RData) {
    && (d.usage == UsagePkixTa <==> block.usage == PkixTa) && (d.usage == UsagePkixEe <==> block.usage == PkixEe)
    && (d.usage == UsageDaneTa <==> block.usage == Ta) && (d.usage == UsageDaneEe <==> block.usage == Ee)
    && (d.selector == SelFull <==> block.selector == FullCert) && (d.selector == SelSpki <==> block.selector == Spki)
    && (d.matching == MatRaw <==> block.matching == FullData)
    && (d.matching == MatSha256 <==> block.matching == Sha256)
    && (d.matching == MatSha512 <==> block.matching == Sha512)
    && var input := if block.selector == FullCert then der else spki;
       d.data == if block.matching == FullData then input else hash(block.matching, input)
  }

  /** The record published for a certificate says on the wire, and to a client, what the block says
      in the configuration. */
  lemma CertificateOnTheWire(hash: Hasher, leaf: Leaf, block: Dane)
    ensures var wire := Encode(ToRData(FromCertificate(hash, leaf, block)));
            && OnTheWire(hash, leaf.der, leaf.spki, block, wire)
            && Decode(wire).Some? && ReadAs(hash, leaf.der, leaf.spki, block, Decode(wire).value)
  {
  }

  /** So does the record published for a key before there is a certificate for it. */
  lemma KeyOnTheWire(hash: Hasher, der: Bytes, spki: Bytes, block: Dane)
    requires block.selector == DaneSelector.Spki
    ensures var wire := Encode(ToRData(FromSpki(hash, spki, block)));
            && OnTheWire(hash, der, spki, block, wire)
            && Decode(wire).Some? && ReadAs(hash, der, spki, block, Decode(wire).value)
  {
  }
}
