/** The configuration as the program holds it after parsing (src/config.rs). Maps stand for
    the hash maps of named DNS clients and solvers; sequences for the arrays of tables. */
module Config {
  import opened Prelude
  import Names

  datatype Acme = Acme(accountKeyCredential: Option<string>, accountKeyPath: Option<string>, contact: seq<string>)

  datatype DnsClient = DnsClient(
    server: string,
    zone: Option<string>,
    zones: Option<seq<string>>,
    tsigKeyCredential: Option<string>,
    tsigKeyPath: Option<string>)
  {
    /** `all_zones`: the list first, then the single zone unless it is already listed. */
    function AllZones(): seq<string> {
      var listed := if zones.Some? then zones.value else [];
      if zone.Some? && zone.value !in listed then listed + [zone.value] else listed
    }

    function FindZone(name: string): Option<string> {
      Names.FindZone(name, AllZones())
    }
  }

  datatype SolverConfig =
    | Dns01(dns: string, propagationDelay: nat)
    | Http01(listen: Option<seq<string>>, webroot: Option<string>)
    | TlsAlpn01(addresses: seq<string>)

  datatype HookConfig =
    | SystemdReload(unit: string)
    | SystemdRestart(unit: string)
    | Command(command: seq<string>)

  datatype NamedHook = NamedHook(name: string, hook: HookConfig)

  datatype KeyType = EcdsaP256 | EcdsaP384 | Rsa2048 | Rsa4096

  datatype DaneUsage = PkixTa | PkixEe | Ta | Ee
  datatype DaneSelector = FullCert | Spki
  datatype DaneMatching = FullData | Sha256 | Sha512

  datatype Dane = Dane(
    dns: string,
    usage: DaneUsage,
    selector: DaneSelector,
    matching: DaneMatching,
    names: seq<string>,
    ttl: nat,
    prePublish: bool)
  {
    /** The blocks that take part in key pre-publication. */
    predicate PrePublished() {
      prePublish && selector == Spki
    }
  }

  datatype Certificate = Certificate(
    name: string,
    domains: seq<string>,
    keyType: KeyType,
    keyCredential: Option<string>,
    keyPath: Option<string>,
    keyMode: Option<string>,
    certPath: string,
    certMode: Option<string>,
    renewBeforeDays: nat,
    rotateKey: bool,
    solver: Option<string>,
    solvers: Option<seq<string>>,
    dane: seq<Dane>,
    hooks: seq<string>,
    inlineHooks: seq<HookConfig>)
  {
    /** `solver_for_domain`: per-domain list, then the single solver, then the default. */
    function SolverForDomain(index: nat, default: Option<string>): Option<string> {
      if solvers.Some? then (if index < |solvers.value| then Some(solvers.value[index]) else None)
      else if solver.Some? then solver
      else default
    }

    /** Whether a key rotation of this certificate goes through pre-publication. */
    predicate NeedsPrePublish() {
      rotateKey && exists j :: 0 <= j < |dane| && dane[j].PrePublished()
    }
  }

  /** The `--name` filter of the commands. */
  predicate Selected(filter: Option<string>, cert: Certificate) {
    filter.Some? ==> cert.name == filter.value
  }

  datatype Configuration = Configuration(
    acme: Acme,
    defaultSolver: Option<string>,
    dns: map<string, DnsClient>,
    solver: map<string, SolverConfig>,
    hook: seq<NamedHook>,
    certificates: seq<Certificate>)

  const U32_RANGE: nat := 0x1_0000_0000

  /** The digits of an octal number of at most 32 bits, most significant first. */
  function OctalValue(digits: string): Option<nat> {
    if digits == "" then Some(0)
    else
      var last := digits[|digits| - 1];
      match OctalValue(digits[..|digits| - 1])
      case None => None
      case Some(high) =>
        if '0' <= last <= '7' && high * 8 + (last as int - '0' as int) < U32_RANGE
        then Some(high * 8 + (last as int - '0' as int)) else None
  }

  /** `parse_mode`, that is `u32::from_str_radix(s, 8)`: one leading '+' is accepted, an empty
      digit string, a foreign character and an overflow are not. */
  function ParseMode(s: string): Option<nat> {
    var digits := if |s| > 1 && s[0] == '+' then s[1..] else s;
    if digits == "" then None else OctalValue(digits)
  }

  /** An octal numeral without leading zeros. */
  function OctalText(n: nat): (text: string)
    ensures text != ""
  {
    if n < 8 then [('0' as int + n) as char] else OctalText(n / 8) + [('0' as int + n % 8) as char]
  }

  function Zeros(count: nat): string {
    seq(count, _ => '0')
  }

  function ModeText(sign: string, zeros: nat, n: nat): string {
    sign + (Zeros(zeros) + OctalText(n))
  }

  lemma {:induction false} OctalOfZeros(count: nat)
    ensures OctalValue(Zeros(count)) == Some(0)
  {
    if count > 0 {
      OctalOfZeros(count - 1);
      assert Zeros(count)[..count - 1] == Zeros(count - 1);
    }
  }

  lemma {:induction false} OctalIsRead(zeros: nat, n: nat)
    requires n < 0x1_0000_0000
    ensures OctalValue(Zeros(zeros) + OctalText(n)) == Some(n)
    decreases n
  {
    var text := Zeros(zeros) + OctalText(n);
    if n < 8 {
      OctalOfZeros(zeros);
      assert text[..|text| - 1] == Zeros(zeros);
    } else {
      OctalIsRead(zeros, n / 8);
      assert text[..|text| - 1] == Zeros(zeros) + OctalText(n / 8);
    }
  }

  lemma {:induction false} ReadIsOctal(digits: string) returns (zeros: nat)
    requires digits != "" && OctalValue(digits).Some?
    ensures OctalValue(digits).value < 0x1_0000_0000
    ensures digits == Zeros(zeros) + OctalText(OctalValue(digits).value)
  {
    var init, last := digits[..|digits| - 1], digits[|digits| - 1];
    assert digits == init + [last];
    if init == "" {
      zeros := 0;
    } else {
      var high := OctalValue(init).value;
      zeros := ReadIsOctal(init);
      if high == 0 {
        assert init == Zeros(zeros) + "0" && Zeros(zeros + 1) == Zeros(zeros) + "0";
        zeros := zeros + 1;
      } else {
        assert (high * 8 + (last as int - '0' as int)) / 8 == high;
      }
    }
  }

  /** A file mode is accepted exactly if it is an octal numeral of at most 32 bits, with any number
      of leading zeros and at most one sign, and it means that number. */
  lemma ParseModeExactly(s: string, n: nat)
    ensures ParseMode(s) == Some(n) <==>
              n < 0x1_0000_0000 && exists zeros: nat, sign :: sign in ["", "+"] && s == ModeText(sign, zeros, n)
  {
    hide OctalText, OctalValue;
    if ParseMode(s) == Some(n) {
      var digits := if |s| > 1 && s[0] == '+' then s[1..] else s;
      var zeros := ReadIsOctal(digits);
      var sign := if digits == s then "" else "+";
      assert s == sign + digits;
      assert s == ModeText(sign, zeros, n);
    }
    if n < 0x1_0000_0000 && exists zeros: nat, sign :: sign in ["", "+"] && s == ModeText(sign, zeros, n) {
      var zeros: nat, sign :| sign in ["", "+"] && s == ModeText(sign, zeros, n);
      ModeIsRead(sign, zeros, n);
    }
  }

  lemma {:induction false} OctalStart(n: nat)
    ensures '0' <= OctalText(n)[0] <= '7'
  {
    if n >= 8 {
      OctalStart(n / 8);
    }
  }

  lemma ModeIsRead(sign: string, zeros: nat, n: nat)
    requires n < 0x1_0000_0000 && sign in ["", "+"]
    ensures ParseMode(ModeText(sign, zeros, n)) == Some(n)
  {
    hide OctalText, OctalValue;
    var digits := Zeros(zeros) + OctalText(n);
    OctalIsRead(zeros, n);
    OctalStart(n);
    assert '0' <= digits[0] <= '7';
    var s := ModeText(sign, zeros, n);
    if sign == "+" {
      assert s[0] == '+' && s[1..] == digits;
    } else {
      assert s == digits;
    }
  }

  /** A zone of a client: one of the list, or the single one. */
  predicate Serves(d: DnsClient, zone: string) {
    (d.zones.Some? && zone in d.zones.value) || d.zone == Some(zone)
  }

  lemma AllZonesServed(d: DnsClient)
    ensures forall z :: z in d.AllZones() <==> Serves(d, z)
    ensures d.AllZones() == [] <==> forall z :: !Serves(d, z)
  {
    if d.AllZones() != [] {
      assert d.AllZones()[0] in d.AllZones();
    }
  }

  /** A client updates a name in the most specific of its zones that hold it, listed or single. */
  lemma ZoneOfClient(d: DnsClient, name: string)
    requires forall z :: Serves(d, z) ==> Names.WellFormed(z)
    ensures d.FindZone(name).None? <==>
              forall z :: Serves(d, z) ==> !Names.IsSuffix(Names.Labels(z), Names.Labels(name))
    ensures d.FindZone(name).Some? ==>
              var best := d.FindZone(name).value;
              && Serves(d, best) && Names.IsSuffix(Names.Labels(best), Names.Labels(name))
              && forall z :: Serves(d, z) && Names.IsSuffix(Names.Labels(z), Names.Labels(name)) ==>
                   |Names.Labels(z)| <= |Names.Labels(best)|
  {
    AllZonesServed(d);
    Names.FindZoneMostSpecific(name, d.AllZones());
  }

  /** Whatever is written in them, the single zone comes last: it is the answer exactly when it
      matches and no matching zone of the list is longer; else the list decides. */
  lemma SingleZoneLast(d: DnsClient, name: string, single: string)
    requires d.zone == Some(single) && (d.zones.Some? ==> single !in d.zones.value)
    ensures var listed := if d.zones.Some? then d.zones.value else [];
            d.FindZone(name) ==
            if Names.ZoneMatches(name, single)
               && forall z :: z in listed && Names.ZoneMatches(name, z) ==> |z| <= |single|
            then Some(single) else Names.FindZone(name, listed)
  {
    var listed := if d.zones.Some? then d.zones.value else [];
    Names.OneMoreZone(name, listed, single);
    Names.MatchingMembers(name, listed);
    Names.LongestIsMax(Names.Matching(name, listed));
  }

  /** The name under which a DNS-01 challenge for `identifier` is published. */
  function ChallengeName(identifier: string): string {
    "_acme-challenge." + Names.StripPrefix(identifier, "*.")
  }

  /** A wildcard is proved under the name of its base domain (section 8.4 of RFC 8555). */
  lemma ChallengeNames(domain: string)
    ensures ChallengeName("*." + domain) == "_acme-challenge." + domain
    ensures !("*." <= domain) ==> ChallengeName(domain) == "_acme-challenge." + domain
  {
    assert ("*." + domain)[2..] == domain;
  }
}
