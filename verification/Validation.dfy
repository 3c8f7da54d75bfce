/** `Config::validate` (src/config.rs) against a declarative reading of a valid configuration.

    The hash maps are walked by picking any remaining key, so what is proved of the verdict
    holds for every iteration order. Whether a string is an IP address is a parameter. */
module Validation {
  import opened Prelude
  import opened Config

  type IpTest = string -> bool

  datatype ConfigError =
    | AcmeWithoutKey
    | AcmeWithoutContact
    | UnknownDefaultSolver(solver: string)
    | DnsWithoutTsigKey(client: string)
    | DnsWithoutZone(client: string)
    | DuplicateHook(hook: string)
    | EmptyHookCommand(hook: string)
    | UnknownSolverDns(solver: string, client: string)
    | HttpWithoutMode(solver: string)
    | HttpWithBothModes(solver: string)
    | DuplicateCertificate(certificate: string)
    | BadCertificate(certificate: string, why: CertificateError)

  datatype CertificateError =
    | EmptyName
    | NoDomains
    | NoKeyLocation
    | BadKeyMode(mode: string)
    | BadCertMode(mode: string)
    | SolverAndSolvers
    | SolversLength
    | NoSolver(domain: string)
    | UnknownSolver(solver: string)
    | Dns01OnIp(domain: string)
    | DomainOutsideZones(domain: string, client: string)
    | EmptyDaneNames
    | UnknownDaneDns(client: string)
    | DaneNameOutsideZones(daneName: string, client: string)
    | UnknownHook(hook: string)
    | EmptyInlineCommand

  // ----- The declarative reading -----

  predicate ValidAcme(a: Acme) {
    (a.accountKeyCredential.Some? || a.accountKeyPath.Some?) && a.contact != []
  }

  predicate ValidDefaultSolver(c: Configuration) {
    c.defaultSolver.Some? ==> c.defaultSolver.value in c.solver
  }

  predicate ValidDnsClient(d: DnsClient) {
    (d.tsigKeyCredential.Some? || d.tsigKeyPath.Some?) && d.AllZones() != []
  }

  predicate RunnableHook(h: HookConfig) {
    h.Command? ==> h.command != []
  }

  predicate DistinctNames(names: seq<string>) {
    forall i, k :: 0 <= i < k < |names| ==> names[i] != names[k]
  }

  function HookNames(hooks: seq<NamedHook>): (names: seq<string>)
    ensures |names| == |hooks| && forall i :: 0 <= i < |hooks| ==> names[i] == hooks[i].name
  {
    seq(|hooks|, i requires 0 <= i < |hooks| => hooks[i].name)
  }

  function CertificateNames(certs: seq<Certificate>): (names: seq<string>)
    ensures |names| == |certs| && forall i :: 0 <= i < |certs| ==> names[i] == certs[i].name
  {
    seq(|certs|, i requires 0 <= i < |certs| => certs[i].name)
  }

  predicate ValidHooks(hooks: seq<NamedHook>) {
    DistinctNames(HookNames(hooks)) && forall i :: 0 <= i < |hooks| ==> RunnableHook(hooks[i].hook)
  }

  predicate ValidSolver(c: Configuration, s: SolverConfig) {
    match s
    case Dns01(dns, _) => dns in c.dns
    case Http01(listen, webroot) => listen.Some? != webroot.Some?
    case TlsAlpn01(_) => true
  }

  predicate ValidMode(mode: Option<string>) {
    mode.Some? ==> ParseMode(mode.value).Some?
  }

  /** Every domain has a defined solver; DNS-01 is never used for an address and always finds
      a zone for the challenge name. */
  predicate ValidDomain(c: Configuration, isIp: IpTest, cert: Certificate, i: nat)
    requires i < |cert.domains|
  {
    var name := cert.SolverForDomain(i, c.defaultSolver);
    && name.Some? && name.value in c.solver
    && (c.solver[name.value].Dns01? ==>
          && !isIp(cert.domains[i])
          && (c.solver[name.value].dns in c.dns ==>
                c.dns[c.solver[name.value].dns].FindZone(ChallengeName(cert.domains[i])).Some?))
  }

  predicate ValidDane(c: Configuration, d: Dane) {
    d.names != [] && d.dns in c.dns && forall k :: 0 <= k < |d.names| ==> c.dns[d.dns].FindZone(d.names[k]).Some?
  }

  predicate ValidHookReferences(c: Configuration, cert: Certificate) {
    forall k :: 0 <= k < |cert.hooks| ==> cert.hooks[k] in HookNames(c.hook)
  }

  predicate ValidCertificate(c: Configuration, isIp: IpTest, cert: Certificate) {
    && cert.name != "" && cert.domains != []
    && (cert.keyCredential.Some? || cert.keyPath.Some?)
    && ValidMode(cert.keyMode) && ValidMode(cert.certMode)
    && !(cert.solver.Some? && cert.solvers.Some?)
    && (cert.solvers.Some? ==> |cert.solvers.value| == |cert.domains|)
    && (forall i :: 0 <= i < |cert.domains| ==> ValidDomain(c, isIp, cert, i))
    && (forall j :: 0 <= j < |cert.dane| ==> ValidDane(c, cert.dane[j]))
    && ValidHookReferences(c, cert)
    && (forall k :: 0 <= k < |cert.inlineHooks| ==> RunnableHook(cert.inlineHooks[k]))
  }

  predicate ValidConfig(c: Configuration, isIp: IpTest) {
    && ValidAcme(c.acme) && ValidDefaultSolver(c)
    && (forall n :: n in c.dns ==> ValidDnsClient(c.dns[n]))
    && ValidHooks(c.hook)
    && (forall n :: n in c.solver ==> ValidSolver(c, c.solver[n]))
    && ValidCertificates(c, isIp)
  }

  predicate ValidCertificates(c: Configuration, isIp: IpTest) {
    && DistinctNames(CertificateNames(c.certificates))
    && (forall i :: 0 <= i < |c.certificates| ==> ValidCertificate(c, isIp, c.certificates[i]))
  }

  /** Every block has a name, so the first of its records exists. */
  predicate AllNamed(certs: seq<Certificate>) {
    forall i, j :: 0 <= i < |certs| && 0 <= j < |certs[i].dane| ==> certs[i].dane[j].names != []
  }

  lemma ValidIsNamed(c: Configuration, isIp: IpTest)
    requires ValidConfig(c, isIp)
    ensures AllNamed(c.certificates)
  {
    forall i, j | 0 <= i < |c.certificates| && 0 <= j < |c.certificates[i].dane|
      ensures c.certificates[i].dane[j].names != []
    {
      assert ValidCertificate(c, isIp, c.certificates[i]);
      assert ValidDane(c, c.certificates[i].dane[j]);
    }
  }

  // ----- What each error asserts about the configuration -----

  ghost predicate Explains(c: Configuration, isIp: IpTest, e: ConfigError) {
    match e
    case AcmeWithoutKey => c.acme.accountKeyCredential.None? && c.acme.accountKeyPath.None?
    case AcmeWithoutContact => c.acme.contact == []
    case UnknownDefaultSolver(s) => c.defaultSolver == Some(s) && s !in c.solver
    case DnsWithoutTsigKey(n) => n in c.dns && c.dns[n].tsigKeyCredential.None? && c.dns[n].tsigKeyPath.None?
    case DnsWithoutZone(n) => n in c.dns && c.dns[n].AllZones() == []
    case DuplicateHook(n) => exists i, k :: 0 <= i < k < |c.hook| && c.hook[i].name == c.hook[k].name == n
    case EmptyHookCommand(n) => NamedHook(n, Command([])) in c.hook
    case UnknownSolverDns(s, n) => s in c.solver && c.solver[s].Dns01? && c.solver[s].dns == n && n !in c.dns
    case HttpWithoutMode(s) => s in c.solver && c.solver[s] == Http01(None, None)
    case HttpWithBothModes(s) =>
      s in c.solver && c.solver[s].Http01? && c.solver[s].listen.Some? && c.solver[s].webroot.Some?
    case DuplicateCertificate(n) =>
      exists i, k :: 0 <= i < k < |c.certificates| && c.certificates[i].name == c.certificates[k].name == n
    case BadCertificate(n, why) =>
      exists i ::
        && 0 <= i < |c.certificates| && c.certificates[i].name == n
        && ExplainsIn(c, isIp, c.certificates[i], why)
  }

  ghost predicate ExplainsIn(c: Configuration, isIp: IpTest, cert: Certificate, why: CertificateError) {
    match why
    case EmptyName => cert.name == ""
    case NoDomains => cert.domains == []
    case NoKeyLocation => cert.keyCredential.None? && cert.keyPath.None?
    case BadKeyMode(m) => cert.keyMode == Some(m) && ParseMode(m).None?
    case BadCertMode(m) => cert.certMode == Some(m) && ParseMode(m).None?
    case SolverAndSolvers => cert.solver.Some? && cert.solvers.Some?
    case SolversLength => cert.solvers.Some? && |cert.solvers.value| != |cert.domains|
    case NoSolver(d) =>
      exists i: nat :: i < |cert.domains| && cert.domains[i] == d && cert.SolverForDomain(i, c.defaultSolver).None?
    case UnknownSolver(s) =>
      s !in c.solver && exists i: nat :: i < |cert.domains| && cert.SolverForDomain(i, c.defaultSolver) == Some(s)
    case Dns01OnIp(d) =>
      isIp(d) && exists i: nat :: i < |cert.domains| && cert.domains[i] == d && UsesDns01(c, cert, i)
    case DomainOutsideZones(d, n) =>
      exists i: nat :: i < |cert.domains| && cert.domains[i] == d && UsesDns01(c, cert, i)
        && c.solver[cert.SolverForDomain(i, c.defaultSolver).value].dns == n && n in c.dns
        && c.dns[n].FindZone(ChallengeName(d)).None?
    case EmptyDaneNames => exists j :: 0 <= j < |cert.dane| && ExplainsDane(c, cert.dane[j], why)
    case UnknownDaneDns(_) => exists j :: 0 <= j < |cert.dane| && ExplainsDane(c, cert.dane[j], why)
    case DaneNameOutsideZones(_, _) => exists j :: 0 <= j < |cert.dane| && ExplainsDane(c, cert.dane[j], why)
    case UnknownHook(h) => h in cert.hooks && h !in HookNames(c.hook)
    case EmptyInlineCommand => Command([]) in cert.inlineHooks
  }

  predicate ExplainsDane(c: Configuration, d: Dane, why: CertificateError) {
    match why
    case EmptyDaneNames => d.names == []
    case UnknownDaneDns(n) => n == d.dns && n !in c.dns
    case DaneNameOutsideZones(m, n) => n == d.dns && n in c.dns && m in d.names && c.dns[n].FindZone(m).None?
    case _ => false
  }

  predicate UsesDns01(c: Configuration, cert: Certificate, i: nat) {
    var name := cert.SolverForDomain(i, c.defaultSolver);
    name.Some? && name.value in c.solver && c.solver[name.value].Dns01?
  }

  // ----- The checker, loop by loop -----

  method CheckDnsClients(c: Configuration, isIp: IpTest) returns (r: Result<(), ConfigError>)
    ensures r.Ok? <==> forall n :: n in c.dns ==> ValidDnsClient(c.dns[n])
    ensures r.Err? ==> Explains(c, isIp, r.error)
  {
    var remaining := c.dns.Keys;
    while remaining != {}
      invariant remaining <= c.dns.Keys
      invariant forall n :: n in c.dns && n !in remaining ==> ValidDnsClient(c.dns[n])
      decreases remaining
    {
      var name :| name in remaining;
      var dns := c.dns[name];
      if dns.tsigKeyCredential.None? && dns.tsigKeyPath.None? {
        return Err(DnsWithoutTsigKey(name));
      }
      if dns.AllZones() == [] {
        return Err(DnsWithoutZone(name));
      }
      remaining := remaining - {name};
    }
    return Ok(());
  }

  method CheckHooks(c: Configuration, isIp: IpTest) returns (r: Result<(), ConfigError>)
    ensures r.Ok? <==> ValidHooks(c.hook)
    ensures r.Err? ==> Explains(c, isIp, r.error)
  {
    var seen: set<string> := {};
    for k := 0 to |c.hook|
      invariant forall i :: 0 <= i < k ==> c.hook[i].name in seen
      invariant forall n :: n in seen ==> exists i :: 0 <= i < k && c.hook[i].name == n
      invariant forall i, l :: 0 <= i < l < k ==> c.hook[i].name != c.hook[l].name
      invariant forall i :: 0 <= i < k ==> RunnableHook(c.hook[i].hook)
    {
      var h := c.hook[k];
      if h.name in seen {
        return Err(DuplicateHook(h.name));
      }
      seen := seen + {h.name};
      if h.hook.Command? && h.hook.command == [] {
        assert c.hook[k] == NamedHook(h.name, Command([]));
        return Err(EmptyHookCommand(h.name));
      }
    }
    return Ok(());
  }

  method CheckSolvers(c: Configuration, isIp: IpTest) returns (r: Result<(), ConfigError>)
    ensures r.Ok? <==> forall n :: n in c.solver ==> ValidSolver(c, c.solver[n])
    ensures r.Err? ==> Explains(c, isIp, r.error)
  {
    var remaining := c.solver.Keys;
    while remaining != {}
      invariant remaining <= c.solver.Keys
      invariant forall n :: n in c.solver && n !in remaining ==> ValidSolver(c, c.solver[n])
      decreases remaining
    {
      var name :| name in remaining;
      match c.solver[name] {
        case Dns01(dns, _) =>
          if dns !in c.dns {
            return Err(UnknownSolverDns(name, dns));
          }
        case Http01(listen, webroot) =>
          if listen.None? && webroot.None? {
            return Err(HttpWithoutMode(name));
          }
          if listen.Some? && webroot.Some? {
            return Err(HttpWithBothModes(name));
          }
        case TlsAlpn01(_) =>
      }
      remaining := remaining - {name};
    }
    return Ok(());
  }

  method CheckDomains(c: Configuration, isIp: IpTest, cert: Certificate) returns (r: Result<(), CertificateError>)
    ensures r.Ok? <==> forall i :: 0 <= i < |cert.domains| ==> ValidDomain(c, isIp, cert, i)
    ensures r.Err? ==> ExplainsIn(c, isIp, cert, r.error)
  {
    for i := 0 to |cert.domains|
      invariant forall k :: 0 <= k < i ==> ValidDomain(c, isIp, cert, k)
    {
      var domain := cert.domains[i];
      var solverName := cert.SolverForDomain(i, c.defaultSolver);
      if solverName.None? {
        assert !ValidDomain(c, isIp, cert, i);
        return Err(NoSolver(domain));
      }
      var name := solverName.value;
      if name !in c.solver {
        assert !ValidDomain(c, isIp, cert, i);
        return Err(UnknownSolver(name));
      }
      if isIp(domain) && c.solver[name].Dns01? {
        assert UsesDns01(c, cert, i) && !ValidDomain(c, isIp, cert, i);
        return Err(Dns01OnIp(domain));
      }
      if c.solver[name].Dns01? && c.solver[name].dns in c.dns {
        if c.dns[c.solver[name].dns].FindZone(ChallengeName(domain)).None? {
          assert UsesDns01(c, cert, i) && !ValidDomain(c, isIp, cert, i);
          return Err(DomainOutsideZones(domain, c.solver[name].dns));
        }
      }
    }
    return Ok(());
  }

  /** The first name outside the client's zones, if any. */
  method FirstOutside(client: DnsClient, names: seq<string>) returns (outside: Option<string>)
    ensures outside.None? ==> forall k :: 0 <= k < |names| ==> client.FindZone(names[k]).Some?
    ensures outside.Some? ==> outside.value in names && client.FindZone(outside.value).None?
  {
    hide *;
    for k := 0 to |names|
      invariant forall l :: 0 <= l < k ==> client.FindZone(names[l]).Some?
    {
      var zone := client.FindZone(names[k]);
      if zone.None? {
        return Some(names[k]);
      }
    }
    return None;
  }

  method CheckDaneBlock(c: Configuration, dane: Dane) returns (r: Result<(), CertificateError>)
    ensures r.Ok? <==> ValidDane(c, dane)
    ensures r.Err? ==> ExplainsDane(c, dane, r.error)
  {
    if dane.names == [] {
      return Err(EmptyDaneNames);
    }
    if dane.dns !in c.dns {
      return Err(UnknownDaneDns(dane.dns));
    }
    var outside := FirstOutside(c.dns[dane.dns], dane.names);
    if outside.Some? {
      return Err(DaneNameOutsideZones(outside.value, dane.dns));
    }
    return Ok(());
  }

  method CheckDane(c: Configuration, isIp: IpTest, cert: Certificate) returns (r: Result<(), CertificateError>)
    ensures r.Ok? <==> forall j :: 0 <= j < |cert.dane| ==> ValidDane(c, cert.dane[j])
    ensures r.Err? ==> ExplainsIn(c, isIp, cert, r.error)
  {
    for j := 0 to |cert.dane|
      invariant forall k :: 0 <= k < j ==> ValidDane(c, cert.dane[k])
    {
      r := CheckDaneBlock(c, cert.dane[j]);
      if r.Err? {
        return;
      }
    }
    return Ok(());
  }

  method CheckHookUse(c: Configuration, isIp: IpTest, cert: Certificate) returns (r: Result<(), CertificateError>)
    ensures r.Ok? <==> ValidHookReferences(c, cert)
                       && forall k :: 0 <= k < |cert.inlineHooks| ==> RunnableHook(cert.inlineHooks[k])
    ensures r.Err? ==> ExplainsIn(c, isIp, cert, r.error)
  {
    for k := 0 to |cert.hooks|
      invariant forall l :: 0 <= l < k ==> cert.hooks[l] in HookNames(c.hook)
    {
      if cert.hooks[k] !in HookNames(c.hook) {
        return Err(UnknownHook(cert.hooks[k]));
      }
    }
    for k := 0 to |cert.inlineHooks|
      invariant forall l :: 0 <= l < k ==> RunnableHook(cert.inlineHooks[l])
    {
      if cert.inlineHooks[k].Command? && cert.inlineHooks[k].command == [] {
        assert cert.inlineHooks[k] == Command([]);
        return Err(EmptyInlineCommand);
      }
    }
    return Ok(());
  }

  method CheckCertificate(c: Configuration, isIp: IpTest, cert: Certificate) returns (r: Result<(), CertificateError>)
    requires cert.name != ""
    ensures r.Ok? <==> ValidCertificate(c, isIp, cert)
    ensures r.Err? ==> ExplainsIn(c, isIp, cert, r.error)
  {
    if cert.domains == [] {
      return Err(NoDomains);
    }
    if cert.keyCredential.None? && cert.keyPath.None? {
      return Err(NoKeyLocation);
    }
    if cert.keyMode.Some? && ParseMode(cert.keyMode.value).None? {
      return Err(BadKeyMode(cert.keyMode.value));
    }
    if cert.certMode.Some? && ParseMode(cert.certMode.value).None? {
      return Err(BadCertMode(cert.certMode.value));
    }
    if cert.solver.Some? && cert.solvers.Some? {
      return Err(SolverAndSolvers);
    }
    if cert.solvers.Some? && |cert.solvers.value| != |cert.domains| {
      return Err(SolversLength);
    }
    r := CheckDomains(c, isIp, cert);
    if r.Err? {
      return;
    }
    r := CheckDane(c, isIp, cert);
    if r.Err? {
      return;
    }
    r := CheckHookUse(c, isIp, cert);
  }

  method CheckNamedCertificate(c: Configuration, isIp: IpTest, cert: Certificate, seen: set<string>)
    returns (r: Result<(), ConfigError>)
    ensures r.Ok? <==> cert.name !in seen && ValidCertificate(c, isIp, cert)
    ensures r.Err? ==>
              || (r.error == DuplicateCertificate(cert.name) && cert.name in seen)
              || (r.error.BadCertificate? && r.error.certificate == cert.name
                  && ExplainsIn(c, isIp, cert, r.error.why))
  {
    if cert.name == "" {
      return Err(BadCertificate("", EmptyName));
    }
    if cert.name in seen {
      return Err(DuplicateCertificate(cert.name));
    }
    var checked := CheckCertificate(c, isIp, cert);
    if checked.Err? {
      return Err(BadCertificate(cert.name, checked.error));
    }
    return Ok(());
  }

  method CheckCertificates(c: Configuration, isIp: IpTest) returns (r: Result<(), ConfigError>)
    ensures r.Ok? <==> ValidCertificates(c, isIp)
    ensures r.Err? ==> Explains(c, isIp, r.error)
  {
    ghost var names := CertificateNames(c.certificates);
    var seen: set<string> := {};
    for k := 0 to |c.certificates|
      invariant forall n :: n in seen <==> n in names[..k]
      invariant DistinctNames(names[..k])
      invariant forall i :: 0 <= i < k ==> ValidCertificate(c, isIp, c.certificates[i])
    {
      var cert := c.certificates[k];
      r := CheckNamedCertificate(c, isIp, cert, seen);
      if r.Err? {
        if cert.name in seen {
          ghost var i :| 0 <= i < k && names[..k][i] == cert.name;
          assert names[i] == names[k];
        }
        return;
      }
      seen := seen + {cert.name};
      assert names[..k + 1] == names[..k] + [cert.name];
    }
    assert names[..|c.certificates|] == names;
    return Ok(());
  }

  /** `validate` accepts exactly the valid configurations, whatever order the hash maps are
      walked in, and the error it reports is true of the configuration it rejects. */
  method Validate(c: Configuration, isIp: IpTest) returns (r: Result<(), ConfigError>)
    ensures r.Ok? <==> ValidConfig(c, isIp)
    ensures r.Err? ==> Explains(c, isIp, r.error)
  {
    if c.acme.accountKeyCredential.None? && c.acme.accountKeyPath.None? {
      return Err(AcmeWithoutKey);
    }
    if c.acme.contact == [] {
      return Err(AcmeWithoutContact);
    }
    if c.defaultSolver.Some? && c.defaultSolver.value !in c.solver {
      return Err(UnknownDefaultSolver(c.defaultSolver.value));
    }
    r := CheckDnsClients(c, isIp);
    if r.Err? {
      return;
    }
    r := CheckHooks(c, isIp);
    if r.Err? {
      return;
    }
    r := CheckSolvers(c, isIp);
    if r.Err? {
      return;
    }
    r := CheckCertificates(c, isIp);
  }

  /** No error can be reported about a valid configuration: every explanation is a violation. */
  lemma ExplainedIsInvalid(c: Configuration, isIp: IpTest, e: ConfigError)
    requires Explains(c, isIp, e)
    ensures !ValidConfig(c, isIp)
  {
    match e
    case DuplicateHook(n) =>
      var i, k :| 0 <= i < k < |c.hook| && c.hook[i].name == c.hook[k].name == n;
      assert HookNames(c.hook)[i] == HookNames(c.hook)[k];
    case DuplicateCertificate(n) =>
      var i, k :| 0 <= i < k < |c.certificates| && c.certificates[i].name == c.certificates[k].name == n;
      assert CertificateNames(c.certificates)[i] == CertificateNames(c.certificates)[k];
    case BadCertificate(n, why) =>
      var i :| 0 <= i < |c.certificates| && c.certificates[i].name == n && ExplainsIn(c, isIp, c.certificates[i], why);
      ExplainedCertificateIsInvalid(c, isIp, c.certificates[i], why);
    case _ =>
  }

  lemma ExplainedCertificateIsInvalid(c: Configuration, isIp: IpTest, cert: Certificate, why: CertificateError)
    requires ExplainsIn(c, isIp, cert, why)
    ensures !ValidCertificate(c, isIp, cert)
  {
    match why
    case NoSolver(d) =>
      var i: nat :| i < |cert.domains| && cert.domains[i] == d && cert.SolverForDomain(i, c.defaultSolver).None?;
      assert !ValidDomain(c, isIp, cert, i);
    case UnknownSolver(s) =>
      var i: nat :| i < |cert.domains| && cert.SolverForDomain(i, c.defaultSolver) == Some(s);
      assert !ValidDomain(c, isIp, cert, i);
    case Dns01OnIp(d) =>
      var i: nat :| i < |cert.domains| && cert.domains[i] == d && UsesDns01(c, cert, i);
      assert !ValidDomain(c, isIp, cert, i);
    case DomainOutsideZones(d, n) =>
      var i: nat :| i < |cert.domains| && cert.domains[i] == d && UsesDns01(c, cert, i)
        && c.solver[cert.SolverForDomain(i, c.defaultSolver).value].dns == n;
      assert !ValidDomain(c, isIp, cert, i);
    case _ =>
  }
}
