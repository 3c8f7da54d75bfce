/** The lookups that renewal makes in the configuration (src/renew.rs, src/dane.rs,
    src/solver/dns01.rs, src/permissions.rs), and why validation makes every one succeed. */
module Pipeline {
  import opened Prelude
  import opened Config
  import opened Validation

  datatype LookupError =
    | NoSolverForDomain(domain: string)
    | SolverNotFound(solver: string)
    | DnsClientNotFound(client: string)
    | HttpNeedsListenOrWebroot(solver: string)

  /** A solver as `build_solvers` constructs it. */
  datatype SolverInstance =
    | Dns01Solver(client: DnsClient, delay: nat)
    | HttpStandalone(addresses: seq<string>)
    | HttpWebroot(webroot: string)
    | TlsAlpn(addresses: seq<string>)

  predicate Buildable(c: Configuration, name: string) {
    && name in c.solver
    && match c.solver[name]
       case Dns01(dns, _) => dns in c.dns
       case Http01(listen, webroot) => listen.Some? || webroot.Some?
       case TlsAlpn01(_) => true
  }

  /** A webroot takes precedence over a listen address. */
  function Instance(c: Configuration, name: string): SolverInstance
    requires Buildable(c, name)
  {
    match c.solver[name]
    case Dns01(dns, delay) => Dns01Solver(c.dns[dns], delay)
    case Http01(listen, webroot) => if webroot.Some? then HttpWebroot(webroot.value) else HttpStandalone(listen.value)
    case TlsAlpn01(addresses) => TlsAlpn(addresses)
  }

  /** The certificate's own list comes first, then its own single solver, and the default only where
      it has neither. */
  predicate ChosenSolver(c: Configuration, cert: Certificate, i: nat, name: string) {
    && (cert.solvers.Some? ==> i < |cert.solvers.value| && name == cert.solvers.value[i])
    && (cert.solvers.None? && cert.solver.Some? ==> name == cert.solver.value)
    && (cert.solvers.None? && cert.solver.None? ==> Some(name) == c.defaultSolver)
  }

  /** The solver name of each domain, in order. */
  method ResolveSolverNames(c: Configuration, cert: Certificate) returns (r: Result<seq<string>, LookupError>)
    ensures r.Ok? <==> forall i :: 0 <= i < |cert.domains| ==> cert.SolverForDomain(i, c.defaultSolver).Some?
    ensures r.Ok? ==> |r.value| == |cert.domains|
                      && forall i :: 0 <= i < |cert.domains| ==>
                           cert.SolverForDomain(i, c.defaultSolver) == Some(r.value[i])
    ensures r.Ok? <==> match (cert.solvers, cert.solver)
                       case (Some(each), _) => |each| >= |cert.domains|
                       case (None, Some(_)) => true
                       case (None, None) => c.defaultSolver.Some? || cert.domains == []
    ensures r.Ok? ==> forall i :: 0 <= i < |cert.domains| ==> ChosenSolver(c, cert, i, r.value[i])
  {
    var names: seq<string> := [];
    for i := 0 to |cert.domains|
      invariant |names| == i
      invariant forall k :: 0 <= k < i ==> cert.SolverForDomain(k, c.defaultSolver) == Some(names[k])
      invariant cert.solvers.Some? ==> i <= |cert.solvers.value|
      invariant cert.solvers.None? && cert.solver.None? && c.defaultSolver.None? ==> i == 0
    {
      var name := cert.SolverForDomain(i, c.defaultSolver);
      if name.None? {
        return Err(NoSolverForDomain(cert.domains[i]));
      }
      names := names + [name.value];
    }
    return Ok(names);
  }

  /** One instance per distinct name; it fails exactly when some name cannot be built. */
  method BuildSolvers(c: Configuration, names: seq<string>)
    returns (r: Result<map<string, SolverInstance>, LookupError>)
    ensures r.Ok? <==> forall n :: n in names ==> Buildable(c, n)
    ensures r.Ok? ==> forall n :: n in r.value <==> n in names
    ensures r.Ok? ==> forall n :: n in names ==> r.value[n] == Instance(c, n)
  {
    var solvers: map<string, SolverInstance> := map[];
    for i := 0 to |names|
      invariant forall n :: n in solvers <==> n in names[..i]
      invariant forall n :: n in solvers ==> Buildable(c, n) && solvers[n] == Instance(c, n)
    {
      var name := names[i];
      assert names[..i + 1] == names[..i] + [name];
      if name !in solvers {
        assert name in names;
        if name !in c.solver {
          return Err(SolverNotFound(name));
        }
        match c.solver[name] {
          case Dns01(dns, delay) =>
            if dns !in c.dns {
              return Err(DnsClientNotFound(dns));
            }
            solvers := solvers[name := Dns01Solver(c.dns[dns], delay)];
          case Http01(listen, webroot) =>
            if webroot.Some? {
              solvers := solvers[name := HttpWebroot(webroot.value)];
            } else if listen.Some? {
              solvers := solvers[name := HttpStandalone(listen.value)];
            } else {
              return Err(HttpNeedsListenOrWebroot(name));
            }
          case TlsAlpn01(addresses) =>
            solvers := solvers[name := TlsAlpn(addresses)];
        }
      }
    }
    assert names[..|names|] == names;
    return Ok(solvers);
  }

  /** A DNS client whose key can be looked up: one of the two places is configured. */
  predicate HasTsigKey(d: DnsClient) {
    d.tsigKeyCredential.Some? || d.tsigKeyPath.Some?
  }

  /** Every lookup on the challenge path of domain `i` has an answer: the solver name, the
      instance, and for DNS-01 the zone of the challenge name and the client's key. */
  predicate ChallengePathResolves(c: Configuration, cert: Certificate, i: nat) {
    i < |cert.domains| ==>
      var name := cert.SolverForDomain(i, c.defaultSolver);
      && name.Some? && Buildable(c, name.value)
      && (Instance(c, name.value).Dns01Solver? ==>
            var client := Instance(c, name.value).client;
            client.FindZone(ChallengeName(cert.domains[i])).Some? && HasTsigKey(client))
  }

  /** Every lookup on the TLSA path of block `j`: `records[0]` exists, the client is known, has
      a key, and serves every name. */
  predicate DanePathResolves(c: Configuration, cert: Certificate, j: nat) {
    j < |cert.dane| ==>
      var d := cert.dane[j];
      && d.names != [] && d.dns in c.dns && HasTsigKey(c.dns[d.dns])
      && forall k :: 0 <= k < |d.names| ==> c.dns[d.dns].FindZone(d.names[k]).Some?
  }

  /** Each named hook of the certificate is defined once and can be started. */
  predicate HooksResolve(c: Configuration, cert: Certificate) {
    && (forall h :: h in cert.hooks ==>
          exists k :: 0 <= k < |c.hook| && c.hook[k].name == h && RunnableHook(c.hook[k].hook))
    && (forall k :: 0 <= k < |cert.inlineHooks| ==> RunnableHook(cert.inlineHooks[k]))
  }

  /** Validation is sound for renewal: no configuration lookup of the pipeline can fail. */
  lemma ValidConfigResolves(c: Configuration, isIp: IpTest, n: nat)
    requires ValidConfig(c, isIp) && n < |c.certificates|
    ensures
      var cert := c.certificates[n];
      && (forall i: nat :: ChallengePathResolves(c, cert, i))
      && (forall j: nat :: DanePathResolves(c, cert, j))
      && HooksResolve(c, cert)
      && ValidMode(cert.keyMode) && ValidMode(cert.certMode)
      && (cert.keyCredential.Some? || cert.keyPath.Some?)
      && (c.acme.accountKeyCredential.Some? || c.acme.accountKeyPath.Some?)
  {
    var cert := c.certificates[n];
    assert ValidCertificate(c, isIp, cert);
    forall i: nat ensures ChallengePathResolves(c, cert, i) {
      if i < |cert.domains| {
        assert ValidDomain(c, isIp, cert, i);
        var name := cert.SolverForDomain(i, c.defaultSolver).value;
        assert ValidSolver(c, c.solver[name]);
        if c.solver[name].Dns01? {
          assert ValidDnsClient(c.dns[c.solver[name].dns]);
        }
      }
    }
    forall j: nat ensures DanePathResolves(c, cert, j) {
      if j < |cert.dane| {
        assert ValidDane(c, cert.dane[j]);
        assert ValidDnsClient(c.dns[cert.dane[j].dns]);
      }
    }
    forall h | h in cert.hooks
      ensures exists k :: 0 <= k < |c.hook| && c.hook[k].name == h && RunnableHook(c.hook[k].hook)
    {
      var l :| 0 <= l < |cert.hooks| && cert.hooks[l] == h;
      assert cert.hooks[l] in HookNames(c.hook);
      var k :| 0 <= k < |c.hook| && HookNames(c.hook)[k] == h;
      assert c.hook[k].name == h && RunnableHook(c.hook[k].hook);
    }
  }

  /** The two lookups of src/renew.rs that could panic or fail: after validation every domain
      has a solver and every solver can be built, so `solvers[solver_name]` is always present. */
  method PrepareSolvers(c: Configuration, isIp: IpTest, n: nat)
    returns (names: seq<string>, solvers: map<string, SolverInstance>)
    requires ValidConfig(c, isIp) && n < |c.certificates|
    ensures |names| == |c.certificates[n].domains|
    ensures forall i :: 0 <= i < |names| ==>
              names[i] in solvers && c.certificates[n].SolverForDomain(i, c.defaultSolver) == Some(names[i])
              && Buildable(c, names[i]) && solvers[names[i]] == Instance(c, names[i])
    ensures var cert := c.certificates[n];
            && (cert.solvers.Some? ==> names == cert.solvers.value)
            && (cert.solvers.None? ==>
                  forall name :: name in names ==>
                    if cert.solver.Some? then name == cert.solver.value else Some(name) == c.defaultSolver)
  {
    ValidConfigResolves(c, isIp, n);
    var cert := c.certificates[n];
    assert ValidCertificate(c, isIp, cert);
    forall i: nat | i < |cert.domains|
      ensures cert.SolverForDomain(i, c.defaultSolver).Some?
              && Buildable(c, cert.SolverForDomain(i, c.defaultSolver).value)
    {
      assert ChallengePathResolves(c, cert, i);
    }
    var resolved := ResolveSolverNames(c, cert);
    names := resolved.value;
    forall name | name in names ensures Buildable(c, name) {
      var i: nat :| i < |names| && names[i] == name;
      assert cert.SolverForDomain(i, c.defaultSolver).value == name;
    }
    var built := BuildSolvers(c, names);
    solvers := built.value;
  }
}
