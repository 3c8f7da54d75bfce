/** What the authority is told when it validates: from the server's offers to the answers of the
    solvers (src/acme.rs:132-170, src/renew.rs:210-237, src/solver/). */
module ChallengeAnswers {
  import opened Pipeline
  import opened Challenges
  import HttpResponder
  import Names

  /** The token map of one standalone server. */
  function TokensOf(contents: Contents, solver: string): map<string, string> {
    map s | s in contents && s.TokenEntry? && s.solver == solver :: s.token := contents[s]
  }

  /** A key authorization is a function of its token (section 8.1 of RFC 8555). */
  predicate TokensDecide(auths: seq<Authorization>) {
    forall i, k, x, y :: 0 <= i < |auths| && 0 <= k < |auths| && x in auths[i].offers && y in auths[k].offers
                         && auths[i].offers[x].token == auths[k].offers[y].token ==>
      auths[i].offers[x].keyAuthorization == auths[k].offers[y].keyAuthorization
  }

  /** What the authority finds for a domain: the offer's TXT value under the domain's challenge name;
      or its key authorization, in the answer to a request for its token's path, in the file below
      the webroot, or in the certificate for the domain. */
  predicate Answered(contents: Contents, domain: string, offers: map<ChallengeType, Offer>, solver: string,
                     instance: SolverInstance) {
    match instance
    case Dns01Solver(_, _) =>
      var base := if "*." <= domain then domain[2..] else domain;
      && Dns01Type in offers
      && TxtValue(Names.Canonical("_acme-challenge." + base), offers[Dns01Type].dnsValue) in contents
    case HttpStandalone(_) =>
      && Http01Type in offers
      && HttpResponder.Answer(TokensOf(contents, solver), "/.well-known/acme-challenge/" + offers[Http01Type].token)
         == HttpResponder.Found(offers[Http01Type].keyAuthorization)
    case HttpWebroot(root) =>
      && Http01Type in offers && WebrootFile(root, offers[Http01Type].token) in contents
      && contents[WebrootFile(root, offers[Http01Type].token)] == offers[Http01Type].keyAuthorization
    case TlsAlpn(_) =>
      && TlsAlpn01Type in offers && AlpnEntry(solver, domain) in contents
      && contents[AlpnEntry(solver, domain)] == offers[TlsAlpn01Type].keyAuthorization
  }

  lemma TokenAnswered(contents: Contents, solver: string, token: string, ka: string)
    requires TokenEntry(solver, token) in contents && contents[TokenEntry(solver, token)] == ka
    ensures HttpResponder.Answer(TokensOf(contents, solver), "/.well-known/acme-challenge/" + token)
            == HttpResponder.Found(ka)
  {
    HttpResponder.TokenPaths("/.well-known/acme-challenge/" + token, token);
    assert token in TokensOf(contents, solver);
  }

  /** Collecting the challenges, pairing them with the solvers, and presenting them all. With the
      authorizations in the order of the domains, the authority then finds for every domain, at the
      same time, what its own offer asks for. */
  method ServeChallenges(stores: Stores, auths: seq<Authorization>, domains: seq<string>, names: seq<string>,
                         solvers: map<string, SolverInstance>)
    returns (ok: bool)
    requires |names| == |domains| == |auths| && (forall n :: n in names ==> n in solvers)
    requires AllDifferent(domains) && forall k :: 0 <= k < |auths| ==> auths[k].identifier == domains[k]
    modifies stores
    ensures stores.attempts == old(stores.attempts)
    ensures ok && TokensDecide(auths) ==>
              forall i :: 0 <= i < |domains| ==>
                Answered(stores.contents, domains[i], auths[i].offers, names[i], solvers[names[i]])
  {
    var collected := CollectChallenges(auths, DesiredTypes(domains, names, solvers));
    if collected.None? {
      return false;
    }
    var tasks := Zip(collected.value, names, solvers);
    ok := stores.PresentAll(tasks);
    if ok && TokensDecide(auths) {
      forall i: nat | i < |domains|
        ensures Answered(stores.contents, domains[i], auths[i].offers, names[i], solvers[names[i]])
      {
        ServedIsAnswered(stores.contents, auths, domains, names, solvers, collected.value, i);
      }
    }
  }

  lemma ServedIsAnswered(contents: Contents, auths: seq<Authorization>, domains: seq<string>, names: seq<string>,
                         solvers: map<string, SolverInstance>, challenges: seq<Challenge>, i: nat)
    requires |names| == |domains| == |auths| && (forall n :: n in names ==> n in solvers) && i < |domains|
    requires AllDifferent(domains) && forall k :: 0 <= k < |auths| ==> auths[k].identifier == domains[k]
    requires TokensDecide(auths) && Collected(auths, DesiredTypes(domains, names, solvers), challenges)
    requires Served(contents, Zip(challenges, names, solvers), i)
    ensures Answered(contents, domains[i], auths[i].offers, names[i], solvers[names[i]])
  {
    var tasks := Zip(challenges, names, solvers);
    forall k: nat | k < |domains|
      ensures TypeOf(solvers[names[k]]) in auths[k].offers
      ensures tasks[k] == Task(ChallengeFor(auths[k], TypeOf(solvers[names[k]])), names[k], solvers[names[k]])
    {
      OrderedAuthorizationsMatch(domains, names, solvers, auths, challenges, k);
    }
    hide DesiredTypes, DesiredType, Collected;
    forall k | i < k < |tasks| && tasks[k].challenge.token == tasks[i].challenge.token
      ensures tasks[k].challenge.keyAuthorization == tasks[i].challenge.keyAuthorization
    {
      assert auths[k].offers[TypeOf(solvers[names[k]])].token == auths[i].offers[TypeOf(solvers[names[i]])].token;
    }
    assert Uncontested(tasks, i);
    if solvers[names[i]].HttpStandalone? {
      var offer := auths[i].offers[Http01Type];
      TokenAnswered(contents, names[i], offer.token, offer.keyAuthorization);
    }
  }
}
