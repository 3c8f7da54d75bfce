/** The standalone HTTP-01 responder (src/solver/http01.rs): a token map behind a lock, written
    by `present` and `cleanup` and read by any number of concurrent request handlers. */
module HttpResponder {
  import opened Prelude

  const PREFIX: string := "/.well-known/acme-challenge/"

  datatype Response = Found(body: string) | NotFound

  /** The token a request path asks for, if it is under the challenge directory. */
  function TokenOf(path: string): Option<string> {
    if PREFIX <= path then Some(path[|PREFIX|..]) else None
  }

  /** The path of a token is the one of section 8.3 of RFC 8555. */
  lemma TokenPaths(path: string, token: string)
    ensures TokenOf(path) == Some(token) <==> path == "/.well-known/acme-challenge/" + token
  {
    if path == "/.well-known/acme-challenge/" + token {
      assert path[|PREFIX|..] == token;
    }
    if TokenOf(path) == Some(token) {
      assert path == path[..|PREFIX|] + path[|PREFIX|..];
    }
  }

  function Answer(tokens: map<string, string>, path: string): Response {
    var token := TokenOf(path);
    if token.Some? && token.value in tokens then Found(tokens[token.value]) else NotFound
  }

  /** One step of the server: the solver writes the map, or a handler parses its request, reads
      the map under the lock, or sends what it has read. */
  datatype Step =
    | Present(token: string, keyAuthorization: string)
    | Cleanup(token: string)
    | Arrive(handler: nat, path: string)
    | Look(handler: nat)
    | Reply(handler: nat)

  datatype Handler =
    | Parsed(path: string)
    | Decided(path: string, response: Response)
    | Done(path: string, response: Response)

  datatype Server = Server(tokens: map<string, string>, handlers: map<nat, Handler>)

  const EMPTY: Server := Server(map[], map[])

  predicate Enabled(s: Server, e: Step) {
    match e
    case Present(_, _) => true
    case Cleanup(_) => true
    case Arrive(h, _) => h !in s.handlers
    case Look(h) => h in s.handlers && s.handlers[h].Parsed?
    case Reply(h) => h in s.handlers && s.handlers[h].Decided?
  }

  function Next(s: Server, e: Step): Server
    requires Enabled(s, e)
  {
    match e
    case Present(t, ka) => s.(tokens := s.tokens[t := ka])
    case Cleanup(t) => s.(tokens := s.tokens - {t})
    case Arrive(h, path) => s.(handlers := s.handlers[h := Parsed(path)])
    case Look(h) => s.(handlers := s.handlers[h := Decided(s.handlers[h].path, Answer(s.tokens, s.handlers[h].path))])
    case Reply(h) => s.(handlers := s.handlers[h := Done(s.handlers[h].path, s.handlers[h].response)])
  }

  function Exec(steps: seq<Step>): Option<Server> {
    if steps == [] then Some(EMPTY)
    else
      var last := steps[|steps| - 1];
      match Exec(steps[..|steps| - 1])
      case None => None
      case Some(s) => if Enabled(s, last) then Some(Next(s, last)) else None
  }

  /** Step `j` presented this authorization for the token, and up to step `n` the token was
      neither presented again nor cleaned up. */
  predicate LatestPresented(steps: seq<Step>, n: nat, token: string, ka: string, j: int) {
    && 0 <= j < n <= |steps| && steps[j] == Present(token, ka)
    && forall k :: j < k < n ==> !(steps[k].Present? && steps[k].token == token) && steps[k] != Cleanup(token)
  }

  ghost predicate Live(steps: seq<Step>, n: nat, token: string, ka: string) {
    exists j :: LatestPresented(steps, n, token, ka, j)
  }

  lemma {:induction false} PrefixRuns(steps: seq<Step>, n: nat)
    requires n <= |steps| && Exec(steps).Some?
    ensures Exec(steps[..n]).Some?
  {
    if n < |steps| {
      PrefixRuns(steps[..|steps| - 1], n);
      assert steps[..|steps| - 1][..n] == steps[..n];
    } else {
      assert steps[..n] == steps;
    }
  }

  /** The map holds exactly the authorizations presented last and not cleaned up since. */
  lemma {:induction false} MapIsHistory(steps: seq<Step>, token: string, ka: string)
    requires Exec(steps).Some?
    ensures token in Exec(steps).value.tokens && Exec(steps).value.tokens[token] == ka
            <==> Live(steps, |steps|, token, ka)
  {
    if steps != [] {
      var n := |steps| - 1;
      var init := steps[..n];
      MapIsHistory(init, token, ka);
      var touches := (steps[n].Present? && steps[n].token == token) || steps[n] == Cleanup(token);
      if Live(init, n, token, ka) && !touches {
        var j :| LatestPresented(init, n, token, ka, j);
        assert LatestPresented(steps, n + 1, token, ka, j);
      }
      if steps[n] == Present(token, ka) {
        assert LatestPresented(steps, n + 1, token, ka, n);
      }
      if Live(steps, n + 1, token, ka) && steps[n] != Present(token, ka) {
        var j :| LatestPresented(steps, n + 1, token, ka, j);
        assert LatestPresented(init, n, token, ka, j);
      }
    }
  }

  /** How handler `h` came by its decision: it looked at step `l`, after it had arrived with
      its path at step `a`, and decided by the map of that moment. */
  ghost predicate DecidedBy(steps: seq<Step>, h: nat, path: string, r: Response, a: nat, l: nat) {
    && a < l < |steps| && steps[a] == Arrive(h, path) && steps[l] == Look(h)
    && Exec(steps[..l]).Some? && r == Answer(Exec(steps[..l]).value.tokens, path)
  }

  ghost predicate ArrivedAt(steps: seq<Step>, h: nat, path: string, a: nat) {
    a < |steps| && steps[a] == Arrive(h, path)
  }

  lemma {:induction false} HandlerHistory(steps: seq<Step>, h: nat)
    requires Exec(steps).Some? && h in Exec(steps).value.handlers
    ensures var x := Exec(steps).value.handlers[h];
            if x.Parsed? then exists a: nat :: ArrivedAt(steps, h, x.path, a)
            else exists a: nat, l: nat :: DecidedBy(steps, h, x.path, x.response, a, l)
  {
    var n := |steps| - 1;
    var init := steps[..n];
    var before := Exec(init).value;
    var e := steps[n];
    if h in before.handlers {
      HandlerHistory(init, h);
      var x := before.handlers[h];
      if x.Parsed? {
        var a: nat :| ArrivedAt(init, h, x.path, a);
        assert ArrivedAt(steps, h, x.path, a);
        if e == Look(h) {
          assert DecidedBy(steps, h, x.path, Answer(before.tokens, x.path), a, n);
        }
      } else {
        var a: nat, l: nat :| DecidedBy(init, h, x.path, x.response, a, l);
        assert init[..l] == steps[..l];
        assert DecidedBy(steps, h, x.path, x.response, a, l);
      }
    } else {
      assert ArrivedAt(steps, h, e.path, n);
    }
  }

  /** The response is the right one for the map after `l` steps: 200 with exactly the
      authorization most recently presented for the token and not cleaned up since, and 404
      otherwise, as for every path outside the challenge directory. */
  ghost predicate Faithful(steps: seq<Step>, l: nat, path: string, r: Response) {
    if TokenOf(path).None? then r == NotFound
    else forall ka :: r == Found(ka) <==> Live(steps, l, TokenOf(path).value, ka)
  }

  lemma AnswerIsFaithful(steps: seq<Step>, l: nat, path: string)
    requires l <= |steps| && Exec(steps[..l]).Some?
    ensures Faithful(steps, l, path, Answer(Exec(steps[..l]).value.tokens, path))
  {
    if TokenOf(path).Some? {
      var token := TokenOf(path).value;
      forall ka ensures Answer(Exec(steps[..l]).value.tokens, path) == Found(ka) <==> Live(steps, l, token, ka) {
        MapIsHistory(steps[..l], token, ka);
        LiveInPrefix(steps, l, token, ka);
      }
    }
  }

  /** Handler `h` arrived at step `a` with this path and looked at the map at step `l`, and the
      response is faithful to that moment. */
  ghost predicate RepliedFrom(steps: seq<Step>, h: nat, path: string, r: Response, a: nat, l: nat) {
    a < l < |steps| && steps[a] == Arrive(h, path) && steps[l] == Look(h) && Faithful(steps, l, path, r)
  }

  /** In every interleaving of handlers with `present` and `cleanup`, a handler that replies does
      so faithfully to the map at one moment between its arrival and its reply. */
  lemma RepliesAreCurrent(steps: seq<Step>, h: nat)
    requires Exec(steps).Some? && h in Exec(steps).value.handlers && Exec(steps).value.handlers[h].Done?
    ensures var x := Exec(steps).value.handlers[h];
            exists a: nat, l: nat :: RepliedFrom(steps, h, x.path, x.response, a, l)
  {
    var x := Exec(steps).value.handlers[h];
    HandlerHistory(steps, h);
    var a: nat, l: nat :| DecidedBy(steps, h, x.path, x.response, a, l);
    AnswerIsFaithful(steps, l, x.path);
    assert RepliedFrom(steps, h, x.path, x.response, a, l);
  }

  lemma LiveInPrefix(steps: seq<Step>, l: nat, token: string, ka: string)
    requires l <= |steps|
    ensures Live(steps[..l], l, token, ka) <==> Live(steps, l, token, ka)
  {
    if Live(steps[..l], l, token, ka) {
      var j :| LatestPresented(steps[..l], l, token, ka, j);
      assert LatestPresented(steps, l, token, ka, j);
    }
    if Live(steps, l, token, ka) {
      var j :| LatestPresented(steps, l, token, ka, j);
      assert LatestPresented(steps[..l], l, token, ka, j);
    }
  }

  /** The solver object: the map it shares with its handlers, and what has happened to it. */
  class TokenServer {
    var tokens: map<string, string>
    ghost var steps: seq<Step>

    ghost predicate Valid()
      reads this
    {
      Exec(steps).Some? && Exec(steps).value.tokens == tokens
    }

    constructor ()
      ensures Valid() && tokens == map[] && steps == []
    {
      tokens, steps := map[], [];
    }

    method Present(token: string, keyAuthorization: string)
      requires Valid()
      modifies this
      ensures Valid() && tokens == old(tokens)[token := keyAuthorization]
      ensures steps == old(steps) + [Step.Present(token, keyAuthorization)]
    {
      assert (steps + [Step.Present(token, keyAuthorization)])[..|steps|] == steps;
      tokens := tokens[token := keyAuthorization];
      steps := steps + [Step.Present(token, keyAuthorization)];
    }

    method Cleanup(token: string)
      requires Valid()
      modifies this
      ensures Valid() && tokens == old(tokens) - {token} && steps == old(steps) + [Step.Cleanup(token)]
    {
      assert (steps + [Step.Cleanup(token)])[..|steps|] == steps;
      tokens := tokens - {token};
      steps := steps + [Step.Cleanup(token)];
    }

    /** `handle_request` under the read lock. */
    method HandleRequest(path: string) returns (r: Response)
      requires Valid()
      ensures Faithful(steps, |steps|, path, r)
      ensures forall token :: path == "/.well-known/acme-challenge/" + token ==>
                r == if token in tokens then Found(tokens[token]) else NotFound
      ensures r.Found? ==> exists token :: path == "/.well-known/acme-challenge/" + token
    {
      forall token ensures TokenOf(path) == Some(token) <==> path == "/.well-known/acme-challenge/" + token {
        TokenPaths(path, token);
      }
      assert steps[..|steps|] == steps;
      AnswerIsFaithful(steps, |steps|, path);
      if PREFIX <= path {
        var token := path[|PREFIX|..];
        if token in tokens {
          return Found(tokens[token]);
        }
      }
      return NotFound;
    }
  }
}
