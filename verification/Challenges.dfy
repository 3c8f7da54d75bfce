/** The life of the challenges of one order (src/renew.rs:233-266, src/solver/, and
    src/acme.rs:127-171): collected, all presented, the order run, all cleaned up. */
module Challenges {
  import opened Prelude
  import opened Config
  import opened Pipeline
  import opened Polling
  import Names

  datatype ChallengeType = Dns01Type | Http01Type | TlsAlpn01Type

  datatype Challenge = Challenge(identifier: string, token: string, keyAuthorization: string, dnsValue: string)

  /** A challenge as the server offers it, with what the account makes of its token. */
  datatype Offer = Offer(token: string, keyAuthorization: string, dnsValue: string)

  /** One authorization of an order, with the challenges it offers. */
  datatype Authorization = Authorization(identifier: string, offers: map<ChallengeType, Offer>)

  /** The challenge type wanted for an identifier: the first entry for it, or DNS-01. */
  function DesiredType(desired: seq<(string, ChallengeType)>, identifier: string): ChallengeType {
    if desired == [] then Dns01Type
    else if desired[0].0 == identifier then desired[0].1
    else DesiredType(desired[1..], identifier)
  }

  /** The challenge of an authorization for an offer it makes. */
  function ChallengeFor(auth: Authorization, kind: ChallengeType): Challenge
    requires kind in auth.offers
  {
    var offer := auth.offers[kind];
    Challenge(auth.identifier, offer.token, offer.keyAuthorization, offer.dnsValue)
  }

  /** One challenge for each authorization, in their order, of the type wanted for its identifier. */
  predicate Collected(auths: seq<Authorization>, desired: seq<(string, ChallengeType)>, challenges: seq<Challenge>) {
    && |challenges| == |auths|
    && forall i :: 0 <= i < |auths| ==>
         && DesiredType(desired, auths[i].identifier) in auths[i].offers
         && challenges[i] == ChallengeFor(auths[i], DesiredType(desired, auths[i].identifier))
  }

  /** `collect_challenges`: for each authorization, in the server's order, the offer of the type
      wanted for its identifier; an authorization without it fails the whole collection. */
  method CollectChallenges(auths: seq<Authorization>, desired: seq<(string, ChallengeType)>)
    returns (r: Option<seq<Challenge>>)
    ensures r.Some? <==> forall i :: 0 <= i < |auths| ==> DesiredType(desired, auths[i].identifier) in auths[i].offers
    ensures r.Some? ==> Collected(auths, desired, r.value)
  {
    var challenges: seq<Challenge> := [];
    for i := 0 to |auths|
      invariant |challenges| == i
      invariant forall k :: 0 <= k < i ==>
                  && DesiredType(desired, auths[k].identifier) in auths[k].offers
                  && challenges[k] == ChallengeFor(auths[k], DesiredType(desired, auths[k].identifier))
    {
      var wanted := DesiredType(desired, auths[i].identifier);
      if wanted !in auths[i].offers {
        return None;
      }
      var offer := auths[i].offers[wanted];
      challenges := challenges + [Challenge(auths[i].identifier, offer.token, offer.keyAuthorization, offer.dnsValue)];
    }
    return Some(challenges);
  }

  /** A challenge with the solver that is to present it, under the solver's name. */
  datatype Task = Task(challenge: Challenge, solver: string, instance: SolverInstance)

  /** `challenges.iter().zip(solver_names)`: pairing is by position and stops at the shorter. */
  function Zip(challenges: seq<Challenge>, names: seq<string>, solvers: map<string, SolverInstance>): (tasks: seq<Task>)
    requires forall n :: n in names ==> n in solvers
    ensures |tasks| == if |challenges| <= |names| then |challenges| else |names|
    ensures forall i :: 0 <= i < |tasks| ==> tasks[i] == Task(challenges[i], names[i], solvers[names[i]])
  {
    seq(if |challenges| <= |names| then |challenges| else |names|,
        i requires 0 <= i < |challenges| && i < |names| => Task(challenges[i], names[i], solvers[names[i]]))
  }

  /** One place where a solver leaves something: a value in a TXT RRset, an entry of a standalone
      server's token map, a file below a webroot, or an entry of a TLS-ALPN certificate map. */
  datatype Slot =
    | TxtValue(name: string, value: string)
    | TokenEntry(solver: string, token: string)
    | WebrootFile(webroot: string, token: string)
    | AlpnEntry(solver: string, identifier: string)

  type Contents = map<Slot, string>

  function SlotOf(t: Task): Slot {
    match t.instance
    case Dns01Solver(_, _) => TxtValue(Names.Canonical(ChallengeName(t.challenge.identifier)), t.challenge.dnsValue)
    case HttpStandalone(_) => TokenEntry(t.solver, t.challenge.token)
    case HttpWebroot(webroot) => WebrootFile(webroot, t.challenge.token)
    case TlsAlpn(_) => AlpnEntry(t.solver, t.challenge.identifier)
  }

  /** What is stored there; a TXT value is its own slot, so nothing more is stored. */
  function ValueOf(t: Task): string {
    if t.instance.Dns01Solver? then "" else t.challenge.keyAuthorization
  }

  /** The TXT RRset at a name. */
  function TxtSet(contents: Contents, name: string): (values: set<string>)
    ensures forall v :: v in values <==> TxtValue(Names.Canonical(name), v) in contents
  {
    set s | s in contents && s.TxtValue? && s.name == Names.Canonical(name) :: s.value
  }

  function AfterPresent(contents: Contents, tasks: seq<Task>): Contents {
    if tasks == [] then contents
    else
      var n := |tasks| - 1;
      AfterPresent(contents, tasks[..n])[SlotOf(tasks[n]) := ValueOf(tasks[n])]
  }

  function Slots(tasks: seq<Task>): set<Slot> {
    if tasks == [] then {} else Slots(tasks[..|tasks| - 1]) + {SlotOf(tasks[|tasks| - 1])}
  }

  lemma {:induction false} SlotsMembers(tasks: seq<Task>, s: Slot)
    ensures s in Slots(tasks) <==> exists i :: 0 <= i < |tasks| && SlotOf(tasks[i]) == s
  {
    hide SlotOf;
    if tasks != [] {
      var n := |tasks| - 1;
      SlotsMembers(tasks[..n], s);
      assert tasks == tasks[..n] + [tasks[n]];
    }
  }

  lemma SlotsAppend(tasks: seq<Task>, t: Task)
    ensures Slots(tasks + [t]) == Slots(tasks) + {SlotOf(t)}
  {
  }

  lemma SlotsOneMore(tasks: seq<Task>, i: nat)
    requires i < |tasks|
    ensures Slots(tasks[..i + 1]) == Slots(tasks[..i]) + {SlotOf(tasks[i])} && SlotOf(tasks[i]) in Slots(tasks)
    ensures tasks[..i + 1] == tasks[..i] + [tasks[i]]
  {
    hide *;
    assert tasks[..i + 1] == tasks[..i] + [tasks[i]];
    SlotsAppend(tasks[..i], tasks[i]);
    SlotsMembers(tasks, SlotOf(tasks[i]));
  }

  /** The contents outside some slots are the same. */
  predicate SameOutside(a: Contents, b: Contents, slots: set<Slot>) {
    a - slots == b - slots
  }

  lemma RemoveOneMore(a: Contents, slots: set<Slot>, s: Slot)
    ensures (a - slots) - {s} == a - (slots + {s})
  {
  }

  lemma RemoveInside(a: Contents, b: Contents, slots: set<Slot>, s: Slot)
    requires SameOutside(a, b, slots) && s in slots
    ensures SameOutside(a, b - {s}, slots)
  {
  }

  /** The stores of all solvers of a run, and the cleanups attempted so far. */
  class Stores {
    var contents: Contents
    var attempts: seq<Task>

    constructor (contents: Contents)
      ensures this.contents == contents && attempts == []
    {
      this.contents := contents;
      attempts := [];
    }

    /** `present`: TXT values are appended, map entries inserted, files written. It may fail
        before or after the change. */
    method Present(t: Task) returns (ok: bool)
      modifies this
      ensures attempts == old(attempts)
      ensures contents == old(contents)[SlotOf(t) := ValueOf(t)] || (!ok && contents == old(contents))
    {
      var happens: bool := *;
      ok := *;
      if ok || happens {
        contents := contents[SlotOf(t) := ValueOf(t)];
      }
    }

    /** `cleanup`: exactly the presented value, entry or file is removed. */
    method Cleanup(t: Task) returns (ok: bool)
      modifies this
      ensures attempts == old(attempts) + [t]
      ensures contents == old(contents) - {SlotOf(t)} || (!ok && contents == old(contents))
    {
      attempts := attempts + [t];
      var happens: bool := *;
      ok := *;
      if ok || happens {
        contents := contents - {SlotOf(t)};
      }
    }

    /** Present in order; the first failure ends the renewal, leaving what was presented. */
    method PresentAll(tasks: seq<Task>) returns (ok: bool)
      modifies this
      ensures attempts == old(attempts)
      ensures ok ==> contents == AfterPresent(old(contents), tasks)
      ensures ok ==> forall i :: 0 <= i < |tasks| ==> Served(contents, tasks, i)
      ensures !ok ==> exists n :: 0 <= n <= |tasks| && contents == AfterPresent(old(contents), tasks[..n])
    {
      for i := 0 to |tasks|
        invariant attempts == old(attempts) && contents == AfterPresent(old(contents), tasks[..i])
      {
        assert tasks[..i + 1][..i] == tasks[..i];
        ok := Present(tasks[i]);
        if !ok {
          assert contents == AfterPresent(old(contents), tasks[..i])
                 || contents == AfterPresent(old(contents), tasks[..i + 1]);
          return;
        }
      }
      assert tasks[..|tasks|] == tasks;
      ok := true;
      AllServed(contents, old(contents), tasks);
    }

    /** Clean up in order; a failure is reported and the next one is tried. */
    method CleanupAll(tasks: seq<Task>) returns (failures: nat)
      modifies this
      ensures attempts == old(attempts) + tasks
      ensures failures == 0 ==> contents == old(contents) - Slots(tasks)
      ensures SameOutside(old(contents), contents, Slots(tasks))
    {
      failures := 0;
      assert tasks[..0] == [];
      for i := 0 to |tasks|
        invariant attempts == old(attempts) + tasks[..i]
        invariant failures == 0 ==> contents == old(contents) - Slots(tasks[..i])
        invariant SameOutside(old(contents), contents, Slots(tasks))
      {
        SlotsOneMore(tasks, i);
        ghost var before := contents;
        var ok := Cleanup(tasks[i]);
        hide Slots, SlotOf, SameOutside;
        RemoveOneMore(old(contents), Slots(tasks[..i]), SlotOf(tasks[i]));
        RemoveInside(old(contents), before, Slots(tasks), SlotOf(tasks[i]));
        if !ok {
          failures := failures + 1;
        }
      }
      assert tasks[..|tasks|] == tasks;
    }

    /** Telling the server that the challenges are ready, and the order flow. It is started only
        with every challenge in place at once. */
    method RunFlow(ghost tasks: seq<Task>, order: Order) returns (r: Option<string>, ready: bool)
      requires forall i :: 0 <= i < |tasks| ==> Served(contents, tasks, i)
      requires order.early == 0 && order.late == 0 && order.finalizations == 0
      modifies order
      ensures r.Some? <==> ready && FlowSucceeds(order.before, order.after, order.accepts, order.certificate)
      ensures r.Some? ==> r == order.certificate
      ensures !ready ==> order.finalizations == 0
    {
      ready := *;
      if !ready {
        return None, false;
      }
      var done := order.Complete();
      r := if done.Ok? then Some(done.value) else None;
    }

    /** Present all, run the order, clean up all. If a present fails, the order is not run and
        exactly a prefix stays presented. Otherwise, whatever the order returned, each cleanup is
        attempted exactly once, in order; nothing but what was presented is gone, and all of it if
        no cleanup failed. */
    method RunOrder(tasks: seq<Task>, order: Order)
      returns (r: Option<string>, presented: bool, ready: bool, failures: nat)
      requires order.early == 0 && order.late == 0 && order.finalizations == 0
      modifies this, order
      ensures !presented ==> r.None? && attempts == old(attempts) && order.finalizations == 0
      ensures !presented ==> exists n :: 0 <= n <= |tasks| && contents == AfterPresent(old(contents), tasks[..n])
      ensures r.Some? <==>
                presented && ready && FlowSucceeds(order.before, order.after, order.accepts, order.certificate)
      ensures r.Some? ==> r == order.certificate
      ensures presented ==> attempts == old(attempts) + tasks && SameOutside(old(contents), contents, Slots(tasks))
      ensures presented && failures == 0 ==> contents == old(contents) - Slots(tasks)
    {
      failures := 0;
      presented := PresentAll(tasks);
      if !presented {
        return None, false, false, 0;
      }
      AllServed(contents, old(contents), tasks);
      ghost var inPlace := contents;
      r, ready := RunFlow(tasks, order);
      failures := CleanupAll(tasks);
      PresentThenCleanup(old(contents), tasks);
      assert SameOutside(old(contents), inPlace, Slots(tasks));
    }
  }

  lemma {:induction false} PresentedSlots(contents: Contents, tasks: seq<Task>)
    ensures SameOutside(contents, AfterPresent(contents, tasks), Slots(tasks))
  {
    if tasks != [] {
      var n := |tasks| - 1;
      PresentedSlots(contents, tasks[..n]);
      InsertInside(contents, AfterPresent(contents, tasks[..n]), Slots(tasks[..n]), SlotOf(tasks[n]),
                   ValueOf(tasks[n]));
    }
  }

  lemma InsertInside(a: Contents, b: Contents, slots: set<Slot>, s: Slot, v: string)
    requires SameOutside(a, b, slots)
    ensures SameOutside(a, b[s := v], slots + {s})
  {
    RemoveOneMore(a, slots, s);
    RemoveOneMore(b, slots, s);
    assert b[s := v] - (slots + {s}) == b - (slots + {s});
  }

  /** Presenting a set of challenges and cleaning them up loses only what was presented, even
      where a stale entry was already in the slot. */
  lemma PresentThenCleanup(contents: Contents, tasks: seq<Task>)
    ensures AfterPresent(contents, tasks) - Slots(tasks) == contents - Slots(tasks)
  {
    PresentedSlots(contents, tasks);
  }

  /** What task `i` stores is not overwritten with something else. Key authorizations are a
      function of the token (section 8.1 of RFC 8555), so this holds of every HTTP token; two
      TLS-ALPN challenges for one identifier would clash. */
  predicate Unclashed(tasks: seq<Task>, i: int)
    requires 0 <= i < |tasks|
  {
    forall k :: i < k < |tasks| && SlotOf(tasks[k]) == SlotOf(tasks[i]) ==> ValueOf(tasks[k]) == ValueOf(tasks[i])
  }

  /** After all presents, the challenge of every task is in place, with its value if no later task
      put another one there. */
  lemma {:induction false} InPlace(before: Contents, tasks: seq<Task>, i: nat)
    requires i < |tasks|
    ensures SlotOf(tasks[i]) in AfterPresent(before, tasks)
    ensures Unclashed(tasks, i) ==> AfterPresent(before, tasks)[SlotOf(tasks[i])] == ValueOf(tasks[i])
  {
    var n := |tasks| - 1;
    hide SlotOf, ValueOf;
    if i < n {
      InPlace(before, tasks[..n], i);
      assert tasks[..n][i] == tasks[i];
    }
  }

  lemma ValueInTxtSet(contents: Contents, t: Task)
    requires t.instance.Dns01Solver? && SlotOf(t) in contents
    ensures t.challenge.dnsValue in TxtSet(contents, ChallengeName(t.challenge.identifier))
  {
  }

  /** All of them at the same time: every DNS-01 value is in its RRset, and every HTTP token and
      webroot file and every TLS-ALPN entry that no later challenge clashes with holds its key
      authorization. */
  lemma AllInPlace(now: Contents, before: Contents, tasks: seq<Task>)
    requires now == AfterPresent(before, tasks)
    ensures forall i :: 0 <= i < |tasks| ==> SlotOf(tasks[i]) in now
    ensures forall i :: 0 <= i < |tasks| && Unclashed(tasks, i) ==> now[SlotOf(tasks[i])] == ValueOf(tasks[i])
    ensures forall i :: 0 <= i < |tasks| && tasks[i].instance.Dns01Solver? ==>
              tasks[i].challenge.dnsValue in TxtSet(now, ChallengeName(tasks[i].challenge.identifier))
  {
    forall i | 0 <= i < |tasks|
      ensures SlotOf(tasks[i]) in now
      ensures Unclashed(tasks, i) ==> now[SlotOf(tasks[i])] == ValueOf(tasks[i])
      ensures tasks[i].instance.Dns01Solver? ==>
                tasks[i].challenge.dnsValue in TxtSet(now, ChallengeName(tasks[i].challenge.identifier))
    {
      InPlace(before, tasks, i);
      if tasks[i].instance.Dns01Solver? {
        ValueInTxtSet(now, tasks[i]);
      }
    }
  }

  /** No later task puts another key authorization in the same place: the token map of the same
      solver, the same webroot, or the certificate map of the same solver. */
  predicate Uncontested(tasks: seq<Task>, i: int)
    requires 0 <= i < |tasks|
  {
    var t := tasks[i];
    forall k :: i < k < |tasks| ==>
      match (t.instance, tasks[k].instance)
      case (HttpStandalone(_), HttpStandalone(_)) =>
        tasks[k].solver == t.solver && tasks[k].challenge.token == t.challenge.token ==>
          tasks[k].challenge.keyAuthorization == t.challenge.keyAuthorization
      case (HttpWebroot(root), HttpWebroot(other)) =>
        other == root && tasks[k].challenge.token == t.challenge.token ==>
          tasks[k].challenge.keyAuthorization == t.challenge.keyAuthorization
      case (TlsAlpn(_), TlsAlpn(_)) =>
        tasks[k].solver == t.solver && tasks[k].challenge.identifier == t.challenge.identifier ==>
          tasks[k].challenge.keyAuthorization == t.challenge.keyAuthorization
      case _ => true
  }

  /** What the authority will find for a task: the TXT value under the challenge name, or the key
      authorization in the token map, in the file, or in the certificate map. */
  predicate Served(contents: Contents, tasks: seq<Task>, i: int)
    requires 0 <= i < |tasks|
  {
    var t, c := tasks[i], tasks[i].challenge;
    match t.instance
    case Dns01Solver(_, _) =>
      var base := if "*." <= c.identifier then c.identifier[2..] else c.identifier;
      TxtValue(Names.Canonical("_acme-challenge." + base), c.dnsValue) in contents
    case HttpStandalone(_) =>
      var at := TokenEntry(t.solver, c.token);
      at in contents && (Uncontested(tasks, i) ==> contents[at] == c.keyAuthorization)
    case HttpWebroot(root) =>
      var at := WebrootFile(root, c.token);
      at in contents && (Uncontested(tasks, i) ==> contents[at] == c.keyAuthorization)
    case TlsAlpn(_) =>
      var at := AlpnEntry(t.solver, c.identifier);
      at in contents && (Uncontested(tasks, i) ==> contents[at] == c.keyAuthorization)
  }

  lemma AllServed(now: Contents, before: Contents, tasks: seq<Task>)
    requires now == AfterPresent(before, tasks)
    ensures forall i :: 0 <= i < |tasks| ==> Served(now, tasks, i)
  {
    forall i: nat | i < |tasks| ensures Served(now, tasks, i) {
      TaskServed(before, tasks, i);
    }
  }

  lemma TaskServed(before: Contents, tasks: seq<Task>, i: nat)
    requires i < |tasks|
    ensures Served(AfterPresent(before, tasks), tasks, i)
  {
    hide AfterPresent, ChallengeName;
    InPlace(before, tasks, i);
    var c := tasks[i].challenge;
    if "*." <= c.identifier {
      assert c.identifier == "*." + c.identifier[2..];
      ChallengeNames(c.identifier[2..]);
    } else {
      ChallengeNames(c.identifier);
    }
    if Uncontested(tasks, i) && !tasks[i].instance.Dns01Solver? {
      assert Unclashed(tasks, i);
    }
  }

  /** A wildcard and its base domain share one challenge name (section 8.4 of RFC 8555), and
      both values are in its RRset together. */
  lemma WildcardAndBaseTogether(before: Contents, tasks: seq<Task>, i: nat, k: nat)
    requires i < |tasks| && k < |tasks| && tasks[i].instance.Dns01Solver? && tasks[k].instance.Dns01Solver?
    requires tasks[i].challenge.identifier == "*." + tasks[k].challenge.identifier
    requires !("*." <= tasks[k].challenge.identifier)
    ensures {tasks[i].challenge.dnsValue, tasks[k].challenge.dnsValue}
              <= TxtSet(AfterPresent(before, tasks), ChallengeName(tasks[k].challenge.identifier))
  {
    AllInPlace(AfterPresent(before, tasks), before, tasks);
    assert tasks[i].challenge.identifier[|"*."|..] == tasks[k].challenge.identifier;
  }

  /** The type of challenge a solver can present. */
  function TypeOf(instance: SolverInstance): ChallengeType {
    match instance
    case Dns01Solver(_, _) => Dns01Type
    case HttpStandalone(_) => Http01Type
    case HttpWebroot(_) => Http01Type
    case TlsAlpn(_) => TlsAlpn01Type
  }

  /** The types the program asks for: each domain with the type of its solver. */
  function DesiredTypes(domains: seq<string>, names: seq<string>, solvers: map<string, SolverInstance>): seq<(string,
                        ChallengeType)>
    requires |names| == |domains| && forall n :: n in names ==> n in solvers
  {
    seq(|domains|, i requires 0 <= i < |domains| => (domains[i], TypeOf(solvers[names[i]])))
  }

  /** An identifier that is not in the list is proved by DNS-01. */
  lemma {:induction false} UnlistedIsDns01(desired: seq<(string, ChallengeType)>, identifier: string)
    requires forall k :: 0 <= k < |desired| ==> desired[k].0 != identifier
    ensures DesiredType(desired, identifier) == Dns01Type
  {
    if desired != [] {
      UnlistedIsDns01(desired[1..], identifier);
    }
  }

  lemma {:induction false} DesiredAt(desired: seq<(string, ChallengeType)>, i: nat)
    requires i < |desired| && forall k :: 0 <= k < i ==> desired[k].0 != desired[i].0
    ensures DesiredType(desired, desired[i].0) == desired[i].1
  {
    if i > 0 {
      DesiredAt(desired[1..], i - 1);
    }
  }

  /** The server may list its authorizations in any order: the k-th is for domain `at[k]`. */
  predicate Lists(auths: seq<Authorization>, domains: seq<string>, at: seq<int>) {
    && |auths| == |domains| == |at|
    && forall k :: 0 <= k < |at| ==> 0 <= at[k] < |domains| && auths[k].identifier == domains[at[k]]
  }

  predicate AllDifferent(domains: seq<string>) {
    forall k, l :: 0 <= k < l < |domains| ==> domains[k] != domains[l]
  }

  /** Challenge types are chosen by identifier: the i-th challenge is of the type that the solver of
      its domain presents. */
  lemma ChosenType(domains: seq<string>, names: seq<string>, solvers: map<string, SolverInstance>,
                   auths: seq<Authorization>, at: seq<int>, i: nat)
    requires |names| == |domains| && (forall n :: n in names ==> n in solvers)
    requires AllDifferent(domains) && Lists(auths, domains, at) && i < |at|
    ensures DesiredType(DesiredTypes(domains, names, solvers), auths[i].identifier) == TypeOf(solvers[names[at[i]]])
  {
    DesiredAt(DesiredTypes(domains, names, solvers), at[i]);
  }

  /** But solvers are chosen by position: the i-th solver gets the challenge of domain `at[i]`, of
      the type that domain's solver presents. So every solver can present what it gets if and
      only if the solvers of domains `i` and `at[i]` are of one kind for every `i`; and every
      solver gets its own domain's challenge if and only if the server keeps the order. */
  lemma MatchedExactly(domains: seq<string>, names: seq<string>, solvers: map<string, SolverInstance>,
                       auths: seq<Authorization>, challenges: seq<Challenge>, at: seq<int>)
    requires |names| == |domains| && (forall n :: n in names ==> n in solvers)
    requires AllDifferent(domains) && Lists(auths, domains, at)
    requires Collected(auths, DesiredTypes(domains, names, solvers), challenges)
    ensures |Zip(challenges, names, solvers)| == |domains|
    ensures forall i :: 0 <= i < |domains| ==>
              var kind := TypeOf(solvers[names[at[i]]]);
              && kind in auths[i].offers
              && Zip(challenges, names, solvers)[i] == Task(ChallengeFor(auths[i], kind), names[i], solvers[names[i]])
    ensures (forall i :: 0 <= i < |domains| ==>
               DesiredType(DesiredTypes(domains, names, solvers), auths[i].identifier) == TypeOf(solvers[names[i]]))
            <==> forall i :: 0 <= i < |domains| ==> TypeOf(solvers[names[i]]) == TypeOf(solvers[names[at[i]]])
    ensures (forall i :: 0 <= i < |domains| ==> Zip(challenges, names, solvers)[i].challenge.identifier == domains[i])
            <==> forall i :: 0 <= i < |domains| ==> at[i] == i
  {
    var desired := DesiredTypes(domains, names, solvers);
    forall i | 0 <= i < |domains|
      ensures DesiredType(desired, auths[i].identifier) == TypeOf(solvers[names[at[i]]])
      ensures auths[i].identifier == domains[i] <==> at[i] == i
    {
      ChosenType(domains, names, solvers, auths, at, i);
    }
    hide DesiredTypes, DesiredType;
    var tasks := Zip(challenges, names, solvers);
    forall i | 0 <= i < |domains| ensures tasks[i].challenge.identifier == auths[i].identifier {
    }
  }

  /** In the order of the domains all is well. */
  lemma OrderedAuthorizationsMatch(domains: seq<string>, names: seq<string>, solvers: map<string, SolverInstance>,
                                   auths: seq<Authorization>, challenges: seq<Challenge>, i: nat)
    requires |names| == |domains| == |auths| && (forall n :: n in names ==> n in solvers) && i < |domains|
    requires AllDifferent(domains) && forall k :: 0 <= k < |auths| ==> auths[k].identifier == domains[k]
    requires Collected(auths, DesiredTypes(domains, names, solvers), challenges)
    ensures TypeOf(solvers[names[i]]) in auths[i].offers
    ensures Zip(challenges, names, solvers)[i] ==
              Task(ChallengeFor(auths[i], TypeOf(solvers[names[i]])), names[i], solvers[names[i]])
  {
    var at := seq(|domains|, (k: nat) => k as int);
    MatchedExactly(domains, names, solvers, auths, challenges, at);
  }

  /** The smallest order that goes wrong: two domains on different kinds of solver, swapped. Each
      solver gets the challenge of the other domain, of a type it cannot present. */
  lemma SwappedAuthorizationsMismatch(domains: seq<string>, names: seq<string>, solvers: map<string, SolverInstance>,
                                      auths: seq<Authorization>, challenges: seq<Challenge>, i: nat)
    requires |names| == |domains| == |auths| == 2 && (forall n :: n in names ==> n in solvers) && i < 2
    requires domains[0] != domains[1] && TypeOf(solvers[names[0]]) != TypeOf(solvers[names[1]])
    requires auths[0].identifier == domains[1] && auths[1].identifier == domains[0]
    requires Collected(auths, DesiredTypes(domains, names, solvers), challenges)
    ensures var wrong := TypeOf(solvers[names[1 - i]]);
            && wrong != TypeOf(solvers[names[i]]) && wrong in auths[i].offers
            && Zip(challenges, names, solvers)[i] == Task(ChallengeFor(auths[i], wrong), names[i], solvers[names[i]])
  {
    ChosenType(domains, names, solvers, auths, [1, 0], i);
  }
}
