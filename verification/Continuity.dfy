/** What a run does to the promise to clients, certificate by certificate: it is kept for every
    certificate, whatever fails, unless one that is to keep its key is issued for another. */
module Continuity {
  import opened Config
  import opened History
  import opened Tlsa
  import opened Protocol
  import opened Safety
  import opened KeptKeys
  import opened Renew
  import opened RenewCertificate
  import opened Reports
  import Names

  /** The certificates that are to keep their key, had no entry, and now have a certificate for a
      key of other records, or their first certificate. No rotating certificate is among them. */
  function Rekeyings(setup: Setup, pending: PendingMap, before: map<string, Leaf>, after: map<string, Leaf>): set<nat> {
    set i: nat | i < |setup.certificates|
                 && setup.certificates[i].name !in pending && Rekeyed(setup, i, before, after)
  }

  /** The records of the certificate now installed were not all there before. */
  ghost predicate Unannounced(setup: Setup, i: nat, d: Durable, e: Durable) {
    && i < |setup.certificates| && setup.certificates[i].certPath in e.certs
    && !RecordsShown(setup, d.zone, i, e.certs[setup.certificates[i].certPath].spki)
  }

  /** So it is whenever a certificate whose records are settled is rekeyed. */
  lemma SettledIsUnannounced(setup: Setup, i: nat, d: Durable, e: Durable)
    requires i < |setup.certificates| && Settled(setup, d, i) && Rekeyed(setup, i, d.certs, e.certs)
    ensures Unannounced(setup, i, d, e)
  {
    var c := setup.certificates[i];
    var j :| 0 <= j < |c.dane| && c.dane[j].PrePublished() && c.dane[j].names != []
             && FromSpki(setup.hash, d.certs[c.certPath].spki, c.dane[j])
                != FromSpki(setup.hash, e.certs[c.certPath].spki, c.dane[j]);
    assert IsPrePublishedSite(c, j, c.dane[j].names[0]);
  }

  /** Certificate `k` still has the file and the TLSA records it had. */
  ghost predicate NotReached(c: Certificate, d: Durable, e: Durable) {
    && Agree(c.certPath, d.certs, e.certs)
    && forall m :: OwnName(c, m) ==> LogOf(e.zone, m) == LogOf(d.zone, m)
  }

  /** From the steps `a` and files `d` to `b` and `e`: only rekeyed certificates have lost their
      guard, and those whose new records were not there have. */
  ghost predicate ClientsKept(setup: Setup, start: Sys, a: seq<Event>, b: seq<Event>, pending: PendingMap, d: Durable,
                              e: Durable)
  {
    && a <= b && KeptApart(setup, start, a) <= KeptApart(setup, start, b)
    && Guarded(setup, start, a) - Rekeyings(setup, pending, d.certs, e.certs) <= Guarded(setup, start, b)
    && forall i :: i in Rekeyings(setup, pending, d.certs, e.certs) && Unannounced(setup, i, d, e) ==>
         i !in Guarded(setup, start, b)
  }

  /** What the loop keeps, with `n` certificates looked at. */
  ghost predicate Guarding(setup: Setup, start: Sys, a: seq<Event>, b: seq<Event>, n: nat, s: Snapshot, t: Snapshot) {
    && ClientsKept(setup, start, a, b, s.pending, s.disk, t.disk)
    && (Separate(setup) ==>
          forall k: nat :: n <= k < |setup.certificates| ==> NotReached(setup.certificates[k], s.disk, t.disk))
  }

  lemma GuardingStarts(setup: Setup, start: Sys, a: seq<Event>, s: Snapshot)
    ensures Guarding(setup, start, a, a, 0, s, s)
  {
  }

  /** No two certificates share a TLSA name. */
  lemma OwnNamesApart(setup: Setup, i: nat, k: nat, m: string)
    requires Separate(setup) && i < |setup.certificates| && k < |setup.certificates| && i != k
    requires OwnName(setup.certificates[i], m)
    ensures !OwnName(setup.certificates[k], m)
  {
    var ci, ck := setup.certificates[i], setup.certificates[k];
    if OwnName(ck, m) {
      var j :| 0 <= j < |ci.dane| && Names.Denotes(ci.dane[j].names, m);
      var l :| 0 <= l < |ck.dane| && Names.Denotes(ck.dane[l].names, m);
      var x :| 0 <= x < |ci.dane[j].names| && Names.Canonical(ci.dane[j].names[x]) == Names.Canonical(m);
      var y :| 0 <= y < |ck.dane[l].names| && Names.Canonical(ck.dane[l].names[y]) == Names.Canonical(m);
      assert IsSite(ci, j, ci.dane[j].names[x]) && IsSite(ck, l, ck.dane[l].names[y]);
    }
  }

  lemma StillNotReached(setup: Setup, n: nat, k: nat, d: Durable, m: Snapshot, t: Snapshot)
    requires Separate(setup) && n < |setup.certificates| && k < |setup.certificates| && k != n
    requires NotReached(setup.certificates[k], d, m.disk)
    requires OthersUntouched(setup.certificates[n], m.disk, m.pending, t.disk, t.pending)
    ensures NotReached(setup.certificates[k], d, t.disk)
  {
    assert setup.certificates[k].certPath != setup.certificates[n].certPath;
    forall x | OwnName(setup.certificates[k], x) ensures LogOf(t.disk.zone, x) == LogOf(m.disk.zone, x) {
      OwnNamesApart(setup, k, n, x);
    }
  }

  /** A certificate whose new records were not there cannot be rekeyed and keep its guard. */
  lemma UnannouncedRekeyed(setup: Setup, start: Sys, b: seq<Event>, c: seq<Event>, n: nat, entry: bool, d: Durable,
                           m: Durable, t: Durable)
    requires Unannounced(setup, n, d, t) && NotReached(setup.certificates[n], d, m)
    requires Rekeyed(setup, n, d.certs, t.certs) && Carried(setup, start, b, c, n, entry, m, t)
    ensures n !in Guarded(setup, start, c)
  {
    if n in Guarded(setup, start, c) {
      var cert := setup.certificates[n];
      forall j: nat, name | IsPrePublishedSite(cert, j, name)
        ensures FromSpki(setup.hash, t.certs[cert.certPath].spki, cert.dane[j]) in Current(LogOf(d.zone, name))
      {
        assert Names.Denotes(cert.dane[j].names, name) && OwnName(cert, name);
      }
    }
  }

  lemma GuardingStep(setup: Setup, start: Sys, a: seq<Event>, b: seq<Event>, c: seq<Event>, n: nat,
                     s: Snapshot, m: Snapshot, t: Snapshot)
    requires n < |setup.certificates| && Guarding(setup, start, a, b, n, s, m)
    requires Agree(setup.certificates[n].name, s.pending, m.pending)
    requires Carried(setup, start, b, c, n, setup.certificates[n].name in m.pending, m.disk, t.disk)
    requires OthersUntouched(setup.certificates[n], m.disk, m.pending, t.disk, t.pending)
    ensures Guarding(setup, start, a, c, n + 1, s, t)
  {
    var certs := setup.certificates;
    GuardedPrefix(setup, start, b, c);
    GuardingLoses(setup, start, a, b, c, n, s, m, t);
    if !Separate(setup) {
      assert Guarded(setup, start, c) == {};
    } else {
      forall k: nat | n < k < |certs| ensures NotReached(certs[k], s.disk, t.disk) {
        StillNotReached(setup, n, k, s.disk, m, t);
      }
      forall i | i in Rekeyings(setup, s.pending, s.disk.certs, t.disk.certs) && Unannounced(setup, i, s.disk, t.disk)
        ensures i !in Guarded(setup, start, c)
      {
        if i == n {
          UnannouncedRekeyed(setup, start, b, c, n, certs[n].name in m.pending, s.disk, m.disk, t.disk);
        } else {
          assert certs[i].certPath != certs[n].certPath;
          assert i in Rekeyings(setup, s.pending, s.disk.certs, m.disk.certs);
        }
      }
    }
  }

  lemma GuardingLoses(setup: Setup, start: Sys, a: seq<Event>, b: seq<Event>, c: seq<Event>, n: nat,
                      s: Snapshot, m: Snapshot, t: Snapshot)
    requires n < |setup.certificates| && Guarding(setup, start, a, b, n, s, m)
    requires Agree(setup.certificates[n].name, s.pending, m.pending)
    requires Carried(setup, start, b, c, n, setup.certificates[n].name in m.pending, m.disk, t.disk)
    requires OthersUntouched(setup.certificates[n], m.disk, m.pending, t.disk, t.pending)
    ensures Guarded(setup, start, a) - Rekeyings(setup, s.pending, s.disk.certs, t.disk.certs)
            <= Guarded(setup, start, c)
  {
    var certs := setup.certificates;
    forall i | i in Guarded(setup, start, a) && i !in Rekeyings(setup, s.pending, s.disk.certs, t.disk.certs)
      ensures i in Guarded(setup, start, c)
    {
      assert NotReached(certs[n], s.disk, m.disk);
      if i != n {
        assert certs[i].certPath != certs[n].certPath;
      }
      assert i !in Rekeyings(setup, s.pending, s.disk.certs, m.disk.certs);
      assert i in Guarded(setup, start, b);
    }
  }

  /** What a run means for the clients of the certificates that were guarded before it: those of a
      certificate that is not rekeyed validate after each of its steps; those of one that is rekeyed do
      not, unless the records of its new key were there before the run. */
  ghost predicate ClientsServed(setup: Setup, start: Sys, a: seq<Event>, b: seq<Event>, d: Durable, e: Durable) {
    forall i :: i in Guarded(setup, start, a) ==>
      && (i !in Rekeyings(setup, d.stateFile, d.certs, e.certs) ==>
            i in Guarded(setup, start, b) && ValidatesThroughout(setup, start, b, i))
      && (i in Rekeyings(setup, d.stateFile, d.certs, e.certs) && Unannounced(setup, i, d, e) ==>
            i !in Guarded(setup, start, b) && !ValidatesThroughout(setup, start, b, i))
  }

  /** Steps before and after that install nothing make no difference. */
  lemma KeptAround(setup: Setup, start: Sys, a: seq<Event>, b: seq<Event>, c: seq<Event>, f: seq<Event>,
                   pending: PendingMap, d: Durable, m: Durable, e: Durable)
    requires StillGuarded(setup, start, a, b) && ClientsKept(setup, start, b, c, pending, d, m)
    requires StillGuarded(setup, start, c, f) && e.certs == m.certs
    ensures ClientsKept(setup, start, a, f, pending, d, e)
  {
    GuardedPrefix(setup, start, c, f);
  }

  lemma KeptServes(setup: Setup, start: Sys, a: seq<Event>, b: seq<Event>, d: Durable, e: Durable)
    requires Exec(setup, start, b).Some? && ClientsKept(setup, start, a, b, d.stateFile, d, e)
    ensures ClientsServed(setup, start, a, b, d, e)
  {
    forall i | i in Guarded(setup, start, a)
      ensures i in KeptApart(setup, start, b)
      ensures i in Guarded(setup, start, b) <==> ValidatesThroughout(setup, start, b, i)
    {
      CarefulBothWays(setup, start, a, i);
      assert i in KeptApart(setup, start, a);
      GuardedExactly(setup, start, b, i);
    }
  }

  /** The clients of a guarded certificate have validated after every step. */
  lemma GuardedValidate(setup: Setup, start: Sys, events: seq<Event>, i: nat)
    requires Exec(setup, start, events).Some? && i in Guarded(setup, start, events)
    ensures ValidatesThroughout(setup, start, events, i)
  {
    CarefulBothWays(setup, start, events, i);
    GuardedExactly(setup, start, events, i);
  }

  lemma NothingRekeyed(setup: Setup, start: Sys, a: seq<Event>, b: seq<Event>, pending: PendingMap, d: Durable,
                       e: Durable)
    requires StillGuarded(setup, start, a, b) && e.certs == d.certs
    ensures ClientsKept(setup, start, a, b, pending, d, e)
  {
  }

  // ----- Which runs those are -----

  /** A certificate that is not acted on is not rekeyed, whatever fails. */
  lemma NotActedNotRekeyed(job: Job, reports: seq<Report>, d: Durable, e: Durable, k: nat)
    requires Reports.RunKeeps(job, reports, d, e) && PathsApart(job.Certs())
    requires k < |job.Certs()| && !ActedOn(reports, k)
    ensures k !in Rekeyings(job.setup, d.stateFile, d.certs, e.certs)
  {
    assert KeyFollowed(job, reports, k, d, d.stateFile, e);
  }

  /** The stored key decides, and nothing else: a run on a reliable network that acts on a certificate
      that is to keep its key, and has one in its file, keeps its clients validating throughout if
      that key has the records of the installed certificate; and where just these were published,
      only if it has. */
  lemma StoredKeyDecides(job: Job, reports: seq<Report>, start: Sys, a: seq<Event>, b: seq<Event>, d: Durable,
                         e: Durable, k: nat)
    requires Reports.RunKeeps(job, reports, d, e) && ClientsServed(job.setup, start, a, b, d, e)
    requires job.reliable && !job.dryRun && OwnFiles(job.Certs())
    requires KeepsKey(job.setup, k) && job.Certs()[k].name !in d.stateFile && job.Certs()[k].certPath in d.certs
    requires StoredKey(job.Certs()[k], d.keys).Some? && ActedOn(reports, k) && k in Guarded(job.setup, start, a)
    ensures var same := SameRecords(job.setup, k, d.certs[job.Certs()[k].certPath].spki,
                                    StoredKey(job.Certs()[k], d.keys).value.spki);
            && (same ==> ValidatesThroughout(job.setup, start, b, k))
            && (Settled(job.setup, d, k) ==> (ValidatesThroughout(job.setup, start, b, k) <==> same))
  {
    assert KeyFollowed(job, reports, k, d, d.stateFile, e);
    if k in Rekeyings(job.setup, d.stateFile, d.certs, e.certs) && Settled(job.setup, d, k) {
      SettledIsUnannounced(job.setup, k, d, e);
    }
  }
}
